/**
 * What `cdr mysql status` reports: the connection target, the credentials
 * suffix, how long the connection has been up and the record counters.
 */
module StatusReport {
  import opened Settings
  import opened Uptime
  import opened Decimal

  /** Where the connection goes, as the first status line names it. */
  datatype Target =
    | Port(dbname: string, hostname: string, port: int)
    | Socket(dbname: string, sock: string)
    | Host(dbname: string, hostname: string)

  /** The second line: the two counters, or the total alone when they agree. */
  datatype Counts = TotalOnly(total: int) | Both(total: int, sinceReconnect: int)

  datatype Report =
    | NotConnected
    | Connected(head: string, suffix: string, uptime: Uptime, counts: Counts)

  /** Capacity of the first line's buffer and of the suffix buffer, as passed to `snprintf`. */
  const HeadSize := 255
  const SuffixSize := 99

  /** What `%s` prints for a setting; the C library prints NULL as "(null)". */
  function Text(slot: Slot): string {
    if slot.Null? then "(null)" else slot.text
  }

  /** A setting that is set and not the empty string. */
  predicate NonEmpty(slot: Slot) {
    slot.Present() && slot.text != ""
  }

  /** `snprintf` into `size` bytes: the longest prefix of at most `size - 1` characters is kept. */
  function Truncated(s: string, size: nat): (t: string)
    requires size >= 1
    ensures |t| <= size - 1 && t <= s
    ensures |s| < size ==> t == s
    ensures |s| >= size ==> |t| == size - 1
  {
    if |s| < size then s else s[..size - 1]
  }

  /** The target: an explicit port first, then a socket file, then the host. */
  function TargetOf(s: Settings): (t: Target)
    ensures t.Port? <==> s.dbport != 0
    ensures t.Socket? <==> s.dbport == 0 && s.dbsock.Present()
    ensures t.Host? <==> s.dbport == 0 && !s.dbsock.Present()
    ensures t.dbname == Text(s.dbname)
  {
    if s.dbport != 0 then Port(Text(s.dbname), Text(s.hostname), s.dbport)
    else if s.dbsock.Present() then Socket(Text(s.dbname), Text(s.dbsock))
    else Host(Text(s.dbname), Text(s.hostname))
  }

  function TargetText(t: Target): (text: string)
    ensures "Connected to " + t.dbname <= text
  {
    match t
    case Port(db, host, port) => "Connected to " + db + "@" + host + ", port " + IntToDecimal(port)
    case Socket(db, sock) => "Connected to " + db + " on socket file " + sock
    case Host(db, host) => "Connected to " + db + "@" + host
  }

  /**
   * The credentials suffix.  Both settings are written into the same buffer
   * one after the other, so a non-empty table replaces the username.
   */
  function Suffix(dbuser: Slot, dbtable: Slot): (suffix: string)
    ensures |suffix| < SuffixSize
    ensures suffix != "" ==> NonEmpty(dbtable) || NonEmpty(dbuser)
  {
    if NonEmpty(dbtable) then Truncated(" using table " + dbtable.text, SuffixSize)
    else if NonEmpty(dbuser) then Truncated(" with username " + dbuser.text, SuffixSize)
    else ""
  }

  function CountsOf(records: int, total: int): (c: Counts)
    ensures c.total == total
    ensures c.TotalOnly? <==> records == total
    ensures c.Both? ==> c.sinceReconnect == records
  {
    if records == total then TotalOnly(total) else Both(total, records)
  }

  /** The report for the module's state at time `now`. */
  function StatusOf(connected: bool, s: Settings, connectTime: int, records: int, total: int, now: int): (r: Report)
    ensures r.NotConnected? <==> !connected
    ensures r.Connected? ==>
      && r.uptime == Breakdown(now - connectTime)
      && Total(r.uptime) == now - connectTime && WellFormed(r.uptime)
      && r.counts == CountsOf(records, total)
      && |r.head| < HeadSize && r.head <= TargetText(TargetOf(s))
      && r.head == Truncated(TargetText(TargetOf(s)), HeadSize)
      && r.suffix == Suffix(s.dbuser, s.dbtable) && |r.suffix| < SuffixSize
  {
    if connected then
      BreakdownRecombines(now - connectTime);
      Connected(Truncated(TargetText(TargetOf(s)), HeadSize), Suffix(s.dbuser, s.dbtable),
                Breakdown(now - connectTime), CountsOf(records, total))
    else NotConnected
  }

  /** A short enough first line is printed whole. */
  lemma HeadNotTruncated(s: Settings, connectTime: int, records: int, total: int, now: int)
    requires |TargetText(TargetOf(s))| < HeadSize
    ensures StatusOf(true, s, connectTime, records, total, now).head == TargetText(TargetOf(s))
  {
  }

  /**
   * With the built-in defaults for the user and the table the suffix names
   * the table only: the username never appears while a table is set.
   */
  lemma DefaultsHideUsername(s: Settings, connectTime: int, records: int, total: int, now: int)
    requires s.dbuser == Default("root") && s.dbtable == Default("cdr")
    ensures StatusOf(true, s, connectTime, records, total, now).suffix == " using table cdr"
  {
  }

  /**
   * The username appears exactly when the table is unset or empty and the
   * username is not; a table of any length keeps the username out.
   */
  lemma SuffixNamesUser(dbuser: Slot, dbtable: Slot)
    ensures NonEmpty(dbtable) ==>
      && Suffix(dbuser, dbtable) == Truncated(" using table " + dbtable.text, SuffixSize)
      && " using table " <= Suffix(dbuser, dbtable)
    ensures !NonEmpty(dbtable) && NonEmpty(dbuser) ==>
      && Suffix(dbuser, dbtable) == Truncated(" with username " + dbuser.text, SuffixSize)
      && " with username " <= Suffix(dbuser, dbtable)
    ensures !NonEmpty(dbtable) && !NonEmpty(dbuser) ==> Suffix(dbuser, dbtable) == ""
  {
  }
}
