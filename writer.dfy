/**
 * The MySQL call-detail-record backend: its connection state, the retrying
 * reconnect of `mysql_log`, the write of one record, and load, unload,
 * reload and status over that state.
 */
module CdrMysql {
  import opened Wrappers
  import opened Settings
  import opened Statement
  import opened StatusReport
  import Uptime

  /** Ping attempts one write makes before giving up on the server. */
  const MaxRetries := 5

  /**
   * The database server as one write sees it: whether a connect attempt
   * succeeds, whether the `k`-th ping of the write (from 0) succeeds, and
   * whether the INSERT succeeds.
   */
  datatype Db = Db(connectOk: bool, pingOk: nat -> bool, queryOk: bool)

  /**
   * The routines the write takes from outside the module: string escaping,
   * formatting the start time as a date, and naming a disposition.
   */
  datatype Foreign = Foreign(escape: string -> string, dateString: int -> string, dispositionName: int -> string)

  /** The connection flag, when it was last set, and the records written since then. */
  datatype Link = Link(connected: bool, connectTime: int, records: int)

  /** The link after the reconnect step and how many pings and connects it made. */
  datatype Probe = Probe(link: Link, pings: nat, connects: nat)

  /**
   * The reconnect step with `retries` attempts left and `pings` pings made:
   * a disconnected link with full settings gets one connect attempt; any
   * other link is pinged, and a failed ping drops it and starts over while
   * attempts remain.
   */
  function Reconnect(canConnect: bool, link: Link, retries: nat, db: Db, now: int, pings: nat): (p: Probe)
    requires retries >= 1
    ensures p.connects <= 1 && (p.connects == 1 ==> canConnect)
    decreases retries
  {
    if !link.connected && canConnect then
      if db.connectOk then Probe(Link(true, now, 0), pings, 1) else Probe(link.(connected := false), pings, 1)
    else if db.pingOk(pings) then Probe(link, pings + 1, 0)
    else
      var dropped := link.(connected := false, records := 0);
      if retries == 1 then Probe(dropped, pings + 1, 0)
      else Reconnect(canConnect, dropped, retries - 1, db, now, pings + 1)
  }

  /**
   * The reconnect step makes at most `retries` pings and at most one
   * connect, and connects only with full settings; it keeps the records
   * count or resets it; a link that ends up connected comes from a
   * successful connect or is the untouched live link whose first ping
   * succeeded.
   */
  lemma {:induction false} ReconnectBounds(canConnect: bool, link: Link, retries: nat, db: Db, now: int, pings: nat)
    requires retries >= 1
    ensures var p := Reconnect(canConnect, link, retries, db, now, pings);
      && pings <= p.pings <= pings + retries && p.connects <= 1
      && (p.connects == 1 ==> canConnect)
      && (p.link.records == link.records || p.link.records == 0)
      && (p.link.connectTime == link.connectTime || p.link.connectTime == now)
      && (p.link.connected ==>
            || (canConnect && p.connects == 1 && db.connectOk && p.link == Link(true, now, 0))
            || (link.connected && p.pings == pings + 1 && db.pingOk(pings) && p.link == link))
    decreases retries
  {
    if (link.connected || !canConnect) && !db.pingOk(pings) && retries > 1 {
      ReconnectBounds(canConnect, link.(connected := false, records := 0), retries - 1, db, now, pings + 1);
    }
  }

  /**
   * With full settings the step costs at most one ping and one connect: a
   * live link that answers the ping is kept, any other link is replaced by
   * the outcome of a connect attempt.
   */
  lemma ReconnectWithSettings(link: Link, db: Db, now: int)
    ensures var p := Reconnect(true, link, MaxRetries, db, now, 0);
      && p.pings <= 1
      && (link.connected && db.pingOk(0) ==> p == Probe(link, 1, 0))
      && (!(link.connected && db.pingOk(0)) ==> p.connects == 1 && (p.link.connected <==> db.connectOk))
  {
    if link.connected && !db.pingOk(0) {
      var dropped := link.(connected := false, records := 0);
      assert Reconnect(true, link, MaxRetries, db, now, 0) == Reconnect(true, dropped, MaxRetries - 1, db, now, 1);
    }
  }

  /**
   * Without full settings the step never connects: it pings until a ping
   * succeeds or the attempts run out, and the link stays up exactly when it
   * was up and the first ping succeeds.
   */
  lemma {:induction false} ReconnectWithoutSettings(link: Link, retries: nat, db: Db, now: int, pings: nat)
    requires retries >= 1
    ensures var p := Reconnect(false, link, retries, db, now, pings);
      && p.connects == 0
      && pings < p.pings
      && (forall k :: pings <= k < p.pings - 1 ==> !db.pingOk(k))
      && (p.pings < pings + retries ==> db.pingOk(p.pings - 1))
      && (p.link.connected <==> link.connected && db.pingOk(pings))
      && (!db.pingOk(pings) ==> p.link.records == 0)
      && p.link.connectTime == link.connectTime
    decreases retries
  {
    if !db.pingOk(pings) && retries > 1 {
      ReconnectWithoutSettings(link.(connected := false, records := 0), retries - 1, db, now, pings + 1);
    }
  }

  /** The buffers `mysql_log` allocates for escaped fields. */
  datatype Field =
    | ClidBuf | DcontextBuf | ChannelBuf | DstchannelBuf | LastappBuf | LastdataBuf
    | SrcBuf | DstBuf | AccountcodeBuf | UniqueIdBuf | UserfieldBuf

  /** The buffers whose absence fails the write; `uniqueid` only in builds that log it. */
  function Required(logUniqueId: bool): set<Field> {
    {ClidBuf, DcontextBuf, ChannelBuf, DstchannelBuf, LastappBuf, LastdataBuf, SrcBuf, DstBuf, AccountcodeBuf}
    + (if logUniqueId then {UniqueIdBuf} else {})
  }

  /** The table name as `%s` prints it. */
  function TableText(s: Settings): string {
    Text(s.dbtable)
  }

  /** The INSERT for one record under the given settings. */
  function StatementFor(logUniqueId: bool, s: Settings, cdr: Cdr, f: Foreign, allocFails: set<Field>): string {
    var withUserfield := s.userfield != 0 && UserfieldBuf !in allocFails;
    Render(TableText(s), BuildRow(f.dateString(cdr.start), EscapeFields(cdr, f.escape), cdr.duration, cdr.billsec,
                                  f.dispositionName(cdr.disposition), cdr.amaflags, logUniqueId, withUserfield))
  }

  /** What one write leaves: the link, the total counter, the return code and the statement sent, if any. */
  datatype Written = Written(link: Link, totalRecords: int, rc: int, sent: Option<string>, pings: nat, connects: nat)

  /**
   * One call of `mysql_log`: the reconnect step; -1 when a required buffer
   * is missing; otherwise the statement is sent over a live link, counted
   * when it succeeds and closing the link when it fails.
   */
  function Write(logUniqueId: bool, s: Settings, link: Link, total: int, cdr: Cdr, db: Db, f: Foreign, now: int,
                 allocFails: set<Field>): (w: Written)
    ensures w.rc == -1 ==> w.sent.None? && w.totalRecords == total
    ensures w.totalRecords == total || (w.totalRecords == total + 1 && w.sent.Some? && db.queryOk)
  {
    var p := Reconnect(CanConnect(s), link, MaxRetries, db, now, 0);
    if Required(logUniqueId) * allocFails != {} then Written(p.link, total, -1, None, p.pings, p.connects)
    else if !p.link.connected then Written(p.link, total, 0, None, p.pings, p.connects)
    else
      var stmt := StatementFor(logUniqueId, s, cdr, f, allocFails);
      if db.queryOk then
        Written(p.link.(records := p.link.records + 1), total + 1, 0, Some(stmt), p.pings, p.connects)
      else Written(p.link.(connected := false), total, 0, Some(stmt), p.pings, p.connects)
  }

  /**
   * The return code is -1 exactly when a required buffer is missing; a
   * missing userfield buffer only drops that column.  A statement is sent
   * exactly when the buffers are there and the link is up after the
   * reconnect step.
   */
  lemma WriteReturnCode(logUniqueId: bool, s: Settings, link: Link, total: int, cdr: Cdr, db: Db, f: Foreign, now: int,
                        allocFails: set<Field>)
    ensures var w := Write(logUniqueId, s, link, total, cdr, db, f, now, allocFails);
      && (w.rc == -1 <==> exists b :: b in allocFails && b != UserfieldBuf && (b == UniqueIdBuf ==> logUniqueId))
      && (w.rc != -1 ==> w.rc == 0)
      && (w.sent.Some? <==> w.rc == 0 && Reconnect(CanConnect(s), link, MaxRetries, db, now, 0).link.connected)
  {
    if Required(logUniqueId) * allocFails != {} {
      var b :| b in Required(logUniqueId) * allocFails;
      assert b != UserfieldBuf && (b == UniqueIdBuf ==> logUniqueId);
    } else {
      forall b | b in allocFails && b != UserfieldBuf && (b == UniqueIdBuf ==> logUniqueId)
        ensures b in Required(logUniqueId) * allocFails
      {
      }
    }
  }

  /**
   * The statement sent is the source's INSERT template for this build,
   * with the userfield column exactly when the toggle is on and its buffer
   * was allocated.
   */
  lemma WriteSendsSourceStatement(logUniqueId: bool, s: Settings, link: Link, total: int, cdr: Cdr, db: Db, f: Foreign,
                                  now: int, allocFails: set<Field>)
    requires Write(logUniqueId, s, link, total, cdr, db, f, now, allocFails).sent.Some?
    ensures Write(logUniqueId, s, link, total, cdr, db, f, now, allocFails).sent.value == SourceFormat(
      TableText(s), f.dateString(cdr.start), EscapeFields(cdr, f.escape), cdr.duration, cdr.billsec,
      f.dispositionName(cdr.disposition), cdr.amaflags, logUniqueId, s.userfield != 0 && UserfieldBuf !in allocFails)
  {
    var withUserfield := s.userfield != 0 && UserfieldBuf !in allocFails;
    assert Write(logUniqueId, s, link, total, cdr, db, f, now, allocFails).sent.value
        == StatementFor(logUniqueId, s, cdr, f, allocFails);
    RenderMatchesSource(TableText(s), f.dateString(cdr.start), EscapeFields(cdr, f.escape), cdr.duration, cdr.billsec,
                        f.dispositionName(cdr.disposition), cdr.amaflags, logUniqueId, withUserfield);
  }

  /**
   * The counters: the total grows by one exactly when a sent statement
   * succeeds, the records since the connect never exceed the total, and a
   * failed statement leaves the link down so that the next write with full
   * settings connects again without pinging.  Past the reconnect step only
   * a failed statement touches the link: a successful insert keeps it up
   * with its connect time, and a write that sends nothing leaves it as the
   * reconnect step did.
   */
  lemma WriteCounters(logUniqueId: bool, s: Settings, link: Link, total: int, cdr: Cdr, db: Db, f: Foreign, now: int,
                      allocFails: set<Field>)
    requires 0 <= link.records <= total
    ensures var w := Write(logUniqueId, s, link, total, cdr, db, f, now, allocFails);
      && w.totalRecords == (if w.sent.Some? && db.queryOk then total + 1 else total)
      && (w.sent.Some? ==> w.rc == 0)
      && (w.sent.Some? ==>
            w.link.records == Reconnect(CanConnect(s), link, MaxRetries, db, now, 0).link.records + (if db.queryOk then 1 else 0))
      && 0 <= w.link.records <= w.totalRecords
      && (w.sent.Some? && !db.queryOk ==> !w.link.connected)
      && w.link.connectTime == Reconnect(CanConnect(s), link, MaxRetries, db, now, 0).link.connectTime
      && (w.link.connected <==>
            Reconnect(CanConnect(s), link, MaxRetries, db, now, 0).link.connected && !(w.sent.Some? && !db.queryOk))
      && (w.sent.None? ==> w.link == Reconnect(CanConnect(s), link, MaxRetries, db, now, 0).link)
      && (w.sent.Some? && !db.queryOk && CanConnect(s) ==>
            forall db': Db, now': int :: Reconnect(true, w.link, MaxRetries, db', now', 0).pings == 0)
  {
  }

  /** Settings that cannot connect never get a statement to a server that was not already connected. */
  lemma NoSendWithoutConnection(logUniqueId: bool, s: Settings, link: Link, total: int, cdr: Cdr, db: Db, f: Foreign,
                                now: int, allocFails: set<Field>)
    requires !CanConnect(s) && !link.connected
    ensures var w := Write(logUniqueId, s, link, total, cdr, db, f, now, allocFails);
      w.sent.None? && w.totalRecords == total && w.connects == 0 && !w.link.connected
  {
    ReconnectWithoutSettings(link, MaxRetries, db, now, 0);
  }

  /** One write of a sequence: the record and everything the write depends on. */
  datatype Call = Call(cdr: Cdr, db: Db, f: Foreign, now: int, allocFails: set<Field>)

  /** The link and the total after a sequence of writes under fixed settings. */
  function Session(logUniqueId: bool, s: Settings, link: Link, total: int, calls: seq<Call>): (Link, int)
    decreases |calls|
  {
    if calls == [] then (link, total)
    else
      var c := calls[0];
      var w := Write(logUniqueId, s, link, total, c.cdr, c.db, c.f, c.now, c.allocFails);
      Session(logUniqueId, s, w.link, w.totalRecords, calls[1..])
  }

  /** Over any sequence of writes the total grows by at most one per write and bounds the records since the connect. */
  lemma {:induction false} SessionCounters(logUniqueId: bool, s: Settings, link: Link, total: int, calls: seq<Call>)
    requires 0 <= link.records <= total
    ensures var (link', total') := Session(logUniqueId, s, link, total, calls);
      total <= total' <= total + |calls| && 0 <= link'.records <= total'
    decreases |calls|
  {
    if calls != [] {
      var c := calls[0];
      WriteCounters(logUniqueId, s, link, total, c.cdr, c.db, c.f, c.now, c.allocFails);
      var w := Write(logUniqueId, s, link, total, c.cdr, c.db, c.f, c.now, c.allocFails);
      SessionCounters(logUniqueId, s, w.link, w.totalRecords, calls[1..]);
    }
  }

  /** A write that finds the server answering, its buffers allocated and its INSERT accepted. */
  predicate Smooth(logUniqueId: bool, c: Call) {
    c.db.pingOk(0) && c.db.queryOk && Required(logUniqueId) * c.allocFails == {}
  }

  /**
   * On a live link, writes that all go through count one record each,
   * both since the connect and in total, and keep the link up with its
   * connect time.
   */
  lemma {:induction false} SessionSteady(logUniqueId: bool, s: Settings, link: Link, total: int, calls: seq<Call>)
    requires link.connected
    requires forall c :: c in calls ==> Smooth(logUniqueId, c)
    ensures Session(logUniqueId, s, link, total, calls)
         == (Link(true, link.connectTime, link.records + |calls|), total + |calls|)
    decreases |calls|
  {
    if calls != [] {
      var c := calls[0];
      WriteSmooth(logUniqueId, s, link, total, c);
      SessionStep(logUniqueId, s, link, total, calls);
      forall c' | c' in calls[1..]
        ensures Smooth(logUniqueId, c')
      {
        assert c' in calls;
      }
      SessionSteady(logUniqueId, s, link.(records := link.records + 1), total + 1, calls[1..]);
    }
  }

  /** A session is its first write followed by the session of the rest. */
  lemma SessionStep(logUniqueId: bool, s: Settings, link: Link, total: int, calls: seq<Call>)
    requires calls != []
    ensures var c := calls[0];
            var w := Write(logUniqueId, s, link, total, c.cdr, c.db, c.f, c.now, c.allocFails);
      Session(logUniqueId, s, link, total, calls) == Session(logUniqueId, s, w.link, w.totalRecords, calls[1..])
  {
  }

  /** One write that goes through on a live link counts one record and keeps the link. */
  lemma WriteSmooth(logUniqueId: bool, s: Settings, link: Link, total: int, c: Call)
    requires link.connected && Smooth(logUniqueId, c)
    ensures var w := Write(logUniqueId, s, link, total, c.cdr, c.db, c.f, c.now, c.allocFails);
      w.link == link.(records := link.records + 1) && w.totalRecords == total + 1
  {
    assert Reconnect(CanConnect(s), link, MaxRetries, c.db, c.now, 0) == Probe(link, 1, 0);
  }

  /** The result of loading: 0 when nothing is configured, -1 out of memory, else the registration result. */
  function LoadResult(outcome: LoadOutcome, cdrRegister: int, cliRegister: int): (res: int)
    ensures outcome in {NoConfig, NoGlobal} ==> res == 0
    ensures outcome == OutOfMemory ==> res == -1
    ensures outcome == Configured ==> (res == 0 <==> cdrRegister == 0 && cliRegister == 0)
    ensures outcome == Configured && cdrRegister != 0 ==> res == cdrRegister
    ensures outcome == Configured && cdrRegister == 0 ==> res == cliRegister
  {
    match outcome
    case NoConfig => 0
    case NoGlobal => 0
    case OutOfMemory => -1
    case Configured => if cdrRegister != 0 then cdrRegister else cliRegister
  }

  /** The module's state: the settings, the connection and the counters. */
  class Writer {
    /** Whether the build logs the `uniqueid` column. */
    const logUniqueId: bool
    var settings: Settings
    var connected: bool
    var connectTime: int
    var records: int
    var totalRecords: int

    predicate Valid()
      reads this
    {
      0 <= records <= totalRecords
    }

    function CurrentLink(): Link
      reads this
    {
      Link(connected, connectTime, records)
    }

    /** The module before it is loaded: no settings, no connection, no records. */
    constructor(logUniqueId: bool)
      ensures Valid() && this.logUniqueId == logUniqueId
      ensures settings == Unset && !connected && connectTime == 0 && records == 0 && totalRecords == 0
    {
      this.logUniqueId := logUniqueId;
      settings := Unset;
      connected := false;
      connectTime := 0;
      records := 0;
      totalRecords := 0;
    }

    /** The `db_reconnect` loop of `mysql_log`, proved to be the step `Reconnect` describes. */
    method ReconnectLoop(db: Db, now: int) returns (pings: nat, connects: nat)
      requires Valid()
      modifies this
      ensures Valid()
      ensures Probe(CurrentLink(), pings, connects) == Reconnect(CanConnect(old(settings)), old(CurrentLink()), MaxRetries, db, now, 0)
      ensures settings == old(settings) && totalRecords == old(totalRecords)
    {
      ghost var target := Reconnect(CanConnect(settings), CurrentLink(), MaxRetries, db, now, 0);
      var canConnect := CanConnect(settings);
      var retries := MaxRetries;
      var again := true;
      pings, connects := 0, 0;
      while again
        invariant 0 <= records <= totalRecords == old(totalRecords) && settings == old(settings)
        invariant again ==> connects == 0 && retries >= 1 && Reconnect(canConnect, CurrentLink(), retries, db, now, pings) == target
        invariant !again ==> Probe(CurrentLink(), pings, connects) == target
        decreases if again then retries else 0
      {
        if !connected && canConnect {
          connects := 1;
          if db.connectOk {
            connected := true;
            connectTime := now;
            records := 0;
          } else {
            connected := false;
          }
          again := false;
        } else if db.pingOk(pings) {
          pings := pings + 1;
          again := false;
        } else {
          connected := false;
          records := 0;
          pings := pings + 1;
          retries := retries - 1;
          if retries == 0 {
            again := false;
          }
        }
      }
    }

    /** `mysql_log`: writes one record as `Write` describes. */
    method Log(cdr: Cdr, db: Db, f: Foreign, now: int, allocFails: set<Field>) returns (rc: int, sent: Option<string>)
      requires Valid()
      modifies this
      ensures Valid()
      ensures var w := Write(logUniqueId, old(settings), old(CurrentLink()), old(totalRecords), cdr, db, f, now, allocFails);
        CurrentLink() == w.link && totalRecords == w.totalRecords && rc == w.rc && sent == w.sent
      ensures settings == old(settings)
    {
      var _, _ := ReconnectLoop(db, now);
      if Required(logUniqueId) * allocFails != {} {
        return -1, None;
      }
      rc, sent := 0, None;
      if connected {
        var stmt := StatementFor(logUniqueId, settings, cdr, f, allocFails);
        sent := Some(stmt);
        if db.queryOk {
          records := records + 1;
          totalRecords := totalRecords + 1;
        } else {
          connected := false;
        }
      }
    }

    /**
     * `my_load_module`: reads the settings; when they are complete, connects
     * (`connectOk` is the outcome) and registers the backend and the status
     * command, whose results are `cdrRegister` and `cliRegister`.
     */
    method Load(cfg: Option<Config>, scan: string -> Option<int>, allocFails: set<string>, connectOk: bool, now: int,
                cdrRegister: int, cliRegister: int) returns (res: int)
      requires Valid()
      modifies this
      ensures Valid()
      ensures var l := LoadSettings(old(settings), cfg, scan, allocFails);
        && settings == l.settings && totalRecords == old(totalRecords)
        && res == LoadResult(l.outcome, cdrRegister, cliRegister)
        && (l.outcome == Configured ==>
              connected == connectOk && records == 0 && connectTime == (if connectOk then now else old(connectTime)))
        && (l.outcome != Configured ==> CurrentLink() == old(CurrentLink()))
    {
      var l := LoadSettings(settings, cfg, scan, allocFails);
      settings := l.settings;
      if l.outcome != Configured {
        return LoadResult(l.outcome, cdrRegister, cliRegister);
      }
      if connectOk {
        connected := true;
        records := 0;
        connectTime := now;
      } else {
        connected := false;
        records := 0;
      }
      res := if cdrRegister != 0 then cdrRegister else cliRegister;
    }

    /** `my_unload_module`: drops the connection and frees the copied settings. */
    method Unload()
      requires Valid()
      modifies this
      ensures Valid()
      ensures settings == Released(old(settings)) && !connected
      ensures records == (if old(connected) then 0 else old(records))
      ensures connectTime == old(connectTime) && totalRecords == old(totalRecords)
    {
      if connected {
        connected := false;
        records := 0;
      }
      settings := Released(settings);
    }

    /** `reload`: an unload followed by a load. */
    method Reload(cfg: Option<Config>, scan: string -> Option<int>, allocFails: set<string>, connectOk: bool, now: int,
                  cdrRegister: int, cliRegister: int) returns (res: int)
      requires Valid()
      modifies this
      ensures Valid()
      ensures var l := LoadSettings(Released(old(settings)), cfg, scan, allocFails);
        && settings == l.settings && totalRecords == old(totalRecords)
        && res == LoadResult(l.outcome, cdrRegister, cliRegister)
        && (l.outcome == Configured ==> connected == connectOk && records == 0)
        && (l.outcome != Configured ==> !connected && records == (if old(connected) then 0 else old(records)))
        && connectTime == (if l.outcome == Configured && connectOk then now else old(connectTime))
    {
      Unload();
      res := Load(cfg, scan, allocFails, connectOk, now, cdrRegister, cliRegister);
    }

    /** `cdr mysql status` at time `now`. */
    function Status(now: int): (r: Report)
      reads this
      ensures r.NotConnected? <==> !connected
      ensures r.Connected? ==> r.uptime == Uptime.Breakdown(now - connectTime)
      ensures r.Connected? ==> Uptime.Total(r.uptime) == now - connectTime
      ensures r.Connected? ==> (r.counts.TotalOnly? <==> records == totalRecords)
    {
      StatusOf(connected, settings, connectTime, records, totalRecords, now)
    }
  }
}
