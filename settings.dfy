/**
 * The module's connection settings and how `my_load_module` and
 * `my_unload_module` fill and release them.
 */
module Settings {
  import opened Wrappers

  /**
   * One string setting: NULL, a built-in default
   * string, or a copy of the configured value that the module allocated
   * (the setting's `*_alloc` flag is set).
   */
  datatype Slot = Null | Default(text: string) | Owned(text: string) {
    predicate Present() {
      !Null?
    }
  }

  datatype Settings = Settings(
    hostname: Slot, dbname: Slot, dbuser: Slot, password: Slot, dbsock: Slot, dbtable: Slot,
    dbport: int,      // 0: the client library's default port
    timeout: nat,     // connect timeout, an `unsigned int`; 0: none
    userfield: int)   // non-zero: write the `userfield` column

  /** The settings before the module was ever loaded: every string setting NULL, every number 0. */
  const Unset := Settings(Null, Null, Null, Null, Null, Null, 0, 0, 0)

  /** The guard of a connect attempt in the write path: a target and all credentials are there. */
  predicate CanConnect(s: Settings) {
    (s.hostname.Present() || s.dbsock.Present())
    && s.dbuser.Present() && s.password.Present() && s.dbname.Present() && s.dbtable.Present()
  }

  /** The variables of one configuration section. */
  type Section = map<string, string>

  /** A parsed configuration file: its sections by name. */
  type Config = map<string, Section>

  /** The keys whose values are copied as strings, in the order they are read. */
  const StringKeys: seq<string> := ["hostname", "dbname", "user", "sock", "table", "password"]

  const TwoTo32 := 0x1_0000_0000

  /** How loading ended; only `Configured` goes on to connect. */
  datatype LoadOutcome = NoConfig | NoGlobal | OutOfMemory | Configured

  datatype Loaded = Loaded(outcome: LoadOutcome, settings: Settings)

  /** The section holding the settings, when the file has it with at least one variable. */
  function GlobalSection(cfg: Option<Config>): Option<Section> {
    if cfg.Some? && "global" in cfg.value && cfg.value["global"] != map[] then Some(cfg.value["global"]) else None
  }

  /**
   * A string setting after reading `key`: a copy of the configured value,
   * NULL when allocating the copy fails, or `fallback` when the key is absent.
   */
  function CopySetting(global: Section, key: string, fallback: Slot, allocFails: set<string>): Slot {
    if key in global then (if key in allocFails then Null else Owned(global[key])) else fallback
  }

  predicate CopyFails(global: Section, key: string, allocFails: set<string>) {
    key in global && key in allocFails
  }

  /** A `%d` setting: the scanned number, 0 when it does not scan, `current` when the key is absent. */
  function ScanSetting(global: Section, key: string, scan: string -> Option<int>, current: int): int {
    if key in global then scan(global[key]).GetOr(0) else current
  }

  /**
   * The settings `my_load_module` leaves: nothing changes without a file or
   * a non-empty `global` section; the string keys are read in order with
   * their defaults, and a failed copy stops the load with that setting NULL;
   * the numbers are read last.  `scan` stands for `sscanf(..., "%d", ...)`
   * and `allocFails` names the keys whose copy cannot be allocated.
   */
  function LoadSettings(s: Settings, cfg: Option<Config>, scan: string -> Option<int>,
                        allocFails: set<string>): (r: Loaded)
    ensures r.outcome in {NoConfig, NoGlobal} ==> r.settings == s
    ensures r.outcome == Configured ==> CanConnect(r.settings)
  {
    if cfg.None? then Loaded(NoConfig, s)
    else if GlobalSection(cfg).None? then Loaded(NoGlobal, s)
    else
      var g := GlobalSection(cfg).value;
      var s1 := s.(hostname := CopySetting(g, "hostname", Default("localhost"), allocFails));
      if CopyFails(g, "hostname", allocFails) then Loaded(OutOfMemory, s1) else
      var s2 := s1.(dbname := CopySetting(g, "dbname", Default("asteriskcdrdb"), allocFails));
      if CopyFails(g, "dbname", allocFails) then Loaded(OutOfMemory, s2) else
      var s3 := s2.(dbuser := CopySetting(g, "user", Default("root"), allocFails));
      if CopyFails(g, "user", allocFails) then Loaded(OutOfMemory, s3) else
      var s4 := s3.(dbsock := CopySetting(g, "sock", Null, allocFails));
      if CopyFails(g, "sock", allocFails) then Loaded(OutOfMemory, s4) else
      var s5 := s4.(dbtable := CopySetting(g, "table", Default("cdr"), allocFails));
      if CopyFails(g, "table", allocFails) then Loaded(OutOfMemory, s5) else
      var s6 := s5.(password := CopySetting(g, "password", Default(""), allocFails));
      if CopyFails(g, "password", allocFails) then Loaded(OutOfMemory, s6) else
      var timeout := if "timeout" in g then scan(g["timeout"]).GetOr(0) % TwoTo32 else s6.timeout;
      Loaded(Configured, s6.(dbport := ScanSetting(g, "port", scan, s6.dbport),
                             timeout := timeout,
                             userfield := ScanSetting(g, "userfield", scan, s6.userfield)))
  }

  /**
   * The settings `my_unload_module` leaves: allocated copies are freed and
   * set to NULL, built-in defaults stay, the port is
   * reset; the timeout and the userfield toggle are not touched.
   */
  function Released(s: Settings): (r: Settings)
    ensures NoCopies(r) && r.dbport == 0 && r.timeout == s.timeout && r.userfield == s.userfield
    ensures forall k :: k in StringKeys ==> SlotOf(r, k) == (if SlotOf(s, k).Owned? then Null else SlotOf(s, k))
  {
    Settings(Free(s.hostname), Free(s.dbname), Free(s.dbuser), Free(s.password), Free(s.dbsock), Free(s.dbtable),
             0, s.timeout, s.userfield)
  }

  function Free(slot: Slot): Slot {
    if slot.Owned? then Null else slot
  }

  predicate NoCopies(s: Settings) {
    !s.hostname.Owned? && !s.dbname.Owned? && !s.dbuser.Owned? && !s.password.Owned? && !s.dbsock.Owned?
    && !s.dbtable.Owned?
  }

  /** Loading completes exactly when the `global` section is there and no present string key fails to copy. */
  lemma LoadOutcomeCases(s: Settings, cfg: Option<Config>, scan: string -> Option<int>, allocFails: set<string>)
    ensures var r := LoadSettings(s, cfg, scan, allocFails);
      && (r.outcome == NoConfig <==> cfg.None?)
      && (r.outcome == NoGlobal <==> cfg.Some? && GlobalSection(cfg).None?)
      && (r.outcome == Configured <==>
            GlobalSection(cfg).Some? && forall k :: k in StringKeys ==> !CopyFails(GlobalSection(cfg).value, k, allocFails))
      && (r.outcome in {NoConfig, NoGlobal} ==> r.settings == s)
  {
    if GlobalSection(cfg).Some? {
      var g := GlobalSection(cfg).value;
      if forall k :: k in StringKeys ==> !CopyFails(g, k, allocFails) {
      } else {
        var k :| k in StringKeys && CopyFails(g, k, allocFails);
        assert k in {"hostname", "dbname", "user", "sock", "table", "password"};
      }
    }
  }

  /**
   * A completed load leaves every string setting the write path needs
   * present: the configured copy, or the built-in default of an absent key.
   */
  lemma LoadFillsDefaults(s: Settings, cfg: Option<Config>, scan: string -> Option<int>, allocFails: set<string>)
    requires LoadSettings(s, cfg, scan, allocFails).outcome == Configured
    ensures var r := LoadSettings(s, cfg, scan, allocFails).settings;
            var g := GlobalSection(cfg).value;
      && r.hostname == (if "hostname" in g then Owned(g["hostname"]) else Default("localhost"))
      && r.dbname == (if "dbname" in g then Owned(g["dbname"]) else Default("asteriskcdrdb"))
      && r.dbuser == (if "user" in g then Owned(g["user"]) else Default("root"))
      && r.dbsock == (if "sock" in g then Owned(g["sock"]) else Null)
      && r.dbtable == (if "table" in g then Owned(g["table"]) else Default("cdr"))
      && r.password == (if "password" in g then Owned(g["password"]) else Default(""))
      && CanConnect(r)
  {
  }

  /**
   * The numbers of a completed load: a key that does not scan gives 0, an
   * absent key keeps the value from before, so a reload that drops
   * `timeout` or `userfield` keeps the old value (unload resets only the port).
   */
  lemma LoadNumbers(s: Settings, cfg: Option<Config>, scan: string -> Option<int>, allocFails: set<string>)
    requires LoadSettings(s, cfg, scan, allocFails).outcome == Configured
    ensures var r := LoadSettings(s, cfg, scan, allocFails).settings;
            var g := GlobalSection(cfg).value;
      && ("port" in g && scan(g["port"]).None? ==> r.dbport == 0)
      && ("port" in g && scan(g["port"]).Some? ==> r.dbport == scan(g["port"]).value)
      && ("port" !in g ==> r.dbport == s.dbport)
      && ("timeout" in g && scan(g["timeout"]).None? ==> r.timeout == 0)
      && ("timeout" in g && scan(g["timeout"]).Some? ==> r.timeout == scan(g["timeout"]).value % TwoTo32)
      && ("timeout" !in g ==> r.timeout == s.timeout)
      && ("userfield" in g && scan(g["userfield"]).None? ==> r.userfield == 0)
      && ("userfield" in g && scan(g["userfield"]).Some? ==> r.userfield == scan(g["userfield"]).value)
      && ("userfield" !in g ==> r.userfield == s.userfield)
  {
  }

  /** The setting a string key is read into. */
  function SlotOf(s: Settings, key: string): Slot {
    match key
    case "hostname" => s.hostname
    case "dbname" => s.dbname
    case "user" => s.dbuser
    case "sock" => s.dbsock
    case "table" => s.dbtable
    case "password" => s.password
    case _ => Null
  }

  /** The built-in value a string key gets when the file does not set it. */
  function DefaultFor(key: string): Slot {
    match key
    case "hostname" => Default("localhost")
    case "dbname" => Default("asteriskcdrdb")
    case "user" => Default("root")
    case "table" => Default("cdr")
    case "password" => Default("")
    case _ => Null
  }

  /**
   * A load whose first failing copy is that of key `StringKeys[j]` runs out
   * of memory: that setting is left NULL, the keys before it are copied or
   * defaulted, the keys after it are never read, and no number is read.
   */
  lemma {:induction false} LoadOutOfMemory(s: Settings, cfg: Option<Config>, scan: string -> Option<int>,
                                           allocFails: set<string>, j: nat)
    requires GlobalSection(cfg).Some? && j < |StringKeys|
    requires CopyFails(GlobalSection(cfg).value, StringKeys[j], allocFails)
    requires forall i :: 0 <= i < j ==> !CopyFails(GlobalSection(cfg).value, StringKeys[i], allocFails)
    ensures var r := LoadSettings(s, cfg, scan, allocFails);
            var g := GlobalSection(cfg).value;
      && r.outcome == OutOfMemory
      && SlotOf(r.settings, StringKeys[j]) == Null
      && (forall i :: 0 <= i < j ==>
            SlotOf(r.settings, StringKeys[i]) == CopySetting(g, StringKeys[i], DefaultFor(StringKeys[i]), allocFails))
      && (forall i :: j < i < |StringKeys| ==> SlotOf(r.settings, StringKeys[i]) == SlotOf(s, StringKeys[i]))
      && r.settings.dbport == s.dbport && r.settings.timeout == s.timeout && r.settings.userfield == s.userfield
  {
    var g := GlobalSection(cfg).value;
    if j == 0 {
      assert CopyFails(g, "hostname", allocFails);
    } else if j == 1 {
      assert !CopyFails(g, StringKeys[0], allocFails);
      assert CopyFails(g, "dbname", allocFails);
    } else if j == 2 {
      assert !CopyFails(g, StringKeys[0], allocFails) && !CopyFails(g, StringKeys[1], allocFails);
      assert CopyFails(g, "user", allocFails);
    } else if j == 3 {
      assert !CopyFails(g, StringKeys[0], allocFails) && !CopyFails(g, StringKeys[1], allocFails);
      assert !CopyFails(g, StringKeys[2], allocFails);
      assert CopyFails(g, "sock", allocFails);
    } else if j == 4 {
      assert !CopyFails(g, StringKeys[0], allocFails) && !CopyFails(g, StringKeys[1], allocFails);
      assert !CopyFails(g, StringKeys[2], allocFails) && !CopyFails(g, StringKeys[3], allocFails);
      assert CopyFails(g, "table", allocFails);
    } else {
      assert !CopyFails(g, StringKeys[0], allocFails) && !CopyFails(g, StringKeys[1], allocFails);
      assert !CopyFails(g, StringKeys[2], allocFails) && !CopyFails(g, StringKeys[3], allocFails);
      assert !CopyFails(g, StringKeys[4], allocFails);
      assert CopyFails(g, "password", allocFails);
    }
  }

  /**
   * Unloading frees every copy and keeps the defaults, so it is idempotent;
   * a later load of the same file rebuilds the same string settings.
   */
  lemma ReleaseThenLoad(s: Settings, cfg: Option<Config>, scan: string -> Option<int>, allocFails: set<string>)
    ensures NoCopies(Released(s)) && Released(Released(s)) == Released(s)
    ensures Released(s).dbport == 0 && Released(s).timeout == s.timeout && Released(s).userfield == s.userfield
    ensures LoadSettings(Released(s), cfg, scan, allocFails).outcome == Configured ==>
      LoadSettings(Released(s), cfg, scan, allocFails).settings.(timeout := 0, userfield := 0)
      == LoadSettings(Unset, cfg, scan, allocFails).settings.(timeout := 0, userfield := 0)
  {
    if LoadSettings(Released(s), cfg, scan, allocFails).outcome == Configured {
      LoadFillsDefaults(Released(s), cfg, scan, allocFails);
      LoadFillsDefaults(Unset, cfg, scan, allocFails);
    }
  }
}
