/** The Flow Lock daemon (flow_lock/lock_daemon.py): configuration loaded once,
    then one enforcement cycle after another. A cycle checks the idle time, and
    only when the user is not idle scans the process list; a process whose
    lower-cased name contains a whitelist entry is skipped, one whose name
    contains a blacklist entry is a violation. What a cycle does to the world
    (log lines, kills, notifications, questions to the responder, sleeps) is
    returned as a list of events. */
module LockDaemon {
  import opened Wrappers
  import opened Text
  import opened Seqs
  import opened Effects

  /** One entry of the process iterator: pid, name and command line. */
  datatype Proc = Proc(pid: int, name: string, cmdline: seq<string>)

  /** policy.json read as a dictionary; a key the file lacks is `None`. */
  datatype Policy = Policy(
    idleLimitMinutes: Option<int>,
    correctionOnViolation: Option<bool>,
    killImmediately: Option<bool>)

  /** What loading policy.json produced: the `[]` fallback or a dictionary. */
  datatype PolicyDoc = EmptyList | Dict(policy: Policy)

  datatype Config = Config(blacklist: seq<string>, whitelist: seq<string>, policy: PolicyDoc)

  /** The three configuration files; `None` is a file that is missing or not JSON. */
  datatype ConfigFiles = ConfigFiles(
    blacklist: Option<seq<string>>,
    whitelist: Option<seq<string>>,
    policy: Option<Policy>)

  /** The probe outputs one cycle sees: the idle time (`None` when the probe
      failed) and the running processes in enumeration order. */
  datatype Tick = Tick(idleProbe: Option<int>, procs: seq<Proc>)

  const ListIndexError := "list indices must be integers or slices, not str"
  const IdleTitle := "ArcheTYPE — Idle"
  const LockTitle := "ArcheTYPE Flow Lock"

  // ---------------------------------------------------------------------------
  // Loading and probing
  // ---------------------------------------------------------------------------

  /** `load_json`: a file that cannot be read or parsed loads as `[]`. */
  function LoadList(file: Option<seq<string>>): (r: seq<string>)
    ensures file.None? ==> r == []
  {
    file.GetOr([])
  }

  function LoadPolicy(file: Option<Policy>): (r: PolicyDoc)
    ensures file.None? <==> r.EmptyList?
  {
    if file.Some? then Dict(file.value) else EmptyList
  }

  function LoadConfig(files: ConfigFiles): Config {
    Config(LoadList(files.blacklist), LoadList(files.whitelist), LoadPolicy(files.policy))
  }

  /** `get_idle_ms`: any failure of the idle probe reads as 0 ms. */
  function IdleMs(probe: Option<int>): (ms: int)
    ensures probe.None? ==> ms == 0
  {
    probe.GetOr(0)
  }

  /** Subscripting the policy: a list raises TypeError, a missing key KeyError. */
  function Key<T>(doc: PolicyDoc, value: Option<T>, key: string): Result<T> {
    if doc.EmptyList? then Err(ListIndexError)
    else if value.Some? then Ok(value.value)
    else Err("'" + key + "'")
  }

  function IdleLimit(doc: PolicyDoc): Result<int> {
    Key(doc, if doc.Dict? then doc.policy.idleLimitMinutes else None, "idle_limit_minutes")
  }

  function CorrectionFlag(doc: PolicyDoc): Result<bool> {
    Key(doc, if doc.Dict? then doc.policy.correctionOnViolation else None, "correction_on_violation")
  }

  function KillFlag(doc: PolicyDoc): Result<bool> {
    Key(doc, if doc.Dict? then doc.policy.killImmediately else None, "kill_distracting_immediately")
  }

  // ---------------------------------------------------------------------------
  // Specification of one cycle
  // ---------------------------------------------------------------------------

  predicate Whitelisted(cfg: Config, p: Proc) {
    AnyIn(cfg.whitelist, Lower(p.name))
  }

  predicate Violates(cfg: Config, p: Proc) {
    !Whitelisted(cfg, p) && AnyIn(cfg.blacklist, Lower(p.name))
  }

  function ViolationLine(name: string, pid: int): string {
    "VIOLATION: " + name + " (pid=" + IntToString(pid) + ") → killed"
  }

  function ViolationPrompt(name: string): string {
    "I attempted to open " + name + " during flow lock."
  }

  function IdlePrompt(limit: int): string {
    "I am idle for " + IntToString(limit) + " minutes."
  }

  /** What the `except Exception` handler adds: a log line and a 3 s sleep. */
  function Failed(events: seq<Event>, error: string): seq<Event> {
    events + [Log("ERROR: " + error), Sleep(3)]
  }

  /** The events of handling some processes, and the message of the exception
      that ended the scan early, if one did. */
  datatype Scanned = Scanned(events: seq<Event>, error: Option<string>)

  function ProcStep(cfg: Config, p: Proc, respond: string -> Reply): Scanned {
    var name := Lower(p.name);
    if AnyIn(cfg.whitelist, name) || !AnyIn(cfg.blacklist, name) then Scanned([], None)
    else
      var logged := [Log(ViolationLine(name, p.pid))];
      match KillFlag(cfg.policy)
      case Err(e) => Scanned(logged, Some(e))
      case Ok(kill) =>
        var notified := logged + (if kill then [Kill(p.pid)] else []) + [Notify(LockTitle, "Blocked: " + name)];
        match CorrectionFlag(cfg.policy)
        case Err(e) => Scanned(notified, Some(e))
        case Ok(correct) =>
          if !correct then Scanned(notified, None)
          else
            var prompt := ViolationPrompt(name);
            match respond(prompt)
            case Raised(e) => Scanned(notified + [Ask(prompt)], Some(e))
            case Answer(t) => Scanned(notified + [Ask(prompt), Log("Correction: " + OneLine(t))], None)
  }

  function Scan(cfg: Config, procs: seq<Proc>, respond: string -> Reply): Scanned {
    if procs == [] then Scanned([], None)
    else
      var first := ProcStep(cfg, procs[0], respond);
      if first.error.Some? then first
      else
        var rest := Scan(cfg, procs[1..], respond);
        Scanned(first.events + rest.events, rest.error)
  }

  function IdleBranch(cfg: Config, limit: int, respond: string -> Reply): seq<Event> {
    match CorrectionFlag(cfg.policy)
    case Err(e) => Failed([], e)
    case Ok(correct) =>
      if !correct then [Notify(IdleTitle, "Wake up."), Sleep(20)]
      else
        var prompt := IdlePrompt(limit);
        match respond(prompt)
        case Raised(e) => Failed([Ask(prompt)], e)
        case Answer(t) =>
          [Ask(prompt), Log("IDLE Correction: " + OneLine(t)), Notify(IdleTitle, "Wake up."), Sleep(20)]
  }

  /** The body of one iteration of the `while True` loop. */
  function Cycle(cfg: Config, idleMs: int, procs: seq<Proc>, respond: string -> Reply): seq<Event> {
    match IdleLimit(cfg.policy)
    case Err(e) => Failed([], e)
    case Ok(limit) =>
      if idleMs >= limit * 60 * 1000 then IdleBranch(cfg, limit, respond)
      else
        var s := Scan(cfg, procs, respond);
        if s.error.Some? then Failed(s.events, s.error.value) else s.events + [Sleep(3)]
  }

  /** The whole run: one start-up line, then the cycles in order. */
  function Run(cfg: Config, ticks: seq<Tick>, respond: string -> Reply): seq<Event> {
    if ticks == [] then []
    else Cycle(cfg, IdleMs(ticks[0].idleProbe), ticks[0].procs, respond) + Run(cfg, ticks[1..], respond)
  }

  // ---------------------------------------------------------------------------
  // The daemon, step by step
  // ---------------------------------------------------------------------------

  /** The idle branch: the optional correction, the notification, 20 s sleep. */
  method HandleIdle(cfg: Config, limit: int, respond: string -> Reply) returns (events: seq<Event>)
    ensures events == IdleBranch(cfg, limit, respond)
  {
    var correct := CorrectionFlag(cfg.policy);
    if correct.Err? {
      return Failed([], correct.error);
    }
    events := [];
    if correct.value {
      var prompt := IdlePrompt(limit);
      events := events + [Ask(prompt)];
      var reply := respond(prompt);
      if reply.Raised? {
        return Failed(events, reply.error);
      }
      events := events + [Log("IDLE Correction: " + OneLine(reply.text))];
    }
    events := events + [Notify(IdleTitle, "Wake up."), Sleep(20)];
  }

  /** The body of the `for proc in ...` loop for one process. */
  method HandleProc(cfg: Config, p: Proc, respond: string -> Reply) returns (step: Scanned)
    ensures step == ProcStep(cfg, p, respond)
  {
    var name := Lower(p.name);
    if AnyIn(cfg.whitelist, name) || !AnyIn(cfg.blacklist, name) {
      return Scanned([], None);
    }
    var events: seq<Event> := [Log(ViolationLine(name, p.pid))];
    var kill := KillFlag(cfg.policy);
    if kill.Err? {
      return Scanned(events, Some(kill.error));
    }
    if kill.value {
      events := events + [Kill(p.pid)];
    }
    events := events + [Notify(LockTitle, "Blocked: " + name)];
    var correct := CorrectionFlag(cfg.policy);
    if correct.Err? {
      return Scanned(events, Some(correct.error));
    }
    if correct.value {
      var prompt := ViolationPrompt(name);
      events := events + [Ask(prompt)];
      var reply := respond(prompt);
      if reply.Raised? {
        return Scanned(events, Some(reply.error));
      }
      events := events + [Log("Correction: " + OneLine(reply.text))];
    }
    step := Scanned(events, None);
  }

  lemma ScanFrom(cfg: Config, procs: seq<Proc>, i: nat, respond: string -> Reply)
    requires i < |procs|
    ensures Scan(cfg, procs[i..], respond)
         == var first := ProcStep(cfg, procs[i], respond);
            if first.error.Some? then first
            else var rest := Scan(cfg, procs[i + 1..], respond); Scanned(first.events + rest.events, rest.error)
  {
    assert procs[i..][0] == procs[i] && procs[i..][1..] == procs[i + 1..];
  }

  /** One cycle, as the loop body does it: the policy subscripts, the idle
      test, then the scan over the processes with its early exit on an
      exception. */
  method RunCycle(cfg: Config, idleMs: int, procs: seq<Proc>, respond: string -> Reply)
    returns (events: seq<Event>)
    ensures events == Cycle(cfg, idleMs, procs, respond)
  {
    var limit := IdleLimit(cfg.policy);
    if limit.Err? {
      return Failed([], limit.error);
    }
    if idleMs >= limit.value * 60 * 1000 {
      events := HandleIdle(cfg, limit.value, respond);
      return;
    }
    var s := ScanProcs(cfg, procs, respond);
    if s.error.Some? {
      return Failed(s.events, s.error.value);
    }
    events := s.events + [Sleep(3)];
  }

  /** The `for proc in psutil.process_iter(...)` loop, left early by the
      first exception. */
  method ScanProcs(cfg: Config, procs: seq<Proc>, respond: string -> Reply) returns (s: Scanned)
    ensures s == Scan(cfg, procs, respond)
  {
    var events := [];
    var i := 0;
    while i < |procs|
      invariant 0 <= i <= |procs|
      invariant Scan(cfg, procs, respond) == Prefixed(events, Scan(cfg, procs[i..], respond))
    {
      var step := HandleProc(cfg, procs[i], respond);
      ScanFrom(cfg, procs, i, respond);
      if step.error.Some? {
        return Scanned(events + step.events, step.error);
      }
      events := events + step.events;
      i := i + 1;
    }
    assert procs[i..] == [];
    s := Scanned(events, None);
  }

  function Prefixed(events: seq<Event>, s: Scanned): Scanned {
    Scanned(events + s.events, s.error)
  }

  lemma RunFrom(cfg: Config, ticks: seq<Tick>, i: nat, respond: string -> Reply)
    requires i < |ticks|
    ensures Run(cfg, ticks[i..], respond)
         == Cycle(cfg, IdleMs(ticks[i].idleProbe), ticks[i].procs, respond) + Run(cfg, ticks[i + 1..], respond)
  {
    assert ticks[i..][0] == ticks[i] && ticks[i..][1..] == ticks[i + 1..];
  }

  /** `flow_lock_loop`: the three files are loaded once, before the first
      cycle, and every cycle uses that one configuration. */
  method FlowLockLoop(files: ConfigFiles, ticks: seq<Tick>, respond: string -> Reply)
    returns (events: seq<Event>)
    ensures events == [Log("Flow Lock Mode ACTIVE.")] + Run(LoadConfig(files), ticks, respond)
  {
    events := [Log("Flow Lock Mode ACTIVE.")];
    var cfg := LoadConfig(files);
    var i := 0;
    while i < |ticks|
      invariant 0 <= i <= |ticks|
      invariant [Log("Flow Lock Mode ACTIVE.")] + Run(cfg, ticks, respond)
             == events + Run(cfg, ticks[i..], respond)
    {
      var cycle := RunCycle(cfg, IdleMs(ticks[i].idleProbe), ticks[i].procs, respond);
      RunFrom(cfg, ticks, i, respond);
      assert events + Run(cfg, ticks[i..], respond) == (events + cycle) + Run(cfg, ticks[i + 1..], respond);
      events := events + cycle;
      i := i + 1;
    }
    assert ticks[i..] == [];
  }

  // ---------------------------------------------------------------------------
  // Properties
  // ---------------------------------------------------------------------------

  /** A process matching both lists is skipped: nothing happens for it. */
  lemma WhitelistBeatsBlacklist(cfg: Config, p: Proc, respond: string -> Reply)
    requires Whitelisted(cfg, p)
    ensures !Violates(cfg, p)
    ensures ProcStep(cfg, p, respond) == Scanned([], None)
  {
  }

  /** Every kill in a cycle is of a violating process, and only with the kill
      flag set. */
  lemma {:induction false} KillsOnlyViolators(cfg: Config, idleMs: int, procs: seq<Proc>, respond: string -> Reply, k: nat)
    requires k < |Cycle(cfg, idleMs, procs, respond)|
    requires Cycle(cfg, idleMs, procs, respond)[k].Kill?
    ensures KillFlag(cfg.policy) == Ok(true)
    ensures exists p :: p in procs && Violates(cfg, p) && p.pid == Cycle(cfg, idleMs, procs, respond)[k].pid
  {
    var events := Cycle(cfg, idleMs, procs, respond);
    var limit := IdleLimit(cfg.policy);
    assert limit.Ok? && idleMs < limit.value * 60 * 1000;
    var s := Scan(cfg, procs, respond);
    assert k < |s.events| && s.events[k] == events[k];
    ScanKills(cfg, procs, respond, k);
  }

  lemma {:induction false} ScanKills(cfg: Config, procs: seq<Proc>, respond: string -> Reply, k: nat)
    requires k < |Scan(cfg, procs, respond).events|
    requires Scan(cfg, procs, respond).events[k].Kill?
    ensures KillFlag(cfg.policy) == Ok(true)
    ensures exists p :: p in procs && Violates(cfg, p) && p.pid == Scan(cfg, procs, respond).events[k].pid
  {
    var first := ProcStep(cfg, procs[0], respond);
    var e := Scan(cfg, procs, respond).events[k];
    if k < |first.events| {
      assert first.events[k] == e;
      ProcStepKills(cfg, procs[0], respond, k);
      assert procs[0] in procs;
    } else {
      var rest := Scan(cfg, procs[1..], respond);
      assert rest.events[k - |first.events|] == e;
      ScanKills(cfg, procs[1..], respond, k - |first.events|);
      var p :| p in procs[1..] && Violates(cfg, p) && p.pid == e.pid;
      assert p in procs;
    }
  }

  /** Handling one process kills only that process, only when it violates
      and only with the kill flag set. */
  lemma ProcStepKills(cfg: Config, p: Proc, respond: string -> Reply, k: nat)
    requires k < |ProcStep(cfg, p, respond).events| && ProcStep(cfg, p, respond).events[k].Kill?
    ensures KillFlag(cfg.policy) == Ok(true) && Violates(cfg, p) && ProcStep(cfg, p, respond).events[k].pid == p.pid
  {
  }

  predicate IsKill(e: Event) { e.Kill? }
  predicate IsNotify(e: Event) { e.Notify? }
  predicate IsAsk(e: Event) { e.Ask? }

  function Violators(cfg: Config, procs: seq<Proc>): seq<Proc> {
    if procs == [] then []
    else (if Violates(cfg, procs[0]) then [procs[0]] else []) + Violators(cfg, procs[1..])
  }

  function KillsOf(vs: seq<Proc>): seq<Event> {
    if vs == [] then [] else [Kill(vs[0].pid)] + KillsOf(vs[1..])
  }

  function BlockedNotices(vs: seq<Proc>): seq<Event> {
    if vs == [] then [] else [Notify(LockTitle, "Blocked: " + Lower(vs[0].name))] + BlockedNotices(vs[1..])
  }

  lemma FilterSingle<T>(x: T, keep: T -> bool)
    ensures Filter([x], keep) == if keep(x) then [x] else []
  {
    assert [x][1..] == [];
  }

  lemma Filter3<T>(a: seq<T>, b: seq<T>, c: seq<T>, keep: T -> bool)
    ensures Filter(a + b + c, keep) == Filter(a, keep) + Filter(b, keep) + Filter(c, keep)
  {
    FilterAppend(a + b, c, keep);
    FilterAppend(a, b, keep);
  }

  function KillPart(cfg: Config, p: Proc): seq<Event> {
    if KillFlag(cfg.policy) == Ok(true) then [Kill(p.pid)] else []
  }

  function AskPart(cfg: Config, p: Proc, respond: string -> Reply): seq<Event> {
    var prompt := ViolationPrompt(Lower(p.name));
    if CorrectionFlag(cfg.policy) != Ok(true) then []
    else if respond(prompt).Raised? then [Ask(prompt)]
    else [Ask(prompt), Log("Correction: " + OneLine(respond(prompt).text))]
  }

  lemma ProcShape(cfg: Config, p: Proc, respond: string -> Reply)
    requires ProcStep(cfg, p, respond).error.None? && Violates(cfg, p)
    ensures KillFlag(cfg.policy).Ok? && CorrectionFlag(cfg.policy).Ok?
    ensures ProcStep(cfg, p, respond).events
         == [Log(ViolationLine(Lower(p.name), p.pid))] + KillPart(cfg, p)
            + [Notify(LockTitle, "Blocked: " + Lower(p.name))] + AskPart(cfg, p, respond)
  {
  }

  lemma Filter4(a: Event, b: seq<Event>, c: Event, d: seq<Event>, keep: Event -> bool)
    ensures Filter([a] + b + [c] + d, keep)
         == Filter([a], keep) + Filter(b, keep) + Filter([c], keep) + Filter(d, keep)
  {
    FilterAppend([a] + b + [c], d, keep);
    Filter3([a], b, [c], keep);
  }

  lemma FilterPair(a: Event, b: Event, keep: Event -> bool)
    ensures Filter([a, b], keep) == Filter([a], keep) + Filter([b], keep)
  {
    assert [a, b] == [a] + [b];
    FilterAppend([a], [b], keep);
  }

  /** What a violation's event list `[log] + kill + [notice] + asked` holds. */
  predicate ViolationShape(kill: seq<Event>, notice: Event, asked: seq<Event>)
  {
    && notice.Notify?
    && (forall i :: 0 <= i < |kill| ==> kill[i].Kill?)
    && (asked == [] || (|asked| == 1 && asked[0].Ask?) || (|asked| == 2 && asked[0].Ask? && asked[1].Log?))
  }

  lemma AskedFilters(asked: seq<Event>)
    requires asked == [] || (|asked| == 1 && asked[0].Ask?) || (|asked| == 2 && asked[0].Ask? && asked[1].Log?)
    ensures Filter(asked, IsKill) == [] && Filter(asked, IsNotify) == []
    ensures |Filter(asked, IsAsk)| == if asked == [] then 0 else 1
  {
    if |asked| == 2 {
      FilterPair(asked[0], asked[1], IsKill);
      FilterPair(asked[0], asked[1], IsNotify);
      FilterPair(asked[0], asked[1], IsAsk);
      FilterSingle(asked[0], IsKill);
      FilterSingle(asked[0], IsNotify);
      FilterSingle(asked[0], IsAsk);
      FilterSingle(asked[1], IsKill);
      FilterSingle(asked[1], IsNotify);
      FilterSingle(asked[1], IsAsk);
    } else if asked != [] {
      FilterSingle(asked[0], IsKill);
      FilterSingle(asked[0], IsNotify);
      FilterSingle(asked[0], IsAsk);
    }
  }

  lemma ShapeKills(line: string, kill: seq<Event>, notice: Event, asked: seq<Event>)
    requires ViolationShape(kill, notice, asked)
    ensures Filter([Log(line)] + kill + [notice] + asked, IsKill) == kill
  {
    Filter4(Log(line), kill, notice, asked, IsKill);
    FilterSingle(Log(line), IsKill);
    FilterSingle(notice, IsKill);
    AllKept(kill, IsKill);
    AskedFilters(asked);
  }

  lemma ShapeNotices(line: string, kill: seq<Event>, notice: Event, asked: seq<Event>)
    requires ViolationShape(kill, notice, asked)
    ensures Filter([Log(line)] + kill + [notice] + asked, IsNotify) == [notice]
  {
    Filter4(Log(line), kill, notice, asked, IsNotify);
    FilterSingle(Log(line), IsNotify);
    FilterSingle(notice, IsNotify);
    NoneKept(kill, IsNotify);
    AskedFilters(asked);
  }

  lemma ShapeAsks(line: string, kill: seq<Event>, notice: Event, asked: seq<Event>)
    requires ViolationShape(kill, notice, asked)
    ensures |Filter([Log(line)] + kill + [notice] + asked, IsAsk)| == if asked == [] then 0 else 1
  {
    Filter4(Log(line), kill, notice, asked, IsAsk);
    FilterSingle(Log(line), IsAsk);
    FilterSingle(notice, IsAsk);
    NoneKept(kill, IsAsk);
    AskedFilters(asked);
  }

  lemma {:induction false} AllKept<T>(s: seq<T>, keep: T -> bool)
    requires forall k :: 0 <= k < |s| ==> keep(s[k])
    ensures Filter(s, keep) == s
  {
    if s != [] {
      AllKept(s[1..], keep);
    }
  }

  /** The events of one process handled to the end: a violation brings one
      notification, a kill exactly when the kill flag is set and a question to
      the responder exactly when the correction flag is set; any other process
      brings nothing. */
  lemma ProcEffects(cfg: Config, p: Proc, respond: string -> Reply)
    requires ProcStep(cfg, p, respond).error.None?
    ensures Filter(ProcStep(cfg, p, respond).events, IsKill)
         == if Violates(cfg, p) && KillFlag(cfg.policy) == Ok(true) then [Kill(p.pid)] else []
    ensures Filter(ProcStep(cfg, p, respond).events, IsNotify)
         == if Violates(cfg, p) then [Notify(LockTitle, "Blocked: " + Lower(p.name))] else []
    ensures |Filter(ProcStep(cfg, p, respond).events, IsAsk)|
         == if Violates(cfg, p) && CorrectionFlag(cfg.policy) == Ok(true) then 1 else 0
  {
    if Violates(cfg, p) {
      ProcShape(cfg, p, respond);
      var line, notice := ViolationLine(Lower(p.name), p.pid), Notify(LockTitle, "Blocked: " + Lower(p.name));
      ShapeKills(line, KillPart(cfg, p), notice, AskPart(cfg, p, respond));
      ShapeNotices(line, KillPart(cfg, p), notice, AskPart(cfg, p, respond));
      ShapeAsks(line, KillPart(cfg, p), notice, AskPart(cfg, p, respond));
    }
  }

  lemma ScanSplit(cfg: Config, procs: seq<Proc>, respond: string -> Reply)
    requires procs != [] && Scan(cfg, procs, respond).error.None?
    ensures ProcStep(cfg, procs[0], respond).error.None?
    ensures Scan(cfg, procs[1..], respond).error.None?
    ensures Scan(cfg, procs, respond).events
         == ProcStep(cfg, procs[0], respond).events + Scan(cfg, procs[1..], respond).events
    ensures Violators(cfg, procs)
         == (if Violates(cfg, procs[0]) then [procs[0]] else []) + Violators(cfg, procs[1..])
  {
  }

  lemma ConsViolators(cfg: Config, procs: seq<Proc>)
    requires procs != []
    ensures Violates(cfg, procs[0]) ==>
      && KillsOf(Violators(cfg, procs)) == [Kill(procs[0].pid)] + KillsOf(Violators(cfg, procs[1..]))
      && BlockedNotices(Violators(cfg, procs))
         == [Notify(LockTitle, "Blocked: " + Lower(procs[0].name))] + BlockedNotices(Violators(cfg, procs[1..]))
    ensures !Violates(cfg, procs[0]) ==> Violators(cfg, procs) == Violators(cfg, procs[1..])
  {
    if Violates(cfg, procs[0]) {
      var vs := Violators(cfg, procs);
      assert vs[0] == procs[0] && vs[1..] == Violators(cfg, procs[1..]);
    }
  }

  /** A scan that runs to the end kills exactly the violating processes, in
      scan order, when the kill flag is set, and none otherwise. */
  lemma {:induction false} CleanScanKills(cfg: Config, procs: seq<Proc>, respond: string -> Reply)
    requires Scan(cfg, procs, respond).error.None?
    ensures Filter(Scan(cfg, procs, respond).events, IsKill)
         == if KillFlag(cfg.policy) == Ok(true) then KillsOf(Violators(cfg, procs)) else []
  {
    if procs != [] {
      ScanSplit(cfg, procs, respond);
      CleanScanKills(cfg, procs[1..], respond);
      ProcEffects(cfg, procs[0], respond);
      ConsViolators(cfg, procs);
      FilterAppend(ProcStep(cfg, procs[0], respond).events, Scan(cfg, procs[1..], respond).events, IsKill);
    }
  }

  /** ... notifies every violating process, in scan order, whatever the kill flag ... */
  lemma {:induction false} CleanScanNotices(cfg: Config, procs: seq<Proc>, respond: string -> Reply)
    requires Scan(cfg, procs, respond).error.None?
    ensures Filter(Scan(cfg, procs, respond).events, IsNotify) == BlockedNotices(Violators(cfg, procs))
  {
    if procs != [] {
      ScanSplit(cfg, procs, respond);
      CleanScanNotices(cfg, procs[1..], respond);
      ProcEffects(cfg, procs[0], respond);
      ConsViolators(cfg, procs);
      FilterAppend(ProcStep(cfg, procs[0], respond).events, Scan(cfg, procs[1..], respond).events, IsNotify);
    }
  }

  /** ... and asks for one correction per violation exactly when the
      correction flag is set. */
  lemma {:induction false} CleanScanAsks(cfg: Config, procs: seq<Proc>, respond: string -> Reply)
    requires Scan(cfg, procs, respond).error.None?
    ensures |Filter(Scan(cfg, procs, respond).events, IsAsk)|
         == if CorrectionFlag(cfg.policy) == Ok(true) then |Violators(cfg, procs)| else 0
  {
    if procs != [] {
      ScanSplit(cfg, procs, respond);
      CleanScanAsks(cfg, procs[1..], respond);
      ProcEffects(cfg, procs[0], respond);
      FilterAppend(ProcStep(cfg, procs[0], respond).events, Scan(cfg, procs[1..], respond).events, IsAsk);
    }
  }

  /** The command line is fetched but never consulted: blanking every
      command line changes nothing in a cycle. */
  lemma {:induction false} CmdlineIgnored(cfg: Config, procs: seq<Proc>, blanked: seq<Proc>, respond: string -> Reply)
    requires |blanked| == |procs|
    requires forall i :: 0 <= i < |procs| ==> blanked[i] == procs[i].(cmdline := [])
    ensures Scan(cfg, procs, respond) == Scan(cfg, blanked, respond)
  {
    if procs != [] {
      assert ProcStep(cfg, procs[0], respond) == ProcStep(cfg, blanked[0], respond) by {
        assert blanked[0].name == procs[0].name && blanked[0].pid == procs[0].pid;
      }
      CmdlineIgnored(cfg, procs[1..], blanked[1..], respond);
    }
  }

  /** In the idle branch no process is looked at: the cycle is the same
      whatever the process list. */
  lemma IdleSkipsScan(cfg: Config, idleMs: int, procs: seq<Proc>, respond: string -> Reply)
    requires IdleLimit(cfg.policy).Ok? && idleMs >= IdleLimit(cfg.policy).value * 60 * 1000
    ensures Cycle(cfg, idleMs, procs, respond) == Cycle(cfg, idleMs, [], respond)
    ensures Filter(Cycle(cfg, idleMs, procs, respond), IsKill) == []
  {
    var events := Cycle(cfg, idleMs, procs, respond);
    assert events == IdleBranch(cfg, IdleLimit(cfg.policy).value, respond);
    forall k | 0 <= k < |events| ensures !events[k].Kill? { }
    NoneKept(events, IsKill);
  }

  /** The idle branch asks the responder, with the idle prompt, exactly when
      `correction_on_violation` is set; it ends with the wake-up notice and
      the 20 s sleep unless reading the flag or the responder raised. */
  lemma IdleAsksIff(cfg: Config, limit: int, respond: string -> Reply)
    ensures var ev := IdleBranch(cfg, limit, respond);
      Filter(ev, IsAsk) == (if CorrectionFlag(cfg.policy) == Ok(true) then [Ask(IdlePrompt(limit))] else [])
    ensures var ev := IdleBranch(cfg, limit, respond);
      var raised := CorrectionFlag(cfg.policy).Err?
                    || (CorrectionFlag(cfg.policy) == Ok(true) && respond(IdlePrompt(limit)).Raised?);
      !raised <==> |ev| >= 2 && ev[|ev| - 2..] == [Notify(IdleTitle, "Wake up."), Sleep(20)]
  {
    var ev := IdleBranch(cfg, limit, respond);
    var correct := CorrectionFlag(cfg.policy);
    var prompt := IdlePrompt(limit);
    if correct.Err? {
      var a, b := Log("ERROR: " + correct.error), Sleep(3);
      assert ev == [a, b];
      FilterPair(a, b, IsAsk);
      FilterSingle(a, IsAsk);
      FilterSingle(b, IsAsk);
    } else if !correct.value {
      var a, b := Notify(IdleTitle, "Wake up."), Sleep(20);
      assert ev == [a, b];
      FilterPair(a, b, IsAsk);
      FilterSingle(a, IsAsk);
      FilterSingle(b, IsAsk);
    } else if respond(prompt).Raised? {
      var a, b, c := Ask(prompt), Log("ERROR: " + respond(prompt).error), Sleep(3);
      assert ev == [a] + [b] + [c];
      Filter3([a], [b], [c], IsAsk);
      FilterSingle(a, IsAsk);
      FilterSingle(b, IsAsk);
      FilterSingle(c, IsAsk);
    } else {
      var a, b, c, d := Ask(prompt), Log("IDLE Correction: " + OneLine(respond(prompt).text)), Notify(IdleTitle, "Wake up."), Sleep(20);
      assert ev == [a] + [b] + [c] + [d];
      Filter4(a, [b], c, [d], IsAsk);
      FilterSingle(a, IsAsk);
      FilterSingle(b, IsAsk);
      FilterSingle(c, IsAsk);
      FilterSingle(d, IsAsk);
    }
  }

  lemma {:induction false} NoneKept<T>(s: seq<T>, keep: T -> bool)
    requires forall k :: 0 <= k < |s| ==> !keep(s[k])
    ensures Filter(s, keep) == []
  {
    if s != [] {
      NoneKept(s[1..], keep);
    }
  }

  /** A failed idle probe never takes the idle branch while the limit is
      positive; with a limit of 0 or less every cycle takes it. */
  lemma ProbeFailureMeansActive(cfg: Config, procs: seq<Proc>, respond: string -> Reply)
    requires IdleLimit(cfg.policy).Ok?
    ensures IdleLimit(cfg.policy).value > 0 ==>
      Cycle(cfg, IdleMs(None), procs, respond) == Cycle(cfg, -1, procs, respond)
    ensures IdleLimit(cfg.policy).value <= 0 ==>
      Cycle(cfg, IdleMs(None), procs, respond) == IdleBranch(cfg, IdleLimit(cfg.policy).value, respond)
  {
  }

  /** A missing or corrupt policy.json loads as `[]`: every cycle fails at the
      first subscript, logs and sleeps, and kills nothing. */
  lemma MissingPolicyDoesNothing(files: ConfigFiles, idleMs: int, procs: seq<Proc>, respond: string -> Reply)
    requires files.policy.None?
    ensures Cycle(LoadConfig(files), idleMs, procs, respond) == [Log("ERROR: " + ListIndexError), Sleep(3)]
  {
  }

  /** A cycle with no violating process only sleeps (when not idle). */
  lemma {:induction false} QuietScan(cfg: Config, procs: seq<Proc>, respond: string -> Reply)
    requires Violators(cfg, procs) == []
    ensures Scan(cfg, procs, respond) == Scanned([], None)
  {
    if procs != [] {
      assert Violators(cfg, procs[1..]) == [];
      QuietScan(cfg, procs[1..], respond);
    }
  }
}
