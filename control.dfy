/** The Flow Lock state file and its command line (flow_lock/control.py).
    The state file is a field of `StateStore`; every public operation is a
    read-modify-write of it. The clock is a parameter. */
module FlowControl {
  import opened Wrappers
  import opened Json
  import ScoreDashboard

  /** The record `_ensure_dirs` writes when there is no state file yet. */
  const DefaultState: map<string, Json> := map[
    "lock_enabled" := JBool(false),
    "current_profile" := JStr("strict"),
    "daily_score" := JNum(0.0),
    "last_update" := JNum(0.0)]

  /** The state file after `_ensure_dirs`. */
  function Ensured(f: StoredFile): (g: StoredFile)
    ensures f.Missing? ==> g == Doc(DefaultState)
    ensures !f.Missing? ==> g == f
    ensures !g.Missing?
  {
    if f.Missing? then Doc(DefaultState) else f
  }

  /** `read_state` after the file exists: an unparsable file reads as `{}`. */
  function ReadView(f: StoredFile): (st: map<string, Json>)
    ensures f.Doc? ==> st == f.fields
    ensures f.Corrupt? ==> st == map[]
  {
    FieldsOr(f)
  }

  /** The record `write_state` puts on disk: `last_update` is the clock, every
      other key as given. */
  function Stamped(st: map<string, Json>, now: int): (w: map<string, Json>)
    ensures w.Keys == st.Keys + {"last_update"}
    ensures w["last_update"] == JNum(now as real)
    ensures forall k :: k in st && k != "last_update" ==> w[k] == st[k]
  {
    st["last_update" := JNum(now as real)]
  }

  /** The record `set_lock` writes and returns. */
  function Locked(f: StoredFile, enabled: bool, now: int): map<string, Json> {
    Stamped(ReadView(Ensured(f))["lock_enabled" := JBool(enabled)], now)
  }

  /** The record `set_profile` writes and returns. */
  function Profiled(f: StoredFile, name: string, now: int): map<string, Json> {
    Stamped(ReadView(Ensured(f))["current_profile" := JStr(name)], now)
  }

  /** The line `set_lock` logs. */
  function LockLine(enabled: bool): string {
    "Flow Lock set to " + (if enabled then "ON" else "OFF")
  }

  /** The line `set_profile` logs. */
  function ProfileLine(name: string): string {
    "Profile changed -> " + name
  }

  /** The state file and the lines written to control.log (each also printed). */
  class StateStore {
    var stored: StoredFile
    var logged: seq<string>

    constructor (f: StoredFile)
      ensures stored == f && logged == []
    {
      stored := f;
      logged := [];
    }

    /** `_ensure_dirs` */
    method EnsureDirs()
      modifies this
      ensures stored == Ensured(old(stored)) && logged == old(logged)
    {
      if stored.Missing? {
        stored := Doc(DefaultState);
      }
    }

    /** `read_state` */
    method ReadState() returns (st: map<string, Json>)
      modifies this
      ensures stored == Ensured(old(stored)) && logged == old(logged)
      ensures st == ReadView(stored)
    {
      EnsureDirs();
      if stored.Doc? {
        st := stored.fields;
      } else {
        st := map[];
      }
    }

    /** `write_state`: the caller's record gets the clock, then replaces the file. */
    method WriteState(st: map<string, Json>, now: int) returns (written: map<string, Json>)
      modifies this
      ensures written == Stamped(st, now)
      ensures stored == Doc(written) && logged == old(logged)
    {
      written := st["last_update" := JNum(now as real)];
      stored := Doc(written);
    }

    /** `set_lock` */
    method SetLock(enabled: bool, now: int) returns (st: map<string, Json>)
      modifies this
      ensures st == Locked(old(stored), enabled, now)
      ensures stored == Doc(st)
      ensures logged == old(logged) + [LockLine(enabled)]
    {
      st := ReadState();
      st := st["lock_enabled" := JBool(enabled)];
      st := WriteState(st, now);
      logged := logged + [LockLine(enabled)];
    }

    /** `set_profile` */
    method SetProfile(name: string, now: int) returns (st: map<string, Json>)
      modifies this
      ensures st == Profiled(old(stored), name, now)
      ensures stored == Doc(st)
      ensures logged == old(logged) + [ProfileLine(name)]
    {
      st := ReadState();
      st := st["current_profile" := JStr(name)];
      st := WriteState(st, now);
      logged := logged + [ProfileLine(name)];
    }

    /** `get_status` */
    method GetStatus() returns (st: map<string, Json>)
      modifies this
      ensures stored == Ensured(old(stored)) && logged == old(logged)
      ensures st == ReadView(stored)
    {
      st := ReadState();
    }

    /** `main(argv)`: the exit status (1 after the usage text) and what it
        prints besides the log lines. */
    method Cli(argv: seq<string>, now: int, today: string, show: real -> string)
      returns (status: nat, printed: seq<Printed>)
      modifies this
      ensures status == (if Dispatch(argv).Usage? then 1 else 0)
      ensures stored == Effect(Dispatch(argv), old(stored), now)
      ensures printed == Output(Dispatch(argv), old(stored), now, today, show)
      ensures logged == old(logged) + Logged(Dispatch(argv))
    {
      EnsureDirs();
      if |argv| < 2 || argv[0] != "lock" {
        return 1, [Line(UsageText)];
      }
      var sub := argv[1];
      status := 0;
      if sub == "on" || sub == "enable" {
        var _ := SetLock(true, now);
        printed := [Line("OK")];
      } else if sub == "off" || sub == "disable" {
        var _ := SetLock(false, now);
        printed := [Line("OK")];
      } else if sub == "status" {
        var st := GetStatus();
        printed := [StateDump(st)];
      } else if sub == "profile" {
        if |argv| < 3 {
          return 0, [Line("profile <name>")];
        }
        var _ := SetProfile(argv[2], now);
        printed := [Line("OK")];
      } else if sub == "score" {
        var score := ScoreDashboard.DailyScore(stored, today);
        printed := [Line(ScoreDashboard.Dashboard(score, today, show))];
      } else {
        status, printed := 1, [Line(UsageText)];
      }
    }
  }

  // ---------------------------------------------------------------------------
  // The command line
  // ---------------------------------------------------------------------------

  const UsageText := "Usage: archetype lock on|off|status|profile <name>"

  datatype Command = Usage | SetLockTo(enabled: bool) | Status | ProfileHint | SetProfileTo(name: string) | Score

  /** What `main` prints on stdout: a line, or the record as `json.dumps` renders it. */
  datatype Printed = Line(text: string) | StateDump(state: map<string, Json>)

  /** The branch `main` takes for `argv`. */
  function Dispatch(argv: seq<string>): (c: Command)
    ensures c.SetProfileTo? ==> |argv| >= 3 && c.name == argv[2]
  {
    if |argv| < 2 || argv[0] != "lock" then Usage
    else if argv[1] == "on" || argv[1] == "enable" then SetLockTo(true)
    else if argv[1] == "off" || argv[1] == "disable" then SetLockTo(false)
    else if argv[1] == "status" then Status
    else if argv[1] == "profile" then (if |argv| < 3 then ProfileHint else SetProfileTo(argv[2]))
    else if argv[1] == "score" then Score
    else Usage
  }

  /** The state file after `main`: `_ensure_dirs` always runs first. */
  function Effect(c: Command, f: StoredFile, now: int): StoredFile {
    match c
    case SetLockTo(e) => Doc(Locked(f, e, now))
    case SetProfileTo(n) => Doc(Profiled(f, n, now))
    case _ => Ensured(f)
  }

  /** The lines `main` appends to control.log: those of the setter it calls. */
  function Logged(c: Command): seq<string> {
    match c
    case SetLockTo(e) => [LockLine(e)]
    case SetProfileTo(n) => [ProfileLine(n)]
    case _ => []
  }

  function Output(c: Command, f: StoredFile, now: int, today: string, show: real -> string): seq<Printed> {
    match c
    case Usage => [Line(UsageText)]
    case SetLockTo(_) => [Line("OK")]
    case SetProfileTo(_) => [Line("OK")]
    case Status => [StateDump(ReadView(Ensured(f)))]
    case ProfileHint => [Line("profile <name>")]
    case Score =>
      var score := ScoreDashboard.DailyScore(Ensured(f), today);
      [Line(ScoreDashboard.Dashboard(score, today, show))]
  }

  // ---------------------------------------------------------------------------
  // Properties
  // ---------------------------------------------------------------------------

  /** The default record is written only when there is no state file; an
      existing file, even an unparsable one, is left as it is. */
  lemma DefaultOnlyWhenMissing(f: StoredFile)
    ensures Ensured(f) != f <==> f.Missing?
    ensures f.Missing? ==> ReadView(Ensured(f)) == DefaultState
    ensures f.Corrupt? ==> ReadView(Ensured(f)) == map[]
  {
  }

  /** `set_lock(e)` sets `lock_enabled` and the clock and keeps every other key
      of the record it read. */
  lemma LockFrame(f: StoredFile, enabled: bool, now: int)
    ensures Locked(f, enabled, now).Keys == ReadView(Ensured(f)).Keys + {"lock_enabled", "last_update"}
    ensures Locked(f, enabled, now)["lock_enabled"] == JBool(enabled)
    ensures Locked(f, enabled, now)["last_update"] == JNum(now as real)
    ensures forall k :: k in ReadView(Ensured(f)) && k != "lock_enabled" && k != "last_update" ==>
      Locked(f, enabled, now)[k] == ReadView(Ensured(f))[k]
  {
  }

  /** `set_profile(n)` sets `current_profile` and the clock and nothing else. */
  lemma ProfileFrame(f: StoredFile, name: string, now: int)
    ensures Profiled(f, name, now).Keys == ReadView(Ensured(f)).Keys + {"current_profile", "last_update"}
    ensures Profiled(f, name, now)["current_profile"] == JStr(name)
    ensures Profiled(f, name, now)["last_update"] == JNum(now as real)
    ensures forall k :: k in ReadView(Ensured(f)) && k != "current_profile" && k != "last_update" ==>
      Profiled(f, name, now)[k] == ReadView(Ensured(f))[k]
  {
  }

  /** Setting the same profile twice is setting it once at the later time. */
  lemma ProfileIdempotent(f: StoredFile, name: string, t1: int, t2: int)
    ensures Profiled(Doc(Profiled(f, name, t1)), name, t2) == Profiled(f, name, t2)
  {
  }

  lemma LockIdempotent(f: StoredFile, enabled: bool, t1: int, t2: int)
    ensures Locked(Doc(Locked(f, enabled, t1)), enabled, t2) == Locked(f, enabled, t2)
  {
  }

  /** Lock and profile touch different keys: either order gives one record. */
  lemma LockProfileCommute(f: StoredFile, enabled: bool, name: string, t1: int, t2: int)
    ensures Profiled(Doc(Locked(f, enabled, t1)), name, t2) == Locked(Doc(Profiled(f, name, t1)), enabled, t2)
  {
  }

  /** Usage (exit status 1) exactly for fewer than two arguments, a first
      argument other than "lock", or an unknown subcommand. */
  lemma UsageIff(argv: seq<string>)
    ensures Dispatch(argv).Usage? <==>
      |argv| < 2 || argv[0] != "lock"
      || argv[1] !in {"on", "enable", "off", "disable", "status", "profile", "score"}
  {
  }

  lemma OnOff(argv: seq<string>)
    requires |argv| >= 2 && argv[0] == "lock"
    ensures argv[1] in {"on", "enable"} <==> Dispatch(argv) == SetLockTo(true)
    ensures argv[1] in {"off", "disable"} <==> Dispatch(argv) == SetLockTo(false)
  {
  }

  /** Only the two setters write a record; every other branch, including the
      profile hint and usage, at most creates the default file and logs
      nothing. */
  lemma ReadOnlyBranches(argv: seq<string>, f: StoredFile, now: int)
    requires !Dispatch(argv).SetLockTo? && !Dispatch(argv).SetProfileTo?
    ensures Effect(Dispatch(argv), f, now) == Ensured(f)
    ensures !f.Missing? ==> Effect(Dispatch(argv), f, now) == f
    ensures Logged(Dispatch(argv)) == []
  {
  }

  /** A setter logs exactly one line, which names the new value. */
  lemma SettersLogOnce(argv: seq<string>)
    ensures Dispatch(argv).SetLockTo? || Dispatch(argv).SetProfileTo? <==> |Logged(Dispatch(argv))| == 1
    ensures Dispatch(argv).SetLockTo? ==> Logged(Dispatch(argv)) == [LockLine(Dispatch(argv).enabled)]
    ensures Dispatch(argv).SetProfileTo? ==> |argv| >= 3 && Logged(Dispatch(argv)) == [ProfileLine(argv[2])]
  {
  }

  /** "lock profile" with no name prints the hint and writes nothing. */
  lemma ProfileHintWritesNothing(f: StoredFile, now: int)
    requires f.Doc?
    ensures Dispatch(["lock", "profile"]) == ProfileHint
    ensures Effect(ProfileHint, f, now) == f
    ensures Output(ProfileHint, f, now, "", _ => "") == [Line("profile <name>")]
  {
  }
}
