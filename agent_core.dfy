/** The agent core's text handling (agent_core.py): the process snapshot,
    the recent-events tail, the reasoning prompt, the plan parser and the
    command safety check. The sensing probes, the responder and command
    execution are outside the model. */
module AgentCore {
  import opened Wrappers
  import opened Text
  import opened Json
  import opened Seqs

  // ---------------------------------------------------------------------------
  // Process snapshot
  // ---------------------------------------------------------------------------

  /** What the process iterator reports for one process. */
  datatype RawProc = RawProc(pid: int, name: Option<string>, cmdline: seq<string>, user: Option<string>)

  /** One snapshot entry: pid, name, command line and user. */
  datatype Snap = Snap(pid: int, name: string, cmd: string, user: Option<string>)

  function Truncated(p: RawProc): (e: Snap)
    ensures |e.name| <= 60 && |e.cmd| <= 180 && e.pid == p.pid
  {
    Snap(p.pid, Take(p.name.GetOr(""), 60), Take(Join(p.cmdline, " "), 180), p.user)
  }

  predicate PidLe(a: Snap, b: Snap) {
    a.pid <= b.pid
  }

  function Entries(raw: seq<RawProc>): (r: seq<Snap>)
    ensures |r| == |raw| && forall i :: 0 <= i < |raw| ==> r[i] == Truncated(raw[i])
  {
    seq(|raw|, i requires 0 <= i < |raw| => Truncated(raw[i]))
  }

  /** `get_process_snapshot(limit)` after enumeration: truncate, sort by pid
      (a stable sort), keep the first `limit`. */
  method GetProcessSnapshot(raw: seq<RawProc>, limit: nat) returns (procs: seq<Snap>)
    ensures procs == Take(Sort(Entries(raw), PidLe), limit)
  {
    procs := [];
    var i := 0;
    while i < |raw|
      invariant 0 <= i <= |raw|
      invariant |procs| == i && forall j :: 0 <= j < i ==> procs[j] == Truncated(raw[j])
    {
      procs := procs + [Truncated(raw[i])];
      i := i + 1;
    }
    assert procs == Entries(raw);
    procs := Sort(procs, PidLe);
    procs := Take(procs, limit);
  }

  lemma PidLeTotal()
    ensures TotalPreorder(PidLe)
  {
  }

  /** The snapshot is sorted by pid, has at most `limit` entries, each taken
      from the enumeration with its name and command line cut short. */
  lemma SnapshotShape(raw: seq<RawProc>, limit: nat)
    ensures |Take(Sort(Entries(raw), PidLe), limit)| <= limit
    ensures SortedBy(Take(Sort(Entries(raw), PidLe), limit), PidLe)
    ensures forall e :: e in Take(Sort(Entries(raw), PidLe), limit) ==>
      |e.name| <= 60 && |e.cmd| <= 180 && e in Entries(raw)
  {
    var sorted := Sort(Entries(raw), PidLe);
    PidLeTotal();
    SortSorted(Entries(raw), PidLe);
    var taken := Take(sorted, limit);
    forall e | e in taken
      ensures |e.name| <= 60 && |e.cmd| <= 180 && e in Entries(raw)
    {
      assert e in multiset(sorted);
      assert e in multiset(Entries(raw));
    }
  }

  // ---------------------------------------------------------------------------
  // Recent events
  // ---------------------------------------------------------------------------

  /** `recent_events(n)`: the parsed lines of the memory file (lines that do
      not parse are skipped), then `out[-n:]`. `None` is a missing file. */
  method RecentEvents(file: Option<seq<Option<Json>>>, n: nat) returns (out: seq<Json>)
    ensures out == RecentOf(file, n)
  {
    if file.None? {
      return [];
    }
    var lines := file.value;
    out := [];
    var i := 0;
    while i < |lines|
      invariant 0 <= i <= |lines|
      invariant out == Parsed(lines[..i])
    {
      ParsedSnoc(lines, i);
      if lines[i].Some? {
        out := out + [lines[i].value];
      }
      i := i + 1;
    }
    assert lines[..i] == lines;
    out := Tail(out, n);
  }

  function Parsed(lines: seq<Option<Json>>): (r: seq<Json>)
    ensures |r| <= |lines|
  {
    if lines == [] then []
    else Parsed(lines[..|lines| - 1]) + (if lines[|lines| - 1].Some? then [lines[|lines| - 1].value] else [])
  }

  lemma ParsedSnoc(lines: seq<Option<Json>>, i: nat)
    requires i < |lines|
    ensures Parsed(lines[..i + 1]) == Parsed(lines[..i]) + (if lines[i].Some? then [lines[i].value] else [])
  {
    assert lines[..i + 1][..i] == lines[..i];
  }

  function RecentOf(file: Option<seq<Option<Json>>>, n: nat): seq<Json> {
    if file.None? then [] else Tail(Parsed(file.value), n)
  }

  /** The newest `min(n, count)` entries; `n = 0` reads as `out[-0:]`, which
      is every entry, and a missing file gives none. */
  lemma RecentBounds(file: Option<seq<Option<Json>>>, n: nat)
    ensures n > 0 ==> |RecentOf(file, n)| <= n
    ensures file.None? ==> RecentOf(file, n) == []
    ensures file.Some? && n > 0 ==>
      |RecentOf(file, n)| == if n < |Parsed(file.value)| then n else |Parsed(file.value)|
    ensures file.Some? ==> RecentOf(file, 0) == Parsed(file.value)
    ensures file.Some? ==> exists k :: 0 <= k <= |Parsed(file.value)| && RecentOf(file, n) == Parsed(file.value)[k..]
  {
    if file.Some? {
      var p := Parsed(file.value);
      assert RecentOf(file, n) == p[|p| - |RecentOf(file, n)|..];
    }
  }

  // ---------------------------------------------------------------------------
  // The reasoning prompt
  // ---------------------------------------------------------------------------

  /** A memory entry as the prompt reads it. */
  datatype MemEvent = MemEvent(ts: Option<string>, note: Option<string>, user: Option<string>)

  /** The observation; `flowLock` is the state dictionary as Python prints it. */
  datatype Observation = Observation(activeWindow: string, processes: seq<Snap>, flowLock: string)

  predicate Truthy(s: Option<string>) {
    s.Some? && s.value != []
  }

  function EventLine(e: MemEvent): string {
    var ts := if Truthy(e.ts) then Take(e.ts.value, 19) else "";
    var text := if Truthy(e.note) then e.note.value else if Truthy(e.user) then e.user.value else "";
    "- " + ts + " " + Take(text, 200)
  }

  function Names(ps: seq<Snap>): (r: seq<string>)
    ensures |r| == |ps| && forall i :: 0 <= i < |ps| ==> r[i] == ps[i].name
  {
    seq(|ps|, i requires 0 <= i < |ps| => ps[i].name)
  }

  function PromptHeader(obs: Observation): seq<string> {
    [ "SYSTEM: You are ArcheTYPE's Agent Core. Produce: DIAGNOSIS, PLAN (1-3 steps).",
      "CONTEXT:",
      "- active_window: " + obs.activeWindow,
      "- flow_lock: " + obs.flowLock,
      "- top_processes: " + Join(Names(Take(obs.processes, 6)), ", "),
      "",
      "RECENT_EVENTS:" ]
  }

  const PromptFooter: seq<string> := [
    "",
    "INSTRUCTIONS: Provide short DIAGNOSIS and then a PLAN with up to 3 steps.",
    "Each plan step should be one line prefixed STEP N: and, if executable, include a COMMAND: <shell command> on the same line.",
    "If nothing to do, respond `NO_ACTION`.",
    "",
    "USER QUERY: Is the user off-track? Suggest the single highest-impact next action and optionally safe system commands."]

  /** One line per event, in order. */
  function EventLines(events: seq<MemEvent>): (r: seq<string>)
    ensures |r| == |events|
    ensures forall k :: 0 <= k < |events| ==> r[k] == EventLine(events[k])
  {
    seq(|events|, k requires 0 <= k < |events| => EventLine(events[k]))
  }

  lemma EventLinesSnoc(events: seq<MemEvent>, i: nat)
    requires i < |events|
    ensures EventLines(events[..i + 1]) == EventLines(events[..i]) + [EventLine(events[i])]
  {
    assert EventLines(events[..i + 1])[i] == EventLine(events[i]);
  }

  /** The lines of the prompt: header, one line per recent event, footer. */
  function PromptLines(obs: Observation, history: seq<MemEvent>): seq<string> {
    PromptHeader(obs) + EventLines(Tail(history, 6)) + PromptFooter
  }

  /** `build_reason_prompt(obs, short_history)` */
  method BuildReasonPrompt(obs: Observation, history: seq<MemEvent>) returns (prompt: string)
    ensures prompt == Join(PromptLines(obs, history), "\n")
  {
    var lines := PromptHeader(obs);
    var recent := Tail(history, 6);
    var i := 0;
    while i < |recent|
      invariant 0 <= i <= |recent|
      invariant lines == PromptHeader(obs) + EventLines(recent[..i])
    {
      EventLinesSnoc(recent, i);
      AppendAssoc(PromptHeader(obs), EventLines(recent[..i]), [EventLine(recent[i])]);
      lines := lines + [EventLine(recent[i])];
      i := i + 1;
    }
    assert recent[..i] == recent;
    lines := lines + PromptFooter;
    prompt := Join(lines, "\n");
  }

  /** The prompt is the seven header lines, at most six event lines and the
      six footer lines. */
  lemma PromptLength(obs: Observation, history: seq<MemEvent>)
    ensures |PromptLines(obs, history)| == 13 + |Tail(history, 6)|
    ensures |Tail(history, 6)| <= 6
    ensures PromptLines(obs, history)[|PromptLines(obs, history)| - 6..] == PromptFooter
  {
    LastPart(PromptHeader(obs), EventLines(Tail(history, 6)), PromptFooter);
  }

  /** The fifth line names the first six processes. */
  lemma PromptProcesses(obs: Observation, history: seq<MemEvent>)
    ensures |PromptLines(obs, history)| > 4
    ensures PromptLines(obs, history)[4] == "- top_processes: " + Join(Names(Take(obs.processes, 6)), ", ")
  {
    FirstPart(PromptHeader(obs), EventLines(Tail(history, 6)), PromptFooter, 4);
  }

  /** After the seven header lines come the lines of the last six events,
      oldest first. */
  lemma PromptEvents(obs: Observation, history: seq<MemEvent>)
    ensures var lines, recent := PromptLines(obs, history), Tail(history, 6);
      |lines| >= 7 + |recent| && lines[7..7 + |recent|] == EventLines(recent)
  {
    MiddlePart(PromptHeader(obs), EventLines(Tail(history, 6)), PromptFooter);
  }

  lemma FirstPart<T>(a: seq<T>, b: seq<T>, c: seq<T>, k: nat)
    requires k < |a|
    ensures |a + b + c| == |a| + |b| + |c| && (a + b + c)[k] == a[k]
  {
  }

  lemma MiddlePart<T>(a: seq<T>, b: seq<T>, c: seq<T>)
    ensures |a + b + c| == |a| + |b| + |c| && (a + b + c)[|a|..|a| + |b|] == b
  {
  }

  lemma LastPart<T>(a: seq<T>, b: seq<T>, c: seq<T>)
    ensures |a + b + c| == |a| + |b| + |c| && (a + b + c)[|a| + |b|..] == c
  {
  }

  // ---------------------------------------------------------------------------
  // The plan parser
  // ---------------------------------------------------------------------------

  datatype PlanStep = PlanStep(text: string, cmd: Option<string>)

  /** What one line of the reply does to the plan being collected. */
  datatype LineOutcome = Skip | Stop | Add(step: PlanStep) | Fail(error: string)

  const IndexError := "list index out of range"

  predicate IsStepLine(ln: string) {
    StartsWith(Lower(ln), "step") || (ln != [] && IsDigit(ln[0]))
  }

  /** The step of a line: when the upper-cased line contains "COMMAND:" the
      line is split at the case-sensitive "COMMAND:"; a line whose marker is
      not all upper case has no second part, and `parts[1]` raises. */
  function SplitCommand(ln: string): (r: Result<PlanStep>)
    ensures r.Ok? ==> |r.value.text| <= 300
  {
    if !Contains(Upper(ln), "COMMAND:") then Ok(PlanStep(Take(ln, 300), None))
    else if !Contains(ln, "COMMAND:") then Err(IndexError)
    else
      var after := After(ln, "COMMAND:");
      Ok(PlanStep(Take(Strip(Before(ln, "COMMAND:")), 300), Some(Strip(Before(after, "COMMAND:")))))
  }

  /** One pass of the `for ln in lines` loop with `count` steps collected. */
  function ClassifyLine(raw: string, count: nat): (o: LineOutcome)
    ensures o.Add? ==> |o.step.text| <= 300
  {
    var ln := Strip(raw);
    if ln == [] then Skip
    else if StartsWith(Upper(ln), "NO_ACTION") then Stop
    else if IsStepLine(ln) || count < 3 then
      match SplitCommand(ln)
      case Ok(s) => Add(s)
      case Err(e) => Fail(e)
    else Skip
  }

  /** The rest of the loop from the lines still to read and the steps so far. */
  function ParseLines(lines: seq<string>, steps: seq<PlanStep>): Result<seq<PlanStep>> {
    if lines == [] then Ok(Take(steps, 3))
    else
      match ClassifyLine(lines[0], |steps|)
      case Skip => ParseLines(lines[1..], steps)
      case Stop => Ok([])
      case Add(s) => ParseLines(lines[1..], steps + [s])
      case Fail(e) => Err(e)
  }

  /** `parse_plan_from_text(txt)`; `Err` is the exception it raises. */
  function PlanOf(txt: string): Result<seq<PlanStep>> {
    ParseLines(Pieces(txt), [])
  }

  lemma ParseFrom(lines: seq<string>, i: nat, steps: seq<PlanStep>)
    requires i < |lines|
    ensures var o := ClassifyLine(lines[i], |steps|);
      ParseLines(lines[i..], steps)
      == if o.Skip? then ParseLines(lines[i + 1..], steps)
         else if o.Stop? then Ok([])
         else if o.Add? then ParseLines(lines[i + 1..], steps + [o.step])
         else Err(o.error)
  {
    assert lines[i..][0] == lines[i] && lines[i..][1..] == lines[i + 1..];
  }

  method ParsePlanFromText(txt: string) returns (r: Result<seq<PlanStep>>)
    ensures r == PlanOf(txt)
  {
    var lines := Pieces(txt);
    var steps: seq<PlanStep> := [];
    var i := 0;
    while i < |lines|
      invariant 0 <= i <= |lines|
      invariant PlanOf(txt) == ParseLines(lines[i..], steps)
    {
      ParseFrom(lines, i, steps);
      var ln := Strip(lines[i]);
      if ln != [] {
        if StartsWith(Upper(ln), "NO_ACTION") {
          return Ok([]);
        }
        if IsStepLine(ln) || |steps| < 3 {
          var step := SplitCommand(ln);
          if step.Err? {
            return Err(step.error);
          }
          steps := steps + [step.value];
        }
      }
      i := i + 1;
    }
    assert lines[i..] == [];
    return Ok(Take(steps, 3));
  }

  predicate ShortTexts(steps: seq<PlanStep>) {
    forall k :: 0 <= k < |steps| ==> |steps[k].text| <= 300
  }

  /** A plan has at most three steps, each text at most 300 characters. */
  lemma {:induction false} PlanBounds(lines: seq<string>, steps: seq<PlanStep>)
    requires ShortTexts(steps)
    ensures ParseLines(lines, steps).Ok? ==>
      |ParseLines(lines, steps).value| <= 3 && ShortTexts(ParseLines(lines, steps).value)
  {
    if lines != [] {
      match ClassifyLine(lines[0], |steps|)
      case Skip => PlanBounds(lines[1..], steps);
      case Stop =>
      case Add(s) => PlanBounds(lines[1..], steps + [s]);
      case Fail(e) =>
    }
  }

  /** A line starting with NO_ACTION ends the parse with no plan, dropping
      the steps already collected. */
  lemma NoActionDiscards(ln: string, rest: seq<string>, steps: seq<PlanStep>)
    requires StartsWith(Upper(Strip(ln)), "NO_ACTION")
    ensures ParseLines([ln] + rest, steps) == Ok([])
  {
    assert ([ln] + rest)[0] == ln;
  }

  lemma UpperKeepsMatch(l: string, t: string)
    requires Contains(l, t)
    ensures Contains(Upper(l), Upper(t))
  {
    var i := ContainsWitness(l, t);
    assert Upper(l)[i..i + |t|] == Upper(t);
    ContainsAt(Upper(l), Upper(t), i);
  }

  lemma UpperMarker()
    ensures Upper("command:") == "COMMAND:" && Upper("COMMAND:") == "COMMAND:"
  {
    LowerMarkerUpper();
    UpperMarkerFixed();
  }

  lemma LowerMarkerUpper()
    ensures Upper("command:") == "COMMAND:"
  {
    var a := Upper("command:");
    assert a[0] == 'C' && a[1] == 'O' && a[2] == 'M' && a[3] == 'M' && a[4] == 'A' && a[5] == 'N' && a[6] == 'D' && a[7] == ':';
  }

  lemma UpperMarkerFixed()
    ensures Upper("COMMAND:") == "COMMAND:"
  {
    var b := Upper("COMMAND:");
    assert b[0] == 'C' && b[1] == 'O' && b[2] == 'M' && b[3] == 'M' && b[4] == 'A' && b[5] == 'N' && b[6] == 'D' && b[7] == ':';
  }

  /** A step line whose marker is written "command:" (not upper case) passes
      the upper-cased test but has no "COMMAND:" to split at: the parser
      raises. */
  lemma LowercaseMarkerRaises(ln: string, rest: seq<string>, steps: seq<PlanStep>)
    requires IsStepLine(Strip(ln)) && !StartsWith(Upper(Strip(ln)), "NO_ACTION")
    requires Contains(Strip(ln), "command:") && !Contains(Strip(ln), "COMMAND:")
    ensures ParseLines([ln] + rest, steps) == Err(IndexError)
  {
    var l := Strip(ln);
    UpperMarker();
    UpperKeepsMatch(l, "command:");
    assert SplitCommand(l) == Err(IndexError);
    assert ClassifyLine(ln, |steps|) == Fail(IndexError);
    assert ([ln] + rest)[0] == ln;
  }

  /** The command is the stripped text between the first and the second
      "COMMAND:", and the step text is the stripped text before the first. */
  lemma CommandBetweenMarkers(ln: string, count: nat)
    requires IsStepLine(Strip(ln)) && !StartsWith(Upper(Strip(ln)), "NO_ACTION")
    requires Contains(Strip(ln), "COMMAND:")
    ensures var l := Strip(ln);
      ClassifyLine(ln, count) == Add(PlanStep(Take(Strip(Before(l, "COMMAND:")), 300),
                                              Some(Strip(Before(After(l, "COMMAND:"), "COMMAND:")))))
  {
    var l := Strip(ln);
    UpperMarker();
    UpperKeepsMatch(l, "COMMAND:");
    assert Contains(Upper(l), "COMMAND:");
  }

  /** Step-prefixed lines are taken whatever the count; other lines only
      while fewer than three steps have been collected. */
  lemma StepLinesAlwaysCount(ln: string, count: nat)
    ensures IsStepLine(Strip(ln)) ==> ClassifyLine(ln, count) == ClassifyLine(ln, 0)
    ensures !IsStepLine(Strip(ln)) && count >= 3 ==> ClassifyLine(ln, count) == Skip || ClassifyLine(ln, count) == Stop
  {
  }

  // ---------------------------------------------------------------------------
  // The command safety check
  // ---------------------------------------------------------------------------

  const Blocked: seq<string> := [
    "rm -rf", ":(){", "dd if=", "mkfs", "sh -c", "wget http", "curl http", "reboot", "shutdown",
    "pkill -9", "killall -9"]

  const LowRisk: seq<string> := [
    "xdg-open", "kwrite", "code", "kitty", "konsole", "alacritty", "firefox", "chromium", "wmctrl",
    "xdotool", "notify-send", "systemctl --user start"]

  datatype Verdict = Permitted | Refused(error: string)

  /** The checks of `safe_execute_command` before it runs anything. */
  function CommandVerdict(cmd: string, autonomy: bool, allowed: seq<string>): (v: Verdict)
    ensures !autonomy ==> v == Refused("autonomy disabled in config")
  {
    if !autonomy then Refused("autonomy disabled in config")
    else match FirstIn(Blocked, Lower(cmd))
      case Some(b) => Refused("blocked pattern: " + b)
      case None =>
        if !AnyIn(LowRisk, Lower(cmd)) && cmd !in allowed then Refused("command not in allowlist")
        else Permitted
  }

  method CheckCommand(cmd: string, autonomy: bool, allowed: seq<string>) returns (v: Verdict)
    ensures v == CommandVerdict(cmd, autonomy, allowed)
  {
    if !autonomy {
      return Refused("autonomy disabled in config");
    }
    var low := Lower(cmd);
    var hit := FindFirst(Blocked, low);
    if hit.Some? {
      return Refused("blocked pattern: " + hit.value);
    }
    var benign := FindIn(LowRisk, low);
    if !benign && cmd !in allowed {
      return Refused("command not in allowlist");
    }
    return Permitted;
  }

  /** A command runs exactly when autonomy is on, no blocked pattern occurs
      in it and it names a low-risk program or is an allowlist entry verbatim. */
  lemma PermittedIff(cmd: string, autonomy: bool, allowed: seq<string>)
    ensures CommandVerdict(cmd, autonomy, allowed) == Permitted <==>
      autonomy && !AnyIn(Blocked, Lower(cmd)) && (AnyIn(LowRisk, Lower(cmd)) || cmd in allowed)
  {
  }

  /** A blocked pattern refuses the command even when it is on the allowlist. */
  lemma BlockedBeatsAllowlist(cmd: string, allowed: seq<string>)
    requires AnyIn(Blocked, Lower(cmd)) && cmd in allowed
    ensures CommandVerdict(cmd, true, allowed).Refused?
    ensures exists b :: b in Blocked && Contains(Lower(cmd), b)
               && CommandVerdict(cmd, true, allowed) == Refused("blocked pattern: " + b)
  {
  }
}
