/** The command-line front end (archetype_cli.py): a fixed three-part reply
    chosen by drift detection, and the memory file that keeps only the last
    interaction. */
module ArchetypeCli {
  import opened Wrappers
  import opened Text
  import opened Json
  import opened RulesEngine

  /** The three parts every reply has. */
  datatype Wording = Wording(diagnosis: string, action: string, metric: string)

  // The texts are written as short pieces so that the verifier can see
  // every character of them.
  const DriftWording := Wording(
    ("You're " + "spread thin " + "and " + "pretending ")
      + ("progress " + "equals " + "activity."),
    ("Drop all " + "but the " + "single task " + "that moves " + "income or ")
      + ("skill " + "forward. 90 " + "minutes " + "focused " + "work now."),
    ("Produce 1 " + "commit / 1 " + "solved ")
      + ("problem or " + "500 words " + "of progress."))

  const CalmWording := Wording(
    "Clarity " + "lacking\U{2014}" + "prioritise " + "ruthlessly.",
    ("Pick the " + "highest-impact " + "task; " + "timebox " + "60-90 ")
      + ("minutes; " + "report " + "exact " + "output."),
    ("Deliver one " + "measurable " + "artifact: " + "commit, ")
      + ("screenshot, " + "or " + "countable " + "result."))

  /** The wording `local_response` picks: drift detection runs on the stripped text. */
  function WordingFor(userText: string): (w: Wording)
    ensures w == DriftWording || w == CalmWording
    ensures w == DriftWording <==> DetectDrift(Some(Strip(userText)))
  {
    if DetectDrift(Some(Strip(userText))) then DriftWording else CalmWording
  }

  /** The reply text of a wording: its three parts on three labelled lines. */
  function Reply(w: Wording): string {
    ("DIAGNOSIS: " + w.diagnosis) + "\n" + ("ACTION: " + w.action) + "\n" + ("METRIC: " + w.metric)
  }

  /** `local_response(mode, user_text)`; `mode` is accepted and not used. */
  function LocalResponse(mode: Mode, userText: string): (r: string)
    ensures StartsWith(r, "DIAGNOSIS: ")
  {
    ReplyStarts(WordingFor(userText));
    Reply(WordingFor(userText))
  }

  lemma ReplyStarts(w: Wording)
    ensures StartsWith(Reply(w), "DIAGNOSIS: ")
  {
    var rest := w.diagnosis + "\n" + ("ACTION: " + w.action) + "\n" + ("METRIC: " + w.metric);
    assert Reply(w) == "DIAGNOSIS: " + rest;
    PrefixStarts("DIAGNOSIS: ", rest);
  }

  lemma DriftDiagnosisStartPlain()
    ensures NoLineBreak("You're " + "spread thin " + "and " + "pretending ")
  {
    PlainConcat("You're ", "spread thin ");
    PlainConcat("You're " + "spread thin ", "and ");
    PlainConcat("You're " + "spread thin " + "and ", "pretending ");
  }

  lemma DriftDiagnosisEndPlain()
    ensures NoLineBreak("progress " + "equals " + "activity.")
  {
    PlainConcat("progress ", "equals ");
    PlainConcat("progress " + "equals ", "activity.");
  }

  lemma DriftDiagnosisPlain()
    ensures NoLineBreak(DriftWording.diagnosis)
  {
    DriftDiagnosisStartPlain();
    DriftDiagnosisEndPlain();
    PlainConcat("You're " + "spread thin " + "and " + "pretending ", "progress " + "equals " + "activity.");
  }

  lemma DriftActionStartPlain()
    ensures NoLineBreak("Drop all " + "but the " + "single task " + "that moves " + "income or ")
  {
    PlainConcat("Drop all ", "but the ");
    PlainConcat("Drop all " + "but the ", "single task ");
    PlainConcat("Drop all " + "but the " + "single task ", "that moves ");
    PlainConcat("Drop all " + "but the " + "single task " + "that moves ", "income or ");
  }

  lemma DriftActionEndPlain()
    ensures NoLineBreak("skill " + "forward. 90 " + "minutes " + "focused " + "work now.")
  {
    PlainConcat("skill ", "forward. 90 ");
    PlainConcat("skill " + "forward. 90 ", "minutes ");
    PlainConcat("skill " + "forward. 90 " + "minutes ", "focused ");
    PlainConcat("skill " + "forward. 90 " + "minutes " + "focused ", "work now.");
  }

  lemma DriftActionPlain()
    ensures NoLineBreak(DriftWording.action)
  {
    DriftActionStartPlain();
    DriftActionEndPlain();
    PlainConcat("Drop all " + "but the " + "single task " + "that moves " + "income or ", "skill " + "forward. 90 " + "minutes " + "focused " + "work now.");
  }

  lemma DriftMetricStartPlain()
    ensures NoLineBreak("Produce 1 " + "commit / 1 " + "solved ")
  {
    PlainConcat("Produce 1 ", "commit / 1 ");
    PlainConcat("Produce 1 " + "commit / 1 ", "solved ");
  }

  lemma DriftMetricEndPlain()
    ensures NoLineBreak("problem or " + "500 words " + "of progress.")
  {
    PlainConcat("problem or ", "500 words ");
    PlainConcat("problem or " + "500 words ", "of progress.");
  }

  lemma DriftMetricPlain()
    ensures NoLineBreak(DriftWording.metric)
  {
    DriftMetricStartPlain();
    DriftMetricEndPlain();
    PlainConcat("Produce 1 " + "commit / 1 " + "solved ", "problem or " + "500 words " + "of progress.");
  }

  lemma CalmDiagnosisPlain()
    ensures NoLineBreak(CalmWording.diagnosis)
  {
    PlainConcat("Clarity ", "lacking\U{2014}");
    PlainConcat("Clarity " + "lacking\U{2014}", "prioritise ");
    PlainConcat("Clarity " + "lacking\U{2014}" + "prioritise ", "ruthlessly.");
  }

  lemma CalmActionStartPlain()
    ensures NoLineBreak("Pick the " + "highest-impact " + "task; " + "timebox " + "60-90 ")
  {
    PlainConcat("Pick the ", "highest-impact ");
    PlainConcat("Pick the " + "highest-impact ", "task; ");
    PlainConcat("Pick the " + "highest-impact " + "task; ", "timebox ");
    PlainConcat("Pick the " + "highest-impact " + "task; " + "timebox ", "60-90 ");
  }

  lemma CalmActionEndPlain()
    ensures NoLineBreak("minutes; " + "report " + "exact " + "output.")
  {
    PlainConcat("minutes; ", "report ");
    PlainConcat("minutes; " + "report ", "exact ");
    PlainConcat("minutes; " + "report " + "exact ", "output.");
  }

  lemma CalmActionPlain()
    ensures NoLineBreak(CalmWording.action)
  {
    CalmActionStartPlain();
    CalmActionEndPlain();
    PlainConcat("Pick the " + "highest-impact " + "task; " + "timebox " + "60-90 ", "minutes; " + "report " + "exact " + "output.");
  }

  lemma CalmMetricStartPlain()
    ensures NoLineBreak("Deliver one " + "measurable " + "artifact: " + "commit, ")
  {
    PlainConcat("Deliver one ", "measurable ");
    PlainConcat("Deliver one " + "measurable ", "artifact: ");
    PlainConcat("Deliver one " + "measurable " + "artifact: ", "commit, ");
  }

  lemma CalmMetricEndPlain()
    ensures NoLineBreak("screenshot, " + "or " + "countable " + "result.")
  {
    PlainConcat("screenshot, ", "or ");
    PlainConcat("screenshot, " + "or ", "countable ");
    PlainConcat("screenshot, " + "or " + "countable ", "result.");
  }

  lemma CalmMetricPlain()
    ensures NoLineBreak(CalmWording.metric)
  {
    CalmMetricStartPlain();
    CalmMetricEndPlain();
    PlainConcat("Deliver one " + "measurable " + "artifact: " + "commit, ", "screenshot, " + "or " + "countable " + "result.");
  }

  lemma WordingPlain(w: Wording)
    requires w == DriftWording || w == CalmWording
    ensures NoLineBreak(w.diagnosis) && NoLineBreak(w.action) && NoLineBreak(w.metric)
  {
    if w == DriftWording {
      DriftDiagnosisPlain();
      DriftActionPlain();
      DriftMetricPlain();
    } else {
      CalmDiagnosisPlain();
      CalmActionPlain();
      CalmMetricPlain();
    }
  }

  lemma LabelsPlain()
    ensures NoLineBreak("DIAGNOSIS: ") && NoLineBreak("ACTION: ") && NoLineBreak("METRIC: ")
  {
  }

  /** The reply of either wording is its three labelled parts, one per line. */
  lemma WordingLines(w: Wording)
    requires w == DriftWording || w == CalmWording
    ensures Pieces(Reply(w)) == ["DIAGNOSIS: " + w.diagnosis, "ACTION: " + w.action, "METRIC: " + w.metric]
  {
    var d, a, m := "DIAGNOSIS: " + w.diagnosis, "ACTION: " + w.action, "METRIC: " + w.metric;
    WordingPlain(w);
    LabelsPlain();
    PlainConcat("DIAGNOSIS: ", w.diagnosis);
    PlainConcat("ACTION: ", w.action);
    PlainConcat("METRIC: ", w.metric);
    ThreeLinesOf(d, a, m);
  }

  /** The reply is exactly three lines: the diagnosis, the action and the
      metric of the chosen wording, whatever the mode. */
  lemma ReplyLines(mode: Mode, userText: string)
    ensures var w := WordingFor(userText);
      Pieces(LocalResponse(mode, userText)) == ["DIAGNOSIS: " + w.diagnosis, "ACTION: " + w.action, "METRIC: " + w.metric]
  {
    WordingLines(WordingFor(userText));
  }

  /** Reading the first line back tells whether drift was detected: the drift
      diagnosis appears if and only if `detect_drift` holds on the stripped text. */
  lemma DiagnosisRevealsDrift(mode: Mode, userText: string)
    ensures Pieces(LocalResponse(mode, userText))[0] == "DIAGNOSIS: " + DriftWording.diagnosis
        <==> DetectDrift(Some(Strip(userText)))
  {
    ReplyLines(mode, userText);
    assert DriftWording.diagnosis[0] == 'Y' && CalmWording.diagnosis[0] == 'C';
    assert ("DIAGNOSIS: " + DriftWording.diagnosis)[11] == 'Y';
    assert ("DIAGNOSIS: " + CalmWording.diagnosis)[11] == 'C';
  }

  /** The reply does not depend on the mode. */
  lemma ModeIgnored(m1: Mode, m2: Mode, userText: string)
    ensures LocalResponse(m1, userText) == LocalResponse(m2, userText)
  {
  }

  /** The user text: the arguments after the program name joined by spaces,
      or the typed line when there are none. */
  function UserText(argv: seq<string>, typed: string): (t: string)
    ensures |argv| <= 1 ==> t == typed
    ensures |argv| == 2 ==> t == argv[1]
  {
    if |argv| > 1 then Join(argv[1..], " ") else typed
  }

  function Interaction(userText: string, mode: Mode, reply: string): Json {
    JObj(map["user" := JStr(userText), "mode" := JStr(mode.Name()), "reply" := JStr(reply)])
  }

  /** The memory record `main` writes back: the file's object (empty when it
      is missing or unreadable) with `last_interaction` replaced. */
  function Remembered(f: StoredFile, userText: string, mode: Mode, reply: string): (m: map<string, Json>)
    ensures m.Keys == FieldsOr(f).Keys + {"last_interaction"}
    ensures m["last_interaction"] == Interaction(userText, mode, reply)
    ensures forall k :: k in FieldsOr(f) && k != "last_interaction" ==> m[k] == FieldsOr(f)[k]
  {
    FieldsOr(f)["last_interaction" := Interaction(userText, mode, reply)]
  }

  /** Only the latest interaction is kept: a second run overwrites the first. */
  lemma LastInteractionWins(f: StoredFile, u1: string, m1: Mode, r1: string, u2: string, m2: Mode, r2: string)
    ensures Remembered(Doc(Remembered(f, u1, m1, r1)), u2, m2, r2) == Remembered(f, u2, m2, r2)
  {
    var a := Remembered(Doc(Remembered(f, u1, m1, r1)), u2, m2, r2);
    var b := Remembered(f, u2, m2, r2);
    assert a.Keys == b.Keys;
    assert forall k :: k in a ==> a[k] == b[k];
  }

  /** The memory file `main` reads and rewrites. */
  class MemoryFile {
    var stored: StoredFile

    constructor (f: StoredFile)
      ensures stored == f
    {
      stored := f;
    }

    /** `main()`: decide the mode, build the prompt, print the local reply and
        record the interaction. */
    method Interact(argv: seq<string>, typed: string, systemText: string)
      returns (prompt: string, printed: seq<string>)
      modifies this
      ensures var u := UserText(argv, typed);
        var mode := DecideMode(Some(u));
        && prompt == BuildPrompt(mode.Name(), u, systemText)
        && printed == ["\n--- ArcheTYPE (local mode) ---\n", "MODE: " + mode.Name() + "\n", LocalResponse(mode, u)]
        && stored == Doc(Remembered(old(stored), u, mode, LocalResponse(mode, u)))
    {
      var userText := UserText(argv, typed);
      var mode := DecideMode(Some(userText));
      prompt := BuildPrompt(mode.Name(), userText, systemText);
      var reply := LocalResponse(mode, userText);
      printed := ["\n--- ArcheTYPE (local mode) ---\n", "MODE: " + mode.Name() + "\n", reply];
      var memory := FieldsOr(stored);
      memory := memory["last_interaction" := Interaction(userText, mode, reply)];
      stored := Doc(memory);
    }
  }
}
