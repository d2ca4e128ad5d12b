/** Task detection (engine/task_detector.py): keyword classification of the
    window title and of the process list, and the choice between the two.
    Confidences are integers in hundredths (0.9 is 90). */
module TaskDetector {
  import opened Wrappers
  import opened Text

  const Productive: seq<string> := [
    "vscode", "visual studio code", "pycharm", "clion", "code", ".py", ".c", ".cpp", ".rs",
    "terminal", "tilix", "konsole", "alacritty", "gnome-terminal", "kitty", "bash", "zsh",
    "vim", "nvim", "emacs", "jetbrains", "cargo", "make", "cmake", "git"]
  const Research: seq<string> := ["chrome", "firefox", "brave", "edge", "duckduckgo", "browser", "research"]
  const Entertainment: seq<string> := ["youtube", "netflix", "prime video", "spotify", "twitch"]
  const Chat: seq<string> := ["whatsapp", "telegram", "signal", "discord", "slack", "messenger"]
  const Devops: seq<string> := ["docker", "podman", "kubernetes", "kubectl", "helm"]

  datatype TaskType = Coding | ResearchTask | EntertainmentTask | Communication | DevopsTask | Unknown
  datatype Source = WindowTitle | Filename | Processes | Merged

  /** A task dictionary: `task_type`, `task_confidence` (hundredths), `source`. */
  datatype Detection = Detection(taskType: TaskType, confidence: nat, source: Source)

  /** One entry of the process list: `p.get("name", "")`, `p.get("cmd", "")`. */
  datatype ProcInfo = ProcInfo(name: string, cmd: string)

  /** The extensions the file-name regular expression looks for. */
  const Extensions: seq<string> := [".py", ".c", ".cpp", ".rs"]

  /** The regular expression `[-\w.]+\.(py|c|cpp|rs)` (case-insensitive) has a
      match ending its name part at `i`: a name character, then an extension. */
  predicate ExtensionAt(title: string, i: nat) {
    0 < i < |title| && IsNameChar(title[i - 1])
    && exists k :: 0 <= k < |Extensions| && StartsWith(Lower(title)[i..], Extensions[k])
  }

  predicate IsNameChar(c: char) {
    IsDigit(c) || IsUpper(c) || IsLowerLetter(c) || c == '_' || c == '-' || c == '.'
  }

  /** `detect_task_from_window`: productive, research, entertainment, chat, in
      that order; then the file-name search; else unknown at 0.2. */
  function FromWindow(title: string): (d: Detection)
    ensures d.source != Processes && d.source != Merged
    ensures d.taskType != DevopsTask
    ensures d.taskType == Coding ==> d.confidence == 90
    ensures d.taskType == ResearchTask ==> d.confidence == 85
    ensures d.taskType == EntertainmentTask ==> d.confidence == 95
    ensures d.taskType == Communication ==> d.confidence == 90
    ensures d.taskType == Unknown ==> d.confidence == 20 && d.source == WindowTitle
    ensures d.source == Filename ==> d.taskType == Coding
  {
    var t := Lower(title);
    if AnyIn(Productive, t) then Detection(Coding, 90, WindowTitle)
    else if AnyIn(Research, t) then Detection(ResearchTask, 85, WindowTitle)
    else if AnyIn(Entertainment, t) then Detection(EntertainmentTask, 95, WindowTitle)
    else if AnyIn(Chat, t) then Detection(Communication, 90, WindowTitle)
    else if exists i :: 0 < i < |title| && ExtensionAt(title, i) then Detection(Coding, 90, Filename)
    else Detection(Unknown, 20, WindowTitle)
  }

  /** `" ".join(name + " " + cmd for p in processes).lower()` */
  function ProcessText(procs: seq<ProcInfo>): string {
    Lower(Join(seq(|procs|, i requires 0 <= i < |procs| => procs[i].name + " " + procs[i].cmd), " "))
  }

  /** `detect_task_from_processes`: productive, devops, chat, entertainment,
      in that order; else unknown at 0.1. */
  function FromProcesses(procs: seq<ProcInfo>): (d: Detection)
    ensures d.source == Processes
    ensures d.taskType != ResearchTask
    ensures d.taskType == Coding ==> d.confidence == 80
    ensures d.taskType == DevopsTask ==> d.confidence == 90
    ensures d.taskType == Communication ==> d.confidence == 90
    ensures d.taskType == EntertainmentTask ==> d.confidence == 95
    ensures d.taskType == Unknown ==> d.confidence == 10
  {
    var names := ProcessText(procs);
    if AnyIn(Productive, names) then Detection(Coding, 80, Processes)
    else if AnyIn(Devops, names) then Detection(DevopsTask, 90, Processes)
    else if AnyIn(Chat, names) then Detection(Communication, 90, Processes)
    else if AnyIn(Entertainment, names) then Detection(EntertainmentTask, 95, Processes)
    else Detection(Unknown, 10, Processes)
  }

  /** `detect_task`: the more confident detection, the window one on a tie;
      two agreeing productive detections add 0.1, capped at 1.0. */
  function DetectTask(window: Option<string>, procs: seq<ProcInfo>): (d: Detection)
    ensures 10 <= d.confidence <= 100
  {
    Combine(FromWindow(window.GetOr("")), FromProcesses(procs))
  }

  /** The more confident detection (the window's on a tie), raised by 10 and
      marked merged when both agree on a productive type. */
  function Combine(win: Detection, proc: Detection): (d: Detection)
    requires win.source != Merged && proc.source != Merged
    ensures var chosen := if win.confidence >= proc.confidence then win else proc;
      && d.taskType == chosen.taskType
      && (d.source != Merged ==> d == chosen)
      && (d.source == Merged ==> d.confidence == if chosen.confidence + 10 < 100 then chosen.confidence + 10 else 100)
  {
    var result := if win.confidence >= proc.confidence then win else proc;
    if win.taskType == proc.taskType && win.taskType in {Coding, DevopsTask, ResearchTask} then
      result.(confidence := if result.confidence + 10 < 100 then result.confidence + 10 else 100, source := Merged)
    else result
  }

  // ---------------------------------------------------------------------------
  // Properties
  // ---------------------------------------------------------------------------

  /** The first keyword list with a hit decides the window's task type. */
  lemma WindowOrder(title: string)
    ensures FromWindow(title).taskType == Coding && FromWindow(title).source == WindowTitle
            <==> AnyIn(Productive, Lower(title))
    ensures FromWindow(title).taskType == ResearchTask
            <==> !AnyIn(Productive, Lower(title)) && AnyIn(Research, Lower(title))
    ensures FromWindow(title).taskType == EntertainmentTask
            <==> !AnyIn(Productive, Lower(title)) && !AnyIn(Research, Lower(title)) && AnyIn(Entertainment, Lower(title))
    ensures FromWindow(title).taskType == Communication
            <==> !AnyIn(Productive, Lower(title)) && !AnyIn(Research, Lower(title))
                 && !AnyIn(Entertainment, Lower(title)) && AnyIn(Chat, Lower(title))
  {
    var t := Lower(title);
    var d := FromWindow(title);
    if AnyIn(Productive, t) {
      assert d == Detection(Coding, 90, WindowTitle);
    } else if AnyIn(Research, t) {
      assert d == Detection(ResearchTask, 85, WindowTitle);
    } else if AnyIn(Entertainment, t) {
      assert d == Detection(EntertainmentTask, 95, WindowTitle);
    } else if AnyIn(Chat, t) {
      assert d == Detection(Communication, 90, WindowTitle);
    } else {
      assert d.taskType == Coding || d.taskType == Unknown;
    }
  }

  /** The first keyword list with a hit decides the processes' task type. */
  lemma ProcessOrder(procs: seq<ProcInfo>)
    ensures FromProcesses(procs).taskType == Coding <==> AnyIn(Productive, ProcessText(procs))
    ensures FromProcesses(procs).taskType == DevopsTask
            <==> !AnyIn(Productive, ProcessText(procs)) && AnyIn(Devops, ProcessText(procs))
    ensures FromProcesses(procs).taskType == Communication
            <==> !AnyIn(Productive, ProcessText(procs)) && !AnyIn(Devops, ProcessText(procs))
                 && AnyIn(Chat, ProcessText(procs))
    ensures FromProcesses(procs).taskType == Unknown <==>
            !AnyIn(Productive, ProcessText(procs)) && !AnyIn(Devops, ProcessText(procs))
            && !AnyIn(Chat, ProcessText(procs)) && !AnyIn(Entertainment, ProcessText(procs))
  {
  }

  /** Every file-name hit already contains a productive keyword (".py", ".c"
      or ".rs"), so the file-name fallback can never be reached. */
  lemma FilenameFallbackUnreachable(title: string)
    ensures FromWindow(title).source != Filename
  {
    var t := Lower(title);
    if exists i :: 0 < i < |title| && ExtensionAt(title, i) {
      var i :| 0 < i < |title| && ExtensionAt(title, i);
      var k :| 0 <= k < |Extensions| && StartsWith(t[i..], Extensions[k]);
      var j := ExtensionKeyword(k);
      PrefixContained(t, i, Extensions[k], Productive[j]);
      AnyInMember(Productive, t, j);
    }
  }

  /** Each extension starts with a productive keyword: ".cpp" with ".c". */
  lemma ExtensionKeyword(k: nat) returns (j: nat)
    requires k < |Extensions|
    ensures j < |Productive| && StartsWith(Extensions[k], Productive[j])
  {
    j := if k == 0 then 5 else if k == 3 then 8 else 6;
    assert Productive[5] == ".py" && Productive[6] == ".c" && Productive[8] == ".rs";
  }

  /** A text that has `e` at `i`, where `e` starts with `p`, contains `p`. */
  lemma PrefixContained(t: string, i: nat, e: string, p: string)
    requires i <= |t| && StartsWith(t[i..], e) && StartsWith(e, p)
    ensures Contains(t, p)
  {
    assert t[i..i + |p|] == t[i..][..|e|][..|p|];
    ContainsAt(t, p, i);
  }

  /** On equal confidence the window detection is chosen. */
  lemma TiesGoToWindow(window: Option<string>, procs: seq<ProcInfo>)
    requires FromWindow(window.GetOr("")).confidence >= FromProcesses(procs).confidence
    ensures DetectTask(window, procs).taskType == FromWindow(window.GetOr("")).taskType
    ensures DetectTask(window, procs).source != Processes
  {
  }

  /** Only coding is ever merged: windows never report devops and processes
      never report research. A merge reaches full confidence. */
  lemma OnlyCodingMerges(window: Option<string>, procs: seq<ProcInfo>)
    ensures DetectTask(window, procs).source == Merged ==>
      DetectTask(window, procs).taskType == Coding && DetectTask(window, procs).confidence == 100
    ensures DetectTask(window, procs).source == Merged <==>
      FromWindow(window.GetOr("")).taskType == Coding && FromProcesses(procs).taskType == Coding
  {
    CombineMerges(FromWindow(window.GetOr("")), FromProcesses(procs));
  }

  lemma CombineMerges(win: Detection, proc: Detection)
    requires win.source != Merged && win.taskType != DevopsTask && (win.taskType == Coding ==> win.confidence == 90)
    requires proc.source != Merged && proc.taskType != ResearchTask && (proc.taskType == Coding ==> proc.confidence == 80)
    ensures Combine(win, proc).source == Merged <==> win.taskType == Coding && proc.taskType == Coding
    ensures Combine(win, proc).source == Merged ==> Combine(win, proc).taskType == Coding && Combine(win, proc).confidence == 100
  {
  }
}
