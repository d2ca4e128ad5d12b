/** The intent executor (engine/intent_executor.py): the shell command lines
    each action of an intent starts, in order. Starting a process is recorded
    as appending its command line to `ran`. */
module IntentExecutor {
  import opened Wrappers
  import opened Text
  import opened Seqs

  /** One action of an intent, by its `type` field. */
  datatype Action =
    | LaunchApp(app: string, path: Option<string>)
    | Terminal(command: string)
    | BrowserTabs(tabs: seq<string>)
    | Notification(message: string)
    | OtherAction(kind: string)

  /** `"{s}"`: the text between double quotes. */
  function Quoted(s: string): (q: string)
    ensures |q| == |s| + 2 && q[0] == '"' && q[|q| - 1] == '"' && q[1..|q| - 1] == s
  {
    "\"" + s + "\""
  }

  function TabCommand(tab: string): (c: string)
    ensures StartsWith(c, "xdg-open ") && c[9..] == Quoted(tab)
  {
    var c := "xdg-open " + Quoted(tab);
    PrefixStarts("xdg-open ", Quoted(tab));
    c
  }

  /** The command lines of the tab loop after it has seen `tabs`. */
  function TabCommands(tabs: seq<string>): (cs: seq<string>)
    ensures |cs| == |tabs|
    ensures forall i :: 0 <= i < |tabs| ==> cs[i] == TabCommand(tabs[i])
  {
    if tabs == [] then [] else TabCommands(tabs[..|tabs| - 1]) + [TabCommand(tabs[|tabs| - 1])]
  }

  /** The command lines `execute_action(action)` starts, in order. */
  function Commands(a: Action, home: string): (cs: seq<string>)
    ensures a.LaunchApp? ==> cs == [a.app + " " + Quoted(ExpandUser(a.path.GetOr("~"), home)) + " &"]
    ensures a.Terminal? ==> cs == [Quoted(a.command)]
    ensures a.BrowserTabs? ==> |cs| == |a.tabs| && forall i :: 0 <= i < |cs| ==> cs[i] == TabCommand(a.tabs[i])
    ensures a.Notification? ==> cs == ["notify-send " + Quoted("ArcheTYPE") + " " + Quoted(a.message)]
    ensures a.OtherAction? ==> cs == []
  {
    match a
    case LaunchApp(app, path) => [app + " " + Quoted(ExpandUser(path.GetOr("~"), home)) + " &"]
    case Terminal(command) => [Quoted(command)]
    case BrowserTabs(tabs) => TabCommands(tabs)
    case Notification(message) => ["notify-send " + Quoted("ArcheTYPE") + " " + Quoted(message)]
    case OtherAction(_) => []
  }

  /** A launch without a path opens the home directory, in the background:
      `home` as it is when it has no trailing slash, and `/` when it is `/`. */
  lemma LaunchDefaultsToHome(app: string, home: string)
    ensures home != [] && home[|home| - 1] != '/' ==>
      Commands(LaunchApp(app, None), home) == [app + " " + Quoted(home) + " &"]
    ensures home == "/" ==> Commands(LaunchApp(app, None), home) == [app + " " + Quoted("/") + " &"]
  {
    if home != [] && home[|home| - 1] != '/' {
      ExpandUserPlainHome(home, "");
    }
    if home == "/" {
      ExpandUserRootHome("");
    }
  }

  /** Each command line gives back the action's argument: the quoted path
      and the `&` of a launch, the terminal command between the quotes, the
      tab of each `xdg-open`, and the message of a notification. */
  lemma ArgumentsRecoverable(a: Action, home: string)
    ensures var cs := Commands(a, home);
      && (a.LaunchApp? ==> |cs| == 1 && StartsWith(cs[0], a.app + " ") && cs[0][|cs[0]| - 2..] == " &"
                           && |a.app| + 2 <= |cs[0]| - 3
                           && cs[0][|a.app| + 2..|cs[0]| - 3] == ExpandUser(a.path.GetOr("~"), home))
      && (a.Terminal? ==> |cs| == 1 && cs[0][1..|cs[0]| - 1] == a.command)
      && (a.BrowserTabs? ==> forall i :: 0 <= i < |cs| ==> cs[i][10..|cs[i]| - 1] == a.tabs[i])
      && (a.Notification? ==> |cs| == 1 && cs[0][25..|cs[0]| - 1] == a.message)
  {
    var cs := Commands(a, home);
    match a {
      case LaunchApp(app, path) =>
        var p := ExpandUser(path.GetOr("~"), home);
        var q := Quoted(p);
        PrefixStarts(app + " ", q + " &");
        assert cs[0] == (app + " ") + (q + " &");
        assert cs[0][|app| + 1..|app| + 1 + |q|] == q;
        assert cs[0][|app| + 2..|cs[0]| - 3] == q[1..|q| - 1];
      case Terminal(_) =>
      case BrowserTabs(tabs) =>
        forall i | 0 <= i < |cs|
          ensures cs[i][10..|cs[i]| - 1] == tabs[i]
        {
          var q := Quoted(tabs[i]);
          assert cs[i][9..] == q;
          assert cs[i][10..|cs[i]| - 1] == q[1..|q| - 1];
        }
      case Notification(message) =>
        var q := Quoted(message);
        var head := "notify-send " + Quoted("ArcheTYPE") + " ";
        assert cs[0] == head + q;
        assert cs[0][24..] == q;
        assert cs[0][25..|cs[0]| - 1] == q[1..|q| - 1];
      case OtherAction(_) =>
    }
  }

  /** The command lines of a whole intent: the actions' command lines in order. */
  function IntentCommands(actions: seq<Action>, home: string): seq<string> {
    FlatMap(actions, (a: Action) => Commands(a, home))
  }

  /** Running two lists of actions one after the other starts the command
      lines of the first list, then those of the second. */
  lemma IntentInOrder(first: seq<Action>, second: seq<Action>, home: string)
    ensures IntentCommands(first + second, home) == IntentCommands(first, home) + IntentCommands(second, home)
  {
    FlatMapAppend(first, second, (a: Action) => Commands(a, home));
  }

  lemma IntentCommandsSnoc(actions: seq<Action>, i: int, home: string)
    requires 0 <= i < |actions|
    ensures IntentCommands(actions[..i + 1], home) == IntentCommands(actions[..i], home) + Commands(actions[i], home)
  {
    FlatMapSnoc(actions, i, (a: Action) => Commands(a, home));
  }

  class Executor {
    /** The command lines handed to the shell so far. */
    var ran: seq<string>

    constructor ()
      ensures ran == []
    {
      ran := [];
    }

    /** `run_cmd(cmd)`: the shell is started in the background; a failure to
        start it is only printed. */
    method RunCmd(cmd: string)
      modifies this
      ensures ran == old(ran) + [cmd]
    {
      ran := ran + [cmd];
    }

    /** The `for t in tabs` loop of a `browser_tabs` action. */
    method OpenTabs(tabs: seq<string>)
      modifies this
      ensures ran == old(ran) + TabCommands(tabs)
    {
      var i := 0;
      while i < |tabs|
        invariant 0 <= i <= |tabs|
        invariant ran == old(ran) + TabCommands(tabs[..i])
      {
        assert tabs[..i + 1][..i] == tabs[..i];
        AppendAssoc(old(ran), TabCommands(tabs[..i]), [TabCommand(tabs[i])]);
        RunCmd(TabCommand(tabs[i]));
        i := i + 1;
      }
      assert tabs[..i] == tabs;
    }

    /** `execute_action(action)` */
    method ExecuteAction(a: Action, home: string)
      modifies this
      ensures ran == old(ran) + Commands(a, home)
    {
      match a {
        case LaunchApp(app, path) =>
          var p := ExpandUser(path.GetOr("~"), home);
          RunCmd(app + " " + Quoted(p) + " &");
        case Terminal(command) =>
          var full := Quoted(command);
          RunCmd(full);
        case BrowserTabs(tabs) =>
          OpenTabs(tabs);
        case Notification(message) =>
          RunCmd("notify-send " + Quoted("ArcheTYPE") + " " + Quoted(message));
        case OtherAction(_) =>
      }
    }

    /** `execute_intent(intent_data)`: every action in list order. */
    method ExecuteIntent(actions: seq<Action>, home: string)
      modifies this
      ensures ran == old(ran) + IntentCommands(actions, home)
    {
      var i := 0;
      while i < |actions|
        invariant 0 <= i <= |actions|
        invariant ran == old(ran) + IntentCommands(actions[..i], home)
      {
        IntentCommandsSnoc(actions, i, home);
        AppendAssoc(old(ran), IntentCommands(actions[..i], home), Commands(actions[i], home));
        ExecuteAction(actions[i], home);
        i := i + 1;
      }
      assert actions[..i] == actions;
    }
  }
}
