/** Shadow mode (shadow_mode.py): every few seconds the focused window is
    classified; a distracting focus that differs from the last one handled
    sends a drift prompt to the responder and a notification, and long idle
    time is treated as drift too. The probes (xprintidle, qdbus, xdotool,
    /proc) are inputs of each tick. */
module ShadowMode {
  import opened Wrappers
  import opened Text
  import opened Effects

  const DriftIdleMs := 5 * 60 * 1000
  const CheckInterval := 6

  const AppBlacklist: seq<string> := [
    "youtube", "netflix", "primevideo", "prime video", "instagram",
    "whatsapp", "discord", "reddit", "spotify", "twitter", "x",
    "tiktok", "steam", "game", "minecraft", "roblox", "facebook",
    "messenger", "snap", "twitch"]

  const TitleBlacklist: seq<string> := ["youtube", "spotify", "tiktok"]

  /** The whitelist entries are already lower case, so their `lower()` is the
      entry itself. */
  const Whitelist: seq<string> := [
    "archetype", "shadow_mode.py", "terminal", "konsole", "kitty",
    "python", "code", "pycharm", "vscode", "router.py", "vim",
    "nvim", "kate", "gedit", "intellij"]

  /** `PROC_TO_APP`, in the dictionary's insertion order. */
  const ProcToApp: seq<(string, string)> := [
    ("firefox", "firefox"), ("firefox-esr", "firefox"), ("chrome", "chrome"),
    ("chromium", "chromium"), ("google-chrome", "chrome"), ("discord", "discord"),
    ("spotify", "spotify"), ("steam", "steam"), ("org.kde.konsole", "konsole"),
    ("konsole", "konsole"), ("code", "vscode"), ("code-oss", "vscode"),
    ("sublime_text", "sublime"), ("vlc", "vlc"), ("thunderbird", "thunderbird")]

  const CorrectionTitle := "ArcheTYPE â€” Correction"

  /** Python truthiness of an optional string: present and not empty. */
  predicate Truthy(s: Option<string>) {
    s.Some? && s.value != []
  }

  // ---------------------------------------------------------------------------
  // Classifiers
  // ---------------------------------------------------------------------------

  /** The value of the entry whose key equals `p` (`p in PROC_TO_APP`). */
  function ExactApp(table: seq<(string, string)>, p: string): (r: Option<string>)
    ensures r.Some? <==> exists k :: 0 <= k < |table| && table[k].0 == p
    ensures r.Some? ==> exists k :: 0 <= k < |table| && table[k] == (p, r.value)
  {
    if table == [] then None
    else if table[0].0 == p then Some(table[0].1)
    else
      var r := ExactApp(table[1..], p);
      assert forall k :: 1 <= k < |table| ==> table[1..][k - 1] == table[k];
      r
  }

  /** The value of the first entry whose key occurs in `p`. */
  function SubstringApp(table: seq<(string, string)>, p: string): (r: Option<string>)
    ensures r.None? <==> forall k :: 0 <= k < |table| ==> !Contains(p, table[k].0)
    ensures r.Some? ==> exists k :: 0 <= k < |table| && Contains(p, table[k].0) && r.value == table[k].1
                                    && (forall j :: 0 <= j < k ==> !Contains(p, table[j].0))
  {
    if table == [] then None
    else if Contains(p, table[0].0) then Some(table[0].1)
    else
      var r := SubstringApp(table[1..], p);
      assert forall k :: 1 <= k < |table| ==> table[1..][k - 1] == table[k];
      if r.Some? then
        var k :| 0 <= k < |table[1..]| && Contains(p, table[1..][k].0) && r.value == table[1..][k].1
                 && (forall j :: 0 <= j < k ==> !Contains(p, table[1..][j].0));
        assert forall j :: 0 <= j < k + 1 ==> !Contains(p, table[j].0) by {
          forall j | 0 <= j < k + 1 ensures !Contains(p, table[j].0) {
            if j > 0 { assert table[j] == table[1..][j - 1]; }
          }
        }
        r
      else r
  }

  /** `map_proc_to_app` as a function of the process name. */
  function AppOf(proc: Option<string>): (app: Option<string>)
    ensures !Truthy(proc) <==> app.None?
  {
    if !Truthy(proc) then None
    else
      var p := Lower(proc.value);
      match ExactApp(ProcToApp, p)
      case Some(v) => Some(v)
      case None =>
        match SubstringApp(ProcToApp, p)
        case Some(v) => Some(v)
        case None => Some(p)
  }

  /** `map_proc_to_app`: the exact key, then the first key in table order
      that is a substring, then the lower-cased name itself. */
  method MapProcToApp(proc: Option<string>) returns (app: Option<string>)
    ensures app == AppOf(proc)
  {
    if !Truthy(proc) {
      return None;
    }
    var p := Lower(proc.value);
    var exact := ExactApp(ProcToApp, p);
    if exact.Some? {
      return exact;
    }
    app := FirstSubstringKey(ProcToApp, p);
    if app.None? {
      app := Some(p);
    }
  }

  /** The `for k, v in PROC_TO_APP.items()` loop: the value of the first key
      that occurs in `p`. */
  method FirstSubstringKey(table: seq<(string, string)>, p: string) returns (r: Option<string>)
    ensures r == SubstringApp(table, p)
  {
    var i := 0;
    while i < |table|
      invariant 0 <= i <= |table|
      invariant SubstringApp(table, p) == SubstringApp(table[i..], p)
    {
      assert table[i..][0] == table[i] && table[i..][1..] == table[i + 1..];
      var (k, v) := table[i];
      if Contains(p, k) {
        return Some(v);
      }
      i := i + 1;
    }
    return None;
  }

  /** `is_whitelisted(app_id, title)` */
  predicate Whitelisted(app: Option<string>, title: Option<string>) {
    (Truthy(title) && AnyIn(Whitelist, Lower(title.value)))
    || (Truthy(app) && AnyIn(Whitelist, Lower(app.value)))
  }

  /** `is_distracting(app_id, title)` */
  predicate Distracting(app: Option<string>, title: Option<string>) {
    (Truthy(app) && AnyIn(AppBlacklist, Lower(app.value)))
    || (Truthy(title) && AnyIn(TitleBlacklist, Lower(title.value)))
  }

  method IsWhitelisted(app: Option<string>, title: Option<string>) returns (b: bool)
    ensures b == Whitelisted(app, title)
  {
    if Truthy(title) {
      b := FindIn(Whitelist, Lower(title.value));
      if b {
        return;
      }
    }
    if Truthy(app) {
      b := FindIn(Whitelist, Lower(app.value));
      if b {
        return;
      }
    }
    return false;
  }

  method IsDistracting(app: Option<string>, title: Option<string>) returns (b: bool)
    ensures b == Distracting(app, title)
  {
    if Truthy(app) {
      b := FindIn(AppBlacklist, Lower(app.value));
      if b {
        return;
      }
    }
    if Truthy(title) {
      b := FindIn(TitleBlacklist, Lower(title.value));
      if b {
        return;
      }
    }
    return false;
  }

  /** Whitelisted exactly when some entry occurs in the lower-cased title or
      application id; never when both are absent or empty. */
  lemma WhitelistedIff(app: Option<string>, title: Option<string>)
    ensures Whitelisted(app, title) <==>
      (Truthy(title) && exists k :: 0 <= k < |Whitelist| && Contains(Lower(title.value), Whitelist[k]))
      || (Truthy(app) && exists k :: 0 <= k < |Whitelist| && Contains(Lower(app.value), Whitelist[k]))
    ensures !Truthy(app) && !Truthy(title) ==> !Whitelisted(app, title)
  {
    if Truthy(title) {
      AnyInIff(Whitelist, Lower(title.value));
    }
    if Truthy(app) {
      AnyInIff(Whitelist, Lower(app.value));
    }
  }

  /** Distracting exactly when an application entry occurs in the lower-cased
      application id or a title entry in the lower-cased title. */
  lemma DistractingIff(app: Option<string>, title: Option<string>)
    ensures Distracting(app, title) <==>
      (Truthy(app) && exists k :: 0 <= k < |AppBlacklist| && Contains(Lower(app.value), AppBlacklist[k]))
      || (Truthy(title) && exists k :: 0 <= k < |TitleBlacklist| && Contains(Lower(title.value), TitleBlacklist[k]))
  {
    if Truthy(app) {
      AnyInIff(AppBlacklist, Lower(app.value));
    }
    if Truthy(title) {
      AnyInIff(TitleBlacklist, Lower(title.value));
    }
  }

  // ---------------------------------------------------------------------------
  // Probes
  // ---------------------------------------------------------------------------

  /** `get_idle_ms_xprintidle`: the stripped output of xprintidle when it is
      all digits, else 0 (also when the command failed). */
  function ParseIdle(out: Option<string>): (ms: nat)
    ensures !(out.Some? && IsDigits(out.value)) ==> ms == 0
    ensures out.Some? && IsDigits(out.value) ==> ms == DigitsValue(out.value)
  {
    if out.Some? && IsDigits(out.value) then DigitsValue(out.value) else 0
  }

  /** Where the focus came from, the application id and the window title. */
  datatype Focus = Focus(source: string, app: Option<string>, title: Option<string>)

  /** `get_title_qdbus` on the qdbus output: the output stripped, unless
      nothing is left of it. */
  function QdbusTitle(out: Option<string>): (t: Option<string>)
    ensures t.Some? <==> out.Some? && Strip(out.value) != []
    ensures t.Some? ==> t.value == Strip(out.value)
    ensures t.Some? ==> !IsSpace(t.value[0]) && !IsSpace(t.value[|t.value| - 1])
  {
    if out.Some? && Strip(out.value) != [] then Some(Strip(out.value)) else None
  }

  /** `detect_focus`: a qdbus title first, read for the browser names; else
      the xdotool pid (0 counts as none) and its process name; else
      "unknown". */
  function DetectFocus(qdbusOut: Option<string>, pid: Option<nat>, procName: Option<string>): (f: Focus)
    ensures f.source == "qdbus" <==> QdbusTitle(qdbusOut).Some?
    ensures f.source == "xdotool-pid" <==> QdbusTitle(qdbusOut).None? && pid.Some? && pid.value != 0
    ensures f.source == "unknown" <==> QdbusTitle(qdbusOut).None? && (pid.None? || pid.value == 0)
    ensures f.source == "qdbus" ==> f.title == QdbusTitle(qdbusOut)
    ensures f.source == "xdotool-pid" ==> f.app == AppOf(procName) && f.title.None?
    ensures f.source == "unknown" ==> f.app.None? && f.title.None?
  {
    match QdbusTitle(qdbusOut)
    case Some(title) =>
      var tlow := Lower(title);
      if Contains(tlow, "youtube") then Focus("qdbus", Some("youtube"), Some(title))
      else if Contains(tlow, "firefox") || Contains(tlow, "mozilla") then Focus("qdbus", Some("firefox"), Some(title))
      else if Contains(tlow, "chromium") || Contains(tlow, "chrome") then Focus("qdbus", Some("chrome"), Some(title))
      else Focus("qdbus", None, Some(title))
    case None =>
      if pid.Some? && pid.value != 0 then Focus("xdotool-pid", AppOf(procName), None)
      else Focus("unknown", None, None)
  }

  // ---------------------------------------------------------------------------
  // Drift handling and the loop
  // ---------------------------------------------------------------------------

  /** `" | ".join(ctx)` over the fields that are present. */
  function DriftContext(source: Option<string>, app: Option<string>, title: Option<string>): string {
    Join((if Truthy(source) then ["source=" + source.value] else [])
         + (if Truthy(app) then ["app=" + app.value] else [])
         + (if Truthy(title) then ["title=" + title.value] else []), " | ")
  }

  /** The responder's text, or the message of what it raised. */
  function ResponseText(reply: Reply): string {
    match reply
    case Answer(t) => t
    case Raised(e) => "[shadow error] " + e
  }

  /** `handle_drift`: log the context, ask the responder, log its reply on one
      line and notify with at most 300 characters of it. */
  function HandleDrift(source: Option<string>, app: Option<string>, title: Option<string>, respond: string -> Reply): seq<Event> {
    var context := DriftContext(source, app, title);
    var prompt := "I am drifting. " + context;
    var line := OneLine(ResponseText(respond(prompt)));
    [Log("[DRIFT DETECTED] " + context), Ask(prompt), Log("[response] " + line), Notify(CorrectionTitle, Take(line, 300))]
  }

  /** The probe outputs of one iteration. */
  datatype ShadowTick = ShadowTick(idleOut: Option<string>, qdbusOut: Option<string>, pid: Option<nat>, procName: Option<string>)

  /** The `(app_id, title)` pair of the last focus handled as drift. */
  type Seen = (Option<string>, Option<string>)

  function ShowApp(app: Option<string>): string {
    if app.Some? then app.value else "None"
  }

  function FocusLine(f: Focus): string {
    if Truthy(f.title) then "[focus] " + f.source + " app=" + ShowApp(f.app) + " title=" + f.title.value
    else "[focus] " + f.source + " app=" + ShowApp(f.app)
  }

  /** One iteration of the `while True` loop: its events and the new `last_seen`. */
  function Step(last: Seen, tick: ShadowTick, respond: string -> Reply): (seq<Event>, Seen) {
    if ParseIdle(tick.idleOut) >= DriftIdleMs then
      (HandleDrift(Some("idle"), None, None, respond) + [Sleep(30)], last)
    else
      FocusStep(last, DetectFocus(tick.qdbusOut, tick.pid, tick.procName), respond)
  }

  /** The part of an iteration that follows a focus probe, when not idle. */
  function FocusStep(last: Seen, f: Focus, respond: string -> Reply): (seq<Event>, Seen) {
    var logged := [Log(FocusLine(f))];
    if Whitelisted(f.app, f.title) then (logged + [Sleep(CheckInterval)], last)
    else if Distracting(f.app, f.title) then
      if (f.app, f.title) != last then
        (logged + HandleDrift(Some(f.source), f.app, f.title, respond) + [Sleep(20)], (f.app, f.title))
      else (logged + [Sleep(20)], last)
    else (logged + [Sleep(CheckInterval)], last)
  }

  function Run(last: Seen, ticks: seq<ShadowTick>, respond: string -> Reply): seq<Event>
    decreases |ticks|
  {
    if ticks == [] then []
    else
      var step := Step(last, ticks[0], respond);
      step.0 + Run(step.1, ticks[1..], respond)
  }

  lemma RunFrom(last: Seen, ticks: seq<ShadowTick>, i: nat, respond: string -> Reply)
    requires i < |ticks|
    ensures Run(last, ticks[i..], respond)
         == Step(last, ticks[i], respond).0 + Run(Step(last, ticks[i], respond).1, ticks[i + 1..], respond)
  {
    assert ticks[i..][0] == ticks[i] && ticks[i..][1..] == ticks[i + 1..];
  }

  /** The body of the loop for one tick. */
  method HandleTick(last: Seen, tick: ShadowTick, respond: string -> Reply) returns (step: seq<Event>, seen: Seen)
    ensures (step, seen) == Step(last, tick, respond)
  {
    seen := last;
    if ParseIdle(tick.idleOut) >= DriftIdleMs {
      step := HandleDrift(Some("idle"), None, None, respond) + [Sleep(30)];
      return;
    }
    var f := DetectFocus(tick.qdbusOut, tick.pid, tick.procName);
    step := [Log(FocusLine(f))];
    var white := IsWhitelisted(f.app, f.title);
    if white {
      step := step + [Sleep(CheckInterval)];
      return;
    }
    var bad := IsDistracting(f.app, f.title);
    if bad {
      if (f.app, f.title) != last {
        step := step + HandleDrift(Some(f.source), f.app, f.title, respond);
        seen := (f.app, f.title);
      }
      step := step + [Sleep(20)];
    } else {
      step := step + [Sleep(CheckInterval)];
    }
  }

  /** `shadow_loop`, carrying `last_seen` from one iteration to the next. */
  method ShadowLoop(ticks: seq<ShadowTick>, respond: string -> Reply) returns (events: seq<Event>)
    ensures events == [Log("Shadow Mode (multi-strategy) starting.")] + Run((None, None), ticks, respond)
  {
    events := [Log("Shadow Mode (multi-strategy) starting.")];
    var lastSeen: Seen := (None, None);
    var i := 0;
    while i < |ticks|
      invariant 0 <= i <= |ticks|
      invariant [Log("Shadow Mode (multi-strategy) starting.")] + Run((None, None), ticks, respond)
             == events + Run(lastSeen, ticks[i..], respond)
    {
      var prev := lastSeen;
      var step;
      step, lastSeen := HandleTick(prev, ticks[i], respond);
      RunFrom(prev, ticks, i, respond);
      assert events + Run(prev, ticks[i..], respond) == (events + step) + Run(lastSeen, ticks[i + 1..], respond);
      events := events + step;
      i := i + 1;
    }
    assert ticks[i..] == [];
  }

  // ---------------------------------------------------------------------------
  // Properties
  // ---------------------------------------------------------------------------

  predicate NoAsk(events: seq<Event>) {
    forall i :: 0 <= i < |events| ==> !events[i].Ask?
  }

  /** `last_seen` moves only when a tick that is not idle has a focus that is
      distracting, not whitelisted and new; that tick then asks the responder
      exactly once, about that focus. */
  lemma SeenChangesOnlyOnDrift(last: Seen, tick: ShadowTick, respond: string -> Reply)
    ensures var f := DetectFocus(tick.qdbusOut, tick.pid, tick.procName);
      Step(last, tick, respond).1 != last <==>
        ParseIdle(tick.idleOut) < DriftIdleMs && !Whitelisted(f.app, f.title) && Distracting(f.app, f.title)
        && (f.app, f.title) != last
    ensures Step(last, tick, respond).1 != last ==>
      Step(last, tick, respond).1 == (DetectFocus(tick.qdbusOut, tick.pid, tick.procName).app,
                                      DetectFocus(tick.qdbusOut, tick.pid, tick.procName).title)
  {
  }

  /** A focus that is whitelisted, not distracting or a repeat asks nothing and
      keeps `last_seen`. */
  lemma FocusStepQuiet(last: Seen, f: Focus, respond: string -> Reply)
    requires Whitelisted(f.app, f.title) || !Distracting(f.app, f.title) || (f.app, f.title) == last
    ensures NoAsk(FocusStep(last, f, respond).0)
    ensures FocusStep(last, f, respond).1 == last
  {
    var logged := [Log(FocusLine(f))];
    assert FocusStep(last, f, respond).0 == logged + [Sleep(CheckInterval)]
        || FocusStep(last, f, respond).0 == logged + [Sleep(20)];
  }

  /** A whitelisted focus never drifts, even when it is also distracting. */
  lemma WhitelistedNeverDrifts(last: Seen, tick: ShadowTick, respond: string -> Reply)
    requires ParseIdle(tick.idleOut) < DriftIdleMs
    requires var f := DetectFocus(tick.qdbusOut, tick.pid, tick.procName); Whitelisted(f.app, f.title)
    ensures NoAsk(Step(last, tick, respond).0)
    ensures Step(last, tick, respond).1 == last
  {
    var f := DetectFocus(tick.qdbusOut, tick.pid, tick.procName);
    FocusStepQuiet(last, f, respond);
    assert Step(last, tick, respond) == FocusStep(last, f, respond);
  }

  /** The same distracting focus twice in a row is handled once: the second
      tick only logs and cools down. */
  lemma RepeatSuppressed(last: Seen, tick: ShadowTick, respond: string -> Reply)
    requires ParseIdle(tick.idleOut) < DriftIdleMs
    requires var f := DetectFocus(tick.qdbusOut, tick.pid, tick.procName); (f.app, f.title) == last
    ensures NoAsk(Step(last, tick, respond).0)
    ensures Step(last, tick, respond).1 == last
  {
    var f := DetectFocus(tick.qdbusOut, tick.pid, tick.procName);
    FocusStepQuiet(last, f, respond);
    assert Step(last, tick, respond) == FocusStep(last, f, respond);
  }

  /** A neutral focus neither drifts nor clears `last_seen`. */
  lemma NeutralKeepsLastSeen(last: Seen, tick: ShadowTick, respond: string -> Reply)
    requires ParseIdle(tick.idleOut) < DriftIdleMs
    requires var f := DetectFocus(tick.qdbusOut, tick.pid, tick.procName); !Distracting(f.app, f.title)
    ensures NoAsk(Step(last, tick, respond).0)
    ensures Step(last, tick, respond).1 == last
  {
    var f := DetectFocus(tick.qdbusOut, tick.pid, tick.procName);
    FocusStepQuiet(last, f, respond);
    assert Step(last, tick, respond) == FocusStep(last, f, respond);
  }

  /** Idle time of at least five minutes is drift with source "idle", and the
      focus probes are not looked at in that tick. */
  lemma IdleIsDrift(last: Seen, tick: ShadowTick, other: ShadowTick, respond: string -> Reply)
    requires ParseIdle(tick.idleOut) >= DriftIdleMs && other.idleOut == tick.idleOut
    ensures Step(last, tick, respond) == Step(last, other, respond)
    ensures Step(last, tick, respond).0[1] == Ask("I am drifting. source=idle")
    ensures Step(last, tick, respond).1 == last
  {
    IdleStep(last, tick, respond);
    IdleStep(last, other, respond);
    var d := HandleDrift(Some("idle"), None, None, respond);
    IdleAsks(respond);
    assert (d + [Sleep(30)])[1] == d[1];
  }

  lemma IdleAsks(respond: string -> Reply)
    ensures |HandleDrift(Some("idle"), None, None, respond)| == 4
    ensures HandleDrift(Some("idle"), None, None, respond)[1] == Ask("I am drifting. source=idle")
  {
    IdleContext();
  }

  lemma IdleStep(last: Seen, tick: ShadowTick, respond: string -> Reply)
    requires ParseIdle(tick.idleOut) >= DriftIdleMs
    ensures Step(last, tick, respond) == (HandleDrift(Some("idle"), None, None, respond) + [Sleep(30)], last)
  {
  }

  lemma IdleContext()
    ensures DriftContext(Some("idle"), None, None) == "source=idle"
  {
    assert DriftContext(Some("idle"), None, None) == Join(["source=idle"], " | ");
  }

  /** The app read from a qdbus title: "youtube" when the lower-cased title
      names YouTube; else "firefox" for Firefox or Mozilla; else "chrome" for
      Chromium or Chrome; else none. */
  lemma TitleApps(qdbusOut: Option<string>, pid: Option<nat>, procName: Option<string>)
    requires QdbusTitle(qdbusOut).Some?
    ensures var f, low := DetectFocus(qdbusOut, pid, procName), Lower(QdbusTitle(qdbusOut).value);
      var youtube := Contains(low, "youtube");
      var firefox := Contains(low, "firefox") || Contains(low, "mozilla");
      var chrome := Contains(low, "chromium") || Contains(low, "chrome");
      && (f.app == Some("youtube") <==> youtube)
      && (f.app == Some("firefox") <==> !youtube && firefox)
      && (f.app == Some("chrome") <==> !youtube && !firefox && chrome)
      && (f.app.None? <==> !youtube && !firefox && !chrome)
  {
  }

  /** A title naming YouTube is the "youtube" app even when it also names a
      browser. */
  lemma YoutubeBeforeBrowsers(qdbusOut: Option<string>, pid: Option<nat>, procName: Option<string>)
    requires QdbusTitle(qdbusOut).Some? && Contains(Lower(QdbusTitle(qdbusOut).value), "youtube")
    ensures DetectFocus(qdbusOut, pid, procName).app == Some("youtube")
  {
  }

  /** "x" is an application blacklist entry, so any application id with an
      "x" in it, "firefox" among them, is distracting. */
  lemma AnyXIsDistracting(app: string, title: Option<string>)
    requires Contains(Lower(app), "x")
    ensures Distracting(Some(app), title)
  {
    assert AppBlacklist[10] == "x";
    AnyInMember(AppBlacklist, Lower(app), 10);
  }

  lemma FirefoxIsDistracting()
    ensures Distracting(Some("firefox"), None)
  {
    var l := Lower("firefox");
    assert l[6] == 'x';
    assert l[6..7] == "x";
    ContainsAt(l, "x", 6);
    AnyXIsDistracting("firefox", None);
  }

  /** The notification body is one line of at most 300 characters. */
  lemma NotificationBounded(source: Option<string>, app: Option<string>, title: Option<string>, respond: string -> Reply)
    ensures |HandleDrift(source, app, title, respond)| == 4
    ensures HandleDrift(source, app, title, respond)[3].Notify?
    ensures |HandleDrift(source, app, title, respond)[3].body| <= 300
    ensures '\n' !in HandleDrift(source, app, title, respond)[3].body
  {
    var line := OneLine(ResponseText(respond("I am drifting. " + DriftContext(source, app, title))));
    assert forall c :: c in Take(line, 300) ==> c in line;
  }

  /** The context names only the fields that are present. */
  lemma ContextFields(s: string, a: string, t: string)
    requires s != [] && a != [] && t != []
    ensures DriftContext(Some(s), Some(a), Some(t)) == "source=" + s + " | app=" + a + " | title=" + t
    ensures DriftContext(Some(s), None, None) == "source=" + s
    ensures DriftContext(Some(s), None, Some(t)) == "source=" + s + " | title=" + t
    ensures DriftContext(None, None, None) == ""
  {
    var three := ["source=" + s, "app=" + a, "title=" + t];
    assert ["source=" + s] + ["app=" + a] + ["title=" + t] == three;
    assert three[1..][1..] == ["title=" + t];
    assert Join(three[1..], " | ") == "app=" + a + " | " + "title=" + t;
    var two := ["source=" + s, "title=" + t];
    assert ["source=" + s] + [] + ["title=" + t] == two;
    assert two[1..] == ["title=" + t];
  }

  /** `map_proc_to_app`: an exact key gives its id, and a name with no key in
      it is returned lower-cased. */
  lemma AppOfCases(proc: string)
    requires proc != []
    ensures (exists k :: 0 <= k < |ProcToApp| && ProcToApp[k].0 == Lower(proc)) ==>
      exists k :: 0 <= k < |ProcToApp| && ProcToApp[k] == (Lower(proc), AppOf(Some(proc)).value)
    ensures (forall k :: 0 <= k < |ProcToApp| ==> !Contains(Lower(proc), ProcToApp[k].0)) ==>
      AppOf(Some(proc)) == Some(Lower(proc))
  {
  }
}
