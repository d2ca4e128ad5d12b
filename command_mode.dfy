/** Chat commands (engine/comand_mode.py): a trimmed, lower-cased chat line
    is matched against the lock, profile, status and score phrases, and the
    matching branch updates the Flow Lock state file. */
module CommandMode {
  import opened Wrappers
  import opened Text
  import opened Json
  import FlowControl
  import ScoreDashboard

  datatype ChatCommand =
    | LockOn
    | LockOff
    | ProfileCmd(name: string)
    | Shorthand(profile: string)
    | ShowStatus
    | ShowScore

  const OnPhrases: seq<string> := ["lock on", "activate lock", "enable lock"]
  const OffPhrases: seq<string> := ["lock off", "deactivate lock", "disable lock", "unlock"]
  const StatusPhrases: seq<string> := ["lock status", "status lock", "flow status"]
  const ScorePhrases: seq<string> := ["flow score", "show score"]
  const ShorthandProfiles: seq<string> := ["strict", "coding", "study", "break", "unlocked"]

  /** `re.match(prefix + "(.+)", t)` then `group(1).strip()`: the group runs
      from the end of the prefix to the first newline and must not be empty. */
  function MatchRest(t: string, prefix: string): (r: Option<string>)
    ensures r.Some? ==> StartsWith(t, prefix) && '\n' !in r.value
    ensures r.Some? && NoUpper(t) ==> NoUpper(r.value)
  {
    if !StartsWith(t, prefix) then None
    else
      var group := Before(t[|prefix|..], "\n");
      if group == [] then None
      else
        NoNewlineBefore(t[|prefix|..]);
        StripInside(group);
        assert NoUpper(t) ==> NoUpper(group) by {
          if NoUpper(t) {
            forall i | 0 <= i < |group| ensures !IsUpper(group[i]) {
              assert group[i] == t[|prefix| + i];
            }
          }
        }
        if NoUpper(t) then StripKeepsNoUpper(group); Some(Strip(group)) else Some(Strip(group))
  }

  /** `re.match("lock (strict|coding|study|break|unlocked)", t)`: the first
      alternative that follows "lock " at the start of `t`. */
  function MatchShorthand(t: string, alts: seq<string>): (r: Option<string>)
    ensures r.Some? ==> r.value in alts && StartsWith(t, "lock " + r.value)
    ensures r.None? ==> forall a :: a in alts ==> !StartsWith(t, "lock " + a)
  {
    if alts == [] then None
    else if StartsWith(t, "lock " + alts[0]) then Some(alts[0])
    else MatchShorthand(t, alts[1..])
  }

  /** The branch `try_parse_command` takes for an already normalised line. */
  function ParseNormal(t: string): Option<ChatCommand> {
    if t in OnPhrases then Some(LockOn)
    else if t in OffPhrases then Some(LockOff)
    else if MatchRest(t, "lock profile ").Some? then Some(ProfileCmd(MatchRest(t, "lock profile ").value))
    else if MatchRest(t, "switch profile ").Some? then Some(ProfileCmd(MatchRest(t, "switch profile ").value))
    else if MatchShorthand(t, ShorthandProfiles).Some? then Some(Shorthand(MatchShorthand(t, ShorthandProfiles).value))
    else if t in StatusPhrases then Some(ShowStatus)
    else if t in ScorePhrases then Some(ShowScore)
    else None
  }

  function Normalize(text: string): (t: string)
    ensures NoUpper(t)
  {
    Lower(Strip(text))
  }

  function Parse(text: string): Option<ChatCommand> {
    ParseNormal(Normalize(text))
  }

  /** What the function returns: a text, or the state record that `str()`
      renders for the status phrases; `None` is no command. */
  datatype ChatReply = Said(text: string) | StatusOf(state: map<string, Json>)

  function ReplyOf(c: ChatCommand, f: StoredFile, today: string, show: real -> string): ChatReply {
    match c
    case LockOn => Said("Flow Lock: ON")
    case LockOff => Said("Flow Lock: OFF")
    case ProfileCmd(n) => Said("Flow Lock profile set to: " + n)
    case Shorthand(n) => Said("Flow Lock: ON (profile=" + n + ")")
    case ShowStatus => StatusOf(FlowControl.ReadView(FlowControl.Ensured(f)))
    case ShowScore => Said(ScoreDashboard.Dashboard(ScoreDashboard.DailyScore(f, today), today, show))
  }

  /** The state file after the command. */
  function Effect(c: ChatCommand, f: StoredFile, now: int): StoredFile {
    match c
    case LockOn => Doc(FlowControl.Locked(f, true, now))
    case LockOff => Doc(FlowControl.Locked(f, false, now))
    case ProfileCmd(n) => Doc(FlowControl.Profiled(f, n, now))
    case Shorthand(n) => Doc(FlowControl.Locked(Doc(FlowControl.Profiled(f, n, now)), true, now))
    case ShowStatus => FlowControl.Ensured(f)
    case ShowScore => f
  }

  /** The lines the command's store calls append to control.log, in order. */
  function Logged(c: ChatCommand): seq<string> {
    match c
    case LockOn => [FlowControl.LockLine(true)]
    case LockOff => [FlowControl.LockLine(false)]
    case ProfileCmd(n) => [FlowControl.ProfileLine(n)]
    case Shorthand(n) => [FlowControl.ProfileLine(n), FlowControl.LockLine(true)]
    case ShowStatus => []
    case ShowScore => []
  }

  /** `try_parse_command(text)` against the state store: the first matching
      branch, as `Parse` picks it, runs its store calls. */
  method TryParseCommand(store: FlowControl.StateStore, text: string, now: int, today: string, show: real -> string)
    returns (r: Option<ChatReply>)
    modifies store
    ensures r == (if Parse(text).Some? then Some(ReplyOf(Parse(text).value, old(store.stored), today, show)) else None)
    ensures store.stored == (if Parse(text).Some? then Effect(Parse(text).value, old(store.stored), now) else old(store.stored))
    ensures store.logged == old(store.logged) + (if Parse(text).Some? then Logged(Parse(text).value) else [])
  {
    var parsed := Parse(text);
    if parsed.None? {
      return None;
    }
    var reply := RunCommand(store, parsed.value, now, today, show);
    r := Some(reply);
  }

  /** The body of the branch that matched: the store calls and the reply. */
  method RunCommand(store: FlowControl.StateStore, c: ChatCommand, now: int, today: string, show: real -> string)
    returns (reply: ChatReply)
    modifies store
    ensures reply == ReplyOf(c, old(store.stored), today, show)
    ensures store.stored == Effect(c, old(store.stored), now)
    ensures store.logged == old(store.logged) + Logged(c)
  {
    match c {
      case LockOn =>
        var _ := store.SetLock(true, now);
        reply := Said("Flow Lock: ON");
      case LockOff =>
        var _ := store.SetLock(false, now);
        reply := Said("Flow Lock: OFF");
      case ProfileCmd(n) =>
        var _ := store.SetProfile(n, now);
        reply := Said("Flow Lock profile set to: " + n);
      case Shorthand(n) =>
        var _ := store.SetProfile(n, now);
        var _ := store.SetLock(true, now);
        reply := Said("Flow Lock: ON (profile=" + n + ")");
      case ShowStatus =>
        var st := store.GetStatus();
        reply := StatusOf(st);
      case ShowScore =>
        var score := ScoreDashboard.DailyScore(store.stored, today);
        reply := Said(ScoreDashboard.Dashboard(score, today, show));
    }
  }

  // ---------------------------------------------------------------------------
  // Helpers about the regular-expression group
  // ---------------------------------------------------------------------------

  lemma NoNewlineBefore(s: string)
    ensures '\n' !in Before(s, "\n")
  {
    var b := Before(s, "\n");
    if '\n' in b {
      var j :| 0 <= j < |b| && b[j] == '\n';
      match IndexOf(s, "\n")
      case Some(i) =>
        assert StartsWith(s[j..], "\n");
      case None =>
        assert s[j..j + 1] == "\n";
        ContainsAt(s, "\n", j);
    }
  }

  lemma StripInside(s: string)
    ensures forall c :: c in Strip(s) ==> c in s
  {
    var l := StripLeft(s);
    var r := StripRight(l);
    assert Strip(s) == r;
    forall c | c in r ensures c in s {
      var k :| 0 <= k < |r| && r[k] == c;
      assert l[k] == c;
      assert s[|s| - |l| + k] == c;
    }
  }

  // ---------------------------------------------------------------------------
  // Properties
  // ---------------------------------------------------------------------------

  /** A profile name taken from the chat line is lower case: the line is
      lower-cased before it is matched. */
  lemma ProfileNamesLowercase(text: string)
    requires Parse(text).Some? && Parse(text).value.ProfileCmd?
    ensures NoUpper(Parse(text).value.name)
  {
    var t := Normalize(text);
    assert NoUpper(t);
  }

  /** The on phrases, and only they, set the lock on; the off phrases,
      "unlock" among them, and only they, set it off. */
  lemma OnOffPhrases(t: string)
    ensures ParseNormal(t) == Some(LockOn) <==> t in OnPhrases
    ensures ParseNormal(t) == Some(LockOff) <==> t in OffPhrases
  {
  }

  /** Turning the lock off keeps the profile. */
  lemma OffKeepsProfile(f: StoredFile, now: int)
    ensures Effect(LockOff, f, now).fields["lock_enabled"] == JBool(false)
    ensures "current_profile" in FlowControl.ReadView(FlowControl.Ensured(f)) ==>
      Effect(LockOff, f, now).fields["current_profile"] == FlowControl.ReadView(FlowControl.Ensured(f))["current_profile"]
  {
    FlowControl.LockFrame(f, false, now);
  }

  lemma UnlockIsOff(text: string)
    requires Normalize(text) == "unlock"
    ensures Parse(text) == Some(LockOff)
  {
    OnOffPhrases("unlock");
  }

  /** "lock profile X" and "switch profile X" set the profile and leave the
      lock flag as it was. */
  lemma ProfileKeepsLock(text: string, f: StoredFile, now: int)
    requires Parse(text).Some? && Parse(text).value.ProfileCmd?
    ensures Effect(Parse(text).value, f, now).fields["current_profile"] == JStr(Parse(text).value.name)
    ensures "lock_enabled" in FlowControl.ReadView(FlowControl.Ensured(f)) ==>
      Effect(Parse(text).value, f, now).fields["lock_enabled"] == FlowControl.ReadView(FlowControl.Ensured(f))["lock_enabled"]
    ensures "lock_enabled" !in FlowControl.ReadView(FlowControl.Ensured(f)) ==>
      "lock_enabled" !in Effect(Parse(text).value, f, now).fields
  {
    FlowControl.ProfileFrame(f, Parse(text).value.name, now);
  }

  /** The group is the stripped text from the end of the prefix up to the
      first line feed. */
  lemma MatchRestOf(prefix: string, x: string, tail: string)
    requires x != [] && '\n' !in x && (tail == [] || tail[0] == '\n')
    ensures MatchRest(prefix + x + tail, prefix) == Some(Strip(x))
  {
    var t := prefix + x + tail;
    PrefixStarts(prefix, x + tail);
    assert t == prefix + (x + tail);
    assert t[|prefix|..] == x + tail;
    BeforeBreak(x, tail);
  }

  /** Text right after the prefix that starts with a line feed is no match. */
  lemma MatchRestNeedsText(prefix: string, tail: string)
    requires tail == [] || tail[0] == '\n'
    ensures MatchRest(prefix + tail, prefix) == None
  {
    var t := prefix + tail;
    PrefixStarts(prefix, tail);
    assert t[|prefix|..] == [] + tail;
    BeforeBreak([], tail);
  }

  /** "lock profile X" and "switch profile X" set the profile to X stripped,
      where X is what follows the phrase up to the first line feed. */
  lemma ProfilePhrase(text: string, x: string, tail: string)
    requires x != [] && '\n' !in x && (tail == [] || tail[0] == '\n')
    requires Normalize(text) == "lock profile " + x + tail || Normalize(text) == "switch profile " + x + tail
    ensures Parse(text) == Some(ProfileCmd(Strip(x)))
  {
    var t := Normalize(text);
    NotOnOffPhrase(t);
    if t == "lock profile " + x + tail {
      MatchRestOf("lock profile ", x, tail);
    } else {
      assert t[0] == 's';
      assert !StartsWith(t, "lock profile ") by { assert t[0] != "lock profile "[0]; }
      MatchRestOf("switch profile ", x, tail);
    }
  }

  /** A line of fourteen or more characters starting with "l" or "s" is none
      of the on and off phrases. */
  lemma NotOnOffPhrase(t: string)
    requires |t| >= 14 && (t[0] == 'l' || t[0] == 's')
    ensures t !in OnPhrases && t !in OffPhrases
  {
    assert forall p :: p in OnPhrases ==> |p| < 14;
    assert forall p :: p in OffPhrases && |p| >= 14 ==> p[0] == 'd';
  }

  /** "lock <profile>" names one of the five shorthand profiles. */
  lemma ShorthandNamesKnown(text: string)
    requires Parse(text).Some? && Parse(text).value.Shorthand?
    ensures Parse(text).value.profile in ShorthandProfiles
  {
  }

  /** The shorthand sets its profile and then enables the lock. */
  lemma ShorthandEnables(n: string, f: StoredFile, now: int)
    ensures Effect(Shorthand(n), f, now).fields["lock_enabled"] == JBool(true)
    ensures Effect(Shorthand(n), f, now).fields["current_profile"] == JStr(n)
  {
    var g := Doc(FlowControl.Profiled(f, n, now));
    FlowControl.ProfileFrame(f, n, now);
    FlowControl.LockFrame(g, true, now);
  }

  /** The shorthand is anchored only at the start: "lock studying" selects
      the profile "study". */
  lemma LockStudying(text: string)
    requires Normalize(text) == "lock studying"
    ensures Parse(text) == Some(Shorthand("study"))
  {
    var t := Normalize(text);
    NotOnOff(t);
    NoProfileGroup(t);
    StudyMatches(t);
  }

  lemma NotOnOff(t: string)
    requires t == "lock studying"
    ensures t !in OnPhrases && t !in OffPhrases
  {
    assert |t| == 13;
  }

  lemma NoProfileGroup(t: string)
    requires t == "lock studying"
    ensures MatchRest(t, "lock profile ") == None && MatchRest(t, "switch profile ") == None
  {
    assert t[5] != "lock profile "[5];
    assert t[0] != "switch profile "[0];
  }

  lemma StudyMatches(t: string)
    requires t == "lock studying"
    ensures MatchShorthand(t, ShorthandProfiles) == Some("study")
  {
    var alts := ShorthandProfiles;
    assert !StartsWith(t, "lock " + alts[0]) by { assert t[7] != ("lock " + alts[0])[7]; }
    assert !StartsWith(t, "lock " + alts[1]) by { assert t[5] != ("lock " + alts[1])[5]; }
    assert StartsWith(t, "lock " + alts[2]) by { assert t[..10] == "lock " + alts[2]; }
    assert MatchShorthand(t, alts[2..]) == Some("study");
    assert alts[1..][1..] == alts[2..];
  }

  /** The status phrases only read the state (creating the default file when
      there is none) and the score phrases do not touch it. */
  lemma ReadOnlyPhrases(c: ChatCommand, f: StoredFile, now: int)
    requires c == ShowStatus || c == ShowScore
    ensures Effect(c, f, now) == FlowControl.Ensured(f) || Effect(c, f, now) == f
    ensures !f.Missing? ==> Effect(c, f, now) == f
  {
  }
}
