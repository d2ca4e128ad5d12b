/** The rule engine (rules_engine.py): drift detection on free text, the
    choice of reply mode, and the prompt sent to a responder. */
module RulesEngine {
  import opened Wrappers
  import opened Text

  const DriftWords: seq<string> :=
    ["stuck", "bored", "procrastin", "lost", "demotiv", "can't", "cant", "blocked", "overwhelmed", "demotivated"]
  const SummonPhrases: seq<string> := ["summon archetype", "wake archetype", "archetype", "voice archetype"]
  const HelpWords: seq<string> := ["help", "motivate", "stuck", "blocked"]

  const Instruction :=
    "Respond as ArcheTYPE: one-line diagnosis (<=1 sentence), one high-impact next action (timeboxed), one measurable metric. Keep under 60 words.\n\n"

  datatype Mode = Silence | Voice | TextReply {
    /** The mode's name as `decide_mode` returns it. */
    function Name(): string {
      match this
      case Silence => "silence"
      case Voice => "voice"
      case TextReply => "text"
    }
  }

  /** `detect_drift(text)`, with `None` for a missing text. */
  function DetectDrift(text: Option<string>): (r: bool)
    ensures text.None? || text == Some("") ==> !r
    ensures r <==> text.Some? && exists k :: 0 <= k < |DriftWords| && Contains(Lower(text.value), DriftWords[k])
  {
    if text.None? || text.value == "" then false
    else
      AnyInIff(DriftWords, Lower(text.value));
      AnyIn(DriftWords, Lower(text.value))
  }

  /** `decide_mode(text)`; the context argument is never consulted. */
  function DecideMode(text: Option<string>): (m: Mode)
    ensures m == Silence <==> text.None?
    ensures m == Voice <==> text.Some? && AnyIn(SummonPhrases, Lower(text.value)) && WordCount(Lower(text.value)) < 10
    // the drift branch and the fallback give the same mode
    ensures m == TextReply <==> text.Some? && m != Voice
  {
    if text.None? then Silence
    else
      var l := Lower(text.value);
      if AnyIn(SummonPhrases, l) && WordCount(l) < 10 then Voice
      else if DetectDrift(text) || AnyIn(HelpWords, l) then TextReply
      else TextReply
  }

  lemma {:induction false} ContainsTrans(s: string, t: string, u: string)
    requires Contains(s, t) && Contains(t, u)
    ensures Contains(s, u)
  {
    var i := ContainsWitness(s, t);
    var j := ContainsWitness(t, u);
    assert forall m :: 0 <= m < |u| ==> u[m] == t[j + m] == s[i + j + m];
    assert s[i + j..i + j + |u|] == u;
    ContainsAt(s, u, i + j);
  }

  lemma PhrasesHoldArchetype(k: nat)
    requires k < |SummonPhrases|
    ensures Contains(SummonPhrases[k], "archetype")
  {
    if k == 0 {
      ContainsAt("summon archetype", "archetype", 7);
    } else if k == 1 {
      ContainsAt("wake archetype", "archetype", 5);
    } else if k == 2 {
      ContainsAt("archetype", "archetype", 0);
    } else {
      assert "voice archetype"[6..] == "archetype";
      ContainsAt("voice archetype", "archetype", 6);
    }
  }

  /** Every summoning phrase contains "archetype", so the phrase list reduces
      to that one word. */
  lemma SummonIsArchetype(l: string)
    ensures AnyIn(SummonPhrases, l) <==> Contains(l, "archetype")
  {
    AnyInIff(SummonPhrases, l);
    if AnyIn(SummonPhrases, l) {
      var k :| 0 <= k < |SummonPhrases| && Contains(l, SummonPhrases[k]);
      PhrasesHoldArchetype(k);
      ContainsTrans(l, SummonPhrases[k], "archetype");
    } else {
      assert SummonPhrases[2] == "archetype";
    }
  }

  /** `build_prompt(mode, user_text, system_prompt_text)`. */
  function BuildPrompt(mode: string, userText: string, systemText: string): (r: string)
    ensures StartsWith(r, "[ArcheTYPE RESPONSE - MODE: " + Upper(mode) + "]\n")
    ensures |userText| <= |r| && r[|r| - |userText|..] == userText
  {
    var header := "[ArcheTYPE RESPONSE - MODE: " + Upper(mode) + "]\n";
    var r := header + Instruction + "SYSTEM:\n" + systemText + "\nUSER:\n" + userText;
    assert r == header + (Instruction + "SYSTEM:\n" + systemText + "\nUSER:\n" + userText);
    r
  }

  /** The system text and the user text sit together in the prompt, in that
      order, separated by the USER marker. */
  lemma PromptHoldsBoth(mode: string, userText: string, systemText: string)
    ensures Contains(BuildPrompt(mode, userText, systemText), "SYSTEM:\n" + systemText + "\nUSER:\n" + userText)
  {
    var header := "[ArcheTYPE RESPONSE - MODE: " + Upper(mode) + "]\n";
    var tail := "SYSTEM:\n" + systemText + "\nUSER:\n" + userText;
    var r := BuildPrompt(mode, userText, systemText);
    assert r == (header + Instruction) + tail;
    assert r[|header + Instruction|..|header + Instruction| + |tail|] == tail;
    ContainsAt(r, tail, |header + Instruction|);
  }
}
