/** The local model adapter (adapters/local_adapter.py): retrieval with its
    newest-first fallback, the combined few-shot prompt, and the guarded call
    of the local model runner. The runner, the file system and the embedding
    search are parameters. */
module LocalAdapter {
  import opened Wrappers
  import opened Text
  import opened Seqs

  // ---------------------------------------------------------------------------
  // Retrieval
  // ---------------------------------------------------------------------------

  /** `search_topk(query, k)`: `indexed` is the embedding search's answer
      (`None` when the index file is absent); `texts` the stored texts. */
  function SearchTopk(indexed: Option<seq<string>>, texts: seq<string>, k: nat): (r: seq<string>)
    ensures indexed.Some? && indexed.value != [] ==> r == indexed.value
    ensures !(indexed.Some? && indexed.value != []) ==>
      && (k > 0 ==> |r| == if |texts| < k then |texts| else k)
      && (k == 0 ==> |r| == |texts|)
      && forall i :: 0 <= i < |r| ==> r[i] == texts[|texts| - 1 - i]
  {
    if indexed.Some? && indexed.value != [] then indexed.value
    else if texts != [] then Reverse(Tail(texts, k))
    else []
  }

  // ---------------------------------------------------------------------------
  // Combined prompt
  // ---------------------------------------------------------------------------

  /** The answer format: an opening line, then the three labelled lines and the word limit. */
  const Strict := StrictOpening + StrictFields

  const StrictOpening := "Respond EXACTLY with:\n"

  const StrictFields :=
    "DIAGNOSIS: <one-sentence diagnosis>\n" + "ACTION: <one timeboxed action>\n"
    + "METRIC: <one measurable metric>\n" + "(Total <= 60 words)\n\n"

  const Arrow := " -> "

  predicate FewShotLine(line: string) {
    StartsWith(line, "EXAMPLE PROMPT: ") || StartsWith(line, "TEACHER: ") || StartsWith(line, "EXAMPLE: ")
  }

  /** The few-shot lines one retrieved example contributes. */
  function ExampleLines(ex: string): (lines: seq<string>)
    ensures Contains(ex, Arrow) ==> |lines| == 2
    ensures !Contains(ex, Arrow) ==> lines == ["EXAMPLE: " + Strip(ex)]
    ensures forall k :: 0 <= k < |lines| ==> FewShotLine(lines[k])
  {
    if Contains(ex, Arrow) then
      var p, r := Strip(Before(ex, Arrow)), Strip(After(ex, Arrow));
      PrefixStarts("EXAMPLE PROMPT: ", p);
      PrefixStarts("TEACHER: ", r);
      ["EXAMPLE PROMPT: " + p, "TEACHER: " + r]
    else
      PrefixStarts("EXAMPLE: ", Strip(ex));
      ["EXAMPLE: " + Strip(ex)]
  }

  /** An example is split at its first arrow only: the prompt half holds no
      arrow, and the two halves with the arrow between them give the example back. */
  lemma ArrowSplit(ex: string)
    requires Contains(ex, Arrow)
    ensures Before(ex, Arrow) + Arrow + After(ex, Arrow) == ex
    ensures !Contains(Before(ex, Arrow), Arrow)
    ensures ExampleLines(ex) == ["EXAMPLE PROMPT: " + Strip(Before(ex, Arrow)), "TEACHER: " + Strip(After(ex, Arrow))]
  {
    SplitOnce(ex, Arrow);
  }

  /** The list `fs` after the loop has seen `exs`. */
  function FewShot(exs: seq<string>): seq<string> {
    FlatMap(exs, ExampleLines)
  }

  /** One or two lines per example, each labelled as an example prompt, a
      teacher reply or a plain example. */
  lemma {:induction false} FewShotShape(exs: seq<string>)
    ensures |exs| <= |FewShot(exs)| <= 2 * |exs|
    ensures forall k :: 0 <= k < |FewShot(exs)| ==> FewShotLine(FewShot(exs)[k])
  {
    FlatMapAll(exs, ExampleLines, FewShotLine);
    if exs != [] {
      FewShotShape(exs[..|exs| - 1]);
      var lines := ExampleLines(exs[|exs| - 1]);
      assert 1 <= |lines| <= 2;
    }
  }

  /** The lines keep the order of the examples: those of an earlier example
      all come before those of a later one. */
  lemma FewShotAppend(a: seq<string>, b: seq<string>)
    ensures FewShot(a + b) == FewShot(a) + FewShot(b)
  {
    FlatMapAppend(a, b, ExampleLines);
  }

  /** The persona, the answer format and the few-shot block, which the user
      marker and the user text follow. */
  function PromptHead(persona: string, fs: seq<string>): string {
    Strip(persona) + "\n\n" + Strict + FewShotBlock(fs)
  }

  /** The few-shot lines joined by newlines and followed by a blank line, or
      nothing when they join to the empty text. */
  function FewShotBlock(fs: seq<string>): string {
    var fewShot := if fs != [] then Join(fs, "\n") else "";
    if fewShot != "" then fewShot + "\n\n" else ""
  }

  function CombinedPrompt(persona: string, fs: seq<string>, userText: string): string {
    Strip(PromptHead(persona, fs) + ("USER:\n" + Strip(userText)))
  }

  /** The loop of `_build_combined_prompt` that collects the few-shot lines. */
  method CollectFewShot(examples: seq<string>) returns (fs: seq<string>)
    ensures fs == FewShot(examples)
  {
    fs := [];
    var i := 0;
    while i < |examples|
      invariant 0 <= i <= |examples|
      invariant fs == FewShot(examples[..i])
    {
      FlatMapSnoc(examples, i, ExampleLines);
      fs := AddExample(fs, examples[i]);
      i := i + 1;
    }
    assert examples[..i] == examples;
  }

  /** One pass of that loop: the lines of `ex` are appended to `fs`. */
  method AddExample(fs: seq<string>, ex: string) returns (fs': seq<string>)
    ensures fs' == fs + ExampleLines(ex)
  {
    if Contains(ex, Arrow) {
      var p, r := Before(ex, Arrow), After(ex, Arrow);
      var first, second := "EXAMPLE PROMPT: " + Strip(p), "TEACHER: " + Strip(r);
      fs' := fs + [first];
      fs' := fs' + [second];
      AppendAssoc(fs, [first], [second]);
      assert [first] + [second] == ExampleLines(ex);
    } else {
      fs' := fs + ["EXAMPLE: " + Strip(ex)];
    }
  }

  /** `_build_combined_prompt(persona, examples, user_text)`. */
  method BuildCombinedPrompt(persona: string, examples: seq<string>, userText: string) returns (prompt: string)
    ensures prompt == CombinedPrompt(persona, FewShot(examples), userText)
  {
    var fs := CollectFewShot(examples);
    var fewShot := if fs != [] then Join(fs, "\n") else "";
    var head := Strip(persona) + "\n\n" + Strict + (if fewShot != "" then fewShot + "\n\n" else "");
    prompt := Strip(head + ("USER:\n" + Strip(userText)));
  }

  lemma {:induction false} StripLeftThen(a: string, b: string, k: nat)
    requires k < |a| && !IsSpace(a[k])
    ensures StripLeft(a + b) == StripLeft(a) + b
  {
    assert (a + b)[0] == a[0] && (a + b)[1..] == a[1..] + b;
    if IsSpace(a[0]) {
      assert a[1..][k - 1] == a[k];
      StripLeftThen(a[1..], b, k - 1);
    }
  }

  lemma StripRightKeeps(s: string)
    requires s != [] && !IsSpace(s[|s| - 1])
    ensures StripRight(s) == s
  {
  }

  /** Stripping text whose `k`th character is not white space and whose last
      character is not white space either keeps `tail` at the end. */
  lemma StripKeepsTail(head: string, tail: string, k: nat)
    requires k < |head| && !IsSpace(head[k])
    requires tail != [] && !IsSpace(tail[|tail| - 1])
    ensures |tail| <= |Strip(head + tail)| && Strip(head + tail)[|Strip(head + tail)| - |tail|..] == tail
  {
    StripLeftThen(head, tail, k);
    var l := StripLeft(head) + tail;
    assert l[|l| - 1] == tail[|tail| - 1];
    StripRightKeeps(l);
    assert l[|l| - |tail|..] == tail;
  }

  /** With a non-blank user text the prompt ends with the user marker and the
      stripped user text, whatever the persona and the examples. */
  lemma PromptEndsWithUser(persona: string, fs: seq<string>, userText: string)
    requires Strip(userText) != ""
    ensures var p := CombinedPrompt(persona, fs, userText);
      var tail := "USER:\n" + Strip(userText);
      |tail| <= |p| && p[|p| - |tail|..] == tail
  {
    var u := Strip(userText);
    var tail := "USER:\n" + u;
    HeadNotBlank(persona, fs);
    assert tail[|tail| - 1] == u[|u| - 1];
    StripKeepsTail(PromptHead(persona, fs), tail, |Strip(persona)| + 2);
  }

  /** The answer format makes the head of the prompt non-blank: its first
      character follows the stripped persona and the blank line. */
  lemma HeadNotBlank(persona: string, fs: seq<string>)
    ensures var at := |Strip(persona)| + 2;
      at < |PromptHead(persona, fs)| && !IsSpace(PromptHead(persona, fs)[at])
  {
    StrictNotBlank();
    MiddleNotBlank(Strip(persona) + "\n\n", Strict, FewShotBlock(fs));
  }

  lemma MiddleNotBlank(a: string, b: string, c: string)
    requires b != [] && !IsSpace(b[0])
    ensures |a| < |a + b + c| && !IsSpace((a + b + c)[|a|])
  {
    assert (a + b + c)[|a|] == b[0];
  }

  lemma StrictNotBlank()
    ensures |Strict| > 0 && Strict[0] == 'R'
  {
    assert StrictOpening[0] == 'R';
  }

  // ---------------------------------------------------------------------------
  // Model call
  // ---------------------------------------------------------------------------

  /** The characters `shlex.quote` leaves unquoted. */
  predicate SafeChar(c: char) {
    'a' <= c <= 'z' || 'A' <= c <= 'Z' || '0' <= c <= '9' || c in "_@%+=:,./-"
  }

  /** `shlex.quote(s)` */
  function Quote(s: string): (q: string)
    ensures s != [] && (forall i :: 0 <= i < |s| ==> SafeChar(s[i])) ==> q == s
    ensures s == [] || (exists i :: 0 <= i < |s| && !SafeChar(s[i])) ==>
      |q| >= 2 && q[0] == '\'' && q[|q| - 1] == '\''
  {
    if s == [] then "''"
    else if forall i :: 0 <= i < |s| ==> SafeChar(s[i]) then s
    else "'" + ReplaceChar(s, '\'', "'\"'\"'") + "'"
  }

  /** The runner's flags as the source writes them: two adjacent string
      pieces with no space between the thread count and `--temp`. */
  const FlagsAsWritten := "--threads 10" + "--temp 0.2 "

  /** The flags with the thread count and the temperature as separate words. */
  const Flags := "--threads 10 " + "--temp 0.2 "

  /** The shell command line: the quoted binary, the flags, the quoted model
      path and the quoted prompt. */
  function RunnerCommand(binary: string, flags: string, modelPath: string, prompt: string): (c: string)
    ensures var at := |Quote(binary)| + 1; at + |flags| <= |c| && c[at..at + |flags|] == flags
  {
    var c := Quote(binary) + " " + flags + Quote(modelPath) + " " + Quote(prompt);
    assert c == (Quote(binary) + " ") + flags + (Quote(modelPath) + " " + Quote(prompt));
    c
  }

  function LlamaCommandAsWritten(binary: string, modelPath: string, prompt: string): string {
    RunnerCommand(binary, FlagsAsWritten, modelPath, prompt)
  }

  function LlamaCommand(binary: string, modelPath: string, prompt: string): string {
    RunnerCommand(binary, Flags, modelPath, prompt)
  }

  /** Right after the binary, the command as written continues the thread
      count `10` with `-` (the shell passes the word `10--temp`), while the
      corrected command ends the word `10` with a space. */
  lemma ThreadsArgumentGlued(binary: string, modelPath: string, prompt: string)
    ensures var c := LlamaCommandAsWritten(binary, modelPath, prompt);
      var at := |Quote(binary)| + 1;
      at + 13 <= |c| && c[at..at + 13] == "--threads 10-"
    ensures var c := LlamaCommand(binary, modelPath, prompt);
      var at := |Quote(binary)| + 1;
      at + 13 <= |c| && c[at..at + 13] == "--threads 10 "
  {
    var at := |Quote(binary)| + 1;
    assert FlagsAsWritten[..13] == "--threads 10-";
    assert Flags[..13] == "--threads 10 ";
    SliceStart(LlamaCommandAsWritten(binary, modelPath, prompt), at, FlagsAsWritten, 13);
    SliceStart(LlamaCommand(binary, modelPath, prompt), at, Flags, 13);
  }

  lemma SliceStart(c: string, at: nat, flags: string, k: nat)
    requires k <= |flags| && at + |flags| <= |c| && c[at..at + |flags|] == flags
    ensures at + k <= |c| && c[at..at + k] == flags[..k]
  {
    assert c[at..at + k] == c[at..at + |flags|][..k];
  }

  /** How the runner subprocess ended. */
  datatype RunOutcome = Exited(code: int, stdout: string, stderr: string) | RunRaised(error: string)

  /** One call of `call_local_model`: the reply and the command line run, if any. */
  datatype Call = Call(reply: string, ran: Option<string>)

  const Binary := "~/ArcheTYPE/llama.cpp/build/bin/llama-run"

  /** `call_local_model(user_text, model_key)`. `models` is the configured
      model table, `pathExists` the file-system test, `persona` the persona read
      (or its error), `indexed`/`texts` the retrieval inputs and `run` the
      subprocess. */
  function CallLocalModel(
    models: map<string, string>, modelKey: string, home: string, pathExists: string -> bool,
    persona: Result<string>, indexed: Option<seq<string>>, texts: seq<string>,
    run: string -> RunOutcome, userText: string): (c: Call)
    ensures modelKey !in models || models[modelKey] == "" ==>
      c == Call("[local adapter] Model path missing.", None)
    ensures modelKey in models && models[modelKey] != "" && !pathExists(ExpandUser(models[modelKey], home)) ==>
      c == Call("[local adapter] Model not found: " + ExpandUser(models[modelKey], home), None)
    ensures c.ran.Some? <==> modelKey in models && models[modelKey] != "" && pathExists(ExpandUser(models[modelKey], home))
    ensures c.ran.Some? ==>
      var at := |Quote(ExpandUser(Binary, home))| + 1;
      at + 13 <= |c.ran.value| && c.ran.value[at..at + 13] == "--threads 10-"
  {
    if modelKey !in models || models[modelKey] == "" then Call("[local adapter] Model path missing.", None)
    else
      var modelPath := ExpandUser(models[modelKey], home);
      if !pathExists(modelPath) then Call("[local adapter] Model not found: " + modelPath, None)
      else RunModel(ExpandUser(Binary, home), modelPath, persona, indexed, texts, run, userText)
  }

  /** The part of `call_local_model` past the two guards: build the prompt,
      start the runner with the command as written, and read its reply. */
  function RunModel(
    binary: string, modelPath: string, persona: Result<string>, indexed: Option<seq<string>>,
    texts: seq<string>, run: string -> RunOutcome, userText: string): (c: Call)
    ensures c.ran.Some?
    ensures var at := |Quote(binary)| + 1;
      at + 13 <= |c.ran.value| && c.ran.value[at..at + 13] == "--threads 10-"
  {
    var personaText := if persona.Ok? then persona.value else "ArcheTYPE persona missing: " + persona.error;
    var examples := SearchTopk(indexed, texts, 3);
    var prompt := CombinedPrompt(personaText, FewShot(examples), userText);
    var cmd := LlamaCommandAsWritten(binary, modelPath, prompt);
    ThreadsArgumentGlued(binary, modelPath, prompt);
    var reply := match run(cmd)
      case Exited(code, out, err) => if code != 0 then "[local adapter error] " + err else Strip(out)
      case RunRaised(e) => "[local adapter error] " + e;
    Call(reply, Some(cmd))
  }
}
