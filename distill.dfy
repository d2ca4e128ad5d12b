/** The distillation step (distill.py): the teacher pairs kept from the
    interaction logs, and the file they are written to. JSON parsing and
    rendering are parameters: `parse` gives the object a log line holds, if
    any, and `dumps` the rendering of one pair. */
module Distill {
  import opened Wrappers
  import opened Text
  import opened Json
  import opened Seqs

  /** One `*.jsonl` log file: its name and its lines, in file order. */
  datatype LogFile = LogFile(name: string, lines: seq<string>)

  /** `{'prompt': user, 'response': resp}` */
  datatype Pair = Pair(prompt: Json, response: Json)

  // ---------------------------------------------------------------------------
  // File order
  // ---------------------------------------------------------------------------

  /** Python's `<=` on strings: code point by code point. */
  predicate StrLe(a: string, b: string)
    decreases |a|
  {
    a == [] || (b != [] && (a[0] < b[0] || (a[0] == b[0] && StrLe(a[1..], b[1..]))))
  }

  lemma {:induction false} StrLeTotal(a: string, b: string)
    ensures StrLe(a, b) || StrLe(b, a)
    decreases |a|
  {
    if a != [] && b != [] && a[0] == b[0] {
      StrLeTotal(a[1..], b[1..]);
    }
  }

  lemma {:induction false} StrLeTrans(a: string, b: string, c: string)
    requires StrLe(a, b) && StrLe(b, c)
    ensures StrLe(a, c)
    decreases |a|
  {
    if a != [] && a[0] == b[0] && b[0] == c[0] {
      StrLeTrans(a[1..], b[1..], c[1..]);
    }
  }

  /** `sorted()` on the paths of one directory compares their names. */
  predicate FileLe(f: LogFile, g: LogFile) {
    StrLe(f.name, g.name)
  }

  lemma FileLeTotalPreorder()
    ensures TotalPreorder(FileLe)
  {
    forall f: LogFile, g: LogFile
      ensures FileLe(f, g) || FileLe(g, f)
    {
      StrLeTotal(f.name, g.name);
    }
    forall f: LogFile, g: LogFile, h: LogFile | FileLe(f, g) && FileLe(g, h)
      ensures FileLe(f, h)
    {
      StrLeTrans(f.name, g.name, h.name);
    }
  }

  /** `sorted(LOGDIR.glob("*.jsonl"))` */
  function SortedFiles(files: seq<LogFile>): seq<LogFile> {
    Sort(files, FileLe)
  }

  /** The files are read in name order, each exactly once. */
  lemma FilesInNameOrder(files: seq<LogFile>)
    ensures SortedBy(SortedFiles(files), FileLe)
    ensures multiset(SortedFiles(files)) == multiset(files)
  {
    FileLeTotalPreorder();
    SortSorted(files, FileLe);
  }

  // ---------------------------------------------------------------------------
  // Pair filter
  // ---------------------------------------------------------------------------

  function Get(e: map<string, Json>, key: string): Option<Json> {
    if key in e then Some(e[key]) else None
  }

  /** `user and resp and engine == 'online'` */
  predicate TeacherEntry(e: map<string, Json>) {
    && Get(e, "user").Some? && Get(e, "user").value.Truthy()
    && Get(e, "response").Some? && Get(e, "response").value.Truthy()
    && Get(e, "engine") == Some(JStr("online"))
  }

  /** The pairs one log line contributes: a line that does not parse as an
      object, or whose entry is not a teacher example, contributes none. */
  function LinePairs(parse: string -> Option<map<string, Json>>, line: string): (r: seq<Pair>)
    ensures parse(line).None? ==> r == []
    ensures r != [] <==> parse(line).Some? && TeacherEntry(parse(line).value)
    ensures r != [] ==> r == [Pair(parse(line).value["user"], parse(line).value["response"])]
  {
    match parse(line)
    case None => []
    case Some(e) =>
      if TeacherEntry(e) then [Pair(e["user"], e["response"])] else []
  }

  function FilePairs(parse: string -> Option<map<string, Json>>, lines: seq<string>): seq<Pair> {
    FlatMap(lines, (l: string) => LinePairs(parse, l))
  }

  /** All pairs `build_dataset` keeps: files in name order, lines in file order. */
  function Pairs(parse: string -> Option<map<string, Json>>, files: seq<LogFile>): seq<Pair> {
    FlatMap(SortedFiles(files), (f: LogFile) => FilePairs(parse, f.lines))
  }

  /** Within a file, the pairs of earlier lines come first. */
  lemma LinesInFileOrder(parse: string -> Option<map<string, Json>>, a: seq<string>, b: seq<string>)
    ensures FilePairs(parse, a + b) == FilePairs(parse, a) + FilePairs(parse, b)
  {
    FlatMapAppend(a, b, (l: string) => LinePairs(parse, l));
  }

  predicate Kept(p: Pair) {
    p.prompt.Truthy() && p.response.Truthy()
  }

  /** At most one pair per line. */
  lemma {:induction false} FilePairsBounded(parse: string -> Option<map<string, Json>>, lines: seq<string>)
    ensures |FilePairs(parse, lines)| <= |lines|
  {
    if lines != [] {
      FilePairsBounded(parse, lines[..|lines| - 1]);
    }
  }

  /** Every kept pair has a non-empty prompt and a non-empty response. */
  lemma PairsNonEmpty(parse: string -> Option<map<string, Json>>, files: seq<LogFile>)
    ensures forall k :: 0 <= k < |Pairs(parse, files)| ==> Kept(Pairs(parse, files)[k])
  {
    var linePairs := (l: string) => LinePairs(parse, l);
    forall f: LogFile
      ensures forall k :: 0 <= k < |FilePairs(parse, f.lines)| ==> Kept(FilePairs(parse, f.lines)[k])
    {
      FlatMapAll(f.lines, linePairs, Kept);
    }
    FlatMapAll(SortedFiles(files), (f: LogFile) => FilePairs(parse, f.lines), Kept);
  }

  // ---------------------------------------------------------------------------
  // Output file
  // ---------------------------------------------------------------------------

  /** What the source writes after each pair: a backslash and an `n`. */
  const Escaped := "\\n"

  /** The output file as the source writes it. */
  function JsonlAsWritten(pairs: seq<Pair>, dumps: Pair -> string): string {
    FlatMap(pairs, (p: Pair) => dumps(p) + Escaped)
  }

  /** The output file with one pair per line. */
  function Jsonl(pairs: seq<Pair>, dumps: Pair -> string): string {
    FlatMap(pairs, (p: Pair) => dumps(p) + "\n")
  }

  function Dumped(pairs: seq<Pair>, dumps: Pair -> string): (lines: seq<string>)
    ensures |lines| == |pairs|
    ensures forall i :: 0 <= i < |pairs| ==> lines[i] == dumps(pairs[i])
  {
    seq(|pairs|, i requires 0 <= i < |pairs| => dumps(pairs[i]))
  }

  /** As written, the file holds no line break at all when no rendered pair
      does: however many pairs there are, it is a single line. */
  lemma AsWrittenIsOneLine(pairs: seq<Pair>, dumps: Pair -> string)
    requires forall p :: NoLineBreak(dumps(p))
    ensures Pieces(JsonlAsWritten(pairs, dumps)) == [JsonlAsWritten(pairs, dumps)]
  {
    var piece := (p: Pair) => dumps(p) + Escaped;
    forall p: Pair, k | 0 <= k < |piece(p)|
      ensures !IsLineBreak(piece(p)[k])
    {
      if k >= |dumps(p)| {
        assert piece(p)[k] == Escaped[k - |dumps(p)|];
      } else {
        assert piece(p)[k] == dumps(p)[k];
      }
    }
    FlatMapAll(pairs, piece, (c: char) => !IsLineBreak(c));
    SingleLine(JsonlAsWritten(pairs, dumps));
  }

  /** With a newline after each pair, reading the file line by line gives the
      rendered pairs back, in order (the piece after the last newline is empty). */
  lemma {:induction false} LinesRoundTrip(pairs: seq<Pair>, dumps: Pair -> string)
    requires forall p :: NoLineBreak(dumps(p))
    ensures Pieces(Jsonl(pairs, dumps)) == Dumped(pairs, dumps) + [""]
    decreases |pairs|
  {
    var piece := (p: Pair) => dumps(p) + "\n";
    if pairs == [] {
      assert Jsonl(pairs, dumps) == "";
    } else {
      var rest := pairs[1..];
      FlatMapCons(pairs, piece);
      assert Jsonl(pairs, dumps) == dumps(pairs[0]) + "\n" + Jsonl(rest, dumps);
      LineThen(dumps(pairs[0]), Jsonl(rest, dumps));
      LinesRoundTrip(rest, dumps);
      assert Dumped(pairs, dumps) == [dumps(pairs[0])] + Dumped(rest, dumps);
    }
  }

  /** The message printed at the end. */
  function SavedMessage(count: nat, out: string): (m: string)
    ensures StartsWith(m, "Saved ")
  {
    PrefixStarts("Saved ", NatToString(count) + " pairs to " + out);
    "Saved " + (NatToString(count) + " pairs to " + out)
  }

  /** The number in the message reads back as the count. */
  lemma SavedCountReadsBack(count: nat, out: string)
    ensures var m := SavedMessage(count, out);
      var digits := NatToString(count);
      6 + |digits| <= |m| && IsDigits(m[6..6 + |digits|]) && DigitsValue(m[6..6 + |digits|]) == count
  {
    var digits := NatToString(count);
    var m := SavedMessage(count, out);
    assert m[6..6 + |digits|] == digits;
    NatToStringRoundTrip(count);
  }

  /** The output file and the console of one run. */
  class Distiller {
    var output: string
    var printed: seq<string>

    constructor ()
      ensures output == "" && printed == []
    {
      output := "";
      printed := [];
    }

    /** The inner loop: the lines of one file. */
    static method CollectFile(parse: string -> Option<map<string, Json>>, lines: seq<string>) returns (pairs: seq<Pair>)
      ensures pairs == FilePairs(parse, lines)
    {
      pairs := [];
      var j := 0;
      while j < |lines|
        invariant 0 <= j <= |lines|
        invariant pairs == FilePairs(parse, lines[..j])
      {
        assert lines[..j + 1][..j] == lines[..j];
        assert FilePairs(parse, lines[..j + 1]) == pairs + LinePairs(parse, lines[j]);
        var e := parse(lines[j]);
        if e.Some? {
          var user := Get(e.value, "user");
          var resp := Get(e.value, "response");
          var engine := Get(e.value, "engine");
          if user.Some? && user.value.Truthy() && resp.Some? && resp.value.Truthy() && engine == Some(JStr("online")) {
            pairs := pairs + [Pair(user.value, resp.value)];
          }
        }
        j := j + 1;
      }
      assert lines[..j] == lines;
    }

    /** The outer loop: every file in name order. */
    static method CollectAll(parse: string -> Option<map<string, Json>>, sorted: seq<LogFile>) returns (pairs: seq<Pair>)
      ensures pairs == FlatMap(sorted, (f: LogFile) => FilePairs(parse, f.lines))
    {
      pairs := [];
      var i := 0;
      while i < |sorted|
        invariant 0 <= i <= |sorted|
        invariant pairs == FlatMap(sorted[..i], (f: LogFile) => FilePairs(parse, f.lines))
      {
        assert sorted[..i + 1][..i] == sorted[..i];
        var filePairs := CollectFile(parse, sorted[i].lines);
        pairs := pairs + filePairs;
        i := i + 1;
      }
      assert sorted[..i] == sorted;
    }

    /** The writing loop: each pair followed by a backslash and an `n`. */
    static method Render(pairs: seq<Pair>, dumps: Pair -> string) returns (text: string)
      ensures text == JsonlAsWritten(pairs, dumps)
    {
      text := "";
      var k := 0;
      while k < |pairs|
        invariant 0 <= k <= |pairs|
        invariant text == JsonlAsWritten(pairs[..k], dumps)
      {
        assert pairs[..k + 1][..k] == pairs[..k];
        text := text + (dumps(pairs[k]) + Escaped);
        k := k + 1;
      }
      assert pairs[..k] == pairs;
    }

    /** The writing loop with a line break after each pair. */
    static method RenderLines(pairs: seq<Pair>, dumps: Pair -> string) returns (text: string)
      ensures text == Jsonl(pairs, dumps)
    {
      text := "";
      var k := 0;
      while k < |pairs|
        invariant 0 <= k <= |pairs|
        invariant text == Jsonl(pairs[..k], dumps)
      {
        assert pairs[..k + 1][..k] == pairs[..k];
        text := text + (dumps(pairs[k]) + "\n");
        k := k + 1;
      }
      assert pairs[..k] == pairs;
    }

    /** `build_dataset()`: collect the pairs of every log file in name order,
        write each followed by a backslash and an `n`, and report their
        number. */
    method BuildDataset(files: seq<LogFile>, parse: string -> Option<map<string, Json>>,
                        dumps: Pair -> string, out: string)
      modifies this
      ensures output == JsonlAsWritten(Pairs(parse, files), dumps)
      ensures printed == old(printed) + [SavedMessage(|Pairs(parse, files)|, out)]
    {
      var pairs := CollectAll(parse, SortedFiles(files));
      output := Render(pairs, dumps);
      printed := printed + [SavedMessage(|pairs|, out)];
    }

    /** `build_dataset()` with a line break after each pair, so that the
        output file holds one pair per line. */
    method BuildDatasetLines(files: seq<LogFile>, parse: string -> Option<map<string, Json>>,
                             dumps: Pair -> string, out: string)
      modifies this
      ensures output == Jsonl(Pairs(parse, files), dumps)
      ensures printed == old(printed) + [SavedMessage(|Pairs(parse, files)|, out)]
    {
      var pairs := CollectAll(parse, SortedFiles(files));
      output := RenderLines(pairs, dumps);
      printed := printed + [SavedMessage(|pairs|, out)];
    }
  }
}
