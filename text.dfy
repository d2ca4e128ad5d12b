/** The string operations the Python code relies on (`in`, `lower`, `upper`,
    `strip`, `split`, `join`, `replace`, slicing), written out on `seq<char>`.
    Case mapping and digit tests cover ASCII only. */
module Text {
  import opened Wrappers

  // ---------------------------------------------------------------------------
  // Characters
  // ---------------------------------------------------------------------------

  predicate IsUpper(c: char) { 'A' <= c <= 'Z' }

  predicate IsLowerLetter(c: char) { 'a' <= c <= 'z' }

  predicate IsDigit(c: char) { '0' <= c <= '9' }

  function LowerChar(c: char): char {
    if IsUpper(c) then (c as int + 32) as char else c
  }

  function UpperChar(c: char): char {
    if IsLowerLetter(c) then (c as int - 32) as char else c
  }

  /** The characters `str.strip()` and `str.split()` treat as white space. */
  predicate IsSpace(c: char) {
    c == ' ' || c == '\t' || c == '\n' || c == '\r' || c == '\U{000B}' || c == '\U{000C}'
    || ('\U{001C}' <= c <= '\U{001F}') || c == '\U{0085}' || c == '\U{00A0}' || c == '\U{1680}'
    || ('\U{2000}' <= c <= '\U{200A}') || c == '\U{2028}' || c == '\U{2029}' || c == '\U{202F}'
    || c == '\U{205F}' || c == '\U{3000}'
  }

  /** The characters `str.splitlines()` breaks a line at. */
  predicate IsLineBreak(c: char) {
    c == '\n' || c == '\r' || c == '\U{000B}' || c == '\U{000C}'
    || ('\U{001C}' <= c <= '\U{001E}') || c == '\U{0085}' || c == '\U{2028}' || c == '\U{2029}'
  }

  // ---------------------------------------------------------------------------
  // Case mapping
  // ---------------------------------------------------------------------------

  predicate NoUpper(s: string) {
    forall i :: 0 <= i < |s| ==> !IsUpper(s[i])
  }

  /** `s.lower()` */
  function Lower(s: string): (r: string)
    ensures |r| == |s|
    ensures forall i :: 0 <= i < |s| ==> r[i] == LowerChar(s[i])
    ensures NoUpper(r)
  {
    if s == [] then [] else [LowerChar(s[0])] + Lower(s[1..])
  }

  /** `s.upper()` */
  function Upper(s: string): (r: string)
    ensures |r| == |s|
    ensures forall i :: 0 <= i < |s| ==> r[i] == UpperChar(s[i])
  {
    if s == [] then [] else [UpperChar(s[0])] + Upper(s[1..])
  }

  lemma LowerOfLowerCase(s: string)
    requires NoUpper(s)
    ensures Lower(s) == s
  {
  }

  // ---------------------------------------------------------------------------
  // Substrings
  // ---------------------------------------------------------------------------

  predicate StartsWith(s: string, p: string) {
    |p| <= |s| && s[..|p|] == p
  }

  lemma PrefixStarts(p: string, x: string)
    ensures StartsWith(p + x, p)
  {
    assert (p + x)[..|p|] == p;
  }

  /** Python's `t in s`. */
  predicate Contains(s: string, t: string)
    decreases |s|
  {
    StartsWith(s, t) || (s != [] && Contains(s[1..], t))
  }

  lemma {:induction false} ContainsAt(s: string, t: string, i: nat)
    requires i + |t| <= |s| && s[i..i + |t|] == t
    ensures Contains(s, t)
    decreases i
  {
    if i == 0 {
      assert s[..|t|] == t;
    } else {
      assert s[1..][i - 1..i - 1 + |t|] == s[i..i + |t|];
      ContainsAt(s[1..], t, i - 1);
    }
  }

  lemma {:induction false} ContainsWitness(s: string, t: string) returns (i: nat)
    requires Contains(s, t)
    ensures i + |t| <= |s| && s[i..i + |t|] == t
    decreases |s|
  {
    if StartsWith(s, t) {
      i := 0;
    } else {
      var k := ContainsWitness(s[1..], t);
      assert s[1..][k..k + |t|] == s[k + 1..k + 1 + |t|];
      i := k + 1;
    }
  }

  lemma ContainsInConcat(a: string, b: string, t: string)
    requires Contains(a, t) || Contains(b, t)
    ensures Contains(a + b, t)
  {
    if Contains(a, t) {
      var i := ContainsWitness(a, t);
      assert (a + b)[i..i + |t|] == a[i..i + |t|];
      ContainsAt(a + b, t, i);
    } else {
      var i := ContainsWitness(b, t);
      assert (a + b)[|a| + i..|a| + i + |t|] == b[i..i + |t|];
      ContainsAt(a + b, t, |a| + i);
    }
  }

  /** `any(k in s for k in tokens)` */
  predicate AnyIn(tokens: seq<string>, s: string) {
    tokens != [] && (Contains(s, tokens[0]) || AnyIn(tokens[1..], s))
  }

  lemma {:induction false} AnyInIff(tokens: seq<string>, s: string)
    ensures AnyIn(tokens, s) <==> exists k :: 0 <= k < |tokens| && Contains(s, tokens[k])
  {
    if tokens != [] {
      AnyInIff(tokens[1..], s);
      if !Contains(s, tokens[0]) && exists k :: 0 <= k < |tokens| && Contains(s, tokens[k]) {
        var k :| 0 <= k < |tokens| && Contains(s, tokens[k]);
        assert tokens[1..][k - 1] == tokens[k];
      }
    }
  }

  lemma AnyInMember(tokens: seq<string>, s: string, k: nat)
    requires k < |tokens| && Contains(s, tokens[k])
    ensures AnyIn(tokens, s)
  {
    AnyInIff(tokens, s);
  }

  /** `for k in tokens: if k in s: return True`, then `return False`. */
  method FindIn(tokens: seq<string>, s: string) returns (found: bool)
    ensures found == AnyIn(tokens, s)
  {
    var i := 0;
    while i < |tokens|
      invariant 0 <= i <= |tokens|
      invariant AnyIn(tokens, s) == AnyIn(tokens[i..], s)
    {
      assert tokens[i..][0] == tokens[i] && tokens[i..][1..] == tokens[i + 1..];
      if Contains(s, tokens[i]) {
        return true;
      }
      i := i + 1;
    }
    return false;
  }

  /** The first token of `tokens` that occurs in `s`, as a `for` loop with an
      early `return` finds it. */
  function FirstIn(tokens: seq<string>, s: string): (r: Option<string>)
    ensures r.Some? <==> AnyIn(tokens, s)
    ensures r.Some? ==> r.value in tokens && Contains(s, r.value)
  {
    if tokens == [] then None
    else if Contains(s, tokens[0]) then Some(tokens[0])
    else FirstIn(tokens[1..], s)
  }

  /** `for k in tokens: if k in s: return k`, then nothing. */
  method FindFirst(tokens: seq<string>, s: string) returns (r: Option<string>)
    ensures r == FirstIn(tokens, s)
  {
    var i := 0;
    while i < |tokens|
      invariant 0 <= i <= |tokens|
      invariant FirstIn(tokens, s) == FirstIn(tokens[i..], s)
    {
      assert tokens[i..][0] == tokens[i] && tokens[i..][1..] == tokens[i + 1..];
      if Contains(s, tokens[i]) {
        return Some(tokens[i]);
      }
      i := i + 1;
    }
    return None;
  }

  /** Index of the first occurrence of `pat` in `s` (`s.find(pat)`). */
  function IndexOf(s: string, pat: string): (r: Option<nat>)
    ensures r.Some? <==> Contains(s, pat)
    ensures r.Some? ==> r.value + |pat| <= |s| && s[r.value..r.value + |pat|] == pat
    ensures r.Some? ==> forall j :: 0 <= j < r.value ==> !StartsWith(s[j..], pat)
    decreases |s|
  {
    if StartsWith(s, pat) then Some(0)
    else if s == [] then None
    else match IndexOf(s[1..], pat)
      case None => None
      case Some(k) =>
        assert forall j :: 1 <= j < k + 1 ==> s[j..] == s[1..][j - 1..];
        Some(k + 1)
  }

  /** The text before the first `pat` (the whole text when it is absent). */
  function Before(s: string, pat: string): (r: string)
    ensures StartsWith(s, r)
  {
    match IndexOf(s, pat)
    case Some(i) => s[..i]
    case None => s
  }

  /** The text before the first line feed of `x + tail`, when `x` holds
      none and `tail` is empty or starts with one, is `x`. */
  lemma BeforeBreak(x: string, tail: string)
    requires '\n' !in x && (tail == [] || tail[0] == '\n')
    ensures Before(x + tail, "\n") == x
  {
    var s := x + tail;
    forall j | 0 <= j <= |x|
      ensures j < |x| ==> !StartsWith(s[j..], "\n")
    {
      if j < |x| {
        assert s[j..][0] == x[j];
        assert x[j] in x;
      }
    }
    if tail == [] {
      assert s == x;
      forall j | 0 <= j <= |s| ensures !StartsWith(s[j..], "\n") {
      }
      NotContains(s, "\n");
    } else {
      assert s[|x|..|x| + 1] == "\n";
      assert StartsWith(s[|x|..], "\n");
      ContainsAt(s, "\n", |x|);
      var i := IndexOf(s, "\n").value;
      assert i <= |x|;
      assert s[..i] == x;
    }
  }

  /** The text after the first `pat` (empty when it is absent). */
  function After(s: string, pat: string): (r: string)
    ensures |r| <= |s|
  {
    match IndexOf(s, pat)
    case Some(i) => s[i + |pat|..]
    case None => []
  }

  lemma {:induction false} NotContains(s: string, t: string)
    requires forall j :: 0 <= j <= |s| ==> !StartsWith(s[j..], t)
    ensures !Contains(s, t)
    decreases |s|
  {
    assert s[0..] == s;
    if s != [] {
      forall j | 0 <= j <= |s| - 1
        ensures !StartsWith(s[1..][j..], t)
      {
        assert s[1..][j..] == s[j + 1..];
      }
      NotContains(s[1..], t);
    }
  }

  /** `s.split(pat, 1)` loses nothing: the two parts glued back with `pat`
      give `s`, and the first part holds no `pat`. */
  lemma {:induction false} SplitOnce(s: string, pat: string)
    requires Contains(s, pat)
    ensures Before(s, pat) + pat + After(s, pat) == s
    ensures |pat| > 0 ==> !Contains(Before(s, pat), pat)
  {
    var i := IndexOf(s, pat).value;
    assert s == s[..i] + s[i..i + |pat|] + s[i + |pat|..];
    if |pat| > 0 {
      forall j | 0 <= j <= i
        ensures !StartsWith(s[..i][j..], pat)
      {
        if j + |pat| <= i {
          assert s[..i][j..][..|pat|] == s[j..][..|pat|];
        }
      }
      NotContains(s[..i], pat);
    }
  }

  // ---------------------------------------------------------------------------
  // Trimming, slicing, joining
  // ---------------------------------------------------------------------------

  function StripLeft(s: string): (r: string)
    ensures |r| <= |s| && r == s[|s| - |r|..]
    ensures r == [] || !IsSpace(r[0])
  {
    if s != [] && IsSpace(s[0]) then StripLeft(s[1..]) else s
  }

  function StripRight(s: string): (r: string)
    ensures |r| <= |s| && r == s[..|r|]
    ensures r == [] || !IsSpace(r[|r| - 1])
  {
    if s != [] && IsSpace(s[|s| - 1]) then StripRight(s[..|s| - 1]) else s
  }

  /** `s.strip()`: a slice of `s` that neither starts nor ends with white space. */
  function Strip(s: string): (r: string)
    ensures r == [] || (!IsSpace(r[0]) && !IsSpace(r[|r| - 1]))
    ensures exists i, j :: 0 <= i <= j <= |s| && r == s[i..j]
  {
    var l := StripLeft(s);
    var r := StripRight(l);
    assert r == s[|s| - |l|..][..|r|] == s[|s| - |l|..|s| - |l| + |r|];
    r
  }

  lemma StripKeepsNoUpper(s: string)
    requires NoUpper(s)
    ensures NoUpper(Strip(s))
  {
  }

  /** `s.rstrip("/")` */
  function TrimSlashes(s: string): (r: string)
    ensures |r| <= |s| && r == s[..|r|]
    ensures r == [] || r[|r| - 1] != '/'
    ensures forall i :: |r| <= i < |s| ==> s[i] == '/'
  {
    if s != [] && s[|s| - 1] == '/' then TrimSlashes(s[..|s| - 1]) else s
  }

  /** `os.path.expanduser` (the POSIX one) with `$HOME` set to `home`: `~` and a
      leading `~/` stand for the home directory without its trailing slashes,
      and a result that would be empty reads as `/`. */
  function ExpandUser(path: string, home: string): (r: string)
    ensures !StartsWith(path, "~") ==> r == path
    ensures StartsWith(path, "~") ==> r != []
  {
    if path == "~" || StartsWith(path, "~/") then
      var joined := TrimSlashes(home) + path[1..];
      if joined == [] then "/" else joined
    else path
  }

  /** A home directory that is not empty and has no trailing slash is put in
      front of the rest of the path as it is. */
  lemma ExpandUserPlainHome(home: string, rest: string)
    requires home != [] && home[|home| - 1] != '/'
    ensures ExpandUser("~", home) == home
    ensures ExpandUser("~/" + rest, home) == home + "/" + rest
  {
    assert TrimSlashes(home) == home;
    assert StartsWith("~/" + rest, "~/");
    assert ("~/" + rest)[1..] == "/" + rest;
  }

  /** With `$HOME` set to `/` or to the empty string, `~` is `/` and `~/x` is
      `/x`: no doubled or missing root slash. */
  lemma ExpandUserRootHome(rest: string)
    ensures ExpandUser("~", "/") == "/" && ExpandUser("~", "") == "/"
    ensures ExpandUser("~/" + rest, "/") == "/" + rest
    ensures ExpandUser("~/" + rest, "") == "/" + rest
  {
    assert TrimSlashes("/") == TrimSlashes("") == "";
    assert StartsWith("~/" + rest, "~/");
    assert ("~/" + rest)[1..] == "/" + rest;
  }

  /** `s[:n]` */
  function Take<T>(s: seq<T>, n: nat): (r: seq<T>)
    ensures |r| <= n && |r| <= |s|
    ensures r == s[..|r|]
    ensures |s| <= n ==> r == s
    ensures |s| > n ==> |r| == n
  {
    if |s| <= n then s else s[..n]
  }

  /** `s[-n:]`, including Python's reading of `s[-0:]` as the whole of `s`. */
  function Tail<T>(s: seq<T>, n: nat): (r: seq<T>)
    ensures |r| <= |s| && r == s[|s| - |r|..]
    ensures n > 0 ==> |r| <= n
    ensures n == 0 || |s| <= n ==> r == s
    ensures n > 0 && |s| > n ==> |r| == n
  {
    if n == 0 || |s| <= n then s else s[|s| - n..]
  }

  function Reverse<T>(s: seq<T>): (r: seq<T>)
    ensures |r| == |s|
    ensures forall i :: 0 <= i < |s| ==> r[i] == s[|s| - 1 - i]
  {
    if s == [] then [] else Reverse(s[1..]) + [s[0]]
  }

  /** `sep.join(parts)` */
  function Join(parts: seq<string>, sep: string): string {
    if parts == [] then ""
    else if |parts| == 1 then parts[0]
    else parts[0] + sep + Join(parts[1..], sep)
  }

  function Repeat(c: char, n: nat): (r: string)
    ensures |r| == n
    ensures forall i :: 0 <= i < n ==> r[i] == c
  {
    if n == 0 then [] else [c] + Repeat(c, n - 1)
  }

  /** `s.replace(c, rep)` for a one-character pattern. */
  function ReplaceChar(s: string, c: char, rep: string): (r: string)
    ensures c !in rep ==> c !in r
    ensures c !in s ==> r == s
  {
    if s == [] then []
    else (if s[0] == c then rep else [s[0]]) + ReplaceChar(s[1..], c, rep)
  }

  /** `s.replace("\n", " | ")`, which every log line and notification uses. */
  function OneLine(s: string): (r: string)
    ensures '\n' !in r
  {
    ReplaceChar(s, '\n', " | ")
  }

  /** The pieces between line-break characters; the empty pieces this adds
      over `str.splitlines()` are blank lines that every caller skips. */
  function Pieces(s: string): (r: seq<string>)
    ensures |r| >= 1
  {
    if s == [] then [""]
    else
      var rest := Pieces(s[1..]);
      if IsLineBreak(s[0]) then [""] + rest
      else [[s[0]] + rest[0]] + rest[1..]
  }

  predicate NoLineBreak(s: string) {
    forall i :: 0 <= i < |s| ==> !IsLineBreak(s[i])
  }

  lemma PlainConcat(a: string, b: string)
    requires NoLineBreak(a) && NoLineBreak(b)
    ensures NoLineBreak(a + b)
  {
  }

  /** A text without line breaks glues onto the first piece of what follows. */
  lemma {:induction false} PiecesPrefix(a: string, b: string)
    requires NoLineBreak(a)
    ensures Pieces(a + b) == [a + Pieces(b)[0]] + Pieces(b)[1..]
  {
    var p := Pieces(b);
    if a == [] {
      assert a + b == b && a + p[0] == p[0];
      assert p == [p[0]] + p[1..];
    } else {
      PiecesPrefix(a[1..], b);
      assert (a + b)[0] == a[0] && (a + b)[1..] == a[1..] + b;
      var r := Pieces(a[1..] + b);
      assert r == [a[1..] + p[0]] + p[1..];
      assert r[0] == a[1..] + p[0] && r[1..] == p[1..];
      assert [a[0]] + (a[1..] + p[0]) == a + p[0];
    }
  }

  /** `a + "\n" + b` splits into the line `a` and the lines of `b`. */
  lemma LineThen(a: string, b: string)
    requires NoLineBreak(a)
    ensures Pieces(a + "\n" + b) == [a] + Pieces(b)
  {
    assert Pieces("\n" + b) == [""] + Pieces(b) by {
      assert ("\n" + b)[1..] == b;
    }
    assert a + "\n" + b == a + ("\n" + b);
    PiecesPrefix(a, "\n" + b);
    assert a + "" == a;
  }

  lemma SingleLine(a: string)
    requires NoLineBreak(a)
    ensures Pieces(a) == [a]
  {
    PiecesPrefix(a, "");
    assert a + "" == a;
  }

  /** Three texts without line breaks joined by newlines split back into themselves. */
  lemma ThreeLinesOf(a: string, b: string, c: string)
    requires NoLineBreak(a) && NoLineBreak(b) && NoLineBreak(c)
    ensures Pieces(a + "\n" + b + "\n" + c) == [a, b, c]
  {
    assert a + "\n" + b + "\n" + c == a + "\n" + (b + "\n" + c);
    SingleLine(c);
    LineThen(b, c);
    LineThen(a, b + "\n" + c);
  }

  /** Number of items `s.split()` returns: maximal runs of non-space characters. */
  function WordCount(s: string): nat {
    Words(s, false)
  }

  function Words(s: string, inWord: bool): nat {
    if s == [] then 0
    else if IsSpace(s[0]) then Words(s[1..], false)
    else (if inWord then 0 else 1) + Words(s[1..], true)
  }

  // ---------------------------------------------------------------------------
  // Numbers
  // ---------------------------------------------------------------------------

  predicate IsDigits(s: string) {
    |s| > 0 && forall i :: 0 <= i < |s| ==> IsDigit(s[i])
  }

  /** `int(s)` for a string of decimal digits. */
  function DigitsValue(s: string): nat
    requires forall i :: 0 <= i < |s| ==> IsDigit(s[i])
  {
    if s == [] then 0
    else
      assert IsDigit(s[|s| - 1]);
      DigitsValue(s[..|s| - 1]) * 10 + (s[|s| - 1] as int - '0' as int) as nat
  }

  function DigitChar(d: nat): (c: char)
    requires d < 10
    ensures IsDigit(c)
  {
    ('0' as int + d) as char
  }

  function NatToString(n: nat): (r: string)
    ensures IsDigits(r)
  {
    if n < 10 then [DigitChar(n)] else NatToString(n / 10) + [DigitChar(n % 10)]
  }

  /** `str(n)` for an integer. */
  function IntToString(n: int): string {
    if n < 0 then "-" + NatToString(-n) else NatToString(n)
  }

  lemma {:induction false} NatToStringRoundTrip(n: nat)
    ensures DigitsValue(NatToString(n)) == n
  {
    if n >= 10 {
      NatToStringRoundTrip(n / 10);
      var s := NatToString(n / 10) + [DigitChar(n % 10)];
      assert s[..|s| - 1] == NatToString(n / 10);
    }
  }
}
