/** The score dashboard (flow_lock/score_dashboard.py): today's score read
    from the state file, and a three-line text with a 40-character bar. */
module ScoreDashboard {
  import opened Json
  import opened Text

  const BarWidth := 40
  const Full := '\U{2588}'
  const Empty := '\U{2591}'

  /** `r` is a whole number of hundredths. */
  predicate Hundredths(r: real) {
    (r * 100.0).Floor as real == r * 100.0
  }

  function AbsReal(x: real): real {
    if x < 0.0 then -x else x
  }

  /** Python's `round(x, 2)`: to the nearest hundredth, ties to even. */
  function Round2(x: real): (r: real)
    ensures Hundredths(r)
    ensures -1.0 / 200.0 <= r - x <= 1.0 / 200.0
  {
    RoundHalfEven(x * 100.0) as real / 100.0
  }

  /** Python's `round(y)`: the nearest integer, ties to even. */
  function RoundHalfEven(y: real): (n: int)
    ensures -0.5 <= n as real - y <= 0.5
  {
    var f := y.Floor;
    var frac := y - f as real;
    if frac < 0.5 then f else if frac > 0.5 then f + 1 else if f % 2 == 0 then f else f + 1
  }

  /** `round(v, 2)` of a stored `daily_score`; a value `round` refuses reads
      as 0, the result of `get_daily_score`'s `except`. */
  function RoundedScore(v: Json): (r: real)
    ensures Hundredths(r)
    ensures v.JNum? ==> -1.0 / 200.0 <= r - v.n <= 1.0 / 200.0
  {
    match v
    case JNum(n) => Round2(n)
    case JBool(b) => if b then 1.0 else 0.0
    case _ => 0.0
  }

  /** `get_daily_score`: a missing or unreadable file, a stale or absent
      `last_score_date`, and a `daily_score` that `round` refuses all read as 0. */
  function DailyScore(f: StoredFile, today: string): (r: real)
    ensures Hundredths(r)
    ensures !f.Doc? ==> r == 0.0
    ensures f.Doc? && ("last_score_date" !in f.fields || f.fields["last_score_date"] != JStr(today)) ==> r == 0.0
    ensures f.Doc? && "last_score_date" in f.fields && f.fields["last_score_date"] == JStr(today) ==>
      if "daily_score" !in f.fields then r == 0.0
      else r == RoundedScore(f.fields["daily_score"])
  {
    if !f.Doc? then 0.0
    else if "last_score_date" !in f.fields || f.fields["last_score_date"] != JStr(today) then 0.0
    else if "daily_score" in f.fields then RoundedScore(f.fields["daily_score"])
    else 0.0
  }

  /** `int(min(max(score, 0), 40) // 2)` */
  function Bars(score: real): (n: nat)
    ensures n <= BarWidth / 2
    ensures score <= 0.0 ==> n == 0
    ensures score >= BarWidth as real ==> n == BarWidth / 2
  {
    var clamped := if score < 0.0 then 0.0 else if score > 40.0 then 40.0 else score;
    (clamped / 2.0).Floor
  }

  function BarGraph(bars: nat): (g: string)
    requires bars <= BarWidth
  {
    Repeat(Full, bars) + Repeat(Empty, BarWidth - bars)
  }

  /** `score_dashboard`; `show` renders the score as Python's f-string does. */
  function Dashboard(score: real, today: string, show: real -> string): string {
    ("FlowScore (" + today + ")") + "\n" + ("Score: " + show(score)) + "\n" + ("[" + BarGraph(Bars(score)) + "]")
  }

  /** `round(x, 2)` is a nearest hundredth: no whole number of hundredths is
      closer to x. */
  lemma {:induction false} Round2Nearest(x: real, k: int)
    ensures AbsReal(Round2(x) - x) <= AbsReal(k as real / 100.0 - x)
  {
    var y := x * 100.0;
    var n := RoundHalfEven(y);
    NearestInt(y, k);
    assert Round2(x) - x == (n as real - y) / 100.0;
    assert k as real / 100.0 - x == (k as real - y) / 100.0;
  }

  /** No integer is closer to y than `round(y)`. */
  lemma NearestInt(y: real, k: int)
    ensures AbsReal(RoundHalfEven(y) as real - y) <= AbsReal(k as real - y)
  {
    var f := y.Floor;
    assert k <= f || k >= f + 1;
  }

  /** A value exactly halfway between two hundredths rounds to the even one. */
  lemma Round2TiesToEven(x: real)
    requires x * 100.0 - (x * 100.0).Floor as real == 0.5
    ensures (Round2(x) * 100.0).Floor % 2 == 0
  {
    assert Round2(x) * 100.0 == RoundHalfEven(x * 100.0) as real;
  }


  /** A larger score never draws fewer filled cells. */
  lemma BarsMonotone(a: real, b: real)
    requires a <= b
    ensures Bars(a) <= Bars(b)
  {
    var ca := if a < 0.0 then 0.0 else if a > 40.0 then 40.0 else a;
    var cb := if b < 0.0 then 0.0 else if b > 40.0 then 40.0 else b;
    assert ca <= cb;
    assert (ca / 2.0).Floor as real <= ca / 2.0 <= cb / 2.0;
  }

  /** Filled cells are the clamped score halved and rounded down. */
  lemma BarsOfScore(score: real)
    requires 0.0 <= score <= 40.0
    ensures Bars(score) as real <= score / 2.0 < Bars(score) as real + 1.0
  {
  }

  /** The bar is always 40 characters: the filled cells, then the empty ones,
      and at most half of it is filled. */
  lemma BarShape(score: real)
    ensures |BarGraph(Bars(score))| == BarWidth
    ensures forall i :: 0 <= i < |BarGraph(Bars(score))| ==>
      BarGraph(Bars(score))[i] == if i < Bars(score) then Full else Empty
    ensures forall i :: BarWidth / 2 <= i < BarWidth ==> BarGraph(Bars(score))[i] == Empty
  {
    var n := Bars(score);
    var g := BarGraph(n);
    forall i | 0 <= i < |g|
      ensures g[i] == if i < n then Full else Empty
    {
      if i >= n {
        assert g[i] == Repeat(Empty, BarWidth - n)[i - n];
      }
    }
  }

  /** A score written on an earlier day reads as 0 and draws an empty bar. */
  lemma StaleDayResets(fields: map<string, Json>, today: string, day: string)
    requires "last_score_date" in fields && fields["last_score_date"] == JStr(day) && day != today
    ensures DailyScore(Doc(fields), today) == 0.0
    ensures Bars(DailyScore(Doc(fields), today)) == 0
  {
  }

  /** The bar has no line break: it is made of the two block characters. */
  lemma BarPlain(score: real)
    ensures NoLineBreak(BarGraph(Bars(score)))
  {
    BarShape(score);
  }

  /** The dashboard is three lines: the dated header, the score and the bar. */
  lemma ThreeLines(score: real, today: string, show: real -> string)
    requires NoLineBreak(today) && NoLineBreak(show(score))
    ensures Pieces(Dashboard(score, today, show))
         == ["FlowScore (" + today + ")", "Score: " + show(score), "[" + BarGraph(Bars(score)) + "]"]
  {
    var bar := BarGraph(Bars(score));
    var l1, l2, l3 := "FlowScore (" + today + ")", "Score: " + show(score), "[" + bar + "]";
    BarPlain(score);
    LabelsPlain();
    PlainConcat("FlowScore (", today);
    PlainConcat("FlowScore (" + today, ")");
    PlainConcat("Score: ", show(score));
    PlainConcat("[", bar);
    PlainConcat("[" + bar, "]");
    ThreeLinesOf(l1, l2, l3);
  }

  lemma LabelsPlain()
    ensures NoLineBreak("FlowScore (") && NoLineBreak(")") && NoLineBreak("Score: ")
    ensures NoLineBreak("[") && NoLineBreak("]")
  {
  }
}
