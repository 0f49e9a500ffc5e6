/**
 The dashboard (src/components/Dashboard.tsx): aggregate statistics over the detection
 history, the verdict icon and badge of each entry, and the history list whose entries
 hand themselves to the page when clicked. Everything here is a pure function of the
 history the page passes in.
 */
module Dashboard {
  import opened Rounding
  import opened Detection
  import opened Display

  /** `history.filter(r => r.verdict === v).length`. */
  function Count(h: seq<DetectionResult>, v: Verdict): (n: nat)
    ensures n <= |h|
  {
    if h == [] then 0 else (if h[0].verdict == v then 1 else 0) + Count(h[1..], v)
  }

  function RealDetected(h: seq<DetectionResult>): (n: nat)
    ensures n == |h| - Count(h, Fake)
  {
    CountsPartition(h);
    Count(h, Real)
  }

  function FakeDetected(h: seq<DetectionResult>): (n: nat)
    ensures n == |h| - Count(h, Real)
  {
    CountsPartition(h);
    Count(h, Fake)
  }

  /** Every entry is either real or fake, so the two counts add up to the total number of scans. */
  lemma {:induction false} CountsPartition(h: seq<DetectionResult>)
    ensures Count(h, Real) + Count(h, Fake) == |h|
  {
    if h != [] {
      CountsPartition(h[1..]);
    }
  }

  /** `history.reduce((sum, r) => sum + r.confidence, 0)`. */
  function SumConfidence(h: seq<DetectionResult>): (s: int)
    ensures ConfidencesWithin(h, 0, 100) ==> 0 <= s <= 100 * |h|
  {
    if h == [] then 0
    else
      assert ConfidencesWithin(h, 0, 100) ==> ConfidencesWithin(h[1..], 0, 100) by {
        assert forall i :: 1 <= i < |h| ==> h[i] == h[1..][i - 1];
      }
      h[0].confidence + SumConfidence(h[1..])
  }

  /** All confidences lie in [lo, hi]. */
  ghost predicate ConfidencesWithin(h: seq<DetectionResult>, lo: int, hi: int) {
    forall i :: 0 <= i < |h| ==> lo <= h[i].confidence <= hi
  }

  lemma {:induction false} SumWithin(h: seq<DetectionResult>, lo: int, hi: int)
    requires ConfidencesWithin(h, lo, hi)
    ensures lo * |h| <= SumConfidence(h) <= hi * |h|
  {
    if h != [] {
      var t := h[1..];
      assert ConfidencesWithin(t, lo, hi) by {
        forall i | 0 <= i < |t|
          ensures lo <= t[i].confidence <= hi
        {
          assert t[i] == h[i + 1];
        }
      }
      SumWithin(t, lo, hi);
      assert SumConfidence(h) == h[0].confidence + SumConfidence(t);
      BoundsStep(h[0].confidence, SumConfidence(t), lo, hi, |t|);
    }
  }

  lemma BoundsStep(a: int, s: int, lo: int, hi: int, n: nat)
    requires lo <= a <= hi && lo * n <= s <= hi * n
    ensures lo * (n + 1) <= a + s <= hi * (n + 1)
  {
    assert lo * (n + 1) == lo * n + lo && hi * (n + 1) == hi * n + hi;
  }

  function MinConfidence(h: seq<DetectionResult>): (m: int)
    requires |h| > 0
    ensures forall i :: 0 <= i < |h| ==> m <= h[i].confidence
    ensures exists i :: 0 <= i < |h| && h[i].confidence == m
  {
    if |h| == 1 then h[0].confidence
    else
      var rest := MinConfidence(h[1..]);
      assert forall i :: 1 <= i < |h| ==> h[i] == h[1..][i - 1];
      if h[0].confidence <= rest then h[0].confidence else rest
  }

  function MaxConfidence(h: seq<DetectionResult>): (m: int)
    requires |h| > 0
    ensures forall i :: 0 <= i < |h| ==> h[i].confidence <= m
    ensures exists i :: 0 <= i < |h| && h[i].confidence == m
  {
    if |h| == 1 then h[0].confidence
    else
      var rest := MaxConfidence(h[1..]);
      assert forall i :: 1 <= i < |h| ==> h[i] == h[1..][i - 1];
      if h[0].confidence >= rest then h[0].confidence else rest
  }

  /** The rounded mean confidence, 0 for an empty history. */
  function AvgConfidence(h: seq<DetectionResult>): (a: int)
    ensures h == [] ==> a == 0
    ensures h != [] ==> a == Round(SumConfidence(h) as real / |h| as real)
    ensures h != [] ==> MinConfidence(h) <= a <= MaxConfidence(h)
  {
    if |h| > 0 then
      SumWithin(h, MinConfidence(h), MaxConfidence(h));
      RoundDivWithin(SumConfidence(h), |h|, MinConfidence(h), MaxConfidence(h));
      RoundDiv(SumConfidence(h), |h|)
    else 0
  }

  /** For the results the page produces the average is a percentage. */
  lemma AvgConfidenceInRange(h: seq<DetectionResult>)
    requires forall i :: 0 <= i < |h| ==> WellFormed(h[i])
    ensures 0 <= AvgConfidence(h) <= 100
  {
    if h != [] {
      var lo, hi := MinConfidence(h), MaxConfidence(h);
      var i :| 0 <= i < |h| && h[i].confidence == lo;
      var j :| 0 <= j < |h| && h[j].confidence == hi;
      assert WellFormed(h[i]) && WellFormed(h[j]);
    }
  }

  /** `Math.round((k / n) * 100)`, shown as 0 when there are no scans. */
  function Percent(k: nat, n: nat): (p: int)
    requires k <= n
    ensures n == 0 ==> p == 0
    ensures n > 0 ==> p == Round((100 * k) as real / n as real)
    ensures 0 <= p <= 100
  {
    if n > 0 then
      RoundDivWithin(100 * k, n, 0, 100);
      RoundDiv(100 * k, n)
    else 0
  }

  function RealPercent(h: seq<DetectionResult>): (p: int)
    ensures h == [] ==> p == 0
    ensures h != [] ==> p == Round((100 * RealDetected(h)) as real / |h| as real)
    ensures 0 <= p <= 100
  {
    Percent(RealDetected(h), |h|)
  }

  function FakePercent(h: seq<DetectionResult>): (p: int)
    ensures h == [] ==> p == 0
    ensures h != [] ==> p == Round((100 * FakeDetected(h)) as real / |h| as real)
    ensures 0 <= p <= 100
  {
    Percent(FakeDetected(h), |h|)
  }

  /** Halves round up, so the percentages of k and of n - k out of n add up to 100 or 101. */
  lemma PercentComplement(k: nat, n: nat)
    requires 0 < n && k <= n
    ensures Percent(k, n) + Percent(n - k, n) == 100 || Percent(k, n) + Percent(n - k, n) == 101
  {
    var nr := n as real;
    var x := (100 * k) as real / nr;
    var y := (100 * (n - k)) as real / nr;
    assert x * nr == (100 * k) as real;
    assert y * nr == (100 * (n - k)) as real;
    assert (100.0 - x) * nr == 100.0 * nr - x * nr;
    assert (100 * (n - k)) as real == 100.0 * nr - (100 * k) as real;
    CancelFactor(y, 100.0 - x, nr);
  }

  /**
   The two percentages are complementary up to rounding: since halves round up, their sum
   is 100 or 101, never 99.
   */
  lemma PercentagesSum(h: seq<DetectionResult>)
    requires |h| > 0
    ensures RealPercent(h) + FakePercent(h) == 100 || RealPercent(h) + FakePercent(h) == 101
  {
    assert FakeDetected(h) == |h| - RealDetected(h);
    PercentComplement(RealDetected(h), |h|);
  }

  /** Three real and five fake entries show 38% and 63%. */
  lemma PercentagesMaySumTo101()
    ensures Percent(3, 8) == 38 && Percent(5, 8) == 63
  {
    assert RoundDiv(300, 8) == 38;
    assert RoundDiv(500, 8) == 63;
  }

  /** The icon beside an entry. */
  function VerdictIcon(v: Verdict): (i: Icon)
    ensures i == CheckCircle <==> v == Real
    ensures i == CheckCircle || i == XCircle
  {
    if v == Real then CheckCircle else XCircle
  }

  /** The colour of an entry's verdict badge. */
  function VerdictBadge(v: Verdict): (t: Tone)
    ensures t == Green <==> v == Real
    ensures t == Green || t == Red
  {
    if v == Real then Green else Red
  }

  datatype Row = Row(result: DetectionResult, icon: Icon, badge: Tone)

  /** The history panel: the empty-state placeholder, or one row per entry in history order. */
  datatype HistoryPanel = EmptyState | Listing(rows: seq<Row>)

  function Panel(h: seq<DetectionResult>): (p: HistoryPanel)
    ensures p.EmptyState? <==> h == []
    ensures p.Listing? ==> |p.rows| == |h|
    ensures p.Listing? ==> forall i :: 0 <= i < |h| ==>
      p.rows[i].result == h[i] && p.rows[i].icon == VerdictIcon(h[i].verdict)
      && p.rows[i].badge == VerdictBadge(h[i].verdict)
  {
    if h == [] then EmptyState
    else Listing(seq(|h|, i requires 0 <= i < |h| => Row(h[i], VerdictIcon(h[i].verdict), VerdictBadge(h[i].verdict))))
  }

  /** The entry a click on row `i` of the panel hands to the page's select callback: exactly the i-th history entry. */
  function Clicked(h: seq<DetectionResult>, i: nat): (r: DetectionResult)
    requires i < |h|
    ensures r == h[i]
  {
    Panel(h).rows[i].result
  }
}
