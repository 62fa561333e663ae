/** `FindOverscanValues`: the exhaustive search for the input timing (lines per
    frame `TLI`, clocks per line `HCLKI`, clock ratio) whose picture best fits
    the requested overscan.

    The search enumerates the clock ratio (1.0, then 1.5), then the line count
    and then the output clock, each over a bounded range, and keeps the first
    candidate of least metric among the valid ones. The bounds, the rounded
    input clock, the horizontal-sync room test and the overscan metric are all
    computed in double precision by the firmware; here they are inputs. The one
    exact test of the search, that the input and output line periods agree, is
    stated in integers. */
module OverscanSearch {
  import opened Options
  import opened VideoStandards
  import opened ModeTiming

  /** One point of the search: the clock ratio, the input lines per frame and
      the output clocks per line. */
  datatype Candidate = Candidate(ratio: ClkRatio, tli: int, hClkO: int)

  /** The ranges searched, as the firmware computes them from the requested
      size and the overscan window (all `DWORD`). */
  datatype Bounds = Bounds(minTli: nat, maxTli: nat, minHClkO: nat, maxHClkO: nat)

  /** The double-precision parts of the search: the input clock a candidate
      rounds to, the test that it leaves room for horizontal sync
      (`dTempHCLKI >= dMinHCLKI`), and the overscan metric. */
  datatype Solver = Solver(hClkI: Candidate -> nat, hasSyncRoom: Candidate -> bool, metric: Candidate -> real)

  /** The metric the search starts from; only a candidate below it is kept. */
  const Sentinel: real := 1000.0

  /** The clock ratio of the outer loop's pass `k`. */
  function RatioOf(k: int): ClkRatio
  {
    if k == 0 then Unity else ThreeHalves
  }

  function RatioIndex(r: ClkRatio): (k: nat)
    ensures k <= 1 && RatioOf(k) == r
  {
    match r
    case Unity => 0
    case ThreeHalves => 1
  }

  predicate InRange(b: Bounds, c: Candidate)
  {
    b.minTli <= c.tli <= b.maxTli && b.minHClkO <= c.hClkO <= b.maxHClkO
  }

  /** The line periods agree exactly: `TLI * HCLKI == tlo * HCLKO * ratio` with
      tlo = T/2 and ratio = R/2, multiplied out by four. */
  predicate Exact(std: VideoStd, c: Candidate, hClkI: int)
  {
    4 * c.tli * hClkI == TotalHalfLines(std) * c.hClkO * HalfUnits(c.ratio)
  }

  /** The firmware's test `fabs(TLI * HCLKI - tlo * HCLKO * ratio) < 1e-3`, in reals. */
  predicate WithinTolerance(std: VideoStd, c: Candidate, hClkI: int)
  {
    var d := (c.tli * hClkI) as real - (TotalHalfLines(std) as real / 2.0) * (c.hClkO as real) * (HalfUnits(c.ratio) as real / 2.0);
    -0.001 < d < 0.001
  }

  /** Both sides are whole multiples of a quarter, so the tolerance test holds
      exactly when the products are equal. */
  lemma ToleranceIsExact(std: VideoStd, c: Candidate, hClkI: int)
    ensures WithinTolerance(std, c, hClkI) <==> Exact(std, c, hClkI)
  {
    var n := 4 * c.tli * hClkI - TotalHalfLines(std) * c.hClkO * HalfUnits(c.ratio);
    var d := (c.tli * hClkI) as real - (TotalHalfLines(std) as real / 2.0) * (c.hClkO as real) * (HalfUnits(c.ratio) as real / 2.0);
    assert (TotalHalfLines(std) as real / 2.0) * (c.hClkO as real) * (HalfUnits(c.ratio) as real / 2.0)
      == (TotalHalfLines(std) * c.hClkO * HalfUnits(c.ratio)) as real / 4.0;
    assert d == n as real / 4.0;
  }

  /** A candidate the search accepts. */
  predicate Valid(std: VideoStd, s: Solver, c: Candidate)
  {
    Exact(std, c, s.hClkI(c)) && s.hasSyncRoom(c)
  }

  /** `a` comes before the loop position (pass `k`, line count `tli`, output
      clock `h`) in the enumeration order. */
  predicate Before(a: Candidate, k: int, tli: int, h: int)
  {
    RatioIndex(a.ratio) < k
    || (RatioIndex(a.ratio) == k && (a.tli < tli || (a.tli == tli && a.hClkO < h)))
  }

  /** `a` is enumerated before `c`. */
  predicate Precedes(a: Candidate, c: Candidate)
  {
    Before(a, RatioIndex(c.ratio), c.tli, c.hClkO)
  }

  /** The enumeration order is a strict total order. */
  lemma PrecedesTotal(a: Candidate, c: Candidate)
    ensures !(Precedes(a, c) && Precedes(c, a))
    ensures a == c || Precedes(a, c) || Precedes(c, a)
  {
  }

  /** A candidate the search may return: valid, below the sentinel, of least
      metric among the valid candidates, and strictly better than every valid
      candidate enumerated before it. */
  ghost predicate Chosen(b: Bounds, std: VideoStd, s: Solver, c: Candidate)
  {
    && InRange(b, c) && Valid(std, s, c) && s.metric(c) < Sentinel
    && (forall d :: InRange(b, d) && Valid(std, s, d) ==> s.metric(c) <= s.metric(d))
    && (forall d :: InRange(b, d) && Valid(std, s, d) && Precedes(d, c) ==> s.metric(c) < s.metric(d))
  }

  /** At most one candidate is chosen: the search's answer is determined. */
  lemma ChosenUnique(b: Bounds, std: VideoStd, s: Solver, c1: Candidate, c2: Candidate)
    requires Chosen(b, std, s, c1) && Chosen(b, std, s, c2)
    ensures c1 == c2
  {
    PrecedesTotal(c1, c2);
  }

  // The loop invariant.

  /** `d` is in range and enumerated before the loop position. */
  predicate Seen(b: Bounds, d: Candidate, k: int, tli: int, h: int)
  {
    InRange(b, d) && Before(d, k, tli, h)
  }

  /** What the best-so-far variables hold once every candidate before the loop
      position has been looked at: the sentinel and no valid candidate below
      it, or a chosen candidate among those seen. */
  ghost predicate BestSoFar(b: Bounds, std: VideoStd, s: Solver, k: int, tli: int, h: int,
                            winner: Option<Candidate>, best: real)
  {
    match winner
    case None =>
      && best == Sentinel
      && forall d :: Seen(b, d, k, tli, h) && Valid(std, s, d) ==> s.metric(d) >= Sentinel
    case Some(w) =>
      && Seen(b, w, k, tli, h) && Valid(std, s, w) && s.metric(w) == best && best < Sentinel
      && (forall d :: Seen(b, d, k, tli, h) && Valid(std, s, d) ==> best <= s.metric(d))
      && (forall d :: Seen(b, d, k, tli, h) && Valid(std, s, d) && Precedes(d, w) ==> best < s.metric(d))
  }

  /** Looking at the candidate at the loop position keeps the invariant one
      output clock further on. */
  lemma {:induction false} BestSoFarStep(b: Bounds, std: VideoStd, s: Solver, k: int, tli: int, h: int,
                                         winner: Option<Candidate>, best: real)
    requires 0 <= k <= 1 && b.minTli <= tli <= b.maxTli && b.minHClkO <= h <= b.maxHClkO
    requires BestSoFar(b, std, s, k, tli, h, winner, best)
    ensures var c := Candidate(RatioOf(k), tli, h);
      if Valid(std, s, c) && s.metric(c) < best
      then BestSoFar(b, std, s, k, tli, h + 1, Some(c), s.metric(c))
      else BestSoFar(b, std, s, k, tli, h + 1, winner, best)
  {
    var c := Candidate(RatioOf(k), tli, h);
    assert RatioIndex(c.ratio) == k;
    forall d | InRange(b, d)
      ensures Seen(b, d, k, tli, h + 1) <==> Seen(b, d, k, tli, h) || d == c
    {
    }
    if Valid(std, s, c) && s.metric(c) < best {
      forall d | Seen(b, d, k, tli, h + 1) && Valid(std, s, d) && Precedes(d, c)
        ensures s.metric(c) < s.metric(d)
      {
        assert Seen(b, d, k, tli, h);
      }
    } else if winner.Some? {
      var w := winner.value;
      forall d | Seen(b, d, k, tli, h + 1) && Valid(std, s, d) && Precedes(d, w)
        ensures best < s.metric(d)
      {
        if d == c {
          assert false;
        }
      }
    }
  }

  /** The end of a row of output clocks is the start of the next line count. */
  lemma BestSoFarNextLine(b: Bounds, std: VideoStd, s: Solver, k: int, tli: int, h: int,
                          winner: Option<Candidate>, best: real)
    requires h > b.maxHClkO
    requires BestSoFar(b, std, s, k, tli, h, winner, best)
    ensures BestSoFar(b, std, s, k, tli + 1, b.minHClkO, winner, best)
  {
    forall d | InRange(b, d)
      ensures Seen(b, d, k, tli, h) <==> Seen(b, d, k, tli + 1, b.minHClkO)
    {
    }
  }

  /** The end of a pass over the line counts is the start of the next ratio. */
  lemma BestSoFarNextRatio(b: Bounds, std: VideoStd, s: Solver, k: int, tli: int, h: int,
                           winner: Option<Candidate>, best: real)
    requires tli > b.maxTli
    requires BestSoFar(b, std, s, k, tli, h, winner, best)
    ensures BestSoFar(b, std, s, k + 1, b.minTli, b.minHClkO, winner, best)
  {
    forall d | InRange(b, d)
      ensures Seen(b, d, k, tli, h) <==> Seen(b, d, k + 1, b.minTli, b.minHClkO)
    {
    }
  }

  /** After both passes every candidate in range has been seen. */
  lemma BestSoFarDone(b: Bounds, std: VideoStd, s: Solver, winner: Option<Candidate>, best: real)
    requires BestSoFar(b, std, s, 2, b.minTli, b.minHClkO, winner, best)
    ensures winner.None? <==> best == Sentinel
    ensures winner.None? ==> !exists d :: InRange(b, d) && Valid(std, s, d) && s.metric(d) < Sentinel
    ensures winner.Some? ==> Chosen(b, std, s, winner.value)
  {
    forall d | InRange(b, d)
      ensures Seen(b, d, 2, b.minTli, b.minHClkO)
    {
    }
  }

  /** The best-so-far variables of the search: `dBestMetric`, `dBestTLI`,
      `dBestHCLKI` and `dBestCLKRATIO`. */
  datatype Best = Best(metric: real, tli: int, hClkI: int, ratio: ClkRatio)

  /** The loop invariant: the best-so-far metric is as `BestSoFar` says and the
      other best-so-far variables are the winner's. */
  ghost predicate Tracks(b: Bounds, std: VideoStd, s: Solver, k: int, tli: int, h: int,
                         winner: Option<Candidate>, best: Best)
  {
    && BestSoFar(b, std, s, k, tli, h, winner, best.metric)
    && (winner.Some? ==> best == Best(s.metric(winner.value), winner.value.tli, s.hClkI(winner.value), winner.value.ratio))
  }

  /** The best-so-far variables after looking at candidate `c`. */
  function Consider(std: VideoStd, s: Solver, c: Candidate, best: Best): Best
  {
    if Valid(std, s, c) && s.metric(c) < best.metric then Best(s.metric(c), c.tli, s.hClkI(c), c.ratio) else best
  }

  /** The candidate the best-so-far variables belong to after looking at `c`. */
  ghost function Lead(std: VideoStd, s: Solver, c: Candidate, best: Best, winner: Option<Candidate>): Option<Candidate>
  {
    if Valid(std, s, c) && s.metric(c) < best.metric then Some(c) else winner
  }

  lemma TracksStep(b: Bounds, std: VideoStd, s: Solver, k: int, tli: int, h: int,
                   winner: Option<Candidate>, best: Best)
    requires 0 <= k <= 1 && b.minTli <= tli <= b.maxTli && b.minHClkO <= h <= b.maxHClkO
    requires Tracks(b, std, s, k, tli, h, winner, best)
    ensures var c := Candidate(RatioOf(k), tli, h);
      Tracks(b, std, s, k, tli, h + 1, Lead(std, s, c, best, winner), Consider(std, s, c, best))
  {
    BestSoFarStep(b, std, s, k, tli, h, winner, best.metric);
  }

  lemma TracksNextLine(b: Bounds, std: VideoStd, s: Solver, k: int, tli: int, h: int,
                       winner: Option<Candidate>, best: Best)
    requires h > b.maxHClkO
    requires Tracks(b, std, s, k, tli, h, winner, best)
    ensures Tracks(b, std, s, k, tli + 1, b.minHClkO, winner, best)
  {
    BestSoFarNextLine(b, std, s, k, tli, h, winner, best.metric);
  }

  lemma TracksNextRatio(b: Bounds, std: VideoStd, s: Solver, k: int, tli: int,
                        winner: Option<Candidate>, best: Best)
    requires tli > b.maxTli
    requires Tracks(b, std, s, k, tli, b.minHClkO, winner, best)
    ensures Tracks(b, std, s, k + 1, b.minTli, b.minHClkO, winner, best)
  {
    BestSoFarNextRatio(b, std, s, k, tli, b.minHClkO, winner, best.metric);
  }

  /** The innermost loop of the search: every output clock for one clock
      ratio and line count. */
  method ScanOutputClocks(b: Bounds, std: VideoStd, s: Solver, k: int, tli: int,
                          best: Best, ghost winner: Option<Candidate>)
    returns (best': Best, ghost winner': Option<Candidate>)
    requires 0 <= k <= 1 && b.minTli <= tli <= b.maxTli
    requires Tracks(b, std, s, k, tli, b.minHClkO, winner, best)
    ensures Tracks(b, std, s, k, tli + 1, b.minHClkO, winner', best')
  {
    best', winner' := best, winner;
    var ratio := RatioOf(k);
    var hClkO := b.minHClkO;
    while hClkO <= b.maxHClkO
      invariant b.minHClkO <= hClkO
      invariant Tracks(b, std, s, k, tli, hClkO, winner', best')
      decreases b.maxHClkO - hClkO
    {
      var c := Candidate(ratio, tli, hClkO);
      TracksStep(b, std, s, k, tli, hClkO, winner', best');
      winner' := Lead(std, s, c, best', winner');
      best' := Consider(std, s, c, best');
      hClkO := hClkO + 1;
    }
    TracksNextLine(b, std, s, k, tli, hClkO, winner', best');
  }

  /** The middle loop of the search: every line count for one clock ratio. */
  method ScanLineCounts(b: Bounds, std: VideoStd, s: Solver, k: int,
                        best: Best, ghost winner: Option<Candidate>)
    returns (best': Best, ghost winner': Option<Candidate>)
    requires 0 <= k <= 1
    requires Tracks(b, std, s, k, b.minTli, b.minHClkO, winner, best)
    ensures Tracks(b, std, s, k + 1, b.minTli, b.minHClkO, winner', best')
  {
    best', winner' := best, winner;
    var tli := b.minTli;
    while tli <= b.maxTli
      invariant b.minTli <= tli
      invariant Tracks(b, std, s, k, tli, b.minHClkO, winner', best')
      decreases b.maxTli - tli
    {
      best', winner' := ScanOutputClocks(b, std, s, k, tli, best', winner');
      tli := tli + 1;
    }
    TracksNextRatio(b, std, s, k, tli, winner', best');
  }
  /** `FindOverscanValues`. The standard, width, height and depth are copied
      into the result first, whatever the outcome; the solved fields are
      written only when a candidate is found and otherwise keep what the
      caller's record held. */
  method FindOverscanValues(hActive: int, vActiveI: int, bpp: int, std: VideoStd,
                            b: Bounds, s: Solver, prior: ModeParameter)
    returns (found: bool, result: ModeParameter)
    ensures result.std == std && result.hActive == hActive && result.vActiveI == vActiveI && result.bpp == bpp
    ensures found <==> exists c :: InRange(b, c) && Valid(std, s, c) && s.metric(c) < Sentinel
    ensures found ==> exists c :: (Chosen(b, std, s, c)
      && result.vLinesI == c.tli && result.hClkI == s.hClkI(c) && result.clkRatio == c.ratio)
    ensures !found ==> (result.vLinesI == prior.vLinesI && result.hClkI == prior.hClkI
      && result.clkRatio == prior.clkRatio)
  {
    var best := Best(Sentinel, 0, 0, Unity);
    ghost var winner: Option<Candidate> := None;
    result := prior.(std := std, hActive := hActive, vActiveI := vActiveI, bpp := bpp);

    var k := 0;
    while k <= 1
      invariant 0 <= k <= 2
      invariant Tracks(b, std, s, k, b.minTli, b.minHClkO, winner, best)
    {
      best, winner := ScanLineCounts(b, std, s, k, best, winner);
      k := k + 1;
    }
    BestSoFarDone(b, std, s, winner, best.metric);

    if best.metric == Sentinel {
      found := false;
      return;
    }
    found := true;
    result := result.(vLinesI := best.tli, hClkI := best.hClkI, clkRatio := best.ratio);
  }
}
