// The per-flow packet statistics gathered for the ML model, one packet at a time
// (daemon/ndpi_engine.c). Lengths and clock readings are whole numbers, so the
// sums are exact; means and variances are exact reals.
module MlStats {
  import opened Basics

  // The initial value of the smallest gap: 1e30 seconds.
  const NO_GAP: int := 1_000_000_000_000_000_000_000_000_000_000

  datatype Sample = Sample(len: U16, at: U32)

  datatype Acc = Acc(
    n: nat, sum: nat, sq: nat, min: nat, max: nat, first: nat, last: nat,
    gapSum: int, gapSq: int, gapMin: int, gapMax: int, lastAt: int)

  const BLANK := Acc(0, 0, 0, 0, 0, 0, 0, 0, 0, 0, 0, 0)

  function Add(a: Acc, s: Sample): Acc {
    var gap := s.at - a.lastAt;
    if a.n == 0 then
      Acc(1, a.sum + s.len, a.sq + s.len * s.len, s.len, s.len, s.len, s.len,
          a.gapSum, a.gapSq, NO_GAP, 0, s.at)
    else
      Acc(a.n + 1, a.sum + s.len, a.sq + s.len * s.len, Min(a.min, s.len), Max(a.max, s.len), a.first, s.len,
          a.gapSum + gap, a.gapSq + gap * gap, Min(a.gapMin, gap), Max(a.gapMax, gap), s.at)
  }

  // Field by field, as the daemon does it.
  method Accumulate(a: Acc, len: U16, now: U32) returns (f: Acc)
    ensures f == Add(a, Sample(len, now))
  {
    f := a;
    if f.n == 0 {
      f := f.(first := len, min := len, max := len, gapMin := NO_GAP, gapMax := 0);
    } else {
      var gap := now - f.lastAt;
      f := f.(gapSum := f.gapSum + gap);
      f := f.(gapSq := f.gapSq + gap * gap);
      if gap < f.gapMin { f := f.(gapMin := gap); }
      if gap > f.gapMax { f := f.(gapMax := gap); }
    }
    f := f.(sum := f.sum + len);
    f := f.(sq := f.sq + len * len);
    if len < f.min { f := f.(min := len); }
    if len > f.max { f := f.(max := len); }
    f := f.(last := len, lastAt := now, n := f.n + 1);
  }

  // The accumulators after a sequence of packets.
  function Run(samples: seq<Sample>): Acc {
    if samples == [] then BLANK
    else Add(Run(samples[..|samples| - 1]), samples[|samples| - 1])
  }

  lemma RunMore(samples: seq<Sample>, s: Sample)
    ensures Run(samples + [s]) == Add(Run(samples), s)
  {
    assert (samples + [s])[..|samples|] == samples;
  }

  lemma {:induction false} RunCounts(samples: seq<Sample>)
    ensures Run(samples).n == |samples|
  {
    if samples != [] {
      RunCounts(samples[..|samples| - 1]);
    }
  }

  // ---- The same quantities computed over the whole batch -------------------

  function Lengths(samples: seq<Sample>): (r: seq<int>)
    ensures |r| == |samples|
  {
    seq(|samples|, i requires 0 <= i < |samples| => samples[i].len)
  }

  function Gaps(samples: seq<Sample>): (r: seq<int>)
    ensures |r| == Max(0, |samples| - 1)
  {
    seq(Max(0, |samples| - 1), i requires 0 <= i < |samples| - 1 => samples[i + 1].at - samples[i].at)
  }

  function SumOf(xs: seq<int>): int {
    if xs == [] then 0 else SumOf(xs[..|xs| - 1]) + xs[|xs| - 1]
  }

  function SquaresOf(xs: seq<int>): int {
    if xs == [] then 0 else SquaresOf(xs[..|xs| - 1]) + xs[|xs| - 1] * xs[|xs| - 1]
  }

  // `m` is the smallest of `xs` and `start`; `Largest` likewise.
  ghost predicate Smallest(m: int, xs: seq<int>, start: int) {
    m <= start && (m == start || m in xs) && forall i :: 0 <= i < |xs| ==> m <= xs[i]
  }

  ghost predicate Largest(m: int, xs: seq<int>, start: int) {
    m >= start && (m == start || m in xs) && forall i :: 0 <= i < |xs| ==> m >= xs[i]
  }

  ghost predicate LengthsAgree(a: Acc, lens: seq<int>)
    requires lens != []
  {
    && a.n == |lens| && a.first == lens[0] && a.last == lens[|lens| - 1]
    && a.sum == SumOf(lens) && a.sq == SquaresOf(lens)
    && Smallest(a.min, lens, lens[0]) && Largest(a.max, lens, lens[0])
  }

  ghost predicate GapsAgree(a: Acc, gaps: seq<int>, span: int) {
    && a.gapSum == SumOf(gaps) == span && a.gapSq == SquaresOf(gaps)
    && Smallest(a.gapMin, gaps, NO_GAP) && Largest(a.gapMax, gaps, 0)
  }

  ghost predicate IsBatch(a: Acc, samples: seq<Sample>)
    requires samples != []
  {
    var n := |samples|;
    && LengthsAgree(a, Lengths(samples))
    && GapsAgree(a, Gaps(samples), samples[n - 1].at - samples[0].at)
    && a.lastAt == samples[n - 1].at
  }

  lemma Extended(m: int, xs: seq<int>, start: int, x: int)
    ensures Smallest(m, xs, start) ==> Smallest(Min(m, x), xs + [x], start)
    ensures Largest(m, xs, start) ==> Largest(Max(m, x), xs + [x], start)
    ensures SumOf(xs + [x]) == SumOf(xs) + x && SquaresOf(xs + [x]) == SquaresOf(xs) + x * x
  {
    var ys := xs + [x];
    assert ys[..|xs|] == xs;
    assert forall i :: 0 <= i < |xs| ==> ys[i] == xs[i];
    assert x in ys && forall y :: y in xs ==> y in ys;
  }

  lemma LengthsStep(a: Acc, lens: seq<int>, s: Sample)
    requires lens != [] && a.n > 0 && LengthsAgree(a, lens)
    ensures LengthsAgree(Add(a, s), lens + [s.len])
  {
    hide Smallest, Largest, SumOf, SquaresOf;
    Extended(a.min, lens, lens[0], s.len);
    Extended(a.max, lens, lens[0], s.len);
  }

  lemma GapsStep(a: Acc, gaps: seq<int>, span: int, s: Sample)
    requires a.n > 0 && GapsAgree(a, gaps, span)
    ensures GapsAgree(Add(a, s), gaps + [s.at - a.lastAt], span + (s.at - a.lastAt))
  {
    hide Smallest, Largest, SumOf, SquaresOf;
    Extended(a.gapMin, gaps, NO_GAP, s.at - a.lastAt);
    Extended(a.gapMax, gaps, 0, s.at - a.lastAt);
  }

  lemma FirstSample(s: Sample)
    ensures IsBatch(Add(BLANK, s), [s])
  {
    assert Lengths([s]) == [] + [s.len] && Gaps([s]) == [];
    Extended(s.len, [], s.len, s.len);
  }

  // Streaming equals batch, for every sequence of packets.
  lemma {:induction false} RunIsBatch(samples: seq<Sample>)
    requires samples != []
    ensures IsBatch(Run(samples), samples)
    decreases |samples|
  {
    hide Add, LengthsAgree, GapsAgree;
    var n := |samples| - 1;
    var before, s := samples[..n], samples[n];
    if n == 0 {
      assert samples == [s] && before == [];
      FirstSample(s);
    } else {
      RunIsBatch(before);
      var a := Run(before);
      assert Lengths(samples) == Lengths(before) + [s.len];
      assert Gaps(samples) == Gaps(before) + [s.at - before[n - 1].at];
      CountIsPositive(a, Lengths(before));
      LengthsStep(a, Lengths(before), s);
      GapsStep(a, Gaps(before), before[n - 1].at - before[0].at, s);
      AddKeepsTime(a, s);
    }
  }

  lemma CountIsPositive(a: Acc, lens: seq<int>)
    requires lens != [] && LengthsAgree(a, lens)
    ensures a.n > 0
  {
  }

  lemma AddKeepsTime(a: Acc, s: Sample)
    ensures Add(a, s).lastAt == s.at
  {
  }

  // ---- Means and variances -------------------------------------------------

  function Mean(sum: int, n: int): real
    requires n > 0
  {
    sum as real / n as real
  }

  function Variance(sum: int, sq: int, n: int): real
    requires n > 0
  {
    sq as real / n as real - Mean(sum, n) * Mean(sum, n)
  }

  lemma {:induction false} SumWithin(xs: seq<int>, lo: int, hi: int)
    requires forall i :: 0 <= i < |xs| ==> lo <= xs[i] <= hi
    ensures |xs| * lo <= SumOf(xs) <= |xs| * hi
  {
    if xs != [] {
      var n := |xs| - 1;
      SumWithin(xs[..n], lo, hi);
      assert (n + 1) * lo == n * lo + lo && (n + 1) * hi == n * hi + hi;
    }
  }

  lemma CrossStep(n: int, s: int, q: int, x: int, y: int)
    requires 2 * x * s <= q + n * x * x
    ensures 2 * x * (s + y) <= q + y * y + (n + 1) * x * x
  {
    assert 0 <= (x - y) * (x - y) == x * x - 2 * x * y + y * y;
    assert 2 * x * (s + y) == 2 * x * s + 2 * x * y;
    assert (n + 1) * x * x == n * x * x + x * x;
  }

  // Twice x times the sum never exceeds the squares plus n times x squared.
  lemma {:induction false} CrossTerm(xs: seq<int>, x: int)
    ensures 2 * x * SumOf(xs) <= SquaresOf(xs) + |xs| * x * x
  {
    if xs != [] {
      var n := |xs| - 1;
      CrossTerm(xs[..n], x);
      CrossStep(n, SumOf(xs[..n]), SquaresOf(xs[..n]), x, xs[n]);
    }
  }

  lemma SquareStep(n: int, s: int, q: int, x: int)
    requires s * s <= n * q && 2 * x * s <= q + n * x * x
    ensures (s + x) * (s + x) <= (n + 1) * (q + x * x)
  {
    assert (s + x) * (s + x) == s * s + 2 * x * s + x * x;
    assert (n + 1) * (q + x * x) == n * (q + x * x) + (q + x * x);
    assert n * (q + x * x) == n * q + n * (x * x);
    assert n * (x * x) == n * x * x;
  }

  // The Cauchy-Schwarz inequality for sums of whole numbers.
  lemma {:induction false} SumSquared(xs: seq<int>)
    ensures SumOf(xs) * SumOf(xs) <= |xs| * SquaresOf(xs)
  {
    if xs != [] {
      var n := |xs| - 1;
      SumSquared(xs[..n]);
      CrossTerm(xs[..n], xs[n]);
      SquareStep(n, SumOf(xs[..n]), SquaresOf(xs[..n]), xs[n]);
    }
  }

  lemma Unscaled(a: real, b: real, r: real)
    requires r > 0.0 && a * r <= b * r
    ensures a <= b
  {
    assert (b - a) * r >= 0.0;
  }

  lemma MeanWithin(sum: int, n: int, lo: int, hi: int)
    requires n > 0 && n * lo <= sum <= n * hi
    ensures lo as real <= Mean(sum, n) <= hi as real
  {
    assert Mean(sum, n) * n as real == sum as real;
    assert (n * lo) as real == lo as real * n as real && (n * hi) as real == hi as real * n as real;
    Unscaled(lo as real, Mean(sum, n), n as real);
    Unscaled(Mean(sum, n), hi as real, n as real);
  }

  lemma VarianceNonnegative(sum: int, sq: int, n: int)
    requires n > 0 && sum * sum <= n * sq
    ensures Variance(sum, sq, n) >= 0.0
  {
    var r, m, q := n as real, Mean(sum, n), sq as real / n as real;
    assert sum as real == m * r && sq as real == q * r;
    assert (sum * sum) as real == sum as real * sum as real;
    assert (n * sq) as real == r * sq as real;
    assert (m * r) * (m * r) == (m * m) * (r * r) && r * (q * r) == q * (r * r);
    Unscaled(m * m, q, r * r);
  }

  // What the model is fed: every mean lies between its extremes and neither
  // variance is negative, so the clamps to zero can only absorb rounding. The
  // clock never goes back and no gap exceeds 1e30 seconds.
  lemma StatisticsAreSound(samples: seq<Sample>)
    requires samples != []
    requires forall i :: 0 <= i < |samples| - 1 ==> 0 <= samples[i + 1].at - samples[i].at <= NO_GAP
    ensures var a := Run(samples);
      && a.min as real <= Mean(a.sum, a.n) <= a.max as real
      && Variance(a.sum, a.sq, a.n) >= 0.0
      && (a.n > 1 ==> a.gapMin as real <= Mean(a.gapSum, a.n - 1) <= a.gapMax as real)
      && (a.n > 2 ==> Variance(a.gapSum, a.gapSq, a.n - 1) >= 0.0)
  {
    RunIsBatch(samples);
    var a, lens, gaps := Run(samples), Lengths(samples), Gaps(samples);
    SumWithin(lens, a.min, a.max);
    MeanWithin(a.sum, a.n, a.min, a.max);
    SumSquared(lens);
    VarianceNonnegative(a.sum, a.sq, a.n);
    if a.n > 1 {
      SumWithin(gaps, a.gapMin, a.gapMax);
      MeanWithin(a.gapSum, a.n - 1, a.gapMin, a.gapMax);
      SumSquared(gaps);
      VarianceNonnegative(a.gapSum, a.gapSq, a.n - 1);
    }
  }
}
