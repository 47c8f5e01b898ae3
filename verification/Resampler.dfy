/**
 The streaming resampler: linear interpolation with a state that crosses chunk borders.
 Positions are kept as exact multiples of 1/dst of a sample.
 */
module Resampler {

  newtype Sample = x: int | -0x8000 <= x < 0x8000

  /** A quotient rounded toward zero, as `int()` rounds. */
  function Trunc(num: int, den: int): int
    requires den > 0
  {
    if num >= 0 then num / den else -((-num) / den)
  }

  /** Is there a sample on either side of position `p / dst`? */
  predicate Reaches(w: seq<Sample>, p: nat, dst: nat) {
    dst > 0 && p / dst + 1 < |w|
  }

  /** The line through a and b, `part` of `dst` on the way from a to b. */
  function Weighed(a: int, b: int, part: nat, dst: nat): int
    requires dst > 0
  {
    Trunc(a * dst + (b - a) * part, dst)
  }

  /** The value at position `p / dst` on the line through the samples around it. */
  function At(w: seq<Sample>, p: nat, dst: nat): int
    requires Reaches(w, p, dst)
  {
    Weighed(w[p / dst] as int, w[p / dst + 1] as int, p % dst, dst)
  }

  /** How many output samples belong to n input samples: n * dst / src, rounded up. */
  function Count(n: nat, src: nat, dst: nat): nat
    requires src > 0
  {
    (n * dst + src - 1) / src
  }

  /** n periods of length r. */
  function Span(n: nat, r: nat): nat { n * r }

  // ---------------------------------------------------------------- arithmetic

  lemma MulMono(a: int, b: int, d: nat)
    requires a <= b
    ensures a * d <= b * d
  {
  }

  lemma MulNext(a: int, d: int)
    ensures (a + 1) * d == a * d + d && (a - 1) * d == a * d - d
  {
  }

  lemma MulSum(a: int, b: int, d: int)
    ensures (a + b) * d == a * d + b * d && (a - b) * d == a * d - b * d
  {
  }

  lemma DivMod(n: nat, d: nat)
    requires d > 0
    ensures n == n / d * d + n % d && 0 <= n % d < d
  {
  }

  lemma DivUnique(n: nat, d: nat, q: nat, r: nat)
    requires d > 0 && n == q * d + r && r < d
    ensures n / d == q && n % d == r
  {
    DivMod(n, d);
    var other := n / d;
    MulNext(q, d);
    MulNext(other, d);
    if q < other {
      MulMono(q + 1, other, d);
    } else if other < q {
      MulMono(other + 1, q, d);
    }
  }

  lemma DivShift(k: nat, p: nat, d: nat)
    requires d > 0
    ensures (k * d + p) / d == k + p / d && (k * d + p) % d == p % d
  {
    DivMod(p, d);
    MulSum(k, p / d, d);
    DivUnique(k * d + p, d, k + p / d, p % d);
  }

  lemma DivBelow(p: nat, n: nat, d: nat)
    requires d > 0 && p < n * d
    ensures p / d < n
  {
    DivMod(p, d);
    if n <= p / d {
      MulMono(n, p / d, d);
    }
  }

  /** Exactly the positions before the end of the input are counted. */
  lemma CountExact(n: nat, src: nat, dst: nat, k: nat)
    requires src > 0
    ensures k < Count(n, src, dst) <==> k * src < n * dst
  {
    var m := n * dst + src - 1;
    var c := m / src;
    DivMod(m, src);
    MulNext(k, src);
    if k < c {
      MulMono(k + 1, c, src);
    } else {
      MulMono(c, k, src);
    }
  }

  lemma CountMonotone(n: nat, m: nat, src: nat, dst: nat)
    requires src > 0 && n <= m
    ensures Count(n, src, dst) <= Count(m, src, dst)
  {
    var c := Count(m, src, dst);
    CountExact(n, src, dst, c);
    CountExact(m, src, dst, c);
    MulMono(n, m, dst);
  }

  // ---------------------------------------------------------------- the whole stream at once

  lemma InRange(x: seq<Sample>, src: nat, dst: nat, k: nat)
    requires src > 0 && dst > 0 && k < Count(|x|, src, dst)
    ensures k * src / dst + 1 < |[0] + x|
  {
    CountExact(|x|, src, dst, k);
    DivBelow(k * src, |x|, dst);
  }

  /** The k-th sample of the output of a stream: its value at k * src / dst, after a leading zero. */
  function OutputAt(x: seq<Sample>, src: nat, dst: nat, k: nat): int
    requires src > 0 && dst > 0 && k < Count(|x|, src, dst)
  {
    InRange(x, src, dst, k);
    At([0] + x, k * src, dst)
  }

  /** The output of a whole stream. */
  function Batch(x: seq<Sample>, src: nat, dst: nat): (out: seq<int>)
    requires src > 0 && dst > 0
    ensures |out| == Count(|x|, src, dst)
  {
    seq(Count(|x|, src, dst), k requires 0 <= k < Count(|x|, src, dst) => OutputAt(x, src, dst, k))
  }

  lemma TruncBetween(a: int, b: int, f: nat, d: nat)
    requires d > 0 && f < d
    ensures var t := Trunc(a * d + (b - a) * f, d);
            (if a <= b then a else b) <= t <= (if a <= b then b else a)
  {
    MulSum(b, a, d);
    if a <= b {
      Within(b - a, f, d);
      TruncBounds(a * d + (b - a) * f, a, b, d);
    } else {
      Within(a - b, f, d);
      Negate(b - a, f);
      Negate(b - a, d);
      TruncBounds(a * d + (b - a) * f, b, a, d);
    }
  }

  lemma Within(w: nat, f: nat, d: nat)
    requires f < d
    ensures 0 <= w * f <= w * d
  {
  }

  lemma Negate(w: int, f: int)
    ensures (-w) * f == -(w * f)
  {
  }

  lemma TruncBounds(num: int, lo: int, hi: int, d: nat)
    requires d > 0 && lo * d <= num <= hi * d
    ensures lo <= Trunc(num, d) <= hi
  {
    if num >= 0 {
      QuotientBounds(num, lo, hi, d);
    } else {
      Negate(lo, d);
      Negate(hi, d);
      QuotientBounds(-num, -hi, -lo, d);
    }
  }

  lemma QuotientBounds(num: nat, lo: int, hi: int, d: nat)
    requires d > 0 && lo * d <= num <= hi * d
    ensures lo <= num / d <= hi
  {
    DivMod(num, d);
    var q := num / d;
    MulNext(q, d);
    if q > hi {
      MulNext(hi, d);
      MulMono(hi + 1, q, d);
      MulMono(hi, q, d);
    }
    if q < lo {
      MulMono(q + 1, lo, d);
    }
  }

  /** Every output sample lies between the two input samples around it, and so it fits sixteen bits. */
  lemma OutputBetween(x: seq<Sample>, src: nat, dst: nat, k: nat)
    requires src > 0 && dst > 0 && k < Count(|x|, src, dst)
    ensures k * src / dst + 1 < |[0] + x|
    ensures var a, b := ([0] + x)[k * src / dst] as int, ([0] + x)[k * src / dst + 1] as int;
            (if a <= b then a else b) <= Batch(x, src, dst)[k] <= (if a <= b then b else a)
    ensures -0x8000 <= Batch(x, src, dst)[k] < 0x8000
  {
    InRange(x, src, dst, k);
    var w := [0] + x;
    var i := k * src / dst;
    TruncBetween(w[i] as int, w[i + 1] as int, k * src % dst, dst);
  }

  lemma OutputFits(x: seq<Sample>, src: nat, dst: nat, k: nat)
    requires src > 0 && dst > 0 && k < |Batch(x, src, dst)|
    ensures -0x8000 <= Batch(x, src, dst)[k] < 0x8000
  {
    OutputBetween(x, src, dst, k);
  }

  function Abs(n: int): nat { if n < 0 then -n else n }

  /**
   v is what output position k is worth: with the samples a and b around k * src / dst, which
   lies `f` of `dst` on the way from a to b, the weighted sum a * (dst - f) + b * f, divided by
   dst and cut toward zero.
   */
  predicate OnTheLine(x: seq<Sample>, src: nat, dst: nat, k: nat, v: int) {
    && dst > 0 && k * src / dst + 1 < |[0] + x|
    && var i, f := k * src / dst, k * src % dst;
       var a, b := ([0] + x)[i] as int, ([0] + x)[i + 1] as int;
       var m := a * (dst - f) + b * f;
       && Abs(v) * dst <= Abs(m) < (Abs(v) + 1) * dst
       && (v > 0 ==> m > 0) && (v < 0 ==> m < 0)
  }

  lemma WeightsSum(a: int, b: int, f: int, d: int)
    ensures a * d + (b - a) * f == a * (d - f) + b * f
  {
    MulSum(b, a, f);
    assert a * (d - f) == a * d - a * f;
  }

  lemma TruncCuts(m: int, d: nat)
    requires d > 0
    ensures var v := Trunc(m, d); Abs(v) * d <= Abs(m) < (Abs(v) + 1) * d && (v > 0 ==> m > 0) && (v < 0 ==> m < 0)
  {
    if m >= 0 {
      QuotientCuts(m, d);
    } else {
      QuotientCuts(-m, d);
    }
  }

  lemma QuotientCuts(n: nat, d: nat)
    requires d > 0
    ensures 0 <= n / d && n / d * d <= n < (n / d + 1) * d
    ensures n == 0 ==> n / d == 0
  {
    DivMod(n, d);
    MulNext(n / d, d);
    if n == 0 {
      DivUnique(0, d, 0, 0);
    }
  }

  /** Every output sample is the value of the line at its own position. */
  lemma OutputValue(x: seq<Sample>, src: nat, dst: nat, k: nat)
    requires src > 0 && dst > 0 && k < Count(|x|, src, dst)
    ensures OnTheLine(x, src, dst, k, Batch(x, src, dst)[k])
  {
    InRange(x, src, dst, k);
    var i, f := k * src / dst, k * src % dst;
    var a, b := ([0] + x)[i] as int, ([0] + x)[i + 1] as int;
    WeightsSum(a, b, f, dst);
    TruncCuts(a * (dst - f) + b * f, dst);
  }

  /** There is only one such value. */
  lemma ValueIsUnique(x: seq<Sample>, src: nat, dst: nat, k: nat, v: int, v': int)
    requires OnTheLine(x, src, dst, k, v) && OnTheLine(x, src, dst, k, v')
    ensures v == v'
  {
    if Abs(v) < Abs(v') {
      MulMono(Abs(v) + 1, Abs(v'), dst);
    } else if Abs(v') < Abs(v) {
      MulMono(Abs(v') + 1, Abs(v), dst);
    }
  }

  /** A position that falls on a sample takes that sample. */
  lemma OnASample(x: seq<Sample>, src: nat, dst: nat, k: nat)
    requires src > 0 && dst > 0 && k < Count(|x|, src, dst) && k * src % dst == 0
    ensures k * src / dst + 1 < |[0] + x|
    ensures Batch(x, src, dst)[k] == ([0] + x)[k * src / dst] as int
  {
    InRange(x, src, dst, k);
    OutputValue(x, src, dst, k);
    SampleIsTheValue(x, src, dst, k);
    ValueIsUnique(x, src, dst, k, Batch(x, src, dst)[k], ([0] + x)[k * src / dst] as int);
  }

  lemma SampleIsTheValue(x: seq<Sample>, src: nat, dst: nat, k: nat)
    requires dst > 0 && k * src / dst + 1 < |[0] + x| && k * src % dst == 0
    ensures OnTheLine(x, src, dst, k, ([0] + x)[k * src / dst] as int)
  {
    var i, f := k * src / dst, k * src % dst;
    var a, b := ([0] + x)[i] as int, ([0] + x)[i + 1] as int;
    assert b * f == 0;
    WholeSample(a, dst);
  }

  lemma WholeSample(a: int, d: nat)
    requires d > 0
    ensures var m := a * d; Abs(a) * d <= Abs(m) < (Abs(a) + 1) * d && (a > 0 ==> m > 0) && (a < 0 ==> m < 0)
  {
    MulNext(Abs(a), d);
    Negate(a, d);
    if a > 0 {
      MulMono(1, a, d);
    } else if a < 0 {
      MulMono(1, -a, d);
    }
  }

  /** At equal rates the output is the input, one sample later. */
  lemma SameRateDelays(x: seq<Sample>, rate: nat, k: nat)
    requires rate > 0 && k < |x|
    ensures |Batch(x, rate, rate)| == |x| && Batch(x, rate, rate)[k] == ([0] + x)[k] as int
  {
    SameCount(|x|, rate);
    DivUnique(k * rate, rate, k, 0);
    OnASample(x, rate, rate, k);
  }

  lemma SameCount(n: nat, rate: nat)
    requires rate > 0
    ensures Count(n, rate, rate) == n
  {
    DivUnique(n * rate + rate - 1, rate, n, rate - 1);
  }

  /** What has been put out does not depend on what comes later. */
  lemma Prefix(x: seq<Sample>, y: seq<Sample>, src: nat, dst: nat)
    requires src > 0 && dst > 0
    ensures |Batch(x, src, dst)| <= |Batch(x + y, src, dst)|
    ensures Batch(x + y, src, dst)[..|Batch(x, src, dst)|] == Batch(x, src, dst)
  {
    CountMonotone(|x|, |x + y|, src, dst);
    forall k | 0 <= k < Count(|x|, src, dst) ensures OutputAt(x + y, src, dst, k) == OutputAt(x, src, dst, k) {
      InRange(x, src, dst, k);
      assert forall i :: 0 <= i < |[0] + x| ==> ([0] + (x + y))[i] == ([0] + x)[i];
    }
  }

  // ---------------------------------------------------------------- chunk by chunk

  function LastOf(x: seq<Sample>): Sample { ([0] + x)[|x|] }

  lemma LastChunk(x: seq<Sample>, chunk: seq<Sample>)
    requires chunk != []
    ensures LastOf(x + chunk) == chunk[|chunk| - 1]
  {
    assert ([0] + (x + chunk))[|x + chunk|] == (x + chunk)[|x + chunk| - 1];
  }

  /** A sample computed inside a chunk is the one the whole stream has there. */
  lemma ChunkSample(x: seq<Sample>, chunk: seq<Sample>, src: nat, dst: nat, k: nat, p: nat)
    requires src > 0 && dst > 0 && Span(k, src) == Span(|x|, dst) + p && p < Span(|chunk|, dst)
    ensures k < Count(|x + chunk|, src, dst)
    ensures Reaches([LastOf(x)] + chunk, p, dst)
    ensures At([LastOf(x)] + chunk, p, dst) == OutputAt(x + chunk, src, dst, k)
  {
    MulSum(|x|, |chunk|, dst);
    CountExact(|x + chunk|, src, dst, k);
    DivBelow(p, |chunk|, dst);
    InRange(x + chunk, src, dst, k);
    var w, work := [0] + (x + chunk), [LastOf(x)] + chunk;
    assert forall j :: 0 <= j < |work| ==> work[j] == w[|x| + j];
    DivShift(|x|, p, dst);
    SameWindow(w, work, |x|, p, |x| * dst + p, dst);
  }

  /** Seen from `n` samples further on, a position lies between the same two samples. */
  lemma SameWindow(w: seq<Sample>, work: seq<Sample>, n: nat, p: nat, q: nat, dst: nat)
    requires Reaches(work, p, dst) && |w| == n + |work|
    requires q / dst == n + p / dst && q % dst == p % dst
    requires forall j :: 0 <= j < |work| ==> work[j] == w[n + j]
    ensures Reaches(w, q, dst) && At(w, q, dst) == At(work, p, dst)
  {
    hide Weighed;
  }

  /** The converter: the sample before the next chunk, and the position in it, in units of 1/dst. */
  class Converter {
    const src: nat
    const dst: nat
    var prev: Sample
    var pos: nat
    ghost var consumed: seq<Sample>

    ghost predicate Valid()
      reads this
    {
      && src > 0 && dst > 0 && prev == LastOf(consumed)
      && pos == Span(Count(|consumed|, src, dst), src) - Span(|consumed|, dst)
    }

    constructor (srcRate: nat, dstRate: nat)
      requires srcRate > 0 && dstRate > 0
      ensures Valid() && consumed == [] && src == srcRate && dst == dstRate
    {
      src, dst, prev, pos, consumed := srcRate, dstRate, 0, 0, [];
      new;
      CountExact(0, src, dst, 0);
    }

    method Reset()
      requires Valid()
      modifies this
      ensures Valid() && consumed == []
    {
      prev, pos, consumed := 0, 0, [];
      CountExact(0, src, dst, 0);
    }

    method Interpolate(work: seq<Sample>, p: nat) returns (v: int)
      requires Reaches(work, p, dst)
      ensures v == At(work, p, dst)
    {
      var i, f := p / dst, p % dst;
      var a, b := work[i] as int, work[i + 1] as int;
      v := Trunc(a * dst + (b - a) * f, dst);
    }

    /** Streaming is batch: what comes out is exactly what the chunk adds to the output of the whole stream. */
    method Process(chunk: seq<Sample>) returns (out: seq<int>)
      requires Valid()
      modifies this
      ensures Valid() && consumed == old(consumed) + chunk
      ensures Batch(consumed, src, dst) == Batch(old(consumed), src, dst) + out
      ensures forall k :: 0 <= k < |out| ==> -0x8000 <= out[k] < 0x8000
      ensures forall k :: 0 <= k < |out| ==> OnTheLine(consumed, src, dst, |Batch(old(consumed), src, dst)| + k, out[k])
    {
      hide OnTheLine, At, Count, Trunc, Reaches, Span, OutputAt;
      out := [];
      if chunk == [] {
        assert consumed + chunk == consumed;
        return;
      }
      ghost var x, whole := consumed, Batch(consumed + chunk, src, dst);
      ghost var before, k := Count(|x|, src, dst), Count(|x|, src, dst);
      var n := |chunk|;
      var work, p, end := [prev] + chunk, pos, Span(n, dst);
      Prefix(x, chunk, src, dst);
      while p < end
        invariant consumed == x
        invariant k == before + |out| <= |whole| && whole[before..k] == out
        invariant p == Span(k, src) - Span(|x|, dst)
        decreases end - p
      {
        ChunkSample(x, chunk, src, dst, k, p);
        var v := Interpolate(work, p);
        assert whole[before..k + 1] == whole[before..k] + [whole[k]];
        out := out + [v];
        SpanNext(k, src);
        k := k + 1;
        p := p + src;
      }
      Finished(x, chunk, k);
      pos := p - end;
      prev := chunk[n - 1];
      consumed := consumed + chunk;
      LastChunk(x, chunk);
      assert whole == whole[..before] + whole[before..];
      forall k | 0 <= k < |out| ensures -0x8000 <= out[k] < 0x8000 && OnTheLine(consumed, src, dst, before + k, out[k]) {
        OutputFits(x + chunk, src, dst, before + k);
        OutputValue(x + chunk, src, dst, before + k);
        assert out[k] == whole[before + k];
      }
    }

    lemma SpanNext(k: nat, r: nat)
      ensures Span(k + 1, r) == Span(k, r) + r
    {
    }

    lemma Finished(x: seq<Sample>, chunk: seq<Sample>, k: nat)
      requires src > 0 && dst > 0 && k <= Count(|x + chunk|, src, dst)
      requires Span(k, src) - Span(|x|, dst) >= Span(|chunk|, dst)
      ensures k == Count(|x + chunk|, src, dst) && Span(|x + chunk|, dst) == Span(|x|, dst) + Span(|chunk|, dst)
    {
      MulSum(|x|, |chunk|, dst);
      CountExact(|x + chunk|, src, dst, k);
    }
  }

  /** All the output of a stream that arrives in chunks. */
  method ProcessAll(src: nat, dst: nat, chunks: seq<seq<Sample>>) returns (out: seq<int>)
    requires src > 0 && dst > 0
    ensures out == Batch(Join(chunks), src, dst)
    ensures |out| == Count(|Join(chunks)|, src, dst)
    ensures forall k :: 0 <= k < |out| ==> OnTheLine(Join(chunks), src, dst, k, out[k])
  {
    hide OnTheLine;
    var c := new Converter(src, dst);
    out := [];
    CountExact(0, src, dst, 0);
    var i := 0;
    while i < |chunks|
      invariant 0 <= i <= |chunks| && c.Valid() && fresh(c) && c.src == src && c.dst == dst
      invariant c.consumed == Join(chunks[..i]) && out == Batch(c.consumed, src, dst)
    {
      var more := c.Process(chunks[i]);
      assert chunks[..i + 1][..i] == chunks[..i];
      out := out + more;
      i := i + 1;
    }
    assert chunks[..i] == chunks;
    forall k | 0 <= k < |out| ensures OnTheLine(Join(chunks), src, dst, k, out[k]) {
      OutputValue(Join(chunks), src, dst, k);
    }
  }

  function Join(chunks: seq<seq<Sample>>): seq<Sample> {
    if chunks == [] then [] else Join(chunks[..|chunks| - 1]) + chunks[|chunks| - 1]
  }
}
