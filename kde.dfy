/** Univariate kernel density estimation over a sample of reals.

    The kernel is an arbitrary `real -> real` function and Silverman's rule
    of thumb an arbitrary `seq<real> -> real` function.  The density at `x`
    is the sum of `kernel((x - x_i) / h)` over the sample, divided by `h` and
    then by the sample size.  The evaluation sums the sample in three parts,
    the `head`, `body` and `tail` of a `Split` (the vector cast of the
    sample): the body first, then head and tail.  The batch `Map` evaluates
    the estimator at every point, on a chunked path over the shared chunk
    geometry of module Parallel or on a serial one. */
module KernelDensity {
  import opened Parallel

  /** How the bandwidth is chosen. */
  datatype BandwidthMethod = Manual(value: real) | Silverman
  {
    /** `Manual(h)` estimates to `h`; `Silverman` applies the rule to the sample. */
    function Estimate(sample: seq<real>, silverman: seq<real> -> real): (h: real)
      ensures Manual? ==> h == value
      ensures Silverman? ==> h == silverman(sample)
    {
      match this
      case Manual(bw) => bw
      case Silverman => silverman(sample)
    }
  }

  /** A density value.  Dividing by a zero bandwidth or by an empty sample
      size gives an infinite or not-a-number float; both are `NonFinite`. */
  datatype Density = Finite(value: real) | NonFinite

  /** The vector cast of a sample: the first `head` elements, then `body`
      elements processed in vector lanes, then the rest. */
  datatype Split = Split(head: nat, body: nat)

  /** One kernel term of the density at `x`. */
  function Term(kernel: real -> real, x: real, h: real, xi: real): real
    requires h != 0.0
  {
    kernel((x - xi) / h)
  }

  /** The naive sum of the kernel terms over `s`, the reference definition. */
  function DensitySum(kernel: real -> real, x: real, h: real, s: seq<real>): real
    requires h != 0.0
  {
    if |s| == 0 then 0.0 else Term(kernel, x, h, s[0]) + DensitySum(kernel, x, h, s[1..])
  }

  /** The accumulating fold the evaluation runs over a part of the sample:
      it adds the naive sum of `s` to the accumulator. */
  function FoldTerms(kernel: real -> real, x: real, h: real, acc: real, s: seq<real>): (sum: real)
    requires h != 0.0
    ensures sum == acc + DensitySum(kernel, x, h, s)
    decreases |s|
  {
    if |s| == 0 then acc else FoldTerms(kernel, x, h, acc + Term(kernel, x, h, s[0]), s[1..])
  }

  /** The naive sum of a concatenation is the sum of the naive sums. */
  lemma {:induction false} SumAppend(kernel: real -> real, x: real, h: real, a: seq<real>, b: seq<real>)
    requires h != 0.0
    ensures DensitySum(kernel, x, h, a + b) == DensitySum(kernel, x, h, a) + DensitySum(kernel, x, h, b)
  {
    if |a| == 0 {
      assert a + b == b;
    } else {
      assert (a + b)[1..] == a[1..] + b;
      SumAppend(kernel, x, h, a[1..], b);
    }
  }

  /** Any three-way split gives the naive sum of the whole sample, both as
      body + head + tail and as the evaluation's fold over the body followed
      by the fold over head and tail. */
  lemma SplitSum(kernel: real -> real, x: real, h: real, head: seq<real>, body: seq<real>, tail: seq<real>)
    requires h != 0.0
    ensures DensitySum(kernel, x, h, body) + DensitySum(kernel, x, h, head) + DensitySum(kernel, x, h, tail)
            == DensitySum(kernel, x, h, head + body + tail)
    ensures FoldTerms(kernel, x, h, FoldTerms(kernel, x, h, 0.0, body), head + tail)
            == DensitySum(kernel, x, h, head + body + tail)
  {
    SumAppend(kernel, x, h, head, body);
    SumAppend(kernel, x, h, head + body, tail);
    SumAppend(kernel, x, h, head, tail);
  }

  /** A non-negative kernel gives a non-negative sum. */
  lemma {:induction false} SumNonNegative(kernel: real -> real, x: real, h: real, s: seq<real>)
    requires h != 0.0
    requires forall u :: kernel(u) >= 0.0
    ensures DensitySum(kernel, x, h, s) >= 0.0
  {
    if |s| > 0 {
      SumNonNegative(kernel, x, h, s[1..]);
    }
  }

  /** The chunked `Map` path is taken iff there is more than one CPU and more
      points than CPUs. */
  function MapUsesChunks(n: nat, ncpus: nat): (chunked: bool)
    ensures chunked ==> ncpus >= 2 && Granularity(n, ncpus) < n
    ensures n <= ncpus || ncpus <= 1 ==> !chunked
  {
    if ncpus > 1 && n > ncpus then
      var q := n / ncpus;
      assert q * ncpus <= n;
      MulLe(2, ncpus, q);
      true
    else
      false
  }

  /** A kernel density estimator: the bandwidth, the kernel and the sample.
      Evaluation never changes it. */
  datatype Kde = Kde(bandwidth: real, kernel: real -> real, sample: seq<real>)
  {
    /** The estimator over `sample` with kernel `kernel` and the bandwidth `bw` estimates. */
    static function New(sample: seq<real>, kernel: real -> real, bw: BandwidthMethod,
                        silverman: seq<real> -> real): (kde: Kde)
      ensures kde.bandwidth == bw.Estimate(sample, silverman)
      ensures kde.kernel == kernel && kde.sample == sample
    {
      Kde(bw.Estimate(sample, silverman), kernel, sample)
    }

    /** The bandwidth the estimator was built with. */
    function Bandwidth(): (h: real)
      ensures h == bandwidth
    {
      bandwidth
    }

    /** `split` is a split of this estimator's sample. */
    predicate Fits(split: Split)
    {
      split.head + split.body <= |sample|
    }

    /** The density at `x`: the naive kernel sum over the whole sample,
        divided by the bandwidth and then by the sample size, whatever the
        split; non-finite for a zero bandwidth or an empty sample. */
    function Call(x: real, split: Split): (y: Density)
      requires Fits(split)
      ensures y == if bandwidth == 0.0 || |sample| == 0 then NonFinite
                   else Finite(DensitySum(kernel, x, bandwidth, sample) / bandwidth / (|sample| as real))
    {
      if bandwidth == 0.0 || |sample| == 0 then NonFinite
      else
        var mid := split.head + split.body;
        var head, body, tail := sample[..split.head], sample[split.head..mid], sample[mid..];
        var lanes := FoldTerms(kernel, x, bandwidth, 0.0, body);
        var sum := FoldTerms(kernel, x, bandwidth, lanes, head + tail);
        SplitSum(kernel, x, bandwidth, head, body, tail);
        assert head + body + tail == sample;
        Finite(sum / bandwidth / (|sample| as real))
    }

    /** The work of chunk `[offset, offset + len)` of `Map`: slot `offset + i`
        is the density at point `offset + i`, for `i < len`; nothing else changes. */
    method EvalChunk(split: Split, xs: seq<real>, ys: array<Density>, offset: nat, len: nat,
                     ghost writes: seq<nat>)
      returns (ghost writes': seq<nat>)
      requires Fits(split)
      requires offset + len <= ys.Length == |xs| == |writes|
      modifies ys
      ensures forall j :: 0 <= j < ys.Length ==>
                ys[j] == if offset <= j < offset + len then Call(xs[j], split) else old(ys[j])
      ensures |writes'| == |writes|
      ensures forall j :: 0 <= j < |writes| ==>
                writes'[j] == if offset <= j < offset + len then writes[j] + 1 else writes[j]
    {
      writes' := writes;
      for i := 0 to len
        invariant forall j :: 0 <= j < ys.Length ==>
                    ys[j] == if offset <= j < offset + i then Call(xs[j], split) else old(ys[j])
        invariant |writes'| == |writes|
        invariant forall j :: 0 <= j < |writes| ==>
                    writes'[j] == if offset <= j < offset + i then writes[j] + 1 else writes[j]
      {
        ys[offset + i] := Call(xs[offset + i], split);
        writes' := writes'[offset + i := writes'[offset + i] + 1];
      }
    }

    /** The chunked path: a buffer of `|xs|` slots cut into chunks of
        `|xs| / ncpus + 1`; chunk `c` starts at `c * g`, and every slot is
        written exactly once, with the density at its own point. */
    method MapChunked(split: Split, xs: seq<real>, ncpus: nat)
      returns (ys: seq<Density>, ghost writes: seq<nat>)
      requires Fits(split)
      requires MapUsesChunks(|xs|, ncpus)
      ensures |ys| == |xs|
      ensures forall i :: 0 <= i < |xs| ==> ys[i] == Call(xs[i], split)
      ensures |writes| == |xs|
      ensures forall i :: 0 <= i < |xs| ==> writes[i] == 1
    {
      var n := |xs|;
      var g := Granularity(n, ncpus);
      var buf := new Density[n];
      writes := seq(n, _ => 0);
      for c := 0 to ChunkCount(n, g)
        invariant forall i :: 0 <= i < n && i < ChunkStart(c, g) ==> buf[i] == Call(xs[i], split)
        invariant |writes| == n
        invariant forall i :: 0 <= i < n ==> writes[i] == if i < ChunkStart(c, g) then 1 else 0
      {
        ChunkShape(n, g, c);
        StartIsProduct(c, g);
        var offset := c * g;
        writes := EvalChunk(split, xs, buf, offset, ChunkEnd(c, g, n) - offset, writes);
      }
      CoverAll(n, g);
      ys := buf[..];
    }

    /** The serial path: the densities at the points, in order. */
    method MapSerial(split: Split, xs: seq<real>) returns (ys: seq<Density>)
      requires Fits(split)
      ensures |ys| == |xs|
      ensures forall i :: 0 <= i < |xs| ==> ys[i] == Call(xs[i], split)
    {
      ys := [];
      for i := 0 to |xs|
        invariant |ys| == i
        invariant forall j :: 0 <= j < i ==> ys[j] == Call(xs[j], split)
      {
        ys := ys + [Call(xs[i], split)];
      }
    }

    /** `map`: one density per point, in the order of the points, on either path. */
    method Map(split: Split, xs: seq<real>, ncpus: nat) returns (ys: seq<Density>)
      requires Fits(split)
      ensures |ys| == |xs|
      ensures forall i :: 0 <= i < |xs| ==> ys[i] == Call(xs[i], split)
    {
      if MapUsesChunks(|xs|, ncpus) {
        ghost var writes;
        ys, writes := MapChunked(split, xs, ncpus);
      } else {
        ys := MapSerial(split, xs);
      }
    }
  }

  /** An estimator built with `Manual(h)` reports exactly `h` as its bandwidth. */
  lemma NewManualBandwidth(sample: seq<real>, kernel: real -> real, h: real, silverman: seq<real> -> real)
    ensures Kde.New(sample, kernel, Manual(h), silverman).Bandwidth() == h
  {
  }

  /** With a positive bandwidth, a non-empty sample and a non-negative kernel
      the density is finite and non-negative. */
  lemma DensityNonNegative(kde: Kde, x: real, split: Split)
    requires kde.Fits(split)
    requires kde.bandwidth > 0.0 && |kde.sample| > 0
    requires forall u :: kde.kernel(u) >= 0.0
    ensures kde.Call(x, split).Finite?
    ensures kde.Call(x, split).value >= 0.0
  {
    SumNonNegative(kde.kernel, x, kde.bandwidth, kde.sample);
  }
}
