/** Bootstrap distributions: the single-sample `bootstrap` of a statistic and
    the two-sample `bootstrap` of a statistic of a pair of samples.

    Each entry point chooses a serial or a chunked path.  The chunked path
    preallocates the result buffer and hands contiguous chunks of it to a
    work function (see module Parallel); each chunk creates its own cursors.
    The `c`-th cursor created in a call draws from the stream `rng(c)`; the
    serial path creates only cursor 0.  The number of CPUs is a parameter. */
module Bootstrap {
  import opened Parallel
  import opened Resampling

  // ---------------------------------------------------------------------
  // Single-sample bootstrap

  /** The chunked path is taken iff there is more than one CPU and more
      resamples than sample elements. */
  function SingleUsesChunks(sampleLen: nat, nresamples: nat, ncpus: nat): (chunked: bool)
    ensures chunked ==> nresamples > 0 && ncpus >= 2
    ensures nresamples == 0 || ncpus <= 1 ==> !chunked
  {
    ncpus > 1 && nresamples > sampleLen
  }

  /** Entry `i` of the single-sample distribution.  On the chunked path slot
      `i` lies in chunk `ChunkIndex(i, g)` (that is `i / g`) and is that
      chunk's `ChunkOffset(i, g)`-th (`i % g`-th) draw; on the serial path it
      is the `i`-th draw of the only cursor. */
  function SingleSlot<T, A>(sample: seq<T>, statistic: seq<T> -> A, nresamples: nat, ncpus: nat,
                            rng: nat -> nat -> seq<T>, i: nat): A
  {
    if SingleUsesChunks(|sample|, nresamples, ncpus) then
      ChunkedSingle(statistic, rng, Granularity(nresamples, ncpus), i)
    else
      statistic(rng(0)(i))
  }

  /** Slot `i` of a buffer divided into chunks of `g`: draw `ChunkOffset(i, g)`
      of the cursor of chunk `ChunkIndex(i, g)`. */
  function ChunkedSingle<T, A>(statistic: seq<T> -> A, rng: nat -> nat -> seq<T>, g: nat, i: nat): A
    requires g > 0
  {
    statistic(rng(ChunkIndex(i, g))(ChunkOffset(i, g)))
  }

  /** The work function of the chunked path, run on slots `[start, end)`:
      a fresh cursor over `draws`, one draw per slot, in order.  Slots outside
      the chunk are left alone; `writes` counts the writes to each slot. */
  method FillSingleChunk<T, A>(buf: array<A>, start: nat, end: nat, sample: seq<T>,
                               statistic: seq<T> -> A, draws: nat -> seq<T>, ghost writes: seq<nat>)
    returns (ghost writes': seq<nat>)
    requires start <= end <= buf.Length == |writes|
    modifies buf
    ensures forall i :: 0 <= i < buf.Length ==>
              buf[i] == if start <= i < end then statistic(draws(i - start)) else old(buf[i])
    ensures |writes'| == |writes|
    ensures forall i :: 0 <= i < |writes| ==>
              writes'[i] == if start <= i < end then writes[i] + 1 else writes[i]
  {
    var resamples := new Resamples(sample, draws);
    writes' := writes;
    for i := start to end
      invariant resamples.taken == i - start
      invariant forall j :: 0 <= j < buf.Length ==>
                  buf[j] == if start <= j < i then statistic(draws(j - start)) else old(buf[j])
      invariant |writes'| == |writes|
      invariant forall j :: 0 <= j < |writes| ==>
                  writes'[j] == if start <= j < i then writes[j] + 1 else writes[j]
    {
      var resample := resamples.Next();
      buf[i] := statistic(resample);
      writes' := writes'[i := writes'[i] + 1];
    }
  }

  /** The chunked path: a buffer of exactly `nresamples` slots, divided into
      chunks of `nresamples / ncpus + 1` slots; every slot is written exactly once. */
  method BootstrapChunked<T, A(0)>(sample: seq<T>, statistic: seq<T> -> A, nresamples: nat, ncpus: nat,
                                   rng: nat -> nat -> seq<T>)
    returns (distribution: seq<A>, ghost writes: seq<nat>)
    requires SingleUsesChunks(|sample|, nresamples, ncpus)
    ensures |distribution| == nresamples
    ensures forall i :: 0 <= i < nresamples ==>
              distribution[i] == SingleSlot(sample, statistic, nresamples, ncpus, rng, i)
    ensures |writes| == nresamples
    ensures forall i :: 0 <= i < nresamples ==> writes[i] == 1
  {
    var g := Granularity(nresamples, ncpus);
    var buf := new A[nresamples];
    writes := seq(nresamples, _ => 0);
    for c := 0 to ChunkCount(nresamples, g)
      invariant forall i :: 0 <= i < nresamples && i < ChunkStart(c, g) ==>
                  buf[i] == ChunkedSingle(statistic, rng, g, i)
      invariant |writes| == nresamples
      invariant forall i :: 0 <= i < nresamples ==> writes[i] == if i < ChunkStart(c, g) then 1 else 0
    {
      ChunkShape(nresamples, g, c);
      var start, end := ChunkStart(c, g), ChunkEnd(c, g, nresamples);
      writes := FillSingleChunk(buf, start, end, sample, statistic, rng(c), writes);
      forall i | start <= i < end
        ensures ChunkIndex(i, g) == c && ChunkOffset(i, g) == i - start
      {
        InChunk(c, i - start, g);
      }
    }
    CoverAll(nresamples, g);
    distribution := buf[..];
  }

  /** The serial path: one cursor, `nresamples` draws, collected in order. */
  method BootstrapSerial<T, A>(sample: seq<T>, statistic: seq<T> -> A, nresamples: nat,
                               rng: nat -> nat -> seq<T>)
    returns (distribution: seq<A>)
    ensures |distribution| == nresamples
    ensures forall i :: 0 <= i < nresamples ==> distribution[i] == statistic(rng(0)(i))
  {
    var resamples := new Resamples(sample, rng(0));
    distribution := [];
    for i := 0 to nresamples
      invariant resamples.taken == i
      invariant |distribution| == i
      invariant forall j :: 0 <= j < i ==> distribution[j] == statistic(rng(0)(j))
    {
      var resample := resamples.Next();
      distribution := distribution + [statistic(resample)];
    }
  }

  /** Single-sample `bootstrap`: exactly `nresamples` entries on either path
      (so none when `nresamples == 0`, which always takes the serial path). */
  method BootstrapSingle<T, A(0)>(sample: seq<T>, statistic: seq<T> -> A, nresamples: nat, ncpus: nat,
                                  rng: nat -> nat -> seq<T>)
    returns (distribution: seq<A>)
    ensures |distribution| == nresamples
    ensures forall i :: 0 <= i < nresamples ==>
              distribution[i] == SingleSlot(sample, statistic, nresamples, ncpus, rng, i)
  {
    if SingleUsesChunks(|sample|, nresamples, ncpus) {
      ghost var writes;
      distribution, writes := BootstrapChunked(sample, statistic, nresamples, ncpus, rng);
    } else {
      distribution := BootstrapSerial(sample, statistic, nresamples, rng);
    }
  }

  /** Every entry is the statistic of a resample some cursor drew, so when the
      statistic of every resample of the sample lies in `bounds`, so does every
      entry of the distribution. */
  lemma SingleWithin<T, A>(sample: seq<T>, statistic: seq<T> -> A, nresamples: nat, ncpus: nat,
                           rng: nat -> nat -> seq<T>, bounds: set<A>, distribution: seq<A>)
    requires DrawsFrom(sample, rng)
    requires forall r :: IsResample(sample, r) ==> statistic(r) in bounds
    requires |distribution| == nresamples
    requires forall i :: 0 <= i < nresamples ==>
               distribution[i] == SingleSlot(sample, statistic, nresamples, ncpus, rng, i)
    ensures forall x :: x in distribution ==> x in bounds
  {
    forall x | x in distribution
      ensures x in bounds
    {
      var i :| 0 <= i < |distribution| && distribution[i] == x;
      if SingleUsesChunks(|sample|, nresamples, ncpus) {
        var g := Granularity(nresamples, ncpus);
        assert IsResample(sample, rng(ChunkIndex(i, g))(ChunkOffset(i, g)));
      } else {
        assert IsResample(sample, rng(0)(i));
      }
    }
  }

  // ---------------------------------------------------------------------
  // Two-sample bootstrap

  /** The least `k` with `k * k >= n`: the integer counterpart of
      `(n as f64).sqrt().ceil()`. */
  function CeilSqrt(n: nat): (k: nat)
    ensures n <= k * k
    ensures n > 0 ==> k > 0 && (k - 1) * (k - 1) < n
  {
    CeilSqrtFrom(n, 0)
  }

  function CeilSqrtFrom(n: nat, k: nat): (r: nat)
    requires k == 0 || (k - 1) * (k - 1) < n
    ensures n <= r * r
    ensures r == 0 || (r - 1) * (r - 1) < n
    ensures k <= r
    decreases n - k
  {
    if n <= k * k then k
    else
      assert k <= k * k;
      CeilSqrtFrom(n, k + 1)
  }

  lemma SquareLe(a: nat, b: nat)
    requires a <= b
    ensures a * a <= b * b
  {
    MulLe(a, b, a);
    MulLe(a, b, b);
  }

  /** CeilSqrt is the least root: no smaller `j` has `j * j >= n`. */
  lemma CeilSqrtIsLeast(n: nat, j: nat)
    requires n <= j * j
    ensures CeilSqrt(n) <= j
  {
    var k := CeilSqrt(n);
    if j < k {
      SquareLe(j, k - 1);
    }
  }

  /** A request for 10 resamples is rounded up to a 4 x 4 grid of 16. */
  lemma TenResamplesGiveSixteen()
    ensures CeilSqrt(10) == 4
    ensures CeilSqrt(10) * CeilSqrt(10) == 16
  {
    var k := CeilSqrt(10);
    CeilSqrtIsLeast(10, 4);
  }

  /** The chunked two-sample path is taken iff there is more than one CPU and
      the rounded count exceeds the two sample lengths together. */
  function PairUsesChunks(firstLen: nat, secondLen: nat, k: nat, ncpus: nat): (chunked: bool)
    ensures chunked ==> k > 0 && ncpus >= 2
    ensures k * k <= firstLen + secondLen || ncpus <= 1 ==> !chunked
  {
    ncpus > 1 && k * k > firstLen + secondLen
  }

  /** Slot `t` of a run in which the first cursor (over `drawsA`) advances
      once every `g` slots and the second (over `drawsB`) once per slot. */
  function PairedDraw<A, B, C>(statistic: (seq<A>, seq<B>) -> C, drawsA: nat -> seq<A>, drawsB: nat -> seq<B>,
                               g: nat, t: nat): C
    requires g > 0
  {
    statistic(drawsA(ChunkIndex(t, g)), drawsB(t))
  }

  /** Slot `p` of a buffer divided into chunks of `g`: position `ChunkOffset(p, g)`
      of chunk `ChunkIndex(p, g)`, which draws from that chunk's own streams. */
  function ChunkedPair<A, B, C>(statistic: (seq<A>, seq<B>) -> C,
                                rngA: nat -> nat -> seq<A>, rngB: nat -> nat -> seq<B>, g: nat, p: nat): C
    requires g > 0
  {
    PairedDraw(statistic, rngA(ChunkIndex(p, g)), rngB(ChunkIndex(p, g)), g, ChunkOffset(p, g))
  }

  /** Entry `p` of the two-sample distribution, with `k = CeilSqrt(nresamples)`.
      Chunked: slot `p` lies in divided chunk `p / g` at position `q = p % g`;
      that chunk's first cursor has been drawn once per `g`-sized sub-chunk
      (`q / g` times before) and its second cursor once per slot (`q` times).
      Serial: row `p / k` of the first cursor, draw `p` of the second.
      (Quotients and remainders are written with ChunkIndex and ChunkOffset.) */
  function PairSlot<A, B, C>(first: seq<A>, second: seq<B>, statistic: (seq<A>, seq<B>) -> C,
                             nresamples: nat, ncpus: nat,
                             rngA: nat -> nat -> seq<A>, rngB: nat -> nat -> seq<B>, p: nat): C
    requires nresamples > 0
  {
    var k := CeilSqrt(nresamples);
    if PairUsesChunks(|first|, |second|, k, ncpus) then
      var g := Granularity(k, ncpus);
      ChunkedPair(statistic, rngA, rngB, g, p)
    else
      PairedDraw(statistic, rngA(0), rngB(0), k, p)
  }

  /** One `g`-sized sub-chunk `[lo, hi)` of a chunk starting at `start`: every
      slot pairs the sub-chunk's one draw `resample` of the first sample with
      a fresh draw of the second. */
  method FillSubChunk<A, B, C>(buf: array<C>, start: nat, lo: nat, hi: nat,
                               statistic: (seq<A>, seq<B>) -> C, resample: seq<A>,
                               otherResamples: Resamples<B>, ghost writes: seq<nat>)
    returns (ghost writes': seq<nat>)
    requires start <= lo <= hi <= buf.Length == |writes|
    requires otherResamples.taken == lo - start
    modifies buf, otherResamples
    ensures otherResamples.taken == hi - start
    ensures forall i :: 0 <= i < buf.Length ==>
              buf[i] == if lo <= i < hi then statistic(resample, otherResamples.draws(i - start))
                        else old(buf[i])
    ensures |writes'| == |writes|
    ensures forall i :: 0 <= i < |writes| ==>
              writes'[i] == if lo <= i < hi then writes[i] + 1 else writes[i]
  {
    writes' := writes;
    for i := lo to hi
      invariant otherResamples.taken == i - start
      invariant forall j :: 0 <= j < buf.Length ==>
                  buf[j] == if lo <= j < i then statistic(resample, otherResamples.draws(j - start))
                            else old(buf[j])
      invariant |writes'| == |writes|
      invariant forall j :: 0 <= j < |writes| ==>
                  writes'[j] == if lo <= j < i then writes[j] + 1 else writes[j]
    {
      var otherResample := otherResamples.Next();
      buf[i] := statistic(resample, otherResample);
      writes' := writes'[i := writes'[i] + 1];
    }
  }

  /** The work function of the chunked two-sample path, run on slots
      `[start, end)`: fresh cursors for both samples; the chunk is cut again
      into `g`-sized sub-chunks, the first cursor advances once per sub-chunk
      and the second once per slot. */
  method FillPairChunk<A, B, C>(buf: array<C>, start: nat, end: nat, g: nat,
                                first: seq<A>, second: seq<B>, statistic: (seq<A>, seq<B>) -> C,
                                drawsA: nat -> seq<A>, drawsB: nat -> seq<B>, ghost writes: seq<nat>)
    returns (ghost writes': seq<nat>)
    requires start <= end <= buf.Length == |writes|
    requires g > 0
    modifies buf
    ensures forall i :: 0 <= i < buf.Length ==>
              buf[i] == if start <= i < end
                        then PairedDraw(statistic, drawsA, drawsB, g, i - start)
                        else old(buf[i])
    ensures |writes'| == |writes|
    ensures forall i :: 0 <= i < |writes| ==>
              writes'[i] == if start <= i < end then writes[i] + 1 else writes[i]
  {
    var resamples := new Resamples(first, drawsA);
    var otherResamples := new Resamples(second, drawsB);
    writes' := writes;
    var len := end - start;
    for s := 0 to ChunkCount(len, g)
      invariant resamples.taken == s
      invariant otherResamples.taken == if ChunkStart(s, g) < len then ChunkStart(s, g) else len
      invariant forall i :: 0 <= i < buf.Length ==>
                  buf[i] == if start <= i < end && i - start < ChunkStart(s, g)
                            then PairedDraw(statistic, drawsA, drawsB, g, i - start)
                            else old(buf[i])
      invariant |writes'| == |writes|
      invariant forall i :: 0 <= i < |writes| ==>
                  writes'[i] == if start <= i < end && i - start < ChunkStart(s, g)
                                then writes[i] + 1 else writes[i]
    {
      ChunkShape(len, g, s);
      var lo, hi := start + ChunkStart(s, g), start + ChunkEnd(s, g, len);
      var resample := resamples.Next();
      writes' := FillSubChunk(buf, start, lo, hi, statistic, resample, otherResamples, writes');
      forall t | ChunkStart(s, g) <= t < ChunkEnd(s, g, len)
        ensures ChunkIndex(t, g) == s
      {
        InChunk(s, t - ChunkStart(s, g), g);
      }
    }
    CoverAll(len, g);
  }

  /** `parallel::divide` on the two-sample buffer: chunk `c` of `g` slots
      runs the work function with the `c`-th pair of cursor streams. */
  method DividePairs<A, B, C>(buf: array<C>, g: nat, first: seq<A>, second: seq<B>,
                              statistic: (seq<A>, seq<B>) -> C,
                              rngA: nat -> nat -> seq<A>, rngB: nat -> nat -> seq<B>)
    returns (ghost writes: seq<nat>)
    requires g > 0
    modifies buf
    ensures forall p :: 0 <= p < buf.Length ==>
              buf[p] == ChunkedPair(statistic, rngA, rngB, g, p)
    ensures |writes| == buf.Length
    ensures forall p :: 0 <= p < buf.Length ==> writes[p] == 1
  {
    var n := buf.Length;
    writes := seq(n, _ => 0);
    for c := 0 to ChunkCount(n, g)
      invariant forall p :: 0 <= p < n && p < ChunkStart(c, g) ==>
                  buf[p] == ChunkedPair(statistic, rngA, rngB, g, p)
      invariant |writes| == n
      invariant forall p :: 0 <= p < n ==> writes[p] == if p < ChunkStart(c, g) then 1 else 0
    {
      ChunkShape(n, g, c);
      var start, end := ChunkStart(c, g), ChunkEnd(c, g, n);
      writes := FillPairChunk(buf, start, end, g, first, second, statistic, rngA(c), rngB(c), writes);
      forall p | start <= p < end
        ensures ChunkIndex(p, g) == c && ChunkOffset(p, g) == p - start
      {
        InChunk(c, p - start, g);
      }
    }
    CoverAll(n, g);
  }

  /** The chunked two-sample path: a buffer of exactly `k * k` slots divided
      into chunks of `k / ncpus + 1` slots, every slot written exactly once. */
  method BootstrapPairChunked<A, B, C(0)>(first: seq<A>, second: seq<B>, statistic: (seq<A>, seq<B>) -> C,
                                          nresamples: nat, ncpus: nat,
                                          rngA: nat -> nat -> seq<A>, rngB: nat -> nat -> seq<B>)
    returns (distribution: seq<C>, ghost writes: seq<nat>)
    requires nresamples > 0
    requires PairUsesChunks(|first|, |second|, CeilSqrt(nresamples), ncpus)
    ensures |distribution| == CeilSqrt(nresamples) * CeilSqrt(nresamples)
    ensures forall p :: 0 <= p < |distribution| ==>
              distribution[p] == PairSlot(first, second, statistic, nresamples, ncpus, rngA, rngB, p)
    ensures |writes| == |distribution|
    ensures forall p :: 0 <= p < |writes| ==> writes[p] == 1
  {
    var k := CeilSqrt(nresamples);
    var g := Granularity(k, ncpus);
    var buf := new C[k * k];
    writes := DividePairs(buf, g, first, second, statistic, rngA, rngB);
    distribution := buf[..];
  }

  /** The serial two-sample loop nest over a `k x k` grid: `k` draws of the
      first sample, each paired with `k` fresh draws of the second, appended
      in row-major order. */
  method FillGrid<A, B, C>(first: seq<A>, second: seq<B>, statistic: (seq<A>, seq<B>) -> C,
                           k: nat, drawsA: nat -> seq<A>, drawsB: nat -> seq<B>)
    returns (distribution: seq<C>)
    ensures |distribution| == ChunkStart(k, k)
    ensures forall p :: 0 <= p < |distribution| ==>
              distribution[p] == PairedDraw(statistic, drawsA, drawsB, k, p)
  {
    var resamples := new Resamples(first, drawsA);
    var otherResamples := new Resamples(second, drawsB);
    distribution := [];
    for i := 0 to k
      invariant resamples.taken == i
      invariant otherResamples.taken == ChunkStart(i, k)
      invariant |distribution| == ChunkStart(i, k)
      invariant forall p :: 0 <= p < |distribution| ==>
                  distribution[p] == PairedDraw(statistic, drawsA, drawsB, k, p)
    {
      var resample := resamples.Next();
      for j := 0 to k
        invariant resamples.taken == i + 1
        invariant otherResamples.taken == ChunkStart(i, k) + j
        invariant |distribution| == ChunkStart(i, k) + j
        invariant forall p :: 0 <= p < |distribution| ==>
                    distribution[p] == PairedDraw(statistic, drawsA, drawsB, k, p)
      {
        InChunk(i, j, k);
        var otherResample := otherResamples.Next();
        distribution := distribution + [statistic(resample, otherResample)];
      }
    }
  }

  /** The serial two-sample path, over the grid of `k = CeilSqrt(nresamples)`. */
  method BootstrapPairSerial<A, B, C>(first: seq<A>, second: seq<B>, statistic: (seq<A>, seq<B>) -> C,
                                      nresamples: nat, rngA: nat -> nat -> seq<A>, rngB: nat -> nat -> seq<B>)
    returns (distribution: seq<C>)
    requires nresamples > 0
    ensures |distribution| == CeilSqrt(nresamples) * CeilSqrt(nresamples)
    ensures forall p :: 0 <= p < |distribution| ==>
              distribution[p] == PairedDraw(statistic, rngA(0), rngB(0), CeilSqrt(nresamples), p)
  {
    var k := CeilSqrt(nresamples);
    distribution := FillGrid(first, second, statistic, k, rngA(0), rngB(0));
    StartIsProduct(k, k);
  }

  /** Two-sample `bootstrap`: requires `nresamples > 0` and returns exactly
      `k * k` entries with `k = CeilSqrt(nresamples)` on either path. */
  method BootstrapPair<A, B, C(0)>(first: seq<A>, second: seq<B>, statistic: (seq<A>, seq<B>) -> C,
                                   nresamples: nat, ncpus: nat,
                                   rngA: nat -> nat -> seq<A>, rngB: nat -> nat -> seq<B>)
    returns (distribution: seq<C>)
    requires nresamples > 0
    ensures |distribution| == CeilSqrt(nresamples) * CeilSqrt(nresamples)
    ensures forall p :: 0 <= p < |distribution| ==>
              distribution[p] == PairSlot(first, second, statistic, nresamples, ncpus, rngA, rngB, p)
  {
    var k := CeilSqrt(nresamples);
    if PairUsesChunks(|first|, |second|, k, ncpus) {
      ghost var writes;
      distribution, writes := BootstrapPairChunked(first, second, statistic, nresamples, ncpus, rngA, rngB);
    } else {
      distribution := BootstrapPairSerial(first, second, statistic, nresamples, rngA, rngB);
    }
  }

  /** Serial path: slot `i * k + j` pairs the `i`-th draw of the first sample
      with the `(i * k + j)`-th draw of the second, a `k x k` grid in row-major order. */
  lemma PairSerialGrid<A, B, C>(first: seq<A>, second: seq<B>, statistic: (seq<A>, seq<B>) -> C,
                                nresamples: nat, ncpus: nat,
                                rngA: nat -> nat -> seq<A>, rngB: nat -> nat -> seq<B>, i: nat, j: nat)
    requires nresamples > 0
    requires !PairUsesChunks(|first|, |second|, CeilSqrt(nresamples), ncpus)
    requires i < CeilSqrt(nresamples) && j < CeilSqrt(nresamples)
    ensures i * CeilSqrt(nresamples) + j < CeilSqrt(nresamples) * CeilSqrt(nresamples)
    ensures PairSlot(first, second, statistic, nresamples, ncpus, rngA, rngB, i * CeilSqrt(nresamples) + j)
            == statistic(rngA(0)(i), rngB(0)(i * CeilSqrt(nresamples) + j))
  {
    var k := CeilSqrt(nresamples);
    StartIsProduct(i, k);
    InChunk(i, j, k);
    MulLe(i + 1, k, k);
    assert (i + 1) * k == i * k + k;
  }

  /** Chunked path, as the code is written: a divided chunk has at most `g`
      slots, so it holds a single sub-chunk, and all its slots share the
      chunk's first draw of the first sample, while the second sample is
      drawn afresh per slot.  Under the chunk shape assumed for `divide`
      (module Parallel), chunk `c` covers slots from `c * g` up to
      `(c + 1) * g` or the end of the buffer, whichever comes first; the
      result is not built from whole rows of `k`. */
  lemma PairChunkedOneDrawPerChunk<A, B, C>(first: seq<A>, second: seq<B>, statistic: (seq<A>, seq<B>) -> C,
                                            nresamples: nat, ncpus: nat,
                                            rngA: nat -> nat -> seq<A>, rngB: nat -> nat -> seq<B>, p: nat)
    requires nresamples > 0
    requires PairUsesChunks(|first|, |second|, CeilSqrt(nresamples), ncpus)
    ensures var g := Granularity(CeilSqrt(nresamples), ncpus);
            PairSlot(first, second, statistic, nresamples, ncpus, rngA, rngB, p)
            == statistic(rngA(p / g)(0), rngB(p / g)(p % g))
  {
    var g := Granularity(CeilSqrt(nresamples), ncpus);
    IndexIsQuotient(p, g);
    Decompose(p, g);
    InChunk(0, ChunkOffset(p, g), g);
  }
}
