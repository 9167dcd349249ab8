/** Work partitioning shared by the bootstrap engine and the KDE batch map.

    A buffer of `len` slots is cut into contiguous chunks of at most `g`
    slots; all but the last are exactly `g` long, and the last is cut at the
    end of the buffer, so it is shorter only when `g` does not divide `len`:
    chunk `c` covers `[ChunkStart(c, g), ChunkEnd(c, g, len))`.
    This is the shape `parallel::divide` and `chunks_mut` hand to their work
    function.  Slot `i` lies in chunk `ChunkIndex(i, g)` at position
    `ChunkOffset(i, g)`.  The geometry is defined by repeated addition, and
    the lemmas `StartIsProduct` and `IndexIsQuotient` show it is `c * g`,
    `i / g` and `i % g`.  The other lemmas show the chunks are non-empty,
    contiguous, pairwise disjoint and together cover the buffer, and that
    with the granularity the callers choose there are at most `workers`. */
module Parallel {

  /** The chunk size `count / workers + 1` the callers compute. */
  function Granularity(count: nat, workers: nat): (g: nat)
    requires workers > 0
    ensures g >= 1
    ensures count < g * workers
  {
    var q := count / workers;
    assert count == q * workers + count % workers;
    assert (q + 1) * workers == q * workers + workers;
    q + 1
  }

  /** First slot of chunk `c`. */
  function ChunkStart(c: nat, g: nat): nat
  {
    if c == 0 then 0 else ChunkStart(c - 1, g) + g
  }

  /** One past the last slot of chunk `c`: `g` slots later, or the end of the buffer. */
  function ChunkEnd(c: nat, g: nat, len: nat): nat
  {
    if ChunkStart(c, g) + g < len then ChunkStart(c, g) + g else len
  }

  /** Number of chunks of size `g` in a buffer of `len` slots. */
  function ChunkCount(len: nat, g: nat): nat
    requires g > 0
    decreases len
  {
    if len == 0 then 0 else if len <= g then 1 else 1 + ChunkCount(len - g, g)
  }

  /** The chunk that holds slot `i`. */
  function ChunkIndex(i: nat, g: nat): nat
    requires g > 0
    decreases i
  {
    if i < g then 0 else 1 + ChunkIndex(i - g, g)
  }

  /** The position of slot `i` inside its chunk. */
  function ChunkOffset(i: nat, g: nat): nat
    requires g > 0
    decreases i
  {
    if i < g then i else ChunkOffset(i - g, g)
  }

  lemma {:induction false} MulLe(a: nat, b: nat, g: nat)
    requires a <= b
    ensures a * g <= b * g
  {
    if a < b {
      MulLe(a, b - 1, g);
      assert (b - 1) * g + g == b * g;
    }
  }

  /** Chunk `c` starts at slot `c * g`. */
  lemma {:induction false} StartIsProduct(c: nat, g: nat)
    ensures ChunkStart(c, g) == c * g
  {
    if c > 0 {
      StartIsProduct(c - 1, g);
      assert (c - 1) * g + g == c * g;
    }
  }

  /** Every slot is its chunk's start plus its offset, and the offset is below `g`. */
  lemma {:induction false} Decompose(i: nat, g: nat)
    requires g > 0
    ensures i == ChunkStart(ChunkIndex(i, g), g) + ChunkOffset(i, g)
    ensures ChunkOffset(i, g) < g
  {
    if i >= g {
      Decompose(i - g, g);
    }
  }

  /** Position `t < g` of chunk `c` is the slot `ChunkStart(c, g) + t`, and nothing else. */
  lemma {:induction false} InChunk(c: nat, t: nat, g: nat)
    requires t < g
    ensures ChunkIndex(ChunkStart(c, g) + t, g) == c
    ensures ChunkOffset(ChunkStart(c, g) + t, g) == t
  {
    if c > 0 {
      InChunk(c - 1, t, g);
    }
  }

  /** A strictly larger factor adds at least one more `g`. */
  lemma MulLess(a: nat, b: nat, g: nat)
    ensures a < b ==> a * g + g <= b * g
  {
    if a < b {
      MulLe(a + 1, b, g);
      assert (a + 1) * g == a * g + g;
    }
  }

  /** Quotient and remainder of `q * g + r` when `r < g`. */
  lemma DivMod(q: nat, r: nat, g: nat)
    requires r < g
    ensures (q * g + r) / g == q
    ensures (q * g + r) % g == r
  {
    var n := q * g + r;
    var d, m := n / g, n % g;
    assert n == d * g + m;
    MulLess(q, d, g);
    MulLess(d, q, g);
  }

  /** Chunk index and offset are the quotient and the remainder by `g`. */
  lemma IndexIsQuotient(i: nat, g: nat)
    requires g > 0
    ensures ChunkIndex(i, g) == i / g
    ensures ChunkOffset(i, g) == i % g
  {
    var c, t := ChunkIndex(i, g), ChunkOffset(i, g);
    Decompose(i, g);
    StartIsProduct(c, g);
    DivMod(c, t, g);
  }

  /** The chunks reach the end of the buffer. */
  lemma {:induction false} CoverAll(len: nat, g: nat)
    requires g > 0
    ensures len <= ChunkStart(ChunkCount(len, g), g)
    decreases len
  {
    if len > g {
      CoverAll(len - g, g);
    }
  }

  /** Every chunk but the first starts inside the buffer. */
  lemma {:induction false} StartInside(len: nat, g: nat, c: nat)
    requires g > 0
    requires c < ChunkCount(len, g)
    ensures ChunkStart(c, g) < len
    decreases len
  {
    if c > 0 {
      StartInside(len - g, g, c - 1);
    }
  }

  /** Every chunk is non-empty and at most `g` long; all but the last are
      exactly `g` long and end where the next one starts; the last ends at
      the end of the buffer. */
  lemma ChunkShape(len: nat, g: nat, c: nat)
    requires g > 0
    requires c < ChunkCount(len, g)
    ensures ChunkStart(c, g) < ChunkEnd(c, g, len) <= len
    ensures ChunkEnd(c, g, len) - ChunkStart(c, g) <= g
    ensures c + 1 < ChunkCount(len, g) ==>
              ChunkEnd(c, g, len) == ChunkStart(c + 1, g) &&
              ChunkEnd(c, g, len) - ChunkStart(c, g) == g
    ensures c + 1 == ChunkCount(len, g) ==> ChunkEnd(c, g, len) == len
  {
    StartInside(len, g, c);
    if c + 1 < ChunkCount(len, g) {
      StartInside(len, g, c + 1);
    } else {
      CoverAll(len, g);
    }
  }

  lemma {:induction false} StartMonotone(a: nat, b: nat, g: nat)
    requires a <= b
    ensures ChunkStart(a, g) <= ChunkStart(b, g)
  {
    if a < b {
      StartMonotone(a, b - 1, g);
    }
  }

  /** Slot `i` lies in chunk `ChunkIndex(i, g)` and in no other chunk. */
  lemma ChunkOf(len: nat, g: nat, i: nat)
    requires g > 0
    requires i < len
    ensures ChunkIndex(i, g) < ChunkCount(len, g)
    ensures ChunkStart(ChunkIndex(i, g), g) <= i < ChunkEnd(ChunkIndex(i, g), g, len)
    ensures forall c :: 0 <= c < ChunkCount(len, g) && ChunkStart(c, g) <= i < ChunkEnd(c, g, len) ==>
              c == ChunkIndex(i, g)
  {
    var c := ChunkIndex(i, g);
    Decompose(i, g);
    CoverAll(len, g);
    if c >= ChunkCount(len, g) {
      StartMonotone(ChunkCount(len, g), c, g);
    }
    forall c' | 0 <= c' < ChunkCount(len, g) && ChunkStart(c', g) <= i < ChunkEnd(c', g, len)
      ensures c' == c
    {
      InChunk(c', i - ChunkStart(c', g), g);
    }
  }

  /** With granularity `len / workers + 1` there are at most `workers` chunks. */
  lemma ChunkCountBound(len: nat, workers: nat)
    requires workers > 0
    ensures ChunkCount(len, Granularity(len, workers)) <= workers
  {
    var g := Granularity(len, workers);
    var k := ChunkCount(len, g);
    if k > workers {
      StartInside(len, g, k - 1);
      StartIsProduct(k - 1, g);
      MulLe(workers, k - 1, g);
    }
  }
}
