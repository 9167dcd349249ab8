# Bootstrap distributions and kernel density estimation (stats.rs)

This project is a Dafny model of two parts of the `stats.rs` statistics library.

- **Bootstrap engine** (`src/bootstrap.rs`).
  - The single-sample `bootstrap` of a statistic returns a distribution of exactly `nresamples` entries. It takes one of two paths:
    - a serial path with one resampling cursor;
    - a chunked path. It preallocates the buffer, cuts it into chunks of `nresamples / ncpus + 1` slots, and fills each chunk from a fresh cursor.
  - The two-sample `bootstrap` requires `nresamples > 0`. It rounds the count up to `k * k` with `k` the ceiling square root. It then fills the buffer by advancing two cursors:
    - serial path: a `k x k` row-major loop nest;
    - chunked path: chunks of `k / ncpus + 1` slots, each cut again into sub-chunks of that size.
- **Kernel density estimator** (`src/univariate/kde/mod.rs`).
  - `Kde::new` stores the bandwidth that a `Bandwidth` method estimates, together with the kernel and the sample. `bandwidth()` returns that bandwidth.
  - Evaluation at a point sums the kernel terms over a three-way split of the sample: the body first, then head and tail. It divides by the bandwidth and then by the sample size.
  - `map` evaluates the estimator at every point, on a chunked path or on a serial one.

Modules:

- `Parallel` (`parallel.dfy`): the chunk geometry that the work splitter (`parallel::divide`, `chunks_mut`) gives its work function. Chunks are contiguous and at most `g` slots long; only the last may be shorter, cut at the end of the buffer. This is the contract assumed for `parallel::divide`, whose code is not part of this model. The module proves that the chunks cover the buffer, do not overlap and are non-empty, and that with granularity `len / workers + 1` there are at most `workers` of them.
- `Resampling` (`resamples.dfy`): the resampling cursor, a class whose `Next` returns the next entry of a stream of resamples.
- `Bootstrap` (`bootstrap.dfy`): both `bootstrap` functions, with each path as its own method over an array or a sequence.
- `KernelDensity` (`kde.dfy`): `BandwidthMethod` (the Rust enum `Bandwidth`), `Kde`, the split-sum density and `map`.

How randomness is modelled:

- A bootstrap call is given a family of streams `rng: nat -> nat -> seq<T>`.
- The `c`-th cursor that a call creates returns `rng(c)(0), rng(c)(1), …`.
- The serial paths create cursor 0. Chunk `c` of a divided buffer creates cursor `c`, one per sample.

Each method's contract says exactly which draw lands in each slot. The chunked methods also return a ghost count of writes per slot, and it is 1 everywhere. This models "every slot of the uninitialised buffer is written exactly once".

The number of CPUs is an explicit parameter `ncpus`. The SIMD split of the sample is a parameter `split`, which must fit the sample. The kernel and Silverman's rule are arbitrary functions.

## How the two-sample paths draw their cursors

- **Chunked path.** It does not build whole rows of the `k x k` grid.
  - The model assumes this contract for `parallel::divide`, whose code is not part of this model: it cuts the `k * k` buffer into contiguous chunks of at most `g = k / ncpus + 1` slots, and only the last chunk may be shorter.
  - Under that contract a chunk has at most `g` slots, so re-cutting it with `chunks_mut(g)` yields a single sub-chunk.
  - All slots of a chunk therefore share the chunk's one draw of the first sample, and each slot draws the second sample afresh.
  - Slot `p` holds `statistic(rngA(p / g)(0), rngB(p / g)(p % g))`. This is lemma `PairChunkedOneDrawPerChunk`.
- **Serial path.** The loop nest advances the first cursor once per row of `k` and the second cursor once per slot, so it makes `k * k` draws of the second sample. Lemma `PairSerialGrid` states this.

## Model

| member | source | states |
|---|---|---|
| Parallel.Granularity | src/bootstrap.rs:15 | the granularity `count / workers + 1` is at least 1, and `workers` chunks of it exceed `count` |
| Parallel.StartIsProduct | src/univariate/kde/mod.rs:56 | chunk `c` starts at offset `c * g` |
| Parallel.IndexIsQuotient | src/univariate/kde/mod.rs:55-56 | slot `i` is in chunk `i / g`, at position `i % g` within it |
| Parallel.CoverAll | src/bootstrap.rs:19 | the chunks together reach the end of the buffer |
| Parallel.ChunkShape | src/bootstrap.rs:19 | every chunk is non-empty and at most `g` long; each ends where the next begins; the last one ends at the buffer's end |
| Parallel.ChunkOf | src/univariate/kde/mod.rs:55 | every slot lies in exactly one chunk, the one with index `ChunkIndex(i, g)` |
| Parallel.ChunkCountBound | src/univariate/kde/mod.rs:48-55 | with granularity `len / workers + 1` there are at most `workers` chunks |
| Resampling.Resamples.constructor | src/bootstrap.rs:20 | a new cursor is over the given sample and stream and has drawn nothing |
| Resampling.Resamples.Next | src/bootstrap.rs:23 | returns the stream entry at the current count and advances the count by one |
| Bootstrap.SingleUsesChunks | src/bootstrap.rs:14 | the chunked single-sample path is taken only with at least two CPUs and at least one resample; with no resamples or one CPU the path is serial |
| Bootstrap.FillSingleChunk | src/bootstrap.rs:19-25 | the work function fills slot `start + t` with the statistic of the fresh cursor's `t`-th draw; slots outside the chunk are unchanged; each slot in the chunk is written once |
| Bootstrap.BootstrapChunked | src/bootstrap.rs:14-27 | exactly `nresamples` entries; slot `i` is draw `i % g` of chunk `i / g`'s cursor; every slot is written exactly once |
| Bootstrap.BootstrapSerial | src/bootstrap.rs:28-34 | exactly `nresamples` entries; entry `i` is the statistic of the single cursor's `i`-th draw |
| Bootstrap.BootstrapSingle | src/bootstrap.rs:9-35 | exactly `nresamples` entries on either path (so none for zero, which is serial); the chunked path is taken iff `ncpus > 1` and `nresamples > len` |
| Bootstrap.SingleWithin | src/bootstrap.rs:19-33 | if every statistic of a resample lies in a set, every entry of the distribution does |
| Bootstrap.CeilSqrt | src/bootstrap.rs:52 | `(k - 1)^2 < n <= k^2` for `n > 0`, the integer ceiling square root |
| Bootstrap.CeilSqrtIsLeast | src/bootstrap.rs:52 | no smaller `j` has `j * j >= n` |
| Bootstrap.TenResamplesGiveSixteen | src/bootstrap.rs:52-53 | a request for 10 resamples becomes `k = 4` and 16 entries |
| Bootstrap.PairUsesChunks | src/bootstrap.rs:56 | the chunked two-sample path is taken only with at least two CPUs and a non-empty grid; when `k * k` is at most the two sample lengths together, or there is one CPU, the path is serial |
| Bootstrap.FillSubChunk | src/bootstrap.rs:65-73 | a sub-chunk pairs its one first-sample draw with successive second-sample draws; the second cursor is advanced by the sub-chunk's length; nothing else changes |
| Bootstrap.FillPairChunk | src/bootstrap.rs:61-74 | in a chunk, slot `start + t` pairs first draw `t / g` with second draw `t`; nothing outside the chunk changes |
| Bootstrap.DividePairs | src/bootstrap.rs:61-74 | over the divided buffer, slot `p` is position `p % g` of chunk `p / g` with that chunk's cursors; every slot is written exactly once |
| Bootstrap.BootstrapPairChunked | src/bootstrap.rs:56-76 | exactly `k * k` entries, every slot written once, each the chunked-path pair |
| Bootstrap.FillGrid | src/bootstrap.rs:78-90 | the loop nest yields `k * k` entries; entry `p` pairs first draw `p / k` with second draw `p` |
| Bootstrap.BootstrapPairSerial | src/bootstrap.rs:77-93 | exactly `k * k` entries from the serial grid with cursors 0 |
| Bootstrap.BootstrapPair | src/bootstrap.rs:42-94 | requires `nresamples > 0` and yields exactly `CeilSqrt(nresamples)^2` entries on either path; the chunked path is taken iff `ncpus > 1` and `k * k` exceeds the two sample lengths together |
| Bootstrap.PairSerialGrid | src/bootstrap.rs:82-90 | on the serial path, slot `i * k + j` is in range and is `statistic(first draw i, second draw i * k + j)` |
| Bootstrap.PairChunkedOneDrawPerChunk | src/bootstrap.rs:57-73 | on the chunked path, slot `p` is `statistic(first draw 0 of chunk p / g, second draw p % g of chunk p / g)` |
| KernelDensity.BandwidthMethod.Estimate | src/univariate/kde/mod.rs:122-134 | `Manual(h)` estimates to `h`; `Silverman` gives the rule's value for the sample |
| KernelDensity.FoldTerms | src/univariate/kde/mod.rs:87-93 | the accumulating fold from `acc` equals `acc` plus the naive kernel sum of its part of the sample |
| KernelDensity.SumAppend | src/univariate/kde/mod.rs:91 | the kernel sum over a concatenation is the sum of the two kernel sums |
| KernelDensity.SplitSum | src/univariate/kde/mod.rs:85-93 | for any split, sum(body) + sum(head) + sum(tail) and the fold over body then head and tail both equal the naive sum over the whole sample |
| KernelDensity.SumNonNegative | src/univariate/kde/mod.rs:87-93 | a non-negative kernel gives a non-negative sum |
| KernelDensity.Kde.New | src/univariate/kde/mod.rs:26-32 | the estimator stores the estimated bandwidth, the kernel and the sample |
| KernelDensity.Kde.Bandwidth | src/univariate/kde/mod.rs:35-37 | returns the stored bandwidth |
| KernelDensity.Kde.Call | src/univariate/kde/mod.rs:78-96 | whatever the split, the density is the naive kernel sum over the whole sample divided by `h` and then by `n`; it is non-finite when `h = 0` or `n = 0` |
| KernelDensity.MapUsesChunks | src/univariate/kde/mod.rs:47-48 | the chunked map path is taken only with at least two CPUs, and then the granularity `n / ncpus + 1` is below `n`, so the points are really split; with at most `ncpus` points or one CPU the path is serial |
| KernelDensity.Kde.EvalChunk | src/univariate/kde/mod.rs:55-63 | chunk `[offset, offset + len)` writes the density at `xs[offset + i]` into slot `offset + i` and nothing else; each slot is written once |
| KernelDensity.Kde.MapChunked | src/univariate/kde/mod.rs:47-67 | one entry per point, entry `i` the density at `xs[i]`, every slot written exactly once |
| KernelDensity.Kde.MapSerial | src/univariate/kde/mod.rs:68-70 | one entry per point, entry `i` the density at `xs[i]` |
| KernelDensity.Kde.Map | src/univariate/kde/mod.rs:42-71 | on either path the result has one entry per point in order, entry `i` the density at `xs[i]` |
| KernelDensity.NewManualBandwidth | src/univariate/kde/mod.rs:132 | an estimator built with `Manual(h)` reports bandwidth `h` |
| KernelDensity.DensityNonNegative | src/univariate/kde/mod.rs:78-96 | with `h > 0`, a non-empty sample and a non-negative kernel, the density is finite and non-negative |

## Left out

- Threads: `thread::scoped` and `parallel::divide`. Their chunks are processed one after another in chunk order. The chunks are disjoint, so the order does not affect the result. `divide` itself is not part of this model; it is modelled by the chunk geometry of module `Parallel`.
- CPU counting: `os::num_cpus()` and `num_cpus::get()` become the parameter `ncpus`.
- Random resampling: how `Resamples` draws a resample is not modelled. A cursor reads a given stream, and `DrawsFrom` states only that each draw is a resample of the sample with replacement. Distributional properties are not modelled.
- Serial and chunked results are not compared with each other. They consume the random streams in different patterns, so under the stream model they are different distributions. Each path is specified exactly instead.
- Bootstrap.CeilSqrt: computes the exact integer ceiling square root. It models `(n as f64).sqrt().ceil() as uint` only where the float computation is exact. For very large `n` the float version can differ.
- Capacity: a sequence has only a length. `Vec::with_capacity`, the exact allocation of `collect` and the capacity-equals-length checks of the tests are not modelled. The chunked paths do allocate one array of the exact size.
- Integer width: `uint` arithmetic, such as `k * k` overflowing, is not modelled. Counts are unbounded naturals.
- Unsafe memory: `set_len` and `ptr::write` on uninitialised memory. The model allocates a default-initialised array, which is why the element types are auto-initialisable. The ghost write counts show each slot is written exactly once before the buffer is returned.
- SIMD: `A::Vector::cast`, `from_elem`, lane-wise `map` and the horizontal `sum`. The cast is an arbitrary valid `Split`. The body is folded as a scalar sum, not lane by lane. Over the reals the order of addition does not change the result.
- Floating point: values are `real`. Non-associativity and rounding of float addition and division are not modelled.
- KernelDensity.Kde.Call: a zero bandwidth or an empty sample gives an infinity or a NaN in the source. Both are collapsed into `NonFinite`, not modelled value by value.
- Silverman's rule (`std_dev`, `powf` and its constants) is an arbitrary function of the sample.
- `FnMut::call_mut` and `FnOnce::call_once` only forward to `call`. `Kde` is an immutable value, so evaluation cannot change its bandwidth, kernel or sample.
- The tests, the quickcheck generators, the numerical integral test and the benchmarks are not modelled.
