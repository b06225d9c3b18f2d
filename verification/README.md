# Regex catalog filter of iptv-proxy, modelled in Dafny

iptv-proxy re-publishes an IPTV provider's catalog. Its `pkg/regex` package decides
which live, VOD and series categories, streams and series records are published.

That package:
- reads eight raw pattern strings (`RegexSettings`), one per kind of catalog list;
- builds a `Regex` from them with `NewFilter`;
- removes every entry whose `Name` does not match the pattern for its list.

The removal has two implementations:
- on a one-CPU machine, an in-place right-to-left scan that swaps and truncates with
  `deleteUnmatched`;
- otherwise, a pool of workers. The input is cut into contiguous chunks. Each worker
  keeps the matching entries of its chunk. The partial results are joined in the
  order the workers deliver them.

The project has these modules:

- `Results`: the `Option` and `Result` wrappers and the error values.
- `RegexStructs`: the two records, `RegexSettings` and `Regex`. It also has the eight
  filter kinds and the order in which they are compiled. Compiled matchers are
  abstract total predicates, and the regex engine is an abstract partial
  `compile` function. `EmptyMatchesAll` states the one fact about Go's `regexp`
  that the model uses: the empty pattern compiles and matches every string.
- `Construction`: `NewFilter`. Filtering is on iff some pattern is non-empty. All
  eight patterns are then compiled in order, and the first failure aborts.
- `Catalog`: the entry record (only `name` is read) and the reference meaning of
  filtering, the order-keeping subsequence of matching entries. Its algebra covers
  members, multiplicities, concatenation and idempotence.
- `Compaction`: Go slices as a backing store plus a length, `deleteUnmatched`, and
  the in-place right-to-left filter with its loop invariant.
- `Partition`: worker count, chunk size and chunk windows. It has the corrected
  partition, which is proved to cover the input exactly. It also has the partition
  as the source writes it, with its two run-time panics.
- `WorkerPool`: one worker's loop, the arrival-order join, and the multi-CPU filter.
- `Facade`: the shared dispatch behind `filterCategory`, `filterStream` and
  `filterSeries`, and the six public `Filter*` methods.

The three copies of the filter routines (`x.Category`, `x.Stream`, `x.SeriesInfo`)
differ only in the element type, so they are modelled once over `Catalog.Entry`.
The CPU count is a parameter.

Goroutines and the channel are modelled as sequential code:
- each chunk is filtered in turn;
- the join takes an `arrival` sequence, the order in which the workers' results
  leave the channel. It is constrained only to be a permutation of the worker
  numbers.

A caller might expect the partial results in chunk order. The join at
pkg/regex/regex.go:126-129 appends them in channel-arrival order, and the model
follows it. So the pool path promises the per-chunk survivors, each chunk's in input
order, concatenated in arrival order. That is exactly the matching entries with their
multiplicities, and it is in input order when the workers report in chunk order.

## Model

| member | source | states |
|---|---|---|
| Construction.Compile | pkg/regex/regex.go:30-33 | One `regexp.Compile` step succeeds iff the engine accepts the pattern. On success the matcher keeps the pattern text and is the engine's matcher for it. On failure the error names the pattern. |
| Construction.NewFilter | pkg/regex/regex.go:13-65 | All eight settings empty gives success with filtering off and no matcher set. On success, filtering is on iff some setting is non-empty. When it is on, every matcher is the compiled form of the same-named setting, empty patterns included. |
| Construction.NewFilterAllOrNothing | pkg/regex/regex.go:27-64 | With some pattern non-empty, construction succeeds iff all eight patterns compile. A partly built filter is never returned. |
| Construction.NewFilterFirstFailure | pkg/regex/regex.go:30-61 | A failed construction reports the first pattern in compile order that does not compile. Every pattern before it compiles. |
| Construction.EmptySettingMatchesAll | pkg/regex/regex.go:27-64 | When filtering is on, a kind whose setting is empty still gets a matcher, and that matcher accepts every name. So an empty setting filters nothing out. |
| Catalog.FilterMembers | pkg/regex/regex.go:113-118 | An entry survives iff it is in the input and its name matches. Every survivor matches, and filtering never lengthens a list. |
| Catalog.FilterMultiset | pkg/regex/regex.go:113-118 | Filtering keeps every matching entry with its full multiplicity and drops every other entry. |
| Catalog.FilterConcat | pkg/regex/regex.go:111-129 | Filtering two lists one after the other gives the filter of their concatenation. |
| Catalog.FilterKeepsMatching | pkg/regex/regex.go:113-118 | A list is its own filter iff every entry matches. |
| Catalog.FilterLength | pkg/regex/regex.go:113-118 | Filtering drops something iff some entry does not match. |
| Catalog.FilterIdempotent | pkg/regex/regex.go:113-118 | Filtering twice with the same matcher is filtering once. |
| Catalog.RefilterIsNoOp | pkg/regex/regex.go:134-147 | Filtering any arrangement of a filtered list (such as the in-place path's output) again removes nothing. |
| Catalog.ArrangementMatches | pkg/regex/regex.go:126-129 | Any arrangement of a filtered list has only matching entries. |
| Compaction.DeleteUnmatched | pkg/regex/regex.go:67-82 | An error is returned iff the index is below 0 or above `len-1`. The check comes before any write, so on error the backing store is untouched and the result is the nil slice. Otherwise the result is one shorter over the same store. The old last element is moved into the index, every other position below `len-1` is kept, the old last slot is zeroed, and slots past the old length are untouched. |
| Compaction.DeleteUnmatchedRemovesOne | pkg/regex/regex.go:74-81 | A valid removal drops exactly the entry at the index from the multiset of the view. |
| Compaction.RemoveStep | pkg/regex/regex.go:138-144 | During the right-to-left scan, a removal is never out of range, so the error becomes nil and the scan invariant survives the swap. |
| Compaction.FilterInline | pkg/regex/regex.go:134-147 | The in-place filter (also lines 199-212 and 264-277) keeps exactly the matching entries with their multiplicities over the same backing store. Vacated slots are zeroed. If everything matches, the slice and error come back unchanged; otherwise the error is nil. |
| Partition.Workers | pkg/regex/regex.go:89-96 | With more than one CPU the pool has one worker per CPU, but never more than there are entries and never fewer than one (the lower bound is the correction in the first `## Findings` row). |
| Partition.ChunkSize | pkg/regex/regex.go:98 | The chunk size is the least size with which the workers hold every entry. |
| Partition.ChunkWindow | pkg/regex/regex.go:104-108 | A chunk has at most chunk-size entries, and each chunk starts where the previous one ends. |
| Partition.ChunksDisjoint | pkg/regex/regex.go:103-108 | Distinct chunks cover disjoint index ranges. |
| Partition.ChunksCover | pkg/regex/regex.go:103-120 | When the workers can hold the input, the chunks concatenated in worker order are exactly the input. |
| Partition.BoundsAsWrittenAgree | pkg/regex/regex.go:103-108 | The source's chunk loop from worker `i` on avoids a bad slice iff the last chunk does not start past the end. It then yields the corrected windows. |
| Partition.PartitionAsWrittenSafeIff | pkg/regex/regex.go:92-108 | The source's partition avoids a panic iff the input is non-empty and the last chunk starts inside it. It then agrees window for window with the corrected partition. |
| Partition.PartitionAsWritten | pkg/regex/regex.go:92-108 | The source's partition with more than one CPU, unclamped. It divides by zero iff the input is empty. Otherwise it either yields `min(cpu, n)` chunk windows or panics on a slice whose start lies past the end `n`. |
| Partition.BoundsAsWritten | pkg/regex/regex.go:103-108 | The source's chunk loop from worker `i` on. It yields one window per remaining worker, each within `0..n` with start at most end. Otherwise it panics on a slice `[start:n]` with `start > n`. |
| Partition.EmptyInputDividesByZero | pkg/regex/regex.go:94-98 | An empty list with more than one CPU gives zero workers and divides by zero. |
| Partition.FiveOnFourSlicesOutOfRange | pkg/regex/regex.go:98-120 | Five entries on four CPUs give chunk size 2, and the fourth chunk's slice `[6:5]` panics. |
| WorkerPool.WorkerFilter | pkg/regex/regex.go:111-120 | One worker's output is exactly the matching entries of its chunk, in chunk order. |
| WorkerPool.GatherConcat | pkg/regex/regex.go:126-129 | Joining along two arrival sequences one after the other is the concatenation of the two joins. |
| WorkerPool.GatherPermutation | pkg/regex/regex.go:126-129 | Two arrival orders that are permutations of each other join the same entries with the same multiplicities. |
| WorkerPool.GatherInOrder | pkg/regex/regex.go:126-129 | Joining in worker order is the plain concatenation of the partial results. |
| WorkerPool.FilterFlatten | pkg/regex/regex.go:111-129 | Filtering each chunk and concatenating the results is filtering the whole input. |
| WorkerPool.Join | pkg/regex/regex.go:126-129 | The join loop appends each worker's partial result in arrival order. |
| WorkerPool.RunWorkers | pkg/regex/regex.go:103-121 | Worker `i` receives chunk `i` of the input, and its output is the filter of that chunk. |
| WorkerPool.PoolJoin | pkg/regex/regex.go:111-129 | Joining the filtered chunks in any arrival order yields exactly the survivors of the whole input with their multiplicities. Joining them in chunk order yields the reference filter. |
| WorkerPool.FilterChunked | pkg/regex/regex.go:98-131 | The pool path (also lines 163-196 and 228-261), over the corrected partition, returns a fresh slice and a nil error. The slice is the per-chunk filters joined in arrival order, so each chunk's survivors stay together and in input order. It holds exactly the survivors of the input with their multiplicities, and is in input order when the workers report in chunk order. On an empty input, or when a late chunk starts past the end, the source panics instead (`Partition.PartitionAsWritten`). On every other input the source's chunks are the corrected ones (`Partition.PartitionAsWrittenSafeIff`). |
| Facade.NewFilterArmed | pkg/regex/regex.go:27-64 | A constructed filter with filtering on has every matcher set, so the filter methods never dereference nil. |
| Facade.KindOf | pkg/regex/regex.go:279-301 | No public method applies an M3U matcher. The three category methods are exactly the ones applying a category matcher. |
| Facade.KindOfInjective | pkg/regex/regex.go:279-301 | Distinct public methods apply distinct matchers. |
| Facade.FilterList | pkg/regex/regex.go:84-132 | Filtering off or an upstream error returns the input and error untouched (also lines 149-197 and 214-262). Otherwise the error is nil and the result holds exactly the matching entries. One CPU goes through the in-place path: the result lives in the caller's backing store, vacated slots are zeroed, slots past the old length are untouched, and the very slice comes back when nothing is dropped. More CPUs go through the pool: the result is the per-chunk filters joined in arrival order. |
| Facade.FilterLiveCategory | pkg/regex/regex.go:279-281 | Filters with the live-category matcher and keeps the dispatch's promise. |
| Facade.FilterVodCategory | pkg/regex/regex.go:283-285 | Filters with the VOD-category matcher and keeps the dispatch's promise. |
| Facade.FilterSeriesCategory | pkg/regex/regex.go:287-289 | Filters with the series-category matcher and keeps the dispatch's promise. |
| Facade.FilterLiveStreams | pkg/regex/regex.go:291-293 | Filters with the live-stream matcher and keeps the dispatch's promise. |
| Facade.FilterVodStreams | pkg/regex/regex.go:295-297 | Filters with the VOD-stream matcher and keeps the dispatch's promise. |
| Facade.FilterSeries | pkg/regex/regex.go:299-301 | Filters with the series-stream matcher and keeps the dispatch's promise. |

The records are the datatypes `RegexStructs.RegexSettings`
(pkg/regex/regex-structs.go:8-17) and `RegexStructs.Regex`
(pkg/regex/regex-structs.go:19-30). A nil matcher is `None`.

## Left out

- Logging (`log.Printf`): it has no effect on results.
- `runtime.NumCPU()`: it becomes the `cpu` parameter of the filter methods.
- Goroutines, `sync.WaitGroup` and the buffered channel: these become a sequential
  per-chunk loop and a join over an arbitrary permutation of the worker numbers.
- The regex engine: `regexp.Compile` and `MatchString` are abstract. The only
  assumed fact is that the empty pattern matches every string.
- The concrete `x.Category`, `x.Stream` and `x.SeriesInfo` types of the external
  Xtream library: they become one record whose only read field is `name`.
- Error message text: a compile failure carries the pattern, and an out-of-range
  removal carries the index. The formatted messages are not modelled.
- Slice capacity and nil versus empty:
  - the pool path's result is modelled as a store holding exactly the joined
    entries, with Go's `append` growth left out;
  - Go returns a nil slice when nothing survives, and the model returns the empty
    slice.
- The unused package variable `filter` in pkg/regex/regex-structs.go.
- cmd/root.go (flag and configuration plumbing, server start-up) is not part of
  this model.
- Facade.FilterList: requires a set matcher whenever filtering is on and there is no
  upstream error, even for an empty list, where the source never reads the matcher.
  A constructed filter always meets this (`Facade.NewFilterArmed`).
- Facade.FilterLiveCategory: same matcher requirement as `Facade.FilterList`; so do
  the other five public methods.
- WorkerPool.FilterChunked: uses the corrected `Partition.Workers` and
  `Partition.ChunkStart`. So on an empty input with more than one CPU, and when a
  late chunk starts past the end, it returns a filtered result where the source
  panics. `Partition.PartitionAsWritten` models those panics, and
  `Partition.PartitionAsWrittenSafeIff` gives the inputs on which the two agree.
- Facade.FilterList: the pool path uses the corrected partition of the findings
  below, so it does not model the two panics. Those are modelled separately by
  `Partition.PartitionAsWritten`.

## Findings

| source | as written | input that shows it | evidently intended | confidence | as-written member | corrected member |
|---|---|---|---|---|---|---|
| pkg/regex/regex.go:94-98 | with more than one CPU the worker count is `min(cpu, len)`, which is 0 for an empty list, and then `chunkSize := (len + numWorkers - 1) / numWorkers` divides by zero | an empty catalog list on any machine with 2 or more CPUs | at least one worker (or an early return for an empty list), so an empty list filters to an empty list | not executed | Partition.EmptyInputDividesByZero | Partition.Workers |
| pkg/regex/regex.go:103-120 | chunk `i` starts at `i * chunkSize` with no clamp, while only `end` is clamped to the length, so a late chunk can start past the end and `categories[start:end]` panics | 5 entries on 4 CPUs: chunk size 2, and the fourth chunk is `[6:5]` | chunk starts clamped to the length, so trailing workers get empty chunks and the chunks cover the input exactly | not executed | Partition.FiveOnFourSlicesOutOfRange | Partition.ChunksCover |
