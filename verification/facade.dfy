/** The filter's public surface: one shared dispatch (`filterCategory`,
    `filterStream`, `filterSeries`, which differ only in the entry type) and the six
    methods that pick a matcher and call it. */
module Facade {
  import opened Results
  import opened RegexStructs
  import opened Construction
  import opened Catalog
  import opened Compaction
  import opened Partition
  import opened WorkerPool

  /** Every matcher is set whenever filtering is on: what the constructor delivers
      and what the filter methods dereference. */
  predicate Armed(r: Regex) {
    r.filterOn ==> forall k :: r.Matcher(k).Some?
  }

  /** A successfully constructed filter is armed. */
  lemma NewFilterArmed(e: Engine, cfg: RegexSettings)
    ensures NewFilter(e, cfg).Success? ==> Armed(NewFilter(e, cfg).value)
  {
    if NewFilter(e, cfg).Success? && NewFilter(e, cfg).value.filterOn {
      forall k
        ensures NewFilter(e, cfg).value.Matcher(k).Some?
      {
        assert Compile(e, cfg.Get(k)).Success?;
      }
    }
  }

  /** The six public filter methods. */
  datatype Operation =
    | LiveCategory | VodCategory | SeriesCategory
    | LiveStreams | VodStreams | Series

  /** The kind whose matcher each public method applies. No method applies an M3U
      matcher: those two are compiled but never read here. */
  function KindOf(op: Operation): (k: Kind)
    ensures k != M3uGroup && k != M3uChannel
    ensures op.LiveCategory? || op.VodCategory? || op.SeriesCategory? <==>
      k == CategoryLive || k == CategoryVod || k == CategorySeries
  {
    match op
    case LiveCategory => CategoryLive
    case VodCategory => CategoryVod
    case SeriesCategory => CategorySeries
    case LiveStreams => StreamsLive
    case VodStreams => StreamsVod
    case Series => StreamsSeries
  }

  /** Distinct public methods apply distinct matchers. */
  lemma KindOfInjective(a: Operation, b: Operation)
    requires KindOf(a) == KindOf(b)
    ensures a == b
  {
    match a
    case LiveCategory =>
    case VodCategory =>
    case SeriesCategory =>
    case LiveStreams =>
    case VodStreams =>
    case Series =>
  }

  /** On the pool path the workers report back in some order; elsewhere the order
      is irrelevant. */
  ghost predicate Scheduled(r: Regex, cpu: nat, s: Slice<Entry>, err: Option<Error>, arrival: seq<nat>) {
    r.filterOn && err.None? && cpu > 1 ==> IsArrivalOrder(arrival, Workers(cpu, s.len))
  }

  /** What a filter call promises for matcher `m`: an upstream error or a disabled
      filter passes the input through untouched; otherwise the error is cleared and
      the result holds exactly the matching entries. On one CPU the result lives in
      the caller's backing store: vacated slots are zeroed, slots past the old length
      are untouched, and nothing dropped means the very same slice. On more CPUs the
      result is the per-chunk filters joined in arrival order, which is the input's
      order when the workers report in chunk order. */
  ghost predicate Outcome(r: Regex, m: Option<Regexp>, cpu: nat, s: Slice<Entry>, err: Option<Error>, arrival: seq<nat>,
                          out: Slice<Entry>, err': Option<Error>)
    requires s.Valid()
  {
    && (!r.filterOn || err.Some? ==> out == s && err' == err)
    && (r.filterOn && err.None? ==>
          && m.Some?
          && err' == None
          && out.Valid()
          && AllMatch(m.value, out.View())
          && multiset(out.View()) == multiset(Filter(m.value, s.View()))
          && (cpu == 1 ==>
                && |out.store| == |s.store| && out.len <= s.len
                && (forall j :: out.len <= j < s.len ==> out.store[j] == ZeroEntry)
                && (forall j :: s.len <= j < |s.store| ==> out.store[j] == s.store[j]))
          && (cpu == 1 && AllMatch(m.value, s.View()) ==> out == s)
          && (cpu > 1 ==>
                && Within(arrival, Workers(cpu, s.len))
                && out.View() == PoolOutput(m.value, s.View(), cpu, arrival))
          && (cpu > 1 && arrival == Indices(Workers(cpu, s.len)) ==> out.View() == Filter(m.value, s.View())))
  }

  /** The shared dispatch: return early when filtering is off or the upstream call
      failed, filter in place on one CPU, and use the worker pool otherwise. */
  method FilterList(r: Regex, m: Option<Regexp>, cpu: nat, s: Slice<Entry>, err: Option<Error>, arrival: seq<nat>)
    returns (out: Slice<Entry>, err': Option<Error>)
    requires cpu >= 1 && s.Valid()
    requires r.filterOn && err.None? ==> m.Some?
    requires Scheduled(r, cpu, s, err, arrival)
    ensures Outcome(r, m, cpu, s, err, arrival, out, err')
  {
    if !r.filterOn || err.Some? {
      return s, err;
    }
    if cpu == 1 {
      out, err' := FilterInline(s, err, m.value);
    } else {
      out, err' := FilterChunked(s, m.value, cpu, arrival);
    }
  }

  /** Filters live categories by the live-category matcher. */
  method FilterLiveCategory(r: Regex, cpu: nat, categories: Slice<Entry>, err: Option<Error>, arrival: seq<nat>)
    returns (out: Slice<Entry>, err': Option<Error>)
    requires cpu >= 1 && categories.Valid()
    requires r.filterOn && err.None? ==> r.Matcher(KindOf(LiveCategory)).Some?
    requires Scheduled(r, cpu, categories, err, arrival)
    ensures Outcome(r, r.Matcher(KindOf(LiveCategory)), cpu, categories, err, arrival, out, err')
  {
    out, err' := FilterList(r, r.categoryLive, cpu, categories, err, arrival);
  }

  /** Filters VOD categories by the VOD-category matcher. */
  method FilterVodCategory(r: Regex, cpu: nat, categories: Slice<Entry>, err: Option<Error>, arrival: seq<nat>)
    returns (out: Slice<Entry>, err': Option<Error>)
    requires cpu >= 1 && categories.Valid()
    requires r.filterOn && err.None? ==> r.Matcher(KindOf(VodCategory)).Some?
    requires Scheduled(r, cpu, categories, err, arrival)
    ensures Outcome(r, r.Matcher(KindOf(VodCategory)), cpu, categories, err, arrival, out, err')
  {
    out, err' := FilterList(r, r.categoryVod, cpu, categories, err, arrival);
  }

  /** Filters series categories by the series-category matcher. */
  method FilterSeriesCategory(r: Regex, cpu: nat, categories: Slice<Entry>, err: Option<Error>, arrival: seq<nat>)
    returns (out: Slice<Entry>, err': Option<Error>)
    requires cpu >= 1 && categories.Valid()
    requires r.filterOn && err.None? ==> r.Matcher(KindOf(SeriesCategory)).Some?
    requires Scheduled(r, cpu, categories, err, arrival)
    ensures Outcome(r, r.Matcher(KindOf(SeriesCategory)), cpu, categories, err, arrival, out, err')
  {
    out, err' := FilterList(r, r.categorySeries, cpu, categories, err, arrival);
  }

  /** Filters live streams by the live-stream matcher. */
  method FilterLiveStreams(r: Regex, cpu: nat, streams: Slice<Entry>, err: Option<Error>, arrival: seq<nat>)
    returns (out: Slice<Entry>, err': Option<Error>)
    requires cpu >= 1 && streams.Valid()
    requires r.filterOn && err.None? ==> r.Matcher(KindOf(LiveStreams)).Some?
    requires Scheduled(r, cpu, streams, err, arrival)
    ensures Outcome(r, r.Matcher(KindOf(LiveStreams)), cpu, streams, err, arrival, out, err')
  {
    out, err' := FilterList(r, r.streamsLive, cpu, streams, err, arrival);
  }

  /** Filters VOD streams by the VOD-stream matcher. */
  method FilterVodStreams(r: Regex, cpu: nat, streams: Slice<Entry>, err: Option<Error>, arrival: seq<nat>)
    returns (out: Slice<Entry>, err': Option<Error>)
    requires cpu >= 1 && streams.Valid()
    requires r.filterOn && err.None? ==> r.Matcher(KindOf(VodStreams)).Some?
    requires Scheduled(r, cpu, streams, err, arrival)
    ensures Outcome(r, r.Matcher(KindOf(VodStreams)), cpu, streams, err, arrival, out, err')
  {
    out, err' := FilterList(r, r.streamsVod, cpu, streams, err, arrival);
  }

  /** Filters series records by the series-stream matcher. */
  method FilterSeries(r: Regex, cpu: nat, series: Slice<Entry>, err: Option<Error>, arrival: seq<nat>)
    returns (out: Slice<Entry>, err': Option<Error>)
    requires cpu >= 1 && series.Valid()
    requires r.filterOn && err.None? ==> r.Matcher(KindOf(Series)).Some?
    requires Scheduled(r, cpu, series, err, arrival)
    ensures Outcome(r, r.Matcher(KindOf(Series)), cpu, series, err, arrival, out, err')
  {
    out, err' := FilterList(r, r.streamsSeries, cpu, series, err, arrival);
  }
}
