/** Construction of the filter from the eight raw pattern strings. */
module Construction {
  import opened Results
  import opened RegexStructs

  /** Some settings field holds a pattern. */
  ghost predicate AnyPattern(cfg: RegexSettings) {
    exists k :: cfg.Get(k) != ""
  }

  /** Compiling `k`'s pattern fails while every kind compiled before it succeeds. */
  ghost predicate FirstFailure(e: Engine, cfg: RegexSettings, k: Kind) {
    && e.compile(cfg.Get(k)).None?
    && forall k' :: Rank(k') < Rank(k) ==> e.compile(cfg.Get(k')).Some?
  }

  /** `regexp.Compile`: the engine's verdict, with the rejected pattern as the error. */
  function Compile(e: Engine, expr: string): (r: Result<Regexp>)
    ensures r.Success? <==> e.compile(expr).Some?
    ensures r.Success? ==> r.value.expr == expr && Some(r.value.accepts) == e.compile(expr)
    ensures r.Failure? ==> r.error == CompileFailed(expr)
  {
    match e.compile(expr)
    case Some(test) => Success(Regexp(expr, test))
    case None => Failure(CompileFailed(expr))
  }

  /** `NewFilter`: filtering is on iff some pattern is non-empty; when on, all eight
      patterns are compiled in `CompileOrder` and the first failure aborts. */
  function NewFilter(e: Engine, cfg: RegexSettings): (r: Result<Regex>)
    // all settings empty: filtering off, nothing compiled, no error
    ensures !AnyPattern(cfg) ==> r == Success(Inactive)
    ensures r.Success? ==> (r.value.filterOn <==> AnyPattern(cfg))
    // on success every matcher, empty patterns included, is compiled from its own setting
    ensures r.Success? && r.value.filterOn ==>
      forall k :: Compile(e, cfg.Get(k)).Success? && r.value.Matcher(k) == Compile(e, cfg.Get(k)).ToOption()
  {
    var filterOn :=
      if cfg.m3uGroup != "" || cfg.m3uChannel != "" then true
      else if cfg.categoryLive != "" || cfg.categoryVod != "" || cfg.categorySeries != "" then true
      else if cfg.streamsLive != "" || cfg.streamsVod != "" || cfg.streamsSeries != "" then true
      else false;
    if !filterOn then
      assert forall k :: cfg.Get(k) == "";
      Success(Inactive)
    else
      assert AnyPattern(cfg) by {
        assert cfg.Get(M3uGroup) != "" || cfg.Get(M3uChannel) != "" || cfg.Get(CategoryLive) != ""
          || cfg.Get(CategoryVod) != "" || cfg.Get(CategorySeries) != "" || cfg.Get(StreamsLive) != ""
          || cfg.Get(StreamsVod) != "" || cfg.Get(StreamsSeries) != "";
      }
      var group :- Compile(e, cfg.m3uGroup);
      var channel :- Compile(e, cfg.m3uChannel);
      var categoryLive :- Compile(e, cfg.categoryLive);
      var categoryVod :- Compile(e, cfg.categoryVod);
      var categorySeries :- Compile(e, cfg.categorySeries);
      var streamsLive :- Compile(e, cfg.streamsLive);
      var streamsVod :- Compile(e, cfg.streamsVod);
      var streamsSeries :- Compile(e, cfg.streamsSeries);
      Success(Regex(true, Some(group), Some(channel), Some(categoryLive), Some(categoryVod),
                    Some(categorySeries), Some(streamsLive), Some(streamsVod), Some(streamsSeries)))
  }

  /** Construction is all-or-nothing: with some pattern present it succeeds exactly
      when all eight compile. */
  lemma NewFilterAllOrNothing(e: Engine, cfg: RegexSettings)
    requires AnyPattern(cfg)
    ensures NewFilter(e, cfg).Success? <==> forall k :: e.compile(cfg.Get(k)).Some?
  {
    if NewFilter(e, cfg).Failure? {
      NewFilterFirstFailure(e, cfg);
    }
  }

  /** A failed construction carries the error of the first pattern, in compile order,
      that does not compile. */
  lemma NewFilterFirstFailure(e: Engine, cfg: RegexSettings)
    ensures NewFilter(e, cfg).Failure? ==>
      exists k :: FirstFailure(e, cfg, k) && NewFilter(e, cfg).error == CompileFailed(cfg.Get(k))
  {
    if !AnyPattern(cfg) {
    } else if e.compile(cfg.m3uGroup).None? {
      assert FirstFailure(e, cfg, M3uGroup);
    } else if e.compile(cfg.m3uChannel).None? {
      assert FirstFailure(e, cfg, M3uChannel);
    } else if e.compile(cfg.categoryLive).None? {
      assert FirstFailure(e, cfg, CategoryLive);
    } else if e.compile(cfg.categoryVod).None? {
      assert FirstFailure(e, cfg, CategoryVod);
    } else if e.compile(cfg.categorySeries).None? {
      assert FirstFailure(e, cfg, CategorySeries);
    } else if e.compile(cfg.streamsLive).None? {
      assert FirstFailure(e, cfg, StreamsLive);
    } else if e.compile(cfg.streamsVod).None? {
      assert FirstFailure(e, cfg, StreamsVod);
    } else if e.compile(cfg.streamsSeries).None? {
      assert FirstFailure(e, cfg, StreamsSeries);
    } else {
      assert NewFilter(e, cfg).Success?;
    }
  }

  /** An empty setting does not switch its kind off: once filtering is on, the empty
      pattern is compiled like any other and keeps every name. */
  lemma EmptySettingMatchesAll(e: Engine, cfg: RegexSettings, k: Kind)
    requires EmptyMatchesAll(e)
    requires AnyPattern(cfg) && cfg.Get(k) == ""
    requires forall k' :: e.compile(cfg.Get(k')).Some?
    ensures NewFilter(e, cfg).Success? && NewFilter(e, cfg).value.filterOn
    ensures NewFilter(e, cfg).value.Matcher(k).Some?
    ensures forall name :: NewFilter(e, cfg).value.Matcher(k).value.MatchString(name)
  {
    NewFilterAllOrNothing(e, cfg);
  }
}
