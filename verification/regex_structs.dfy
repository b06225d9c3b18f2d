/** The two records the filter is built from: the raw pattern strings read from
    configuration, and the compiled filter holding one matcher per kind. */
module RegexStructs {
  import opened Results

  /** The eight configurable filter kinds, one per settings field. */
  datatype Kind =
    | M3uGroup | M3uChannel
    | CategoryLive | CategoryVod | CategorySeries
    | StreamsLive | StreamsVod | StreamsSeries

  /** The order in which the constructor compiles the eight patterns. */
  const CompileOrder: seq<Kind> :=
    [M3uGroup, M3uChannel, CategoryLive, CategoryVod, CategorySeries,
     StreamsLive, StreamsVod, StreamsSeries]

  /** Position of a kind in `CompileOrder`. */
  function Rank(k: Kind): (i: nat)
    ensures i < |CompileOrder| && CompileOrder[i] == k
  {
    match k
    case M3uGroup => 0
    case M3uChannel => 1
    case CategoryLive => 2
    case CategoryVod => 3
    case CategorySeries => 4
    case StreamsLive => 5
    case StreamsVod => 6
    case StreamsSeries => 7
  }

  /** The raw pattern strings; the empty string means "no pattern for this kind". */
  datatype RegexSettings = RegexSettings(
    m3uGroup: string,
    m3uChannel: string,
    categoryLive: string,
    categoryVod: string,
    categorySeries: string,
    streamsLive: string,
    streamsVod: string,
    streamsSeries: string)
  {
    /** The setting field of kind `k`. */
    function Get(k: Kind): string {
      match k
      case M3uGroup => m3uGroup
      case M3uChannel => m3uChannel
      case CategoryLive => categoryLive
      case CategoryVod => categoryVod
      case CategorySeries => categorySeries
      case StreamsLive => streamsLive
      case StreamsVod => streamsVod
      case StreamsSeries => streamsSeries
    }
  }

  /** A compiled regular expression: its source text and the total test it performs
      on a string (Go's `MatchString`, an unanchored search). */
  datatype Regexp = Regexp(expr: string, accepts: string -> bool) {
    predicate MatchString(s: string) {
      accepts(s)
    }
  }

  /** The regular-expression engine, left abstract: `compile(p)` is `None` when `p`
      is not a valid pattern, and otherwise the matcher `p` denotes. */
  datatype Engine = Engine(compile: string -> Option<string -> bool>)

  /** The one fact about the engine the model relies on: the empty pattern is valid
      and matches every string, as with Go's `regexp` package. */
  ghost predicate EmptyMatchesAll(e: Engine) {
    && e.compile("").Some?
    && forall name :: e.compile("").value(name)
  }

  /** The compiled filter. `filterOn` gates all filtering; each matcher is `None`
      (Go's nil) until the constructor fills it. */
  datatype Regex = Regex(
    filterOn: bool,
    m3uGroup: Option<Regexp>,
    m3uChannel: Option<Regexp>,
    categoryLive: Option<Regexp>,
    categoryVod: Option<Regexp>,
    categorySeries: Option<Regexp>,
    streamsLive: Option<Regexp>,
    streamsVod: Option<Regexp>,
    streamsSeries: Option<Regexp>)
  {
    /** The matcher field of kind `k`. */
    function Matcher(k: Kind): Option<Regexp> {
      match k
      case M3uGroup => m3uGroup
      case M3uChannel => m3uChannel
      case CategoryLive => categoryLive
      case CategoryVod => categoryVod
      case CategorySeries => categorySeries
      case StreamsLive => streamsLive
      case StreamsVod => streamsVod
      case StreamsSeries => streamsSeries
    }
  }

  /** The zero value of `Regex`: filtering off and every matcher nil. */
  const Inactive: Regex := Regex(false, None, None, None, None, None, None, None, None)
}
