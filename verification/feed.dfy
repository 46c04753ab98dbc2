/** `QuakeFeed`: a USGS summary feed selected by severity level and time
    period, both drawn from closed vocabularies checked at construction. */
module Feeds {
  import opened Wrappers
  import Text

  /** Severity levels for which USGS publishes a summary feed. */
  const ValidLevels: set<string> := {"all", "1.0", "2.5", "4.5", "significant"}

  /** Time periods for which USGS publishes a summary feed. */
  const ValidPeriods: set<string> := {"hour", "day", "week", "month"}

  const SourceScheme: string := "https://"
  const SourcePrefix: string := SourceScheme + "earthquake.usgs.gov/earthquakes/feed/v1.0/summary/"
  const SourceSuffix: string := ".csv"

  datatype QuakeFeed = QuakeFeed(level: string, period: string)
  {
    predicate Valid() {
      level in ValidLevels && period in ValidPeriods
    }
  }

  /** The feeds the constructor can produce: `init` rejects every other. */
  type ValidFeed = f: QuakeFeed | f.Valid() witness QuakeFeed("all", "hour")

  /** The `IllegalArgumentException` thrown by a failed `require` in `init`. */
  datatype FeedError = InvalidLevel | InvalidPeriod
  {
    /** The message names the allowed set as Kotlin prints a `setOf(...)`. */
    function Message(): string {
      match this
      case InvalidLevel => "Invalid level: must be one of [all, 1.0, 2.5, 4.5, significant]"
      case InvalidPeriod => "Invalid period: must be one of [hour, day, week, month]"
    }
  }

  /** The constructor `QuakeFeed(level, period)`: the level is checked before
      the period, and an accepted feed keeps both strings as given. */
  function NewFeed(level: string, period: string): (r: Result<ValidFeed, FeedError>)
    ensures r.Success? <==> level in ValidLevels && period in ValidPeriods
    ensures r.Success? ==> r.value.level == level && r.value.period == period
    ensures r == Failure(InvalidLevel) <==> level !in ValidLevels
    ensures r == Failure(InvalidPeriod) <==> level in ValidLevels && period !in ValidPeriods
  {
    if level !in ValidLevels then Failure(InvalidLevel)
    else if period !in ValidPeriods then Failure(InvalidPeriod)
    else Success(QuakeFeed(level, period))
  }

  /** The inputs the library's tests reject, and the feed they accept. */
  lemma NewFeedExamples()
    ensures NewFeed("4.5", "week") == Success(QuakeFeed("4.5", "week"))
    ensures NewFeed("", "week") == Failure(InvalidLevel)
    ensures NewFeed("4.6", "week") == Failure(InvalidLevel)
    ensures NewFeed("4.5", "") == Failure(InvalidPeriod)
    ensures NewFeed("4.5", "year") == Failure(InvalidPeriod)
    ensures NewFeed("4.6", "year") == Failure(InvalidLevel)
  {
  }

  /** The feed URL (`source`), as a string. */
  function Source(feed: ValidFeed): (url: string)
    ensures |url| >= |SourcePrefix| + |SourceSuffix|
    ensures url[..|SourcePrefix|] == SourcePrefix
    ensures url[|url| - |SourceSuffix|..] == SourceSuffix
  {
    SourcePrefix + feed.level + "_" + feed.period + SourceSuffix
  }

  /** Recovers the feed from a summary-feed URL: the text between the fixed
      prefix and ".csv" must be exactly two parts separated by one "_". */
  function ParseSource(url: string): Option<QuakeFeed>
  {
    if |url| >= |SourcePrefix| + |SourceSuffix|
       && url[..|SourcePrefix|] == SourcePrefix
       && url[|url| - |SourceSuffix|..] == SourceSuffix
    then
      var parts := Text.Split(url[|SourcePrefix|..|url| - |SourceSuffix|], '_');
      if |parts| == 2 then Some(QuakeFeed(parts[0], parts[1])) else None
    else None
  }

  lemma NoUnderscoreInVocabulary()
    ensures forall l :: l in ValidLevels ==> '_' !in l
    ensures forall p :: p in ValidPeriods ==> '_' !in p
  {
    assert '_' !in "significant";
    assert '_' !in "month";
  }

  /** The URL of a valid feed determines the feed: parsing it back yields
      the level and period it was built from. */
  lemma {:induction false} SourceRoundTrip(feed: ValidFeed)
    ensures ParseSource(Source(feed)) == Some(feed)
  {
    var url := Source(feed);
    var body := feed.level + "_" + feed.period;
    assert url == SourcePrefix + body + SourceSuffix;
    assert url[|SourcePrefix|..|url| - |SourceSuffix|] == body;
    NoUnderscoreInVocabulary();
    Text.SplitJoin([feed.level, feed.period], '_');
    assert Text.Join([feed.level, feed.period], '_') == body;
  }

  /** Feeds with the same URL have the same level and period (they may
      still be distinct objects, as `QuakeFeed` is not a data class). */
  lemma SourceInjective(f: ValidFeed, g: ValidFeed)
    requires Source(f) == Source(g)
    ensures f == g
  {
    SourceRoundTrip(f);
    SourceRoundTrip(g);
  }

  /** `toString`: the level and period, quoted. */
  function ToString(feed: ValidFeed): (s: string)
  {
    "QuakeFeed(level=\"" + feed.level + "\", period=\"" + feed.period + "\")"
  }

  /** Recovers the feed from its string form: split at '"', the text must
      be exactly the fixed pieces around one level and one period. */
  function ParseToString(s: string): Option<QuakeFeed>
  {
    var parts := Text.Split(s, '"');
    if |parts| == 5 && parts[0] == "QuakeFeed(level=" && parts[2] == ", period=" && parts[4] == ")"
    then Some(QuakeFeed(parts[1], parts[3]))
    else None
  }

  lemma NoQuoteInVocabulary()
    ensures forall l :: l in ValidLevels ==> '"' !in l
    ensures forall p :: p in ValidPeriods ==> '"' !in p
  {
    assert '"' !in "significant";
    assert '"' !in "month";
  }

  /** The string form's text, for any level and period, is its pieces
      joined with '"'. */
  lemma QuotedFormIsJoin(level: string, period: string)
    ensures "QuakeFeed(level=\"" + level + "\", period=\"" + period + "\")"
         == Text.Join(["QuakeFeed(level=", level, ", period=", period, ")"], '"')
  {
    var fields := ["QuakeFeed(level=", level, ", period=", period, ")"];
    assert Text.Join(fields[4..], '"') == ")";
    assert Text.Join(fields[3..], '"') == period + "\")";
    assert Text.Join(fields[2..], '"') == ", period=\"" + period + "\")";
    assert Text.Join(fields[1..], '"') == level + "\", period=\"" + period + "\")";
  }

  /** The string form carries the feed's level and period: parsing it back
      yields the feed it was made from. */
  lemma {:induction false} ToStringRoundTrip(feed: ValidFeed)
    ensures ParseToString(ToString(feed)) == Some(feed)
  {
    var fields := ["QuakeFeed(level=", feed.level, ", period=", feed.period, ")"];
    NoQuoteInVocabulary();
    assert '"' !in fields[0] && '"' !in fields[2] && '"' !in fields[4];
    QuotedFormIsJoin(feed.level, feed.period);
    Text.SplitJoin(fields, '"');
  }

  /** The string form names the feed, never its URL: the two differ for
      every feed, including the ("4.5", "week") feed whose test expects the URL. */
  lemma ToStringIsNotSource(feed: ValidFeed)
    ensures ToString(feed) != Source(feed)
    ensures ToString(feed)[..16] == "QuakeFeed(level="
  {
    assert ToString(feed)[0] == 'Q';
    var url := Source(feed);
    assert url[..|SourcePrefix|] == SourcePrefix;
    assert SourcePrefix[0] == SourceScheme[0] == 'h';
    assert url[0] == url[..|SourcePrefix|][0];
  }

  /** `read()`: the text at the feed's URL, fetched by the caller-supplied
      transport (or its failure). */
  function Read(feed: ValidFeed, fetch: string -> Result<string, string>): Result<string, string>
  {
    fetch(Source(feed))
  }
}
