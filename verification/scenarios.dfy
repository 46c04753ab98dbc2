/** The fixtures of the library's own test suite, stated as lemmas: the
    five-record dummy feed, what ingesting it yields, and the aggregates the
    tests expect of the result and of an empty dataset. */
module Scenarios {
  import opened Wrappers
  import opened Text
  import opened Quakes
  import opened Ingestion
  import opened Queries

  /** The CSV header of the dummy feed: dropped on ingestion whatever it says. */
  const Header: string :=
    "time,latitude,longitude,depth,mag,magType,nst,gap,dmin,rms,net,id,updated,place,type,"
    + "horizontalError,depthError,magError,magNst,status,locationSource,magSource"

  /** The five leading fields of each data line, as they appear in the feed. */
  const FeedLeading: seq<seq<string>> := [
    ["2024-06-24T13:36:06.753Z", "-21.9489", "-179.5316", "588.529", "5.1"],
    ["2024-06-24T09:55:02.164Z", "-7.093", "129.9983", "103.228", "5.3"],
    ["2024-06-24T08:03:38.359Z", "-14.6086", "167.2485", "156.689", "6.3"],
    ["2024-06-24T05:36:08.316Z", "40.9706", "84.2612", "10", "4.6"],
    ["2024-06-24T05:04:35.566Z", "12.3058", "125.46", "30.312", "4.8"]
  ]

  /** What follows the magnitude on each line; some of it holds quoted commas. */
  const Rest1: string :=
    "mb,93,49,4.76,0.74,us,us7000muc2,2024-06-24T14:01:12.040Z,\"Fiji region\","
    + "earthquake,10.66,6.404,0.024,559,reviewed,us,us"
  const Rest2: string :=
    "mww,92,28,2.555,1.36,us,us7000mua7,2024-06-24T10:45:55.291Z,\"Kepulauan Babar, Indonesia\","
    + "earthquake,7.37,6.582,0.103,9,reviewed,us,us"
  const Rest3: string :=
    "mww,74,32,6.549,0.86,us,us7000mu8s,2024-06-24T08:29:26.993Z,\"51 km NNE of Port-Olry, Vanuatu\","
    + "earthquake,8.95,6.191,0.033,90,reviewed,us,us"
  const Rest4: string :=
    "mb,86,87,4.261,0.81,us,us7000mu88,2024-06-24T07:06:52.040Z,\"138 km SE of Kuqa, China\","
    + "earthquake,8.06,1.908,0.063,75,reviewed,us,us"
  const Rest5: string :=
    "mb,52,72,11.715,0.8,us,us7000mu87,2024-06-24T05:48:45.040Z,\"7 km NE of Arteche, Philippines\","
    + "earthquake,11.02,5.597,0.066,71,reviewed,us,us"

  const FeedRests: seq<string> := [Rest1, Rest2, Rest3, Rest4, Rest5]

  /** The quakes the five data lines describe, in file order (time in
      milliseconds since the epoch). */
  const FeedQuakes: seq<ValidQuake> := [
    Quake(1719236166753, -179.5316, -21.9489, 588.529, 5.1),
    Quake(1719222902164, 129.9983, -7.093, 103.228, 5.3),
    Quake(1719216218359, 167.2485, -14.6086, 156.689, 6.3),
    Quake(1719207368316, 84.2612, 40.9706, 10.0, 4.6),
    Quake(1719205475566, 125.46, 12.3058, 30.312, 4.8)
  ]

  /** A data line: the five leading fields, then the remainder. */
  function Line(leading: seq<string>, rest: string): string
    requires |leading| == MinFieldCount
  {
    Join(leading + [rest], ',')
  }

  /** The five leading fields of record `i` are comma-free and start with
      the non-blank time. */
  predicate WellFormedLeading(leading: seq<string>) {
    && |leading| == MinFieldCount
    && (forall j :: 0 <= j < |leading| ==> ',' !in leading[j])
    && !IsBlank(leading[TimeField])
  }

  lemma FeedLeadingWellFormed(i: nat)
    requires i < |FeedLeading|
    ensures WellFormedLeading(FeedLeading[i])
  {
    if i == 0 {
      LeadingWellFormed("2024-06-24T13:36:06.753Z", "-21.9489", "-179.5316", "588.529", "5.1");
    } else if i == 1 {
      LeadingWellFormed("2024-06-24T09:55:02.164Z", "-7.093", "129.9983", "103.228", "5.3");
    } else if i == 2 {
      LeadingWellFormed("2024-06-24T08:03:38.359Z", "-14.6086", "167.2485", "156.689", "6.3");
    } else if i == 3 {
      LeadingWellFormed("2024-06-24T05:36:08.316Z", "40.9706", "84.2612", "10", "4.6");
    } else {
      LeadingWellFormed("2024-06-24T05:04:35.566Z", "12.3058", "125.46", "30.312", "4.8");
    }
  }

  /** Five comma-free fields whose first starts with a digit are well formed. */
  lemma LeadingWellFormed(t: string, a: string, b: string, c: string, d: string)
    requires ',' !in t && ',' !in a && ',' !in b && ',' !in c && ',' !in d
    requires |t| > 0 && '0' <= t[0] <= '9'
    ensures WellFormedLeading([t, a, b, c, d])
  {
    assert !IsWhitespace(t[0]);
  }

  /** A feed of the dummy feed's shape: some header line, then the five
      record lines, each followed by some remainder. */
  function FeedLinesWith(header: string, rests: seq<string>): (lines: seq<string>)
    requires |rests| == |FeedLeading|
    ensures |lines| == |FeedLeading| + 1
    ensures lines[0] == header
    ensures forall i :: 0 <= i < |FeedLeading| ==> lines[i + 1] == Line(FeedLeading[i], rests[i])
  {
    [header] + seq(|FeedLeading|, i requires 0 <= i < |FeedLeading| => Line(FeedLeading[i], rests[i]))
  }

  /** The dummy feed's lines: the header and five data lines. */
  const FeedLines: seq<string> := FeedLinesWith(Header, FeedRests)

  /** The library parsers read the five leading fields as quake `q`'s
      time, latitude, longitude, depth and magnitude. */
  predicate ReadsAs(p: Parsers, leading: seq<string>, q: Quake)
    requires |leading| == MinFieldCount
  {
    && p.instant(leading[TimeField]) == Some(q.time)
    && p.number(leading[LatField]) == Some(q.latitude)
    && p.number(leading[LonField]) == Some(q.longitude)
    && p.number(leading[DepthField]) == Some(q.depth)
    && p.number(leading[MagField]) == Some(q.magnitude)
  }

  /** The library parsers read the leading fields of the dummy feed as
      their face values. */
  predicate ReadsFeedFields(p: Parsers) {
    forall i :: 0 <= i < |FeedQuakes| ==>
      |FeedLeading[i]| == MinFieldCount && ReadsAs(p, FeedLeading[i], FeedQuakes[i])
  }

  /** A data line whose leading fields parse to a valid quake's values
      becomes exactly that quake: latitude from field 1, longitude from
      field 2, passed to the constructor longitude first. */
  lemma LineBecomes(leading: seq<string>, rest: string, q: ValidQuake, p: Parsers)
    requires WellFormedLeading(leading)
    requires ReadsAs(p, leading, q)
    ensures RecordFor(Line(leading, rest), p) == Success(Some(q))
    ensures Accepts(Line(leading, rest), p) && DecodeLine(Line(leading, rest), p) == q
    ensures !IsBlank(Line(leading, rest))
  {
    var line := Line(leading, rest);
    LeadingFieldsSplitOff(leading, rest);
    var fields := Split(line, ',');
    assert fields[..MinFieldCount] == leading;
    assert fields[TimeField] == leading[TimeField] && fields[LatField] == leading[LatField];
    assert fields[LonField] == leading[LonField] && fields[DepthField] == leading[DepthField];
    assert fields[MagField] == leading[MagField];
    assert Decode(fields, p) == q;
    var k :| 0 <= k < |leading[0]| && !IsWhitespace(leading[0][k]);
    assert line == leading[0] + [','] + Join((leading + [rest])[1..], ',');
    assert line[k] == leading[0][k];
  }

  /** Record 0 of the dummy feed has longitude -179.5316 and latitude
      -21.9489, though the line lists the latitude first. */
  lemma FirstRecordFieldMapping(p: Parsers)
    requires ReadsFeedFields(p)
    ensures RecordFor(FeedLines[1], p) == Success(Some(FeedQuakes[0]))
    ensures FeedQuakes[0].longitude == -179.5316 && FeedQuakes[0].latitude == -21.9489
    ensures FeedQuakes[0].magnitude == 5.1 && FeedQuakes[0].depth == 588.529
  {
    FeedLeadingWellFormed(0);
    LineBecomes(FeedLeading[0], FeedRests[0], FeedQuakes[0], p);
  }

  /** The data lines of a feed of the dummy feed's shape are its five record
      lines, each accepted as the matching quake, whatever the header and the
      remainders hold. */
  lemma FeedDataLines(p: Parsers, header: string, rests: seq<string>)
    requires ReadsFeedFields(p)
    requires |rests| == |FeedLeading|
    ensures var data := DataLines(FeedLinesWith(header, rests));
      && |data| == |FeedQuakes|
      && forall i :: 0 <= i < |data| ==> Accepts(data[i], p) && DecodeLine(data[i], p) == FeedQuakes[i]
  {
    var data := FeedLinesWith(header, rests)[1..];
    forall i | 0 <= i < |data|
      ensures !IsBlank(data[i]) && Accepts(data[i], p) && DecodeLine(data[i], p) == FeedQuakes[i]
    {
      FeedLeadingWellFormed(i);
      LineBecomes(FeedLeading[i], rests[i], FeedQuakes[i], p);
    }
    NonBlankKeepsAll(data);
  }

  /** Ingesting such a feed adds all five records, in file order, and throws
      nothing. */
  lemma FeedIngestion(p: Parsers, header: string, rests: seq<string>)
    requires ReadsFeedFields(p)
    requires |rests| == |FeedLeading|
    ensures Ingest(DataLines(FeedLinesWith(header, rests)), p) == Ingested(FeedQuakes, None)
  {
    FeedDataLines(p, header, rests);
    IngestAllWellFormed(DataLines(FeedLinesWith(header, rests)), FeedQuakes, p);
  }

  /** In particular the dummy feed of the tests yields its five records. */
  lemma DummyFeedIngestion(p: Parsers)
    requires ReadsFeedFields(p)
    ensures Ingest(DataLines(FeedLines), p) == Ingested(FeedQuakes, None)
  {
    FeedIngestion(p, Header, FeedRests);
  }

  /** The depth extremes the tests expect of the five records: record 3 is
      the shallowest and record 0 the deepest. */
  lemma FeedDepthExtremes()
    ensures Size(FeedQuakes) == 5 && !IsEmpty(FeedQuakes)
    ensures ShallowestQuake(FeedQuakes) == Some(FeedQuakes[3])
    ensures DeepestQuake(FeedQuakes) == Some(FeedQuakes[0])
  {
    FeedShallowest();
    FeedDeepest();
  }

  lemma FeedShallowest()
    ensures ShallowestQuake(FeedQuakes) == Some(FeedQuakes[3])
  {
    UniqueKey(ShallowestQuake(FeedQuakes), FeedQuakes, 3, (q: Quake) => q.depth);
  }

  lemma FeedDeepest()
    ensures DeepestQuake(FeedQuakes) == Some(FeedQuakes[0])
  {
    UniqueKey(DeepestQuake(FeedQuakes), FeedQuakes, 0, (q: Quake) => q.depth);
  }

  /** The magnitude extremes the tests expect of the five records: record 3
      is the weakest and record 2 the strongest. */
  lemma FeedMagnitudeExtremes()
    ensures WeakestQuake(FeedQuakes) == Some(FeedQuakes[3])
    ensures StrongestQuake(FeedQuakes) == Some(FeedQuakes[2])
  {
    FeedWeakest();
    FeedStrongest();
  }

  lemma FeedWeakest()
    ensures WeakestQuake(FeedQuakes) == Some(FeedQuakes[3])
  {
    UniqueKey(WeakestQuake(FeedQuakes), FeedQuakes, 3, (q: Quake) => q.magnitude);
  }

  lemma FeedStrongest()
    ensures StrongestQuake(FeedQuakes) == Some(FeedQuakes[2])
  {
    UniqueKey(StrongestQuake(FeedQuakes), FeedQuakes, 2, (q: Quake) => q.magnitude);
  }

  /** The means the tests expect of the five records: 177.7516 km and 5.22. */
  lemma FeedMeans()
    ensures MeanDepth(FeedQuakes) == Some(177.7516)
    ensures MeanMagnitude(FeedQuakes) == Some(5.22)
  {
    FeedMeanDepth();
    FeedMeanMagnitude();
  }

  lemma FeedMeanDepth()
    ensures MeanDepth(FeedQuakes) == Some(177.7516)
  {
    FeedDepths();
    MeanOfFive(588.529, 103.228, 156.689, 10.0, 30.312, 177.7516);
  }

  lemma FeedDepths()
    ensures Depths(FeedQuakes) == [588.529, 103.228, 156.689, 10.0, 30.312]
  {
  }

  lemma FeedMeanMagnitude()
    ensures MeanMagnitude(FeedQuakes) == Some(5.22)
  {
    FeedMagnitudes();
    MeanOfFive(5.1, 5.3, 6.3, 4.6, 4.8, 5.22);
  }

  lemma FeedMagnitudes()
    ensures Magnitudes(FeedQuakes) == [5.1, 5.3, 6.3, 4.6, 4.8]
  {
  }

  /** Five values summing to five times `m` have mean `m`. */
  lemma MeanOfFive(a: real, b: real, c: real, d: real, e: real, m: real)
    requires a + b + c + d + e == 5.0 * m
    ensures Stats.Mean([a, b, c, d, e]) == m
  {
    SumOfFive(a, b, c, d, e);
  }

  /** A record of `qs` with the same key as record `k` is record `k` when
      no other record shares that key. */
  lemma UniqueKey(r: Option<ValidQuake>, qs: seq<ValidQuake>, k: nat, key: Quake -> real)
    requires k < |qs| && r.Some? && r.value in qs
    requires forall j :: 0 <= j < |qs| && j != k ==> key(qs[j]) != key(qs[k])
    requires key(r.value) == key(qs[k])
    ensures r == Some(qs[k])
  {
    var j :| 0 <= j < |qs| && qs[j] == r.value;
  }

  lemma SumOfFive(a: real, b: real, c: real, d: real, e: real)
    ensures Stats.Sum([a, b, c, d, e]) == a + b + c + d + e
  {
    assert [a][..0] == [];
    assert Stats.Sum([a]) == a;
    assert [a, b][..1] == [a];
    assert Stats.Sum([a, b]) == a + b;
    assert [a, b, c][..2] == [a, b];
    assert Stats.Sum([a, b, c]) == a + b + c;
    assert [a, b, c, d][..3] == [a, b, c];
    assert Stats.Sum([a, b, c, d]) == a + b + c + d;
    assert [a, b, c, d, e][..4] == [a, b, c, d];
  }

  /** An empty dataset: size 0, no quake at index 0, and every aggregate null. */
  lemma EmptyDataset()
    ensures Size([]) == 0 && IsEmpty([])
    ensures Get([], 0) == Failure(IndexOutOfBounds(0, 0))
    ensures ShallowestQuake([]).None? && DeepestQuake([]).None?
    ensures WeakestQuake([]).None? && StrongestQuake([]).None?
    ensures MeanDepth([]).None? && MeanMagnitude([]).None?
  {
  }
}
