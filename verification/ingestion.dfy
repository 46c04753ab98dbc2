/** Ingestion in `QuakeDataset`: `update(feed)` and `addRecordFor(line)`,
    turning the feed's CSV text into quakes. */
module Ingestion {
  import opened Wrappers
  import opened Text
  import opened Quakes

  const MinFieldCount: nat := 5
  const TimeField: nat := 0
  const LatField: nat := 1
  const LonField: nat := 2
  const DepthField: nat := 3
  const MagField: nat := 4

  /** The library parsers the ingestion calls, supplied from outside:
      `Instant.parse` and `String.toDouble`, each returning None where
      Kotlin throws. */
  datatype Parsers = Parsers(instant: string -> Option<Instant>, number: string -> Option<real>)

  /** What can make `update` throw. */
  datatype UpdateError =
    | ReadFailed(reason: string)       // `feed.read()` failed
    | BadInstant(text: string)         // `Instant.parse` rejected a time field
    | BadNumber(text: string)          // `toDouble` rejected a numeric field
    | BadQuake(error: QuakeError)      // the `Quake` constructor rejected the values

  /** Every one of the five leading fields parses. */
  predicate AllParse(fields: seq<string>, p: Parsers)
    requires |fields| >= MinFieldCount
  {
    && p.instant(fields[TimeField]).Some?
    && p.number(fields[LatField]).Some?
    && p.number(fields[LonField]).Some?
    && p.number(fields[DepthField]).Some?
    && p.number(fields[MagField]).Some?
  }

  /** The quake the five leading fields describe: the feed's column order is
      time, latitude, longitude, depth, magnitude. */
  function Decode(fields: seq<string>, p: Parsers): Quake
    requires |fields| >= MinFieldCount
    requires AllParse(fields, p)
  {
    Quake(p.instant(fields[TimeField]).value,
          p.number(fields[LonField]).value,
          p.number(fields[LatField]).value,
          p.number(fields[DepthField]).value,
          p.number(fields[MagField]).value)
  }

  /** A data line that becomes a record: at least five fields, all of
      them parse, and the quake they describe is valid. */
  predicate Accepts(line: string, p: Parsers) {
    var fields := Split(line, ',');
    |fields| >= MinFieldCount && AllParse(fields, p) && Decode(fields, p).Valid()
  }

  /** The record an accepted line becomes. */
  function DecodeLine(line: string, p: Parsers): ValidQuake
    requires Accepts(line, p)
  {
    Decode(Split(line, ','), p)
  }

  function ParseInstant(p: Parsers, text: string): Result<Instant, UpdateError> {
    match p.instant(text)
    case Some(t) => Success(t)
    case None => Failure(BadInstant(text))
  }

  function ParseNumber(p: Parsers, text: string): Result<real, UpdateError> {
    match p.number(text)
    case Some(x) => Success(x)
    case None => Failure(BadNumber(text))
  }

  /** Numeric field `k` is the first that `toDouble` rejects, in the parse
      order latitude, longitude, depth, magnitude. */
  predicate FirstBadNumber(fields: seq<string>, p: Parsers, k: nat)
    requires |fields| >= MinFieldCount
  {
    && LatField <= k <= MagField
    && p.number(fields[k]).None?
    && forall j :: LatField <= j < k ==> p.number(fields[j]).Some?
  }

  /** `addRecordFor(line)`: the record a non-blank data line contributes.
      Success(None) is a line skipped for having fewer than five fields;
      a Failure is the exception that aborts the update. Fields are parsed
      in order time, latitude, longitude, depth, magnitude, and the
      constructor receives longitude before latitude. */
  function RecordFor(line: string, p: Parsers): (r: Result<Option<ValidQuake>, UpdateError>)
    ensures var fields := Split(line, ',');
      && (r == Success(None) <==> |fields| < MinFieldCount)
      && (r.Success? <==> |fields| < MinFieldCount || Accepts(line, p))
      && (r.Success? && r.value.Some? <==> Accepts(line, p))
      && (Accepts(line, p) ==> r == Success(Some(Decode(fields, p))))
      && (r.Failure? && r.error.BadInstant? <==>
            |fields| >= MinFieldCount && p.instant(fields[TimeField]).None?)
      && (r.Failure? ==> !r.error.ReadFailed?)
      && (r.Failure? && r.error.BadInstant? ==> r.error.text == fields[TimeField])
      && (r.Failure? && r.error.BadNumber? <==>
            |fields| >= MinFieldCount && p.instant(fields[TimeField]).Some? && !AllParse(fields, p))
      && (r.Failure? && r.error.BadNumber? ==>
            exists k: nat :: FirstBadNumber(fields, p, k) && r.error.text == fields[k])
      && (r.Failure? && r.error.BadQuake? <==>
            |fields| >= MinFieldCount && AllParse(fields, p) && !Decode(fields, p).Valid())
      && (r.Failure? && r.error.BadQuake? ==>
            var q := Decode(fields, p);
            NewQuake(q.time, q.longitude, q.latitude, q.depth, q.magnitude) == Failure(r.error.error))
  {
    var fields := Split(line, ',');
    if |fields| < MinFieldCount then Success(None)
    else
      var time :- ParseInstant(p, fields[TimeField]);
      var lat :- ParseNumber(p, fields[LatField]);
      var lon :- ParseNumber(p, fields[LonField]);
      var depth :- ParseNumber(p, fields[DepthField]);
      var mag :- ParseNumber(p, fields[MagField]);
      match NewQuake(time, lon, lat, depth, mag)
      case Success(q) => Success(Some(q))
      case Failure(e) => Failure(BadQuake(e))
  }

  /** Only the first five fields matter: lines that agree on them (and both
      have at least five) yield the same record or the same error. */
  lemma FieldsBeyondFifthIgnored(line1: string, line2: string, p: Parsers)
    requires |Split(line1, ',')| >= MinFieldCount && |Split(line2, ',')| >= MinFieldCount
    requires Split(line1, ',')[..MinFieldCount] == Split(line2, ',')[..MinFieldCount]
    ensures RecordFor(line1, p) == RecordFor(line2, p)
  {
    var f1, f2 := Split(line1, ','), Split(line2, ',');
    assert f1[TimeField] == f2[TimeField] && f1[LatField] == f2[LatField] && f1[LonField] == f2[LonField];
    assert f1[DepthField] == f2[DepthField] && f1[MagField] == f2[MagField];
  }

  /** A line built from five comma-free leading fields and any remainder
      splits back into those five fields first, whatever the remainder holds
      (quoted commas included). */
  lemma LeadingFieldsSplitOff(fields: seq<string>, rest: string)
    requires |fields| == MinFieldCount
    requires forall i :: 0 <= i < |fields| ==> ',' !in fields[i]
    ensures var split := Split(Join(fields + [rest], ','), ',');
      |split| > MinFieldCount && split[..MinFieldCount] == fields
  {
    SplitLeadingFields(fields, rest, ',');
  }

  /** The non-blank lines, in order (Kotlin's `filter { it.isNotBlank() }`). */
  function NonBlank(lines: seq<string>): (r: seq<string>)
    ensures |r| <= |lines|
    ensures forall l :: l in r <==> l in lines && !IsBlank(l)
  {
    if |lines| == 0 then []
    else
      var init := NonBlank(lines[..|lines| - 1]);
      var last := lines[|lines| - 1];
      assert lines == lines[..|lines| - 1] + [last];
      if IsBlank(last) then init else init + [last]
  }

  /** Lines none of which is blank all pass the filter. */
  lemma {:induction false} NonBlankKeepsAll(lines: seq<string>)
    requires forall i :: 0 <= i < |lines| ==> !IsBlank(lines[i])
    ensures NonBlank(lines) == lines
    decreases |lines|
  {
    if |lines| > 0 {
      var init := lines[..|lines| - 1];
      NonBlankKeepsAll(init);
      assert lines == init + [lines[|lines| - 1]];
    }
  }

  lemma {:induction false} NonBlankAppend(a: seq<string>, b: seq<string>)
    ensures NonBlank(a + b) == NonBlank(a) + NonBlank(b)
    decreases |b|
  {
    if |b| > 0 {
      var b' := b[..|b| - 1];
      assert (a + b)[..|a + b| - 1] == a + b';
      NonBlankAppend(a, b');
    } else {
      assert a + b == a;
    }
  }

  /** The lines `update` processes: all but the first (the header), blank
      ones dropped. */
  function DataLines(lines: seq<string>): (r: seq<string>)
    ensures forall i :: 0 <= i < |r| ==> !IsBlank(r[i])
  {
    if |lines| == 0 then [] else NonBlank(lines[1..])
  }

  /** The header is dropped whatever it says. */
  lemma HeaderIgnored(header1: string, header2: string, rest: seq<string>)
    ensures DataLines([header1] + rest) == DataLines([header2] + rest)
  {
    assert ([header1] + rest)[1..] == rest == ([header2] + rest)[1..];
  }

  /** A blank line anywhere after the header changes nothing: it yields
      neither a record nor an error. */
  lemma {:induction false} BlankLineIgnored(lines: seq<string>, i: nat, blank: string)
    requires 1 <= i <= |lines|
    requires IsBlank(blank)
    ensures DataLines(lines[..i] + [blank] + lines[i..]) == DataLines(lines)
  {
    var longer := lines[..i] + [blank] + lines[i..];
    assert longer[1..] == lines[1..i] + [blank] + lines[i..];
    assert lines[1..] == lines[1..i] + lines[i..];
    NonBlankAppend(lines[1..i] + [blank], lines[i..]);
    NonBlankAppend(lines[1..i], [blank]);
    assert NonBlank([blank]) == NonBlank([]) by {
      assert [blank][..0] == [];
    }
    NonBlankAppend(lines[1..i], lines[i..]);
  }

  /** The record a line contributes when it parses: none for a short line. */
  function Contribution(line: string, p: Parsers): seq<ValidQuake>
  {
    match RecordFor(line, p)
    case Success(Some(q)) => [q]
    case _ => []
  }

  /** The records the successfully parsed lines contribute, in file order:
      what the dataset holds after those lines have been processed. */
  function Accepted(lines: seq<string>, p: Parsers): (r: seq<ValidQuake>)
    ensures |r| <= |lines|
  {
    if |lines| == 0 then []
    else Accepted(lines[..|lines| - 1], p) + Contribution(lines[|lines| - 1], p)
  }

  lemma {:induction false} AcceptedAppend(a: seq<string>, b: seq<string>, p: Parsers)
    ensures Accepted(a + b, p) == Accepted(a, p) + Accepted(b, p)
    decreases |b|
  {
    if |b| > 0 {
      var b' := b[..|b| - 1];
      assert (a + b)[..|a + b| - 1] == a + b';
      assert (a + b)[|a + b| - 1] == b[|b| - 1];
      AcceptedAppend(a, b', p);
    } else {
      assert a + b == a;
    }
  }

  /** Position of the first line whose record cannot be built, or the
      number of lines when every line is skipped or accepted. */
  function FirstFailure(lines: seq<string>, p: Parsers): (k: nat)
    ensures k <= |lines|
    ensures forall j :: 0 <= j < k ==> RecordFor(lines[j], p).Success?
    ensures k < |lines| ==> RecordFor(lines[k], p).Failure?
  {
    if |lines| == 0 then 0
    else if RecordFor(lines[0], p).Failure? then 0
    else 1 + FirstFailure(lines[1..], p)
  }

  /** What ingestion leaves behind: the records added, and the exception
      that stopped it, if any. */
  datatype Ingested = Ingested(records: seq<ValidQuake>, failure: Option<UpdateError>)

  /** The `forEach { addRecordFor(it) }` loop over the data lines: records
      are added one by one, and the first exception ends the loop with the
      records added so far still in place. */
  function Ingest(lines: seq<string>, p: Parsers): (r: Ingested)
    ensures var k := FirstFailure(lines, p);
      && r.records == Accepted(lines[..k], p)
      && (r.failure.None? <==> k == |lines|)
      && (r.failure.Some? ==> k < |lines| && RecordFor(lines[k], p) == Failure(r.failure.value))
  {
    if |lines| == 0 then Ingested([], None)
    else
      match RecordFor(lines[0], p)
      case Failure(e) =>
        assert lines[..0] == [];
        Ingested([], Some(e))
      case Success(_) =>
        var rest := Ingest(lines[1..], p);
        AcceptedFirst(lines, FirstFailure(lines, p), p);
        Ingested(Contribution(lines[0], p) + rest.records, rest.failure)
  }

  /** Splitting off the first line: its contribution comes first. */
  lemma AcceptedFirst(lines: seq<string>, k: nat, p: Parsers)
    requires 1 <= k <= |lines|
    ensures Accepted(lines[..k], p) == Contribution(lines[0], p) + Accepted(lines[1..][..k - 1], p)
  {
    assert lines[..k] == [lines[0]] + lines[1..][..k - 1];
    AcceptedAppend([lines[0]], lines[1..][..k - 1], p);
    assert [lines[0]][..0] == [];
  }

  /** The dataset's contents after an update, and whether `update` returned
      normally or threw. */
  datatype Updated = Updated(quakes: seq<ValidQuake>, outcome: Outcome<UpdateError>)

  /** `update(feed)` given the outcome of `feed.read()`: a failed read throws
      before `clear()` and leaves the contents untouched; otherwise the old
      contents are cleared and the data lines of the text are ingested. */
  function Update(before: seq<ValidQuake>, text: Result<string, string>, p: Parsers): (r: Updated)
    ensures text.Failure? ==> r == Updated(before, Fail(ReadFailed(text.error)))
    ensures text.Success? ==>
      var data := DataLines(Lines(text.value));
      var k := FirstFailure(data, p);
      && r.quakes == Accepted(data[..k], p)
      && (r.outcome == Pass <==> k == |data|)
      && (r.outcome.Fail? ==> k < |data| && RecordFor(data[k], p) == Failure(r.outcome.error))
  {
    match text
    case Failure(reason) => Updated(before, Fail(ReadFailed(reason)))
    case Success(t) =>
      var ingested := Ingest(DataLines(Lines(t)), p);
      Updated(ingested.records, if ingested.failure.None? then Pass else Fail(ingested.failure.value))
  }

  /** Processing one more line appends that line's contribution. */
  lemma AcceptedStep(lines: seq<string>, i: nat, p: Parsers)
    requires i < |lines|
    ensures Accepted(lines[..i + 1], p) == Accepted(lines[..i], p) + Contribution(lines[i], p)
  {
    assert lines[..i + 1][..i] == lines[..i];
  }

  /** A line that does not throw is not the first failure. */
  lemma FirstFailureBeyond(lines: seq<string>, i: nat, p: Parsers)
    requires i < |lines| && i <= FirstFailure(lines, p)
    requires RecordFor(lines[i], p).Success?
    ensures i + 1 <= FirstFailure(lines, p)
  {
  }

  /** Ingestion as the update loop sees it: stopped by the exception of data line
      `i` after the lines before it were processed ... */
  lemma IngestStopsAt(data: seq<string>, i: nat, p: Parsers)
    requires i < |data| && i <= FirstFailure(data, p) && RecordFor(data[i], p).Failure?
    ensures FirstFailure(data, p) == i
    ensures Ingest(data, p) == Ingested(Accepted(data[..i], p), Some(RecordFor(data[i], p).error))
  {
  }

  /** ... or finishing after every data line was processed. */
  lemma IngestCompletes(data: seq<string>, p: Parsers)
    requires FirstFailure(data, p) == |data|
    ensures Ingest(data, p) == Ingested(Accepted(data, p), None)
  {
    assert data[..|data|] == data;
  }

  /** Nothing from before a successful read survives the update. */
  lemma UpdateReplacesContents(before1: seq<ValidQuake>, before2: seq<ValidQuake>, text: Result<string, string>, p: Parsers)
    requires text.Success?
    ensures Update(before1, text, p).quakes == Update(before2, text, p).quakes
  {
  }

  /** When every data line is a well-formed record, the dataset ends up with
      one quake per data line, in file order, each decoded from its line. */
  lemma {:induction false} AcceptedAllWellFormed(lines: seq<string>, p: Parsers)
    requires forall i :: 0 <= i < |lines| ==> Accepts(lines[i], p)
    ensures |Accepted(lines, p)| == |lines|
    ensures forall i :: 0 <= i < |lines| ==> Accepted(lines, p)[i] == DecodeLine(lines[i], p)
    decreases |lines|
  {
    if |lines| > 0 {
      var init := lines[..|lines| - 1];
      assert forall i :: 0 <= i < |init| ==> init[i] == lines[i];
      AcceptedAllWellFormed(init, p);
    }
  }

  /** Lines that are all accepted are ingested in full: one record per line,
      in order, and no exception. */
  lemma IngestAllWellFormed(lines: seq<string>, records: seq<ValidQuake>, p: Parsers)
    requires |records| == |lines|
    requires forall i :: 0 <= i < |lines| ==> Accepts(lines[i], p) && DecodeLine(lines[i], p) == records[i]
    ensures Ingest(lines, p) == Ingested(records, None)
  {
    AcceptedAllWellFormed(lines, p);
    assert FirstFailure(lines, p) == |lines|;
    assert lines[..|lines|] == lines;
  }

  lemma UpdateAllWellFormed(before: seq<ValidQuake>, text: string, p: Parsers)
    requires forall line :: line in DataLines(Lines(text)) ==> Accepts(line, p)
    ensures var data := DataLines(Lines(text));
      var r := Update(before, Success(text), p);
      && r.outcome == Pass
      && |r.quakes| == |data|
      && forall i :: 0 <= i < |data| ==> r.quakes[i] == DecodeLine(data[i], p)
  {
    var data := DataLines(Lines(text));
    assert data[..|data|] == data;
    assert forall i :: 0 <= i < |data| ==> data[i] in data;
    AcceptedAllWellFormed(data, p);
  }

  /** A feed holding only its header line empties the dataset. */
  lemma UpdateHeaderOnly(before: seq<ValidQuake>, header: string, p: Parsers)
    requires HasNoLineBreak(header)
    ensures Update(before, Success(header), p) == Updated([], Pass)
    ensures Update(before, Success(header + "\n"), p) == Updated([], Pass)
  {
    LinesOfJoinLines([header]);
    assert JoinLines([header]) == header + "\n";
    assert Lines(header + "\n") == [header, ""];
    assert DataLines([header, ""]) == NonBlank([""]);
    assert NonBlank([""]) == [] by {
      assert [""][..0] == [];
      assert IsBlank("");
    }
    LinesOfJoinLines([]);
    assert Lines(header) == [header] by {
      assert Lines(JoinLines([header])) == [header, ""];
      assert forall i :: 0 <= i < |header| ==> header[i] != '\r';
      assert Lines(header) == [header] by {
        Text.SplitWithoutDelimiter(header, '\n');
        Text.LinesWithoutCarriageReturn(header);
      }
    }
  }
}
