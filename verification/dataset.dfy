/** The `QuakeDataset` object itself: a mutable list of quakes that
    `update` clears and refills in place. Its queries and renderers are the
    functions of the Queries and Rendering modules applied to `quakes`. */
module QuakeDatasets {
  import opened Wrappers
  import opened Text
  import opened Quakes
  import opened Feeds
  import opened Ingestion

  class QuakeDataset {
    var quakes: seq<ValidQuake>

    constructor()
      ensures quakes == []
    {
      quakes := [];
    }

    /** `update(feed)`: read first, then clear, then add a record for each
        data line until the lines run out or one of them throws. */
    method Update(feed: ValidFeed, fetch: string -> Result<string, string>, p: Parsers)
      returns (outcome: Outcome<UpdateError>)
      modifies this
      ensures Updated(quakes, outcome) == Ingestion.Update(old(quakes), Read(feed, fetch), p)
    {
      var text := Read(feed, fetch);
      if text.Failure? {
        return Fail(ReadFailed(text.error));
      }
      quakes := [];
      var data := DataLines(Lines(text.value));
      ghost var k := FirstFailure(data, p);
      var i := 0;
      while i < |data|
        invariant i <= k
        invariant quakes == Accepted(data[..i], p)
      {
        AcceptedStep(data, i, p);
        var record := RecordFor(data[i], p);
        if record.Failure? {
          IngestStopsAt(data, i, p);
          return Fail(record.error);
        }
        FirstFailureBeyond(data, i, p);
        if record.value.Some? {
          quakes := quakes + [record.value.value];
        }
        i := i + 1;
      }
      assert i == |data| == k;
      assert data[..i] == data;
      IngestCompletes(data, p);
      return Pass;
    }
  }
}
