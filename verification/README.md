# kotlin-quakes core, modelled in Dafny

This project models the library module of *kotlin-quakes*, a small Kotlin
library that reads a USGS earthquake summary feed (CSV text), turns its lines
into validated `Quake` records, and answers questions about them. The three
classes of the library are modelled:

- **`Quake`**: an immutable event record. Construction accepts a longitude in
  [-180, 180], a latitude in [-90, 90], a depth of at least 0 and a magnitude
  above 0, and throws otherwise. The model is the `Quakes` module. A `Quake`
  datatype has a `Valid()` predicate, `ValidQuake` is the subset type of valid
  records, and `NewQuake` is the checking constructor.
- **`QuakeFeed`**: a feed selected by a severity level and a time period, each
  drawn from a closed vocabulary. It derives the feed URL and its string form,
  and reads the feed text. The model is the `Feeds` module. `ValidFeed` is the
  subset type of feeds the constructor can produce, and the URL, the string
  form, `read()` and `update` take only such feeds.
- **`QuakeDataset`**: the ordered list of quakes. It has four parts:
  - `update(feed)` reads the feed, clears the list and adds one record per
    accepted data line (`Ingestion`, plus the `QuakeDataset` class in
    `QuakeDatasets`);
  - the queries `size`, `isEmpty`, `get`, the four extremum getters and the two
    means (`Queries`);
  - the renderers `asTable` and `asHtmlTable` (`Rendering`);
  - the Kotlin collection operations these rely on. `Stats` holds
    `minByOrNull`, `maxByOrNull` and `average`. `Sorting` holds `sortedWith`,
    modelled as a stable insertion sort. `Text` holds `isBlank`, `split`,
    `lineSequence` and `appendLine`.

The `Scenarios` module states the fixtures of the library's test suite as
lemmas. The five-record dummy feed decodes to the expected quakes, with
latitude and longitude taken from fields 1 and 2 and passed to the
constructor in swapped order. Its extremes and means come out as the tests
expect (177.7516 km and 5.22). Every aggregate of an empty dataset is null.

Several library calls lie outside this model and become parameters:
- **Feed transport.** `read()` takes a `fetch: string -> Result<string, string>`
  function, applied to the feed URL.
- **Parsers.** `Instant.parse` and `String.toDouble` are the two fields of a
  `Parsers` value. Each returns `None` where Kotlin throws.
- **Row formatting.** The `String.format` calls that format one table row are
  the two fields of a `RowFormats` value.

Exceptions become `Result` values. Nullable results become `Option` values.
A `Unit` call that may throw returns an `Outcome`.

Where the code disagrees with its tests or its documentation, the model follows the code:
- **`toString`.** `QuakeFeed.toString` returns `QuakeFeed(level="…",
  period="…")`. A test expects the feed URL instead. `Feeds.ToStringIsNotSource`
  proves that the two strings differ for every feed, and `Feeds.ToStringRoundTrip`
  that the string form carries the level and period.
- **Failed updates.** The doc comment of `update` promises to replace the
  dataset's contents. In the code, a parse or validation failure on a data line
  ends the update part-way. The records added before that line stay in the
  dataset, and the earlier contents are already gone. `Ingestion.Update` states
  exactly this; it does not build the new list to one side and swap it in only
  on success.

## Model

| member | source | states |
|---|---|---|
| Quakes.NewQuake | lib/src/main/kotlin/org/efford/quakes/Quake.kt:16-28 | Construction succeeds exactly when all four range checks pass, and the record then carries the five arguments unchanged. Otherwise the error names the first failing check in declaration order: longitude, latitude, depth, magnitude. |
| Quakes.NewQuakeAcceptsExactlyValid | lib/src/main/kotlin/org/efford/quakes/Quake.kt:16-28 | The constructor accepts exactly the records satisfying the invariant, and returns a record equal (structurally, over all five fields) to the one described. |
| Quakes.NewQuakeBoundaries | lib/src/test/kotlin/org/efford/quakes/QuakeTest.kt:11-48 | ±180 longitude, ±90 latitude and depth 0 are accepted; ±180.5, ±90.5 and depth -1 are rejected; magnitudes 0 and -1 are both rejected, each with the matching error. |
| Feeds.NewFeed | lib/src/main/kotlin/org/efford/quakes/QuakeFeed.kt:18-35 | A feed is built exactly when the level is one of all/1.0/2.5/4.5/significant and the period one of hour/day/week/month. It keeps both strings as given. When both are invalid the level error wins. |
| Feeds.NewFeedExamples | lib/src/test/kotlin/org/efford/quakes/QuakeFeedTest.kt:12-37 | ("4.5", "week") is accepted as given; levels "" and "4.6" and periods "" and "year" are rejected with the matching error. |
| Feeds.Source | lib/src/main/kotlin/org/efford/quakes/QuakeFeed.kt:43-44 | The URL starts with the USGS summary-feed prefix and ends in ".csv". |
| Feeds.SourceRoundTrip | lib/src/main/kotlin/org/efford/quakes/QuakeFeed.kt:43-44 | For a valid feed, the text between prefix and ".csv" splits at "_" back into exactly its level and period. |
| Feeds.SourceInjective | lib/src/main/kotlin/org/efford/quakes/QuakeFeed.kt:43-44 | Two valid feeds with the same URL have the same level and period. |
| Feeds.ToStringRoundTrip | lib/src/main/kotlin/org/efford/quakes/QuakeFeed.kt:51 | The string form carries the level and period: split at the quotes, it parses back into exactly the feed it was made from. |
| Feeds.ToStringIsNotSource | lib/src/main/kotlin/org/efford/quakes/QuakeFeed.kt:51 | The string form starts `QuakeFeed(level=` and differs from the URL for every feed. |
| Text.Split | lib/src/main/kotlin/org/efford/quakes/QuakeDataset.kt:36 | Splitting on "," yields at least one field, and no field contains the delimiter. |
| Text.JoinSplit | lib/src/main/kotlin/org/efford/quakes/QuakeDataset.kt:36 | Joining the fields of a split with the delimiter gives back the original line: nothing is lost. |
| Text.SplitJoin | lib/src/main/kotlin/org/efford/quakes/QuakeDataset.kt:36 | Delimiter-free fields joined and split again come back unchanged, empty fields included. |
| Text.SplitLeadingFields | lib/src/main/kotlin/org/efford/quakes/QuakeDataset.kt:36-38 | Comma-free leading fields split off intact whatever follows them, quoted commas included. |
| Text.Lines | lib/src/main/kotlin/org/efford/quakes/QuakeDataset.kt:29 | Line splitting yields at least one line and no line holds a line break. |
| Text.LinesWithoutCarriageReturn | lib/src/main/kotlin/org/efford/quakes/QuakeDataset.kt:29 | Without carriage returns, line splitting is a split at "\n". |
| Text.LinesOfJoin | lib/src/main/kotlin/org/efford/quakes/QuakeDataset.kt:29 | Lines joined with "\n" and no final terminator read back as exactly those lines. |
| Text.LinesOfJoinLines | lib/src/main/kotlin/org/efford/quakes/QuakeDataset.kt:88-97 | Text built by `appendLine` splits back into exactly the appended lines plus one final empty line. |
| Ingestion.RecordFor | lib/src/main/kotlin/org/efford/quakes/QuakeDataset.kt:35-48 | A line with fewer than 5 fields is skipped silently. Otherwise the line yields a record exactly when its fields parse and the quake is valid; the record takes time from field 0, latitude from 1, longitude from 2, depth from 3 and magnitude from 4. An unparsable time gives BadInstant carrying field 0. Otherwise an unparsable number gives BadNumber carrying the first of fields 1-4 that fails to parse. Otherwise an invalid quake gives BadQuake carrying the constructor's own error. A read failure never comes from a line. |
| Ingestion.FieldsBeyondFifthIgnored | lib/src/main/kotlin/org/efford/quakes/QuakeDataset.kt:36-45 | Two lines that agree on their first five fields give the same record or the same error. |
| Ingestion.LeadingFieldsSplitOff | lib/src/main/kotlin/org/efford/quakes/QuakeDataset.kt:36-38 | A line of five comma-free fields plus any remainder has more than five fields, and the first five are those fields. |
| Ingestion.NonBlank | lib/src/main/kotlin/org/efford/quakes/QuakeDataset.kt:29 | The filter keeps exactly the non-blank lines and never adds any. |
| Ingestion.NonBlankKeepsAll | lib/src/main/kotlin/org/efford/quakes/QuakeDataset.kt:29 | A list with no blank line passes the filter unchanged. |
| Ingestion.NonBlankAppend | lib/src/main/kotlin/org/efford/quakes/QuakeDataset.kt:29 | Filtering distributes over concatenation, so the filter keeps file order. |
| Ingestion.DataLines | lib/src/main/kotlin/org/efford/quakes/QuakeDataset.kt:29 | No data line is blank. |
| Ingestion.HeaderIgnored | lib/src/main/kotlin/org/efford/quakes/QuakeDataset.kt:29 | The first line is discarded whatever it contains. |
| Ingestion.BlankLineIgnored | lib/src/main/kotlin/org/efford/quakes/QuakeDataset.kt:29 | A blank line inserted anywhere after the header leaves the data lines, and so the records and errors, unchanged. |
| Ingestion.AcceptedAppend | lib/src/main/kotlin/org/efford/quakes/QuakeDataset.kt:29-31 | The records of two runs of lines are the records of the first followed by those of the second. |
| Ingestion.FirstFailure | lib/src/main/kotlin/org/efford/quakes/QuakeDataset.kt:29-31 | It is the position of the first line that throws, or the number of lines when none does; every line before it succeeds. |
| Ingestion.Ingest | lib/src/main/kotlin/org/efford/quakes/QuakeDataset.kt:29-31 | The loop keeps the records of the lines before the first failing line, in file order. It ends with no error exactly when no line fails, and otherwise with that line's error. |
| Ingestion.Update | lib/src/main/kotlin/org/efford/quakes/QuakeDataset.kt:25-33 | A failed read leaves the previous contents and reports the read error. After a successful read, the contents are the records of the data lines before the first failing one. The update completes exactly when no data line fails, and otherwise reports that line's error. |
| Ingestion.UpdateReplacesContents | lib/src/main/kotlin/org/efford/quakes/QuakeDataset.kt:25-33 | After a successful read, the old contents have no influence on the new ones. |
| Ingestion.AcceptedAllWellFormed | lib/src/main/kotlin/org/efford/quakes/QuakeDataset.kt:29-45 | When every line is accepted, there is one record per line, each decoded from its own line. |
| Ingestion.IngestAllWellFormed | lib/src/main/kotlin/org/efford/quakes/QuakeDataset.kt:29-45 | When every line is accepted as a given record, ingestion yields exactly those records and no error. |
| Ingestion.UpdateAllWellFormed | lib/src/main/kotlin/org/efford/quakes/QuakeDataset.kt:25-45 | When every data line of the text is accepted, the update completes with one quake per data line, in file order. |
| Ingestion.UpdateHeaderOnly | lib/src/main/kotlin/org/efford/quakes/QuakeDataset.kt:25-33 | A feed holding only its header line, with or without a final line break, leaves the dataset empty and completes. |
| QuakeDatasets.QuakeDataset.Update | lib/src/main/kotlin/org/efford/quakes/QuakeDataset.kt:25-48 | The in-place loop (read, clear, add record by record, stop at the first exception) leaves the list and outcome that `Ingestion.Update` describes. |
| Queries.Get | lib/src/main/kotlin/org/efford/quakes/QuakeDataset.kt:68 | `get` returns the quake at an index in [0, size) and fails with the index and size for any other index. |
| Queries.ShallowestQuake | lib/src/main/kotlin/org/efford/quakes/QuakeDataset.kt:136 | Null exactly when empty. Otherwise it returns the first quake whose depth is no greater than any other's. |
| Queries.DeepestQuake | lib/src/main/kotlin/org/efford/quakes/QuakeDataset.kt:143 | Null exactly when empty. Otherwise it returns the first quake whose depth is no less than any other's. |
| Queries.WeakestQuake | lib/src/main/kotlin/org/efford/quakes/QuakeDataset.kt:150 | Null exactly when empty. Otherwise it returns the first quake whose magnitude is no greater than any other's. |
| Queries.StrongestQuake | lib/src/main/kotlin/org/efford/quakes/QuakeDataset.kt:157 | Null exactly when empty. Otherwise it returns the first quake whose magnitude is no less than any other's. |
| Queries.MeanDepth | lib/src/main/kotlin/org/efford/quakes/QuakeDataset.kt:164 | Null exactly when empty. Otherwise it is the depth sum over the size, lies between the shallowest and deepest quake's depths, and is never negative. |
| Queries.MeanMagnitude | lib/src/main/kotlin/org/efford/quakes/QuakeDataset.kt:171 | Null exactly when empty. Otherwise it is the magnitude sum over the size, lies between the weakest and strongest quake's magnitudes, and is positive. |
| Queries.AbsentExactlyWhenEmpty | lib/src/main/kotlin/org/efford/quakes/QuakeDataset.kt:53-171 | Size 0, `isEmpty`, every aggregate being null and `get` failing at every index all coincide. |
| Stats.FirstMinIndex | lib/src/main/kotlin/org/efford/quakes/QuakeDataset.kt:136 | The `minByOrNull` scan returns the first position of a least value. |
| Stats.FirstMaxIndex | lib/src/main/kotlin/org/efford/quakes/QuakeDataset.kt:143 | The `maxByOrNull` scan returns the first position of a greatest value. |
| Stats.Mean | lib/src/main/kotlin/org/efford/quakes/QuakeDataset.kt:164 | `average` times the count is the sum, and lies between the least and greatest value. |
| Stats.SumBounds | lib/src/main/kotlin/org/efford/quakes/QuakeDataset.kt:164 | A sum of n values bounded by lo and hi lies between n·lo and n·hi. |
| Sorting.SortedWith | lib/src/main/kotlin/org/efford/quakes/QuakeDataset.kt:92 | The sorted copy is a permutation of the list. |
| Sorting.SortedWithSorted | lib/src/main/kotlin/org/efford/quakes/QuakeDataset.kt:92 | For a comparator that is a total preorder, the sorted copy is in comparator order. |
| Sorting.SortedWithStable | lib/src/main/kotlin/org/efford/quakes/QuakeDataset.kt:92 | Elements that tie under the comparator keep their original relative order: the sort is stable. |
| Rendering.DefaultOrderIsChronological | lib/src/main/kotlin/org/efford/quakes/QuakeDataset.kt:88 | Under the default comparator the rows are a permutation of the quakes in ascending event time. |
| Rendering.TableReadsBack | lib/src/main/kotlin/org/efford/quakes/QuakeDataset.kt:88-97 | The text written with `appendLine` splits back into exactly the table's lines plus one final empty line, provided no row holds a line break. |
| Rendering.AsTableLayout | lib/src/main/kotlin/org/efford/quakes/QuakeDataset.kt:88-97 | Read back line by line, the text table is: the border, heading and border; then row i formatted from the i-th quake of the sorted copy; then the border and the empty line after the final line break. |
| Rendering.OpeningTagCarriesId | lib/src/main/kotlin/org/efford/quakes/QuakeDataset.kt:117 | The `<table>` tag carries an id exactly when the id is non-blank, and then carries it verbatim. |
| Rendering.HtmlReadsBack | lib/src/main/kotlin/org/efford/quakes/QuakeDataset.kt:113-129 | The HTML text splits back into exactly the HTML table's lines plus one final empty line, provided neither the id nor any row holds a line break. |
| Rendering.AsHtmlTableLayout | lib/src/main/kotlin/org/efford/quakes/QuakeDataset.kt:113-129 | Read back line by line, the HTML table has one line per quake plus eight; its first line is the opening tag, carrying the id exactly when the id is non-blank, followed by the fixed header, provided neither the id nor any row holds a line break. |
| Rendering.AsHtmlTableRows | lib/src/main/kotlin/org/efford/quakes/QuakeDataset.kt:113-129 | Read back line by line, the HTML table continues after its header with row i formatted from the i-th quake of the sorted copy, then the closing tags and the empty line after the final line break. |
| Rendering.RenderersShareRowOrder | lib/src/main/kotlin/org/efford/quakes/QuakeDataset.kt:88-129 | Row i of the text table and row i of the HTML table describe the same quake of the dataset. |
| Scenarios.LineBecomes | lib/src/main/kotlin/org/efford/quakes/QuakeDataset.kt:35-48 | A line whose five leading fields parse to a valid quake's values becomes exactly that quake, whatever follows the fifth field. |
| Scenarios.FirstRecordFieldMapping | lib/src/test/kotlin/org/efford/quakes/QuakeDatasetTest.kt:74-79 | Record 0 of the dummy feed has longitude -179.5316, latitude -21.9489, magnitude 5.1 and depth 588.529. |
| Scenarios.FeedIngestion | lib/src/test/kotlin/org/efford/quakes/QuakeDatasetTest.kt:15-32 | Whatever the header and the fields after the fifth, ingesting the dummy feed's lines yields its five quakes in file order and no error. |
| Scenarios.DummyFeedIngestion | lib/src/test/kotlin/org/efford/quakes/QuakeDatasetTest.kt:69-72 | The dummy feed itself yields its five quakes and no error. |
| Scenarios.FeedDepthExtremes | lib/src/test/kotlin/org/efford/quakes/QuakeDatasetTest.kt:81-95 | Of the five records, record 3 is the shallowest and record 0 the deepest. |
| Scenarios.FeedMagnitudeExtremes | lib/src/test/kotlin/org/efford/quakes/QuakeDatasetTest.kt:97-111 | Of the five records, record 3 is the weakest and record 2 the strongest. |
| Scenarios.FeedMeans | lib/src/test/kotlin/org/efford/quakes/QuakeDatasetTest.kt:113-118 | The mean depth of the five records is 177.7516 and the mean magnitude 5.22. |
| Scenarios.EmptyDataset | lib/src/test/kotlin/org/efford/quakes/QuakeDatasetTest.kt:34-67 | An empty dataset has size 0, fails `get(0)`, and every aggregate is null. |

## Left out

- `read()` and the URL object (`URI.create(...).toURL()`, `readText()`) are network I/O. `Feeds.Read` applies a caller-supplied `fetch` function to the URL string instead.
- `Instant.parse` and `String.toDouble` are library parsers. They are the `Parsers` parameter, so neither ISO-8601 nor decimal parsing is modelled. Their exceptions become `BadInstant`/`BadNumber` errors carrying the field text; the exception messages are not modelled.
- `String.format` with `%9.4f`, `%.2f` and similar is decimal formatting. Each row is an opaque `RowFormats` function of the quake, so row count and order are proved but not the digits.
- `Double` arithmetic is modelled as exact `real` arithmetic. IEEE-754 rounding in `average()` is not modelled, nor are NaN and infinities. NaN would fail every range check. A positive infinite depth or magnitude would pass.
- `Queries.ShallowestQuake` and `Queries.DeepestQuake`: -0.0 and 0.0 are one value in `real`. Kotlin accepts a depth of -0.0 (`-0.0 >= 0.0` holds), but `minByOrNull`/`maxByOrNull` compare boxed `Double`s with `compareTo`, which puts -0.0 below 0.0. For depths [0.0, -0.0] Kotlin's shallowest quake is the second record, while the model returns the first.
- `Sorting.SortedWith`: Kotlin's `sortedWith` delegates to the JVM's TimSort. For a comparator that keeps the `Comparator` contract, and is hence a total preorder, its output is the stable order the insertion sort gives. `Sorting.SortedWithSorted` and `Sorting.SortedWithStable` assume only the total preorder, a consequence of that contract. For a comparator that breaks the contract, including a total preorder whose signs are not symmetric, TimSort may order elements differently or throw `IllegalArgumentException`, and the model does not follow it. The default time ordering keeps the contract (`Rendering.ByTimeIsTotalPreorder`).
- `Stats.Mean`: the sum is exact, so the mean only approximates the Kotlin result. The tests themselves compare within a tolerance of 1e-6.
- `Instant` is an integer (milliseconds since the epoch). Only its order is used, by the default table ordering.
- `iterator()` is a read-only view of the same list and adds no behaviour.
- `Feeds.ToString` carries no contract of its own. `Feeds.ToStringRoundTrip` and `Feeds.ToStringIsNotSource` state what it promises.
- `QuakeDatasets.QuakeDataset.Update` is stated through `old(quakes)`. The queries and renderers are pure functions of the `quakes` field rather than methods of the class.
- The command-line tool, the JavaFX map and the Gradle build lie outside the library. They also call an `updateFrom` function that the library does not define.
- There is no concurrency in the library.
