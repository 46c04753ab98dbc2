/** The two renderers of `QuakeDataset`: `asTable` (bordered plain text)
    and `asHtmlTable`. Each emits one body row per quake, in the order of a
    sorted copy, and leaves the dataset itself as it was. */
module Rendering {
  import opened Wrappers
  import opened Text
  import opened Quakes
  import opened Sorting

  /** The `String.format` calls that turn a quake into one table row; the
      decimal formatting itself is left to these functions. */
  datatype RowFormats = RowFormats(text: Quake -> string, html: Quake -> string)

  /** The default ordering, `compareBy { it.time }`: ascending event time. */
  function ByTime(a: Quake, b: Quake): int {
    if a.time < b.time then -1 else if a.time == b.time then 0 else 1
  }

  lemma ByTimeIsTotalPreorder()
    ensures IsTotalPreorder(ByTime)
  {
  }

  /** Under the default ordering the rows run in ascending event time. */
  lemma DefaultOrderIsChronological(qs: seq<Quake>)
    ensures var sorted := SortedWith(qs, ByTime);
      && multiset(sorted) == multiset(qs)
      && forall i, j :: 0 <= i < j < |sorted| ==> sorted[i].time <= sorted[j].time
  {
    ByTimeIsTotalPreorder();
    SortedWithSorted(qs, ByTime);
    var sorted := SortedWith(qs, ByTime);
    forall i, j | 0 <= i < j < |sorted| ensures sorted[i].time <= sorted[j].time {
      assert ByTime(sorted[i], sorted[j]) <= 0;
    }
  }

  function Rows(qs: seq<Quake>, format: Quake -> string): (rows: seq<string>)
    ensures |rows| == |qs|
    ensures forall i :: 0 <= i < |qs| ==> rows[i] == format(qs[i])
  {
    seq(|qs|, i requires 0 <= i < |qs| => format(qs[i]))
  }

  const TableBorder: string := "+-----------+----------+--------+-----+"
  const TableHeading: string := "|    Lon    |   Lat    |  Depth | Mag |"

  /** The lines `asTable` appends: three header lines, one row per quake in
      sorted order, one footer line. */
  function TableLines(qs: seq<Quake>, ordering: Comparator<Quake>, formats: RowFormats): (lines: seq<string>)
    ensures |lines| == |qs| + 4
    ensures lines[..3] == [TableBorder, TableHeading, TableBorder]
    ensures lines[3..|qs| + 3] == Rows(SortedWith(qs, ordering), formats.text)
    ensures lines[|qs| + 3] == TableBorder
  {
    [TableBorder, TableHeading, TableBorder] + Rows(SortedWith(qs, ordering), formats.text) + [TableBorder]
  }

  /** `asTable(ordering)`. */
  function AsTable(qs: seq<Quake>, ordering: Comparator<Quake>, formats: RowFormats): string
  {
    JoinLines(TableLines(qs, ordering, formats))
  }

  lemma TableFrameHasNoLineBreak()
    ensures AllWithoutLineBreaks([TableBorder, TableHeading, TableBorder])
    ensures AllWithoutLineBreaks([TableBorder])
  {
    assert HasNoLineBreak(TableBorder);
    assert HasNoLineBreak(TableHeading);
  }

  lemma RowsHaveNoLineBreak(qs: seq<Quake>, format: Quake -> string)
    requires forall q :: HasNoLineBreak(format(q))
    ensures AllWithoutLineBreaks(Rows(qs, format))
  {
  }

  /** The text table splits back into the lines appended to it. */
  lemma TableReadsBack(qs: seq<Quake>, ordering: Comparator<Quake>, formats: RowFormats)
    requires forall q :: HasNoLineBreak(formats.text(q))
    ensures Lines(AsTable(qs, ordering, formats)) == TableLines(qs, ordering, formats) + [""]
  {
    var head := [TableBorder, TableHeading, TableBorder];
    var rows := Rows(SortedWith(qs, ordering), formats.text);
    TableFrameHasNoLineBreak();
    RowsHaveNoLineBreak(SortedWith(qs, ordering), formats.text);
    AllWithoutLineBreaksConcat(head, rows);
    AllWithoutLineBreaksConcat(head + rows, [TableBorder]);
    LinesOfJoinLines(TableLines(qs, ordering, formats));
  }

  /** Read back line by line, the text table is its header, then exactly one
      row per quake formatted from the sorted copy of the quakes, then its
      footer (and the empty line after the last terminator). */
  lemma AsTableLayout(qs: seq<Quake>, ordering: Comparator<Quake>, formats: RowFormats)
    requires forall q :: HasNoLineBreak(formats.text(q))
    ensures var lines := Lines(AsTable(qs, ordering, formats));
      var sorted := SortedWith(qs, ordering);
      && |lines| == |qs| + 5
      && lines[..3] == [TableBorder, TableHeading, TableBorder]
      && lines[3..|qs| + 3] == Rows(sorted, formats.text)
      && lines[|qs| + 3..] == [TableBorder, ""]
  {
    TableReadsBack(qs, ordering, formats);
    var table := TableLines(qs, ordering, formats);
    var lines := table + [""];
    assert lines[..3] == table[..3];
    assert lines[3..|qs| + 3] == table[3..|qs| + 3];
    assert lines[|qs| + 3..] == [TableBorder, ""];
  }

  const IdOpen: string := "<table id=\""
  const IdClose: string := "\">"

  /** The `<table>` tag: it carries an `id` attribute only for a non-blank id. */
  function OpeningTag(id: string): string {
    if IsBlank(id) then "<table>" else IdOpen + id + IdClose
  }

  /** Reads the `id` attribute back out of a `<table>` tag, if it has one. */
  function TagId(tag: string): Option<string> {
    if |tag| >= |IdOpen| + |IdClose|
       && tag[..|IdOpen|] == IdOpen
       && tag[|tag| - |IdClose|..] == IdClose
    then Some(tag[|IdOpen|..|tag| - |IdClose|])
    else None
  }

  /** The tag carries the id exactly when the id is non-blank, and then
      carries it verbatim. */
  lemma OpeningTagCarriesId(id: string)
    ensures TagId(OpeningTag(id)) == if IsBlank(id) then None else Some(id)
  {
    var tag := OpeningTag(id);
    if !IsBlank(id) {
      assert tag[..|IdOpen|] == IdOpen;
      assert tag[|tag| - |IdClose|..] == IdClose;
      assert tag[|IdOpen|..|tag| - |IdClose|] == id;
    } else {
      assert |tag| == 7;
    }
  }

  const HtmlColumnsLeft: string := "<tr><th>Lon</th><th>Lat</th>"
  const HtmlColumnsRight: string := "<th>Depth</th><th>Mag</th></tr>"
  const HtmlHead: seq<string> := [
    "<thead>",
    HtmlColumnsLeft + HtmlColumnsRight,
    "</thead>",
    "<tbody>"
  ]
  const HtmlFoot: seq<string> := ["</tbody>", "</table>"]

  /** The lines `asHtmlTable` appends: the opening tag, four header lines,
      one row per quake in sorted order, two closing lines. */
  function HtmlLines(qs: seq<Quake>, id: string, ordering: Comparator<Quake>, formats: RowFormats): (lines: seq<string>)
    ensures |lines| == |qs| + 7
    ensures lines[0] == OpeningTag(id)
    ensures lines[1..5] == HtmlHead
    ensures lines[5..|qs| + 5] == Rows(SortedWith(qs, ordering), formats.html)
    ensures lines[|qs| + 5..] == HtmlFoot
  {
    [OpeningTag(id)] + HtmlHead + Rows(SortedWith(qs, ordering), formats.html) + HtmlFoot
  }

  /** `asHtmlTable(id, ordering)`. */
  function AsHtmlTable(qs: seq<Quake>, id: string, ordering: Comparator<Quake>, formats: RowFormats): string
  {
    JoinLines(HtmlLines(qs, id, ordering, formats))
  }

  lemma HtmlFrameHasNoLineBreak(id: string)
    requires HasNoLineBreak(id)
    ensures AllWithoutLineBreaks([OpeningTag(id)] + HtmlHead)
    ensures AllWithoutLineBreaks(HtmlFoot)
  {
    if !IsBlank(id) {
      var tag := IdOpen + id + IdClose;
      forall i | 0 <= i < |tag| ensures !IsLineBreak(tag[i]) {
        if i < |IdOpen| {
          assert tag[i] == IdOpen[i];
        } else if i < |IdOpen| + |id| {
          assert tag[i] == id[i - |IdOpen|];
        } else {
          assert tag[i] == IdClose[i - |IdOpen| - |id|];
        }
      }
    } else {
      assert HasNoLineBreak("<table>");
    }
    assert HasNoLineBreak(HtmlHead[0]);
    assert HasNoLineBreak(HtmlColumnsLeft);
    assert HasNoLineBreak(HtmlColumnsRight);
    NoLineBreakConcat(HtmlColumnsLeft, HtmlColumnsRight);
    assert HasNoLineBreak(HtmlHead[2]);
    assert HasNoLineBreak(HtmlHead[3]);
    assert HasNoLineBreak(HtmlFoot[0]);
    assert HasNoLineBreak(HtmlFoot[1]);
  }

  /** The HTML table splits back into the lines appended to it. */
  lemma HtmlReadsBack(qs: seq<Quake>, id: string, ordering: Comparator<Quake>, formats: RowFormats)
    requires HasNoLineBreak(id)
    requires forall q :: HasNoLineBreak(formats.html(q))
    ensures Lines(AsHtmlTable(qs, id, ordering, formats)) == HtmlLines(qs, id, ordering, formats) + [""]
  {
    var head := [OpeningTag(id)] + HtmlHead;
    var rows := Rows(SortedWith(qs, ordering), formats.html);
    HtmlFrameHasNoLineBreak(id);
    RowsHaveNoLineBreak(SortedWith(qs, ordering), formats.html);
    AllWithoutLineBreaksConcat(head, rows);
    AllWithoutLineBreaksConcat(head + rows, HtmlFoot);
    assert HtmlLines(qs, id, ordering, formats) == head + rows + HtmlFoot;
    LinesOfJoinLines(HtmlLines(qs, id, ordering, formats));
  }

  /** Read back line by line, the HTML table opens with a tag carrying the id
      exactly when it is non-blank, followed by the fixed column header. */
  lemma AsHtmlTableLayout(qs: seq<Quake>, id: string, ordering: Comparator<Quake>, formats: RowFormats)
    requires HasNoLineBreak(id)
    requires forall q :: HasNoLineBreak(formats.html(q))
    ensures var lines := Lines(AsHtmlTable(qs, id, ordering, formats));
      && |lines| == |qs| + 8
      && TagId(lines[0]) == (if IsBlank(id) then None else Some(id))
      && lines[1..5] == HtmlHead
  {
    HtmlReadsBack(qs, id, ordering, formats);
    var html := HtmlLines(qs, id, ordering, formats);
    var lines := html + [""];
    OpeningTagCarriesId(id);
    assert lines[1..5] == html[1..5];
  }

  /** ... then exactly one row per quake formatted from the sorted copy of
      the quakes, then the closing tags (and the empty line after the last
      terminator). */
  lemma AsHtmlTableRows(qs: seq<Quake>, id: string, ordering: Comparator<Quake>, formats: RowFormats)
    requires HasNoLineBreak(id)
    requires forall q :: HasNoLineBreak(formats.html(q))
    ensures var lines := Lines(AsHtmlTable(qs, id, ordering, formats));
      && |lines| == |qs| + 8
      && lines[5..|qs| + 5] == Rows(SortedWith(qs, ordering), formats.html)
      && lines[|qs| + 5..] == HtmlFoot + [""]
  {
    HtmlReadsBack(qs, id, ordering, formats);
    var html := HtmlLines(qs, id, ordering, formats);
    var lines := html + [""];
    assert lines[5..|qs| + 5] == html[5..|qs| + 5];
    assert lines[|qs| + 5..] == html[|qs| + 5..] + [""];
  }

  /** The two renderers agree on rows: the i-th body row of the text table
      and of the HTML table describe the same quake. */
  lemma RenderersShareRowOrder(qs: seq<Quake>, id: string, ordering: Comparator<Quake>, formats: RowFormats, i: nat)
    requires i < |qs|
    ensures exists q :: (
              && q in qs
              && TableLines(qs, ordering, formats)[3 + i] == formats.text(q)
              && HtmlLines(qs, id, ordering, formats)[5 + i] == formats.html(q))
  {
    var sorted := SortedWith(qs, ordering);
    assert sorted[i] in multiset(sorted);
    assert sorted[i] in qs;
  }
}
