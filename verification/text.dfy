/** The Kotlin string operations the library relies on: `isBlank`, `split`
    on a one-character delimiter, `lineSequence` and `appendLine`. */
module Text {

  /** Kotlin's `Char.isWhitespace` on the JVM: `Character.isWhitespace` or
      `Character.isSpaceChar`, i.e. the ASCII controls TAB..CR and FS..US plus
      every space, line and paragraph separator (non-breaking spaces included). */
  predicate IsWhitespace(c: char) {
    var n := c as int;
    || n == 0x20
    || 0x09 <= n <= 0x0D
    || 0x1C <= n <= 0x1F
    || n == 0xA0
    || n == 0x1680
    || 0x2000 <= n <= 0x200A
    || n == 0x2028 || n == 0x2029
    || n == 0x202F || n == 0x205F
    || n == 0x3000
  }

  /** Kotlin's `isBlank`: empty or whitespace only. */
  predicate IsBlank(s: string) {
    forall i :: 0 <= i < |s| ==> IsWhitespace(s[i])
  }

  /** Kotlin's `split(delimiter)` with no limit: every delimiter separates two
      fields, so empty fields (leading, inner and trailing) are all kept and
      the empty string yields one empty field. */
  function Split(s: string, delimiter: char): (fields: seq<string>)
    ensures |fields| >= 1
    ensures forall i :: 0 <= i < |fields| ==> delimiter !in fields[i]
    decreases |s|
  {
    if |s| == 0 then [""]
    else
      var rest := Split(s[1..], delimiter);
      if s[0] == delimiter then [""] + rest
      else [[s[0]] + rest[0]] + rest[1..]
  }

  /** Kotlin's `joinToString(delimiter)` on a non-empty list: the inverse of Split. */
  function Join(fields: seq<string>, delimiter: char): string
    requires |fields| >= 1
  {
    if |fields| == 1 then fields[0]
    else fields[0] + [delimiter] + Join(fields[1..], delimiter)
  }

  /** Splitting loses nothing: joining the fields back gives the original text. */
  lemma {:induction false} JoinSplit(s: string, delimiter: char)
    ensures Join(Split(s, delimiter), delimiter) == s
    decreases |s|
  {
    if |s| > 0 {
      var rest := Split(s[1..], delimiter);
      JoinSplit(s[1..], delimiter);
      assert Join(rest, delimiter) == s[1..];
      if s[0] == delimiter {
        assert ([""] + rest)[1..] == rest;
        assert s == [delimiter] + s[1..];
      } else {
        var fields := [[s[0]] + rest[0]] + rest[1..];
        if |rest| == 1 {
          assert s == [s[0]] + s[1..];
        } else {
          assert fields[1..] == rest[1..];
          assert Join(rest, delimiter) == rest[0] + [delimiter] + Join(rest[1..], delimiter);
          assert s == [s[0]] + s[1..];
        }
      }
    }
  }

  /** A field free of the delimiter splits to itself. */
  lemma {:induction false} SplitWithoutDelimiter(a: string, delimiter: char)
    requires delimiter !in a
    ensures Split(a, delimiter) == [a]
    decreases |a|
  {
    if |a| > 0 {
      SplitWithoutDelimiter(a[1..], delimiter);
      assert a == [a[0]] + a[1..];
    }
  }

  /** A leading delimiter-free field followed by the delimiter splits off as one field. */
  lemma {:induction false} SplitAfterField(a: string, b: string, delimiter: char)
    requires delimiter !in a
    ensures Split(a + [delimiter] + b, delimiter) == [a] + Split(b, delimiter)
    decreases |a|
  {
    var s := a + [delimiter] + b;
    if |a| == 0 {
      assert s[1..] == b;
    } else {
      assert s[1..] == a[1..] + [delimiter] + b;
      SplitAfterField(a[1..], b, delimiter);
      assert [a[0]] + a[1..] == a;
    }
  }

  /** Joining delimiter-free fields and splitting again gives the same fields. */
  lemma {:induction false} SplitJoin(fields: seq<string>, delimiter: char)
    requires |fields| >= 1
    requires forall i :: 0 <= i < |fields| ==> delimiter !in fields[i]
    ensures Split(Join(fields, delimiter), delimiter) == fields
    decreases |fields|
  {
    if |fields| == 1 {
      SplitWithoutDelimiter(fields[0], delimiter);
    } else {
      SplitJoin(fields[1..], delimiter);
      SplitAfterField(fields[0], Join(fields[1..], delimiter), delimiter);
      assert [fields[0]] + fields[1..] == fields;
    }
  }

  /** Delimiter-free leading fields split off intact, whatever follows them. */
  lemma {:induction false} SplitLeadingFields(fields: seq<string>, rest: string, delimiter: char)
    requires forall i :: 0 <= i < |fields| ==> delimiter !in fields[i]
    ensures Split(Join(fields + [rest], delimiter), delimiter) == fields + Split(rest, delimiter)
    decreases |fields|
  {
    if |fields| > 0 {
      assert (fields + [rest])[1..] == fields[1..] + [rest];
      SplitLeadingFields(fields[1..], rest, delimiter);
      SplitAfterField(fields[0], Join(fields[1..] + [rest], delimiter), delimiter);
      assert [fields[0]] + (fields[1..] + Split(rest, delimiter)) == fields + Split(rest, delimiter);
    } else {
      assert fields + [rest] == [rest];
    }
  }

  predicate IsLineBreak(c: char) {
    c == '\n' || c == '\r'
  }

  predicate HasNoLineBreak(s: string) {
    forall i :: 0 <= i < |s| ==> !IsLineBreak(s[i])
  }

  lemma NoLineBreakConcat(a: string, b: string)
    requires HasNoLineBreak(a) && HasNoLineBreak(b)
    ensures HasNoLineBreak(a + b)
  {
    forall i | 0 <= i < |a + b| ensures !IsLineBreak((a + b)[i]) {
      if i >= |a| {
        assert (a + b)[i] == b[i - |a|];
      }
    }
  }

  predicate AllWithoutLineBreaks(lines: seq<string>) {
    forall i :: 0 <= i < |lines| ==> HasNoLineBreak(lines[i])
  }

  lemma AllWithoutLineBreaksConcat(a: seq<string>, b: seq<string>)
    requires AllWithoutLineBreaks(a) && AllWithoutLineBreaks(b)
    ensures AllWithoutLineBreaks(a + b)
  {
    forall i | 0 <= i < |a + b| ensures HasNoLineBreak((a + b)[i]) {
      if i >= |a| {
        assert (a + b)[i] == b[i - |a|];
      }
    }
  }

  /** Kotlin's `lineSequence`: lines separated by "\r\n", "\n" or "\r"; a
      trailing terminator leaves a final empty line and "" is one empty line. */
  function Lines(text: string): (lines: seq<string>)
    ensures |lines| >= 1
    ensures forall i :: 0 <= i < |lines| ==> HasNoLineBreak(lines[i])
    decreases |text|
  {
    if |text| == 0 then [""]
    else if text[0] == '\n' then [""] + Lines(text[1..])
    else if text[0] == '\r' then
      if |text| > 1 && text[1] == '\n' then [""] + Lines(text[2..])
      else [""] + Lines(text[1..])
    else
      var rest := Lines(text[1..]);
      [[text[0]] + rest[0]] + rest[1..]
  }

  /** Without carriage returns, `lineSequence` is a plain split on "\n". */
  lemma {:induction false} LinesWithoutCarriageReturn(text: string)
    requires '\r' !in text
    ensures Lines(text) == Split(text, '\n')
    decreases |text|
  {
    if |text| > 0 {
      assert '\r' !in text[1..] by {
        forall i | 0 <= i < |text[1..]| ensures text[1..][i] != '\r' {
          assert text[1..][i] == text[i + 1];
        }
      }
      LinesWithoutCarriageReturn(text[1..]);
    }
  }

  /** Joining line-break-free fields with a delimiter that is not a line
      break gives a line free of line breaks. */
  lemma {:induction false} JoinWithoutLineBreaks(fields: seq<string>, delimiter: char)
    requires |fields| >= 1 && !IsLineBreak(delimiter)
    requires AllWithoutLineBreaks(fields)
    ensures HasNoLineBreak(Join(fields, delimiter))
    decreases |fields|
  {
    if |fields| > 1 {
      assert AllWithoutLineBreaks(fields[1..]) by {
        forall i | 0 <= i < |fields[1..]| ensures HasNoLineBreak(fields[1..][i]) {
          assert fields[1..][i] == fields[i + 1];
        }
      }
      JoinWithoutLineBreaks(fields[1..], delimiter);
      assert HasNoLineBreak(fields[0]);
      NoLineBreakConcat(fields[0], [delimiter]);
      NoLineBreakConcat(fields[0] + [delimiter], Join(fields[1..], delimiter));
    }
  }

  /** A line free of line breaks reads back as that one line. */
  lemma LinesOfLine(a: string)
    requires HasNoLineBreak(a)
    ensures Lines(a) == [a]
  {
    assert '\r' !in a by {
      forall i | 0 <= i < |a| ensures a[i] != '\r' {
        assert !IsLineBreak(a[i]);
      }
    }
    LinesWithoutCarriageReturn(a);
    assert '\n' !in a by {
      forall i | 0 <= i < |a| ensures a[i] != '\n' {
        assert !IsLineBreak(a[i]);
      }
    }
    SplitWithoutDelimiter(a, '\n');
  }

  /** Lines joined with "\n" and no final terminator (a multi-line string
      literal) read back as exactly those lines. */
  lemma {:induction false} LinesOfJoin(lines: seq<string>)
    requires |lines| >= 1 && AllWithoutLineBreaks(lines)
    ensures Lines(Join(lines, '\n')) == lines
    decreases |lines|
  {
    assert HasNoLineBreak(lines[0]);
    if |lines| == 1 {
      LinesOfLine(lines[0]);
    } else {
      assert AllWithoutLineBreaks(lines[1..]) by {
        forall i | 0 <= i < |lines[1..]| ensures HasNoLineBreak(lines[1..][i]) {
          assert lines[1..][i] == lines[i + 1];
        }
      }
      LinesOfJoin(lines[1..]);
      LinesAfterLine(lines[0], Join(lines[1..], '\n'));
      assert [lines[0]] + lines[1..] == lines;
    }
  }

  /** What a sequence of `appendLine` calls on an empty StringBuilder produces. */
  function JoinLines(lines: seq<string>): string
  {
    if |lines| == 0 then ""
    else lines[0] + "\n" + JoinLines(lines[1..])
  }

  /** A first line free of line breaks, then "\n", comes back as the first line. */
  lemma {:induction false} LinesAfterLine(a: string, b: string)
    requires HasNoLineBreak(a)
    ensures Lines(a + "\n" + b) == [a] + Lines(b)
    decreases |a|
  {
    var s := a + "\n" + b;
    if |a| == 0 {
      assert s[1..] == b;
    } else {
      assert s[0] == a[0];
      assert s[1..] == a[1..] + "\n" + b;
      LinesAfterLine(a[1..], b);
      assert [a[0]] + a[1..] == a;
    }
  }

  /** Text built with `appendLine` splits back into exactly the lines appended,
      followed by the empty line after the final terminator. */
  lemma {:induction false} LinesOfJoinLines(lines: seq<string>)
    requires AllWithoutLineBreaks(lines)
    ensures Lines(JoinLines(lines)) == lines + [""]
    decreases |lines|
  {
    if |lines| > 0 {
      LinesOfJoinLines(lines[1..]);
      LinesAfterLine(lines[0], JoinLines(lines[1..]));
      assert [lines[0]] + (lines[1..] + [""]) == lines + [""];
    }
  }
}
