/**
 * The tabular text-input preview
 * (client/src/components/preview/TabularTextInputRenderer.jsx): the
 * per-language choice of the table fields, the header splitter, the
 * `key:text` line parser that yields the table's rows, and the titles and
 * row labels the component renders.
 */
module Tabular {
  import opened Wrappers
  import opened Text
  import opened Dicts
  import opened Questions
  import Validator

  // ---------------------------------------------------------------------
  // Per-language field fallback
  // ---------------------------------------------------------------------

  /** `question.translations?.[language] || {}`: the language's bundle, or one with every field empty. */
  function BundleOf(q: Question, language: string): Translation {
    q.translations.Get(language).GetOr(Translation("", "", "", "", []))
  }

  /** `translations.tableHeaderValue || question.tableHeaderValue || ''`. */
  function TableHeaderValue(q: Question, language: string): string {
    Or(BundleOf(q, language).tableHeaderValue, q.content.tableHeaderValue)
  }

  /** `translations.tableQuestionValue || question.tableQuestionValue || ''`. */
  function TableQuestionValue(q: Question, language: string): string {
    Or(BundleOf(q, language).tableQuestionValue, q.content.tableQuestionValue)
  }

  /**
   * A table field is the language's own value when that is non-empty, and
   * the question's top-level value otherwise, including when the question
   * has no bundle for the language.
   */
  lemma FieldFallback(q: Question, language: string)
    ensures q.translations.Get(language).Some? && q.translations.Get(language).value.tableHeaderValue != "" ==>
      TableHeaderValue(q, language) == q.translations.Get(language).value.tableHeaderValue
    ensures q.translations.Get(language).Some? && q.translations.Get(language).value.tableQuestionValue != "" ==>
      TableQuestionValue(q, language) == q.translations.Get(language).value.tableQuestionValue
    ensures q.translations.Get(language).None? || q.translations.Get(language).value.tableHeaderValue == "" ==>
      TableHeaderValue(q, language) == q.content.tableHeaderValue
    ensures q.translations.Get(language).None? || q.translations.Get(language).value.tableQuestionValue == "" ==>
      TableQuestionValue(q, language) == q.content.tableQuestionValue
  {
  }

  // ---------------------------------------------------------------------
  // parseHeaders
  // ---------------------------------------------------------------------

  /** The trimmed pieces that are not empty, in order. */
  function NonEmptyTrimmed(pieces: seq<string>): (kept: seq<string>)
    ensures |kept| <= |pieces|
  {
    if pieces == [] then []
    else
      var rest := NonEmptyTrimmed(pieces[1..]);
      if Trim(pieces[0]) != "" then [Trim(pieces[0])] + rest else rest
  }

  /** The delimiter of a header value: '|' when it holds one, else ','. */
  function HeaderDelimiter(value: string): char {
    if '|' in value then '|' else ','
  }

  /** `parseHeaders`. */
  function ParseHeaders(value: string): seq<string> {
    if value == "" then [] else NonEmptyTrimmed(Split(value, HeaderDelimiter(value)))
  }

  /** Trimming cannot bring a character in. */
  lemma TrimKeepsOut(s: string, c: char)
    requires c !in s
    ensures c !in Trim(s)
  {
    TrimSlice(s);
    var a, b :| 0 <= a <= b <= |s| && Trim(s) == s[a..b] && AllSpace(s[..a]) && AllSpace(s[b..]);
    forall i | 0 <= i < b - a ensures Trim(s)[i] != c {
      assert Trim(s)[i] == s[a + i];
    }
  }

  /** What a trimmed string that is not empty looks like: neither end is white space. */
  lemma TrimmedEnds(s: string)
    requires Trim(s) != ""
    ensures !IsSpace(Trim(s)[0]) && !IsSpace(Trim(s)[|Trim(s)| - 1])
  {
    TrimSlice(s);
  }

  /** The kept pieces are exactly the trimmed pieces that are not empty. */
  lemma {:induction false} NonEmptyTrimmedMembers(pieces: seq<string>, h: string)
    ensures h in NonEmptyTrimmed(pieces) <==> h != "" && exists k :: 0 <= k < |pieces| && Trim(pieces[k]) == h
  {
    if pieces != [] {
      NonEmptyTrimmedMembers(pieces[1..], h);
      if exists k :: 0 <= k < |pieces| && Trim(pieces[k]) == h {
        var k :| 0 <= k < |pieces| && Trim(pieces[k]) == h;
        if k > 0 { assert pieces[1..][k - 1] == pieces[k]; }
      }
      if exists k :: 0 <= k < |pieces[1..]| && Trim(pieces[1..][k]) == h {
        var k :| 0 <= k < |pieces[1..]| && Trim(pieces[1..][k]) == h;
        assert pieces[k + 1] == pieces[1..][k];
      }
    }
  }

  /** No kept piece holds a character that no piece holds. */
  lemma {:induction false} NonEmptyTrimmedAvoids(pieces: seq<string>, c: char)
    requires forall k :: 0 <= k < |pieces| ==> c !in pieces[k]
    ensures forall k :: 0 <= k < |NonEmptyTrimmed(pieces)| ==> c !in NonEmptyTrimmed(pieces)[k]
  {
    if pieces != [] {
      NonEmptyTrimmedAvoids(pieces[1..], c);
      TrimKeepsOut(pieces[0], c);
    }
  }

  /**
   * `parseHeaders` gives nothing for an empty value, and otherwise the
   * pieces between the delimiters, trimmed, without the empty ones.
   */
  lemma ParseHeadersMembers(value: string, h: string)
    ensures ParseHeaders("") == []
    ensures var pieces := Split(value, HeaderDelimiter(value));
      value != "" ==> (h in ParseHeaders(value) <==> h != "" && exists k :: 0 <= k < |pieces| && Trim(pieces[k]) == h)
  {
    if value != "" {
      assert ParseHeaders(value) == NonEmptyTrimmed(Split(value, HeaderDelimiter(value)));
      NonEmptyTrimmedMembers(Split(value, HeaderDelimiter(value)), h);
    }
  }

  /** The header filter works piece by piece: filtering two runs is filtering each. */
  lemma {:induction false} NonEmptyTrimmedConcat(a: seq<string>, b: seq<string>)
    ensures NonEmptyTrimmed(a + b) == NonEmptyTrimmed(a) + NonEmptyTrimmed(b)
  {
    if a == [] {
      assert a + b == b;
    } else {
      assert (a + b)[0] == a[0];
      assert (a + b)[1..] == a[1..] + b;
      NonEmptyTrimmedConcat(a[1..], b);
    }
  }

  /**
   * The headers keep the order and the repetitions of the pieces: a piece
   * gives its trimmed text, between the headers of the pieces before and
   * after it, exactly when that text is not empty.
   */
  lemma ParseHeadersAround(value: string, a: seq<string>, p: string, b: seq<string>)
    requires value != "" && Split(value, HeaderDelimiter(value)) == a + [p] + b
    ensures ParseHeaders(value)
      == NonEmptyTrimmed(a) + (if Trim(p) != "" then [Trim(p)] else []) + NonEmptyTrimmed(b)
  {
    NonEmptyTrimmedConcat(a + [p], b);
    NonEmptyTrimmedConcat(a, [p]);
    NonEmptyTrimmedOne(p);
  }

  lemma NonEmptyTrimmedOne(p: string)
    ensures NonEmptyTrimmed([p]) == if Trim(p) != "" then [Trim(p)] else []
  {
    assert [p][1..] == [];
  }

  /**
   * No header holds the delimiter; when the value holds a '|', no header
   * holds one, so a ',' then stays inside its header.
   */
  lemma HeadersAvoidDelimiter(value: string)
    ensures forall k :: 0 <= k < |ParseHeaders(value)| ==> HeaderDelimiter(value) !in ParseHeaders(value)[k]
    ensures '|' in value ==> forall k :: 0 <= k < |ParseHeaders(value)| ==> '|' !in ParseHeaders(value)[k]
  {
    if value != "" {
      NonEmptyTrimmedAvoids(Split(value, HeaderDelimiter(value)), HeaderDelimiter(value));
    }
  }

  /** No kept piece is empty or starts or ends with white space. */
  lemma {:induction false} NonEmptyTrimmedShape(pieces: seq<string>)
    ensures forall k :: 0 <= k < |NonEmptyTrimmed(pieces)| ==>
      var h := NonEmptyTrimmed(pieces)[k]; h != "" && !IsSpace(h[0]) && !IsSpace(h[|h| - 1])
  {
    if pieces != [] {
      NonEmptyTrimmedShape(pieces[1..]);
      if Trim(pieces[0]) != "" {
        TrimmedEnds(pieces[0]);
      }
    }
  }

  /** No header is empty or starts or ends with white space. */
  lemma HeadersTrimmed(value: string)
    ensures forall k :: 0 <= k < |ParseHeaders(value)| ==>
      var h := ParseHeaders(value)[k]; h != "" && !IsSpace(h[0]) && !IsSpace(h[|h| - 1])
  {
    if value != "" {
      NonEmptyTrimmedShape(Split(value, HeaderDelimiter(value)));
    }
  }

  // ---------------------------------------------------------------------
  // tableQuestions
  // ---------------------------------------------------------------------

  /** One row of the rendered table: the trimmed key and text of a `key:text` line. */
  datatype TableRow = TableRow(key: string, value: string)

  /**
   * `const [key, value] = line.split(':')`, both trimmed: the row of a line
   * whose first piece and second piece are not blank (a line without a ':'
   * has no second piece).
   */
  function LineRow(line: string): Option<TableRow> {
    var pieces := Split(line, ':');
    var key := Trim(pieces[0]);
    if |pieces| < 2 then None
    else
      var value := Trim(pieces[1]);
      if key != "" && value != "" then Some(TableRow(key, value)) else None
  }

  /** The rows of the lines that have one, in line order. */
  function Rows(lines: seq<string>): (rows: seq<TableRow>)
    ensures |rows| <= |lines|
  {
    if lines == [] then []
    else
      var rest := Rows(lines[1..]);
      match LineRow(lines[0])
      case Some(r) => [r] + rest
      case None => rest
  }

  /** `tableQuestions`: one row per `\n`-separated line that yields one. */
  function TableQuestions(value: string): seq<TableRow> {
    Rows(Split(value, '\n'))
  }

  /** The position of the first separator is the position of the one with none before it. */
  lemma IndexOfAt(s: string, c: char, i: nat)
    requires i < |s| && s[i] == c && c !in s[..i]
    ensures IndexOf(s, c) == i
  {
    var j := IndexOf(s, c);
    forall m | 0 <= m < i ensures s[m] != c {
      assert s[..i][m] == s[m];
    }
    forall m | 0 <= m < j ensures s[m] != c {
      assert s[..j][m] == s[m];
    }
  }

  /** Splitting at a first separator takes off the piece before it. */
  lemma SplitFirst(a: string, b: string, sep: char)
    requires sep !in a
    ensures Split(a + [sep] + b, sep) == [a] + Split(b, sep)
  {
    var s := a + [sep] + b;
    assert s[..|a|] == a;
    IndexOfAt(s, sep, |a|);
    assert s[|a| + 1..] == b;
  }

  /**
   * A line's text is only what lies between its first and second ':';
   * so "a:b:c" gives the row (a, b).
   */
  lemma LineRowSecondPiece(key: string, text: string, rest: string)
    requires ':' !in key && ':' !in text
    requires Trim(key) != "" && Trim(text) != ""
    ensures LineRow(key + ":" + text + ":" + rest) == Some(TableRow(Trim(key), Trim(text)))
  {
    var line := key + ":" + text + ":" + rest;
    assert line == key + [':'] + (text + [':'] + rest);
    SplitFirst(key, text + [':'] + rest, ':');
    SplitFirst(text, rest, ':');
  }

  /** The row of a line has a non-empty key and text, neither holding a ':'. */
  lemma LineRowShape(line: string)
    requires LineRow(line).Some?
    ensures var r := LineRow(line).value;
      r.key != "" && r.value != "" && ':' !in r.key && ':' !in r.value
      && r.key == Trim(Split(line, ':')[0]) && r.value == Trim(Split(line, ':')[1])
  {
    TrimKeepsOut(Split(line, ':')[0], ':');
    TrimKeepsOut(Split(line, ':')[1], ':');
  }

  /** The rows are exactly the rows of the lines, so an empty value gives none. */
  lemma {:induction false} RowsMembers(lines: seq<string>, r: TableRow)
    ensures r in Rows(lines) <==> exists k :: 0 <= k < |lines| && LineRow(lines[k]) == Some(r)
  {
    if lines != [] {
      RowsMembers(lines[1..], r);
      if exists k :: 0 <= k < |lines| && LineRow(lines[k]) == Some(r) {
        var k :| 0 <= k < |lines| && LineRow(lines[k]) == Some(r);
        if k > 0 { assert lines[1..][k - 1] == lines[k]; }
      }
      if exists k :: 0 <= k < |lines[1..]| && LineRow(lines[1..][k]) == Some(r) {
        var k :| 0 <= k < |lines[1..]| && LineRow(lines[1..][k]) == Some(r);
        assert lines[k + 1] == lines[1..][k];
      }
    }
  }

  /** The row parser works line by line: the rows of two runs of lines are the rows of each. */
  lemma {:induction false} RowsConcat(a: seq<string>, b: seq<string>)
    ensures Rows(a + b) == Rows(a) + Rows(b)
  {
    if a == [] {
      assert a + b == b;
    } else {
      assert (a + b)[0] == a[0];
      assert (a + b)[1..] == a[1..] + b;
      RowsConcat(a[1..], b);
    }
  }

  /**
   * The table keeps the order and the repetitions of the lines: a line's
   * row, when it has one, sits between the rows of the lines before and after it.
   */
  lemma TableQuestionsAround(value: string, a: seq<string>, line: string, b: seq<string>)
    requires Split(value, '\n') == a + [line] + b
    ensures TableQuestions(value)
      == Rows(a) + (if LineRow(line).Some? then [LineRow(line).value] else []) + Rows(b)
  {
    RowsConcat(a + [line], b);
    RowsConcat(a, [line]);
    RowsOne(line);
  }

  lemma RowsOne(line: string)
    ensures Rows([line]) == if LineRow(line).Some? then [LineRow(line).value] else []
  {
    assert [line][1..] == [];
  }

  /** When every line yields a row, row `k` is the row of line `k`: line order is kept. */
  lemma {:induction false} RowsInLineOrder(lines: seq<string>)
    requires forall k :: 0 <= k < |lines| ==> LineRow(lines[k]).Some?
    ensures |Rows(lines)| == |lines|
    ensures forall k :: 0 <= k < |lines| ==> Rows(lines)[k] == LineRow(lines[k]).value
  {
    if lines != [] {
      assert forall k :: 0 <= k < |lines[1..]| ==> lines[1..][k] == lines[k + 1];
      RowsInLineOrder(lines[1..]);
    }
  }

  /** The table has at most one row per line, and the empty value has none. */
  lemma TableQuestionsBound(value: string)
    ensures |TableQuestions(value)| <= |Split(value, '\n')|
    ensures TableQuestions("") == []
  {
    assert Split("", '\n') == [""];
    assert Split("", ':') == [""];
  }

  /**
   * A table value the validator accepts renders rows whose text stays
   * within the limit on characters per question: the validator measures
   * the untrimmed piece that the renderer shows trimmed.
   */
  lemma AcceptedRowsWithinLimit(value: string, maxChars: nat)
    requires forall k :: 0 <= k < |Split(value, '\n')| ==> !Validator.LineTooLong(Split(value, '\n')[k], Some(maxChars))
    ensures forall r :: r in TableQuestions(value) ==> |r.value| <= maxChars
  {
    var lines := Split(value, '\n');
    forall r | r in TableQuestions(value) ensures |r.value| <= maxChars {
      RowsMembers(lines, r);
      var k :| 0 <= k < |lines| && LineRow(lines[k]) == Some(r);
      var piece := Split(lines[k], ':')[1];
      assert PieceAt(lines[k], ':', 1) == Some(piece);
      TrimLength(piece);
    }
  }

  /** Trimming never lengthens a string. */
  lemma TrimLength(s: string)
    ensures |Trim(s)| <= |s|
  {
    TrimSlice(s);
  }

  // ---------------------------------------------------------------------
  // The rendered table
  // ---------------------------------------------------------------------

  /** `tableHeaders`: the fixed column titles; `parseHeaders` is defined beside it but never called. */
  const RenderedHeaders: seq<string> := ["Option No", "Text Input"]

  /** What the component shows: the two column titles and one row label per parsed row. */
  datatype RenderedTable = RenderedTable(headers: seq<string>, labels: seq<string>)

  /**
   * The table the component renders for a question in a language: the
   * fixed titles, and the text of each parsed row as its label (the key of
   * a row is not shown).
   */
  function Render(q: Question, language: string): (t: RenderedTable)
    ensures t.headers == RenderedHeaders
    ensures |t.labels| == |TableQuestions(TableQuestionValue(q, language))|
    ensures forall k :: 0 <= k < |t.labels| ==> t.labels[k] != "" && t.labels[k] == TableQuestions(TableQuestionValue(q, language))[k].value
  {
    var rows := TableQuestions(TableQuestionValue(q, language));
    RowsShape(Split(TableQuestionValue(q, language), '\n'));
    RenderedTable(RenderedHeaders, seq(|rows|, k requires 0 <= k < |rows| => rows[k].value))
  }

  /** Every parsed row has a non-empty key and text. */
  lemma {:induction false} RowsShape(lines: seq<string>)
    ensures forall k :: 0 <= k < |Rows(lines)| ==> Rows(lines)[k].key != "" && Rows(lines)[k].value != ""
  {
    if lines != [] {
      RowsShape(lines[1..]);
    }
  }

  /**
   * The rendered table depends on the question only through its table
   * question value: the header value, wherever it comes from, changes
   * nothing, and the titles are the fixed ones, not the parsed headers.
   */
  lemma RenderIgnoresHeaderValue(q: Question, r: Question, language: string)
    requires TableQuestionValue(q, language) == TableQuestionValue(r, language)
    ensures Render(q, language) == Render(r, language)
    ensures Render(q, language).headers == ["Option No", "Text Input"]
  {
  }

  /** Two trimmed, non-empty headers joined by a '|' parse back to themselves. */
  lemma ParseTwoHeaders(a: string, b: string)
    requires a != "" && b != "" && Trim(a) == a && Trim(b) == b && '|' !in a && '|' !in b
    ensures ParseHeaders(a + "|" + b) == [a, b]
  {
    var value := a + "|" + b;
    assert value == a + ['|'] + b;
    assert '|' in value by { assert value[|a|] == '|'; }
    SplitFirst(a, b, '|');
    assert Split(value, '|') == [a] + [b];
    NonEmptyTrimmedConcat([a], [b]);
    NonEmptyTrimmedOne(a);
    NonEmptyTrimmedOne(b);
  }

  /** A question with the parsable header value "A|B" still renders the fixed titles, not "A" and "B". */
  lemma ParsedHeadersNotRendered(q: Question, language: string)
    requires TableHeaderValue(q, language) == "A|B"
    ensures ParseHeaders(TableHeaderValue(q, language)) == ["A", "B"]
    ensures Render(q, language).headers != ParseHeaders(TableHeaderValue(q, language))
  {
    assert Trim("A") == "A" && Trim("B") == "B";
    ParseTwoHeaders("A", "B");
    assert "A" + "|" + "B" == "A|B";
    assert RenderedHeaders[0] != "A";
  }
}
