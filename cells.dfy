/**
 * `normalizeCellValue` of the import route (server/routes/import.js): a raw
 * worksheet cell becomes the text the rest of the pipeline works on.
 */
module Cells {
  import opened Wrappers
  import opened Text

  /**
   * A worksheet cell as the spreadsheet reader hands it over: nothing, a
   * string, a date (day of month, month 1-12, full year), or a structured
   * value with its `text`, `richText` runs, formula `result` and `hyperlink`.
   * An empty `text` or `hyperlink` stands for a missing or falsy one.
   */
  datatype Cell =
    | NoValue
    | Str(s: string)
    | DateCell(day: nat, month: nat, year: nat)
    | Rich(text: string, richText: Option<seq<string>>, result: Option<string>, hyperlink: string)

  /** What normalisation yields: nothing, a text, or the structured value passed through unreduced. */
  datatype CellValue = Missing | Value(s: string) | Unreduced

  /** `${day}/${month}/${year}` with day and month padded to two digits. */
  function FormatCellDate(day: nat, month: nat, year: nat): string {
    Pad2(day) + "/" + Pad2(month) + "/" + DecimalString(year)
  }

  /** `parts.join('')`. */
  function Concat(parts: seq<string>): string {
    if parts == [] then [] else parts[0] + Concat(parts[1..])
  }

  /**
   * `normalizeCellValue`: a missing cell stays missing, a date is written
   * DD/MM/YYYY, a string is trimmed, and a structured value reduces to its
   * text, else its joined rich-text runs, else its formula result, else its
   * hyperlink.
   */
  function NormalizeCellValue(c: Cell): (r: CellValue)
    ensures r.Missing? <==> c.NoValue?
    ensures r.Unreduced? <==> c == Rich("", None, None, "")
  {
    match c
    case NoValue => Missing
    case DateCell(d, m, y) => Value(FormatCellDate(d, m, y))
    case Str(s) => Value(Trim(s))
    case Rich(text, richText, result, hyperlink) =>
      if text != "" then Value(text)
      else if richText.Some? then Value(Concat(richText.value))
      else if result.Some? then Value(result.value)
      else if hyperlink != "" then Value(hyperlink)
      else Unreduced
  }

  /** The text a record field receives from a cell: nothing for a missing or unreduced value. */
  function CellText(v: CellValue): string {
    match v
    case Value(s) => s
    case _ => ""
  }

  /** A structured value reduces by precedence: `text`, then `richText`, then `result`, then `hyperlink`. */
  lemma RichCellPrecedence(text: string, richText: Option<seq<string>>, result: Option<string>, hyperlink: string)
    ensures var r := NormalizeCellValue(Rich(text, richText, result, hyperlink));
      && (text != "" ==> r == Value(text))
      && (text == "" && richText.Some? ==> r == Value(Concat(richText.value)))
      && (text == "" && richText.None? && result.Some? ==> r == Value(result.value))
      && (text == "" && richText.None? && result.None? && hyperlink != "" ==> r == Value(hyperlink))
  {
  }

  /** Normalising a string cell's text again changes nothing. */
  lemma StringCellIdempotent(s: string)
    ensures NormalizeCellValue(Str(CellText(NormalizeCellValue(Str(s))))) == NormalizeCellValue(Str(s))
  {
    TrimIdempotent(s);
  }

  /**
   * A date cell's text reads back as the date: two digits of day, '/', two
   * digits of month, '/', then the year's digits.
   */
  lemma DateCellReadsBack(day: nat, month: nat, year: nat)
    requires day < 100 && month < 100
    ensures var r := CellText(NormalizeCellValue(DateCell(day, month, year)));
      && |r| > 6 && r[2] == '/' && r[5] == '/'
      && IsDigits(r[..2]) && DigitsValue(r[..2]) == day
      && IsDigits(r[3..5]) && DigitsValue(r[3..5]) == month
      && IsDigits(r[6..]) && DigitsValue(r[6..]) == year
  {
    var r := FormatCellDate(day, month, year);
    var d, m, y := Pad2(day), Pad2(month), DecimalString(year);
    assert r == d + "/" + m + "/" + y;
    assert r[..2] == d;
    assert r[3..5] == m;
    assert r[6..] == y;
    DecimalRoundTrip(year);
  }
}
