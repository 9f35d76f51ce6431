/**
 * The text of the exported report and its file name (src/App.js:149-180),
 * without the download itself.
 */
module Report {
  import opened Config
  import opened Text
  import opened TimerLedger

  const TITLE: string := "Ride Data Logger Report\n\n"
  const TABLE_HEADER: string := "Category,Condition,Minutes\n"

  /** The session form's fields, in declaration order (src/App.js:31-39). */
  const FORM_FIELDS: seq<string> := ["Driver", "Annotator", "Date", "Vehicle", "RSUNo", "RSUStartDate", "DriveId"]

  /** One `field,value` header line. */
  function FieldLine(field: (string, string)): string
  {
    field.0 + "," + field.1 + "\n"
  }

  function FormLines(form: seq<(string, string)>): string
  {
    if form == [] then "" else FormLines(form[..|form| - 1]) + FieldLine(form[|form| - 1])
  }

  /** One data row: the key split at its first separator, then the formatted duration. */
  function Row(key: string, ms: nat): string
  {
    var parts := SplitKey(key);
    parts.0 + "," + parts.1 + "," + FormatTime(ms) + "\n"
  }

  function Rows(order: seq<string>, logs: map<string, nat>): string
  {
    if order == [] then ""
    else Rows(order[..|order| - 1], logs) + Row(order[|order| - 1], LogOf(logs, order[|order| - 1]))
  }

  /** The optional trailing comment line. */
  function CommentBlock(comment: string): string
  {
    if Trim(comment) != "" then "\nComment," + ReplaceCommas(comment) + "\n" else ""
  }

  /** The session start, end and duration lines; the two times are already rendered as text. */
  function SessionLines(startText: string, endText: string, durationMs: nat): string
  {
    "Session Start," + startText + "\n" + "Session End," + endText + "\n"
    + "Session Duration," + FormatTime(durationMs) + "\n\n"
  }

  /** The whole report text. */
  function Csv(form: seq<(string, string)>, startText: string, endText: string, durationMs: nat,
               order: seq<string>, logs: map<string, nat>, comment: string): string
  {
    TITLE + FormLines(form) + SessionLines(startText, endText, durationMs)
    + TABLE_HEADER + Rows(order, logs) + CommentBlock(comment)
  }

  /** `Object.keys(formData).forEach(...)`: appends one header line per field. */
  method AppendFields(csv: string, form: seq<(string, string)>) returns (out: string)
    ensures out == csv + FormLines(form)
  {
    out := csv;
    for i := 0 to |form|
      invariant out == csv + FormLines(form[..i])
    {
      assert form[..i + 1][..i] == form[..i];
      out := out + FieldLine(form[i]);
    }
    assert form[..|form|] == form;
  }

  /** Concatenation regroups; stated once so that no caller has to compare strings character by character. */
  lemma ConcatAssoc(a: string, b: string, c: string)
    ensures (a + b) + c == a + (b + c)
  {
  }

  lemma RowsSnoc(order: seq<string>, logs: map<string, nat>, i: nat)
    requires i < |order|
    ensures Rows(order[..i + 1], logs) == Rows(order[..i], logs) + Row(order[i], LogOf(logs, order[i]))
  {
    assert order[..i + 1][..i] == order[..i];
  }

  /** `for (let key in logs)`: appends one row per key, splitting the key at its first separator. */
  method AppendRows(csv: string, order: seq<string>, logs: map<string, nat>) returns (out: string)
    ensures out == csv + Rows(order, logs)
  {
    out := csv;
    for i := 0 to |order|
      invariant out == csv + Rows(order[..i], logs)
    {
      var key := order[i];
      var row := Row(key, LogOf(logs, key));
      RowsSnoc(order, logs, i);
      ConcatAssoc(csv, Rows(order[..i], logs), row);
      out := out + row;
    }
    assert order[..|order|] == order;
  }

  /** The report text built line by line, as `exportCSV` appends to `csv`. */
  method BuildCsv(form: seq<(string, string)>, startText: string, endText: string, durationMs: nat,
                  order: seq<string>, logs: map<string, nat>, comment: string) returns (csv: string)
    ensures csv == Csv(form, startText, endText, durationMs, order, logs, comment)
  {
    csv := AppendFields(TITLE, form);
    csv := csv + SessionLines(startText, endText, durationMs) + TABLE_HEADER;
    csv := AppendRows(csv, order, logs);
    if Trim(comment) != "" {
      csv := csv + ("\nComment," + ReplaceCommas(comment) + "\n");
    }
  }

  /** The row of a configured key names its category and its whole condition, separators included. */
  lemma RowOfKey(category: string, condition: string, ms: nat)
    requires IsCategory(category)
    ensures Row(Key(category, condition), ms) == category + "," + condition + "," + FormatTime(ms) + "\n"
  {
    var _ := LookupSome(category);
    SplitKeyOfKey(category, condition);
  }

  /**
   * The comment line is present exactly when the comment is not blank, and
   * then carries the comment, character for character, with no comma left.
   */
  lemma CommentBlockMeaning(comment: string)
    ensures CommentBlock(comment) == "" <==> IsBlank(comment)
    ensures !IsBlank(comment) ==> exists t :: CommentBlock(comment) == "\nComment," + t + "\n"
                                     && |t| == |comment| && ',' !in t
  {
    TrimEmptyIffBlank(comment);
    NoCommaLeft(comment);
  }

  /** The clock reading the file name is built from, as the `Date` getters return it. */
  datatype DateParts = DateParts(year: nat, month0: nat, day: nat, hours: nat, minutes: nat, seconds: nat)

  predicate IsCalendarTime(d: DateParts)
  {
    1000 <= d.year < 10000 && d.month0 < 12 && 1 <= d.day <= 31
    && d.hours < 24 && d.minutes < 60 && d.seconds < 60
  }

  /** `RideData_YYYY-MM-DD_HH-MM-SS.csv`, the month counted from 1. */
  function FileName(d: DateParts): string
  {
    "RideData_" + NatToString(d.year) + "-" + Pad2(d.month0 + 1) + "-" + Pad2(d.day)
    + "_" + Pad2(d.hours) + "-" + Pad2(d.minutes) + "-" + Pad2(d.seconds) + ".csv"
  }

  /** Where each part of the file name starts, given that every part has its nominal width. */
  lemma FileNameDateSlices(d: DateParts)
    requires IsCalendarTime(d)
    ensures var f := FileName(d);
      && |f| == 32 && f[..9] == "RideData_" && f[13] == '-' && f[16] == '-' && f[19] == '_'
      && f[9..13] == NatToString(d.year) && f[14..16] == Pad2(d.month0 + 1) && f[17..19] == Pad2(d.day)
  {
    FourDigits(d.year);
    Pad2Small(d.month0 + 1);
    Pad2Small(d.day);
    Pad2Small(d.hours);
    Pad2Small(d.minutes);
    Pad2Small(d.seconds);
  }

  lemma FileNameTimeSlices(d: DateParts)
    requires IsCalendarTime(d)
    ensures var f := FileName(d);
      && |f| == 32 && f[28..] == ".csv" && f[22] == '-' && f[25] == '-'
      && f[20..22] == Pad2(d.hours) && f[23..25] == Pad2(d.minutes) && f[26..28] == Pad2(d.seconds)
  {
    FourDigits(d.year);
    Pad2Small(d.month0 + 1);
    Pad2Small(d.day);
    Pad2Small(d.hours);
    Pad2Small(d.minutes);
    Pad2Small(d.seconds);
  }

  /** For a four-digit year the file name has fixed positions that read back as the date and time. */
  lemma FileNameFields(d: DateParts)
    requires IsCalendarTime(d)
    ensures var f := FileName(d);
      && |f| == 32 && f[..9] == "RideData_" && f[28..] == ".csv"
      && f[13] == '-' && f[16] == '-' && f[19] == '_' && f[22] == '-' && f[25] == '-'
      && AllDigits(f[9..13]) && ParseDigits(f[9..13]) == d.year
      && AllDigits(f[14..16]) && ParseDigits(f[14..16]) == d.month0 + 1
      && AllDigits(f[17..19]) && ParseDigits(f[17..19]) == d.day
      && AllDigits(f[20..22]) && ParseDigits(f[20..22]) == d.hours
      && AllDigits(f[23..25]) && ParseDigits(f[23..25]) == d.minutes
      && AllDigits(f[26..28]) && ParseDigits(f[26..28]) == d.seconds
  {
    FileNameDateSlices(d);
    FileNameTimeSlices(d);
    ParseNatToString(d.year);
    Pad2Small(d.month0 + 1);
    Pad2Small(d.day);
    Pad2Small(d.hours);
    Pad2Small(d.minutes);
    Pad2Small(d.seconds);
  }
}
