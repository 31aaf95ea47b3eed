/** The text logic of `CSVHandler` (src/utils/csvHandler.ts): parsing an
    uploaded file's text into headers and rows, structural validation, and
    serialising a dataset back to text. */
module CsvHandler {
  import opened Text
  import opened Seqs

  /** The `CSVData` record: ordered header names and rows of cells. */
  datatype CsvData = CsvData(headers: seq<string>, rows: seq<seq<string>>)

  /** What `parseCSV` resolves or rejects with. */
  datatype ParseResult = Parsed(data: CsvData) | ParseError(message: string)

  /** `{ valid: true }` or `{ valid: false, error }`. */
  datatype Validation = Valid | Invalid(error: string)

  const EmptyFileError := "CSV file is empty"
  const NoHeadersError := "CSV must have headers"
  const NoRowsError := "CSV must have at least one data row"

  /** `line.trim()` is truthy: the line survives the filter. */
  predicate KeptLine(line: string) {
    Trim(line) != ""
  }

  /** `line.split(',').map(cell => cell.trim())`. */
  function Cells(line: string): seq<string> {
    Map(Split(line, ','), Trim)
  }

  /** A cell that parsing can produce: trimmed, without separators. */
  predicate CleanCell(c: string) {
    ',' !in c && '\n' !in c && IsTrimmed(c)
  }

  /** The text of `parseCSV`: split on '\n', drop whitespace-only lines, the
      first remaining line gives the headers and every later one a row. */
  function ParseCsv(text: string): (r: ParseResult)
    ensures r.ParseError? <==> IsBlank(text)
    ensures r.ParseError? ==> r.message == EmptyFileError
    ensures r.Parsed? ==> |r.data.headers| >= 1
    ensures r.Parsed? ==>
      |r.data.rows| + 1 == |Filter(Split(text, '\n'), KeptLine)|
  {
    var lines := Filter(Split(text, '\n'), KeptLine);
    NoKeptLineIffBlank(text);
    if |lines| == 0 then ParseError(EmptyFileError)
    else Parsed(CsvData(Cells(lines[0]), Map(lines[1..], Cells)))
  }

  lemma TrimSub(s: string, c: char)
    requires c !in s
    ensures c !in Trim(s)
  {
    var l := TrimLeft(s);
    assert l == s[|s| - |l|..];
    assert TrimRight(l) == l[..|TrimRight(l)|];
  }

  lemma CellsClean(line: string)
    requires '\n' !in line
    ensures forall i :: 0 <= i < |Cells(line)| ==> CleanCell(Cells(line)[i])
  {
    var parts := Split(line, ',');
    forall i | 0 <= i < |parts| ensures CleanCell(Trim(parts[i])) {
      SplitPieceAvoids(line, ',', '\n', i);
      TrimSub(parts[i], ',');
      TrimSub(parts[i], '\n');
    }
  }

  /** Every piece of a split avoids a character the whole string avoids. */
  lemma {:induction false} SplitPieceAvoids(s: string, sep: char, c: char, i: nat)
    requires c !in s
    requires i < |Split(s, sep)|
    ensures c !in Split(s, sep)[i]
  {
    if s != [] {
      var rest := Split(s[1..], sep);
      if s[0] == sep {
        if i > 0 { SplitPieceAvoids(s[1..], sep, c, i - 1); }
      } else {
        if i > 0 { SplitPieceAvoids(s[1..], sep, c, i); }
        else { SplitPieceAvoids(s[1..], sep, c, 0); }
      }
    }
  }

  /** Every cell `parseCSV` produces is trimmed and free of ',' and '\n'. */
  lemma ParsedCellsClean(text: string)
    requires ParseCsv(text).Parsed?
    ensures forall i :: 0 <= i < |ParseCsv(text).data.headers| ==>
      CleanCell(ParseCsv(text).data.headers[i])
    ensures forall k, i :: (0 <= k < |ParseCsv(text).data.rows| &&
      0 <= i < |ParseCsv(text).data.rows[k]|) ==> CleanCell(ParseCsv(text).data.rows[k][i])
  {
    var lines := Filter(Split(text, '\n'), KeptLine);
    LinesAvoidNewline(text);
    CellsClean(lines[0]);
    RowsClean(lines[1..]);
  }

  lemma LinesAvoidNewline(text: string)
    ensures forall k :: 0 <= k < |Filter(Split(text, '\n'), KeptLine)| ==>
      '\n' !in Filter(Split(text, '\n'), KeptLine)[k]
  {
    var pieces := Split(text, '\n');
    var lines := Filter(pieces, KeptLine);
    forall k | 0 <= k < |lines| ensures '\n' !in lines[k] {
      assert lines[k] in pieces;
    }
  }

  lemma RowsClean(lines: seq<string>)
    requires forall k :: 0 <= k < |lines| ==> '\n' !in lines[k]
    ensures forall k, i :: (0 <= k < |Map(lines, Cells)| && 0 <= i < |Map(lines, Cells)[k]|) ==>
      CleanCell(Map(lines, Cells)[k][i])
  {
    forall k | 0 <= k < |lines|
      ensures forall i :: 0 <= i < |Cells(lines[k])| ==> CleanCell(Cells(lines[k])[i])
    {
      CellsClean(lines[k]);
    }
  }

  /** Joining blank pieces with a blank separator gives a blank string. */
  lemma {:induction false} JoinBlank(parts: seq<string>, sep: string)
    requires IsBlank(sep)
    requires forall i :: 0 <= i < |parts| ==> IsBlank(parts[i])
    ensures IsBlank(Join(parts, sep))
  {
    if |parts| > 1 {
      JoinBlank(parts[1..], sep);
      var j := Join(parts[1..], sep);
      var all := parts[0] + sep + j;
      forall i | 0 <= i < |all| ensures IsSpace(all[i]) {
        if i < |parts[0]| { assert all[i] == parts[0][i]; }
        else if i < |parts[0]| + |sep| { assert all[i] == sep[i - |parts[0]|]; }
        else { assert all[i] == j[i - |parts[0]| - |sep|]; }
      }
    }
  }

  /** Pieces of a blank string are blank. */
  lemma {:induction false} SplitBlank(s: string, sep: char, i: nat)
    requires IsBlank(s)
    requires i < |Split(s, sep)|
    ensures IsBlank(Split(s, sep)[i])
  {
    if s != [] {
      assert IsBlank(s[1..]) by {
        forall k | 0 <= k < |s[1..]| ensures IsSpace(s[1..][k]) { assert s[1..][k] == s[k + 1]; }
      }
      var rest := Split(s[1..], sep);
      if s[0] == sep {
        if i > 0 { SplitBlank(s[1..], sep, i - 1); }
      } else if i > 0 {
        SplitBlank(s[1..], sep, i);
      } else {
        SplitBlank(s[1..], sep, 0);
        var w := [s[0]] + rest[0];
        forall k | 0 <= k < |w| ensures IsSpace(w[k]) {
          if k > 0 { assert w[k] == rest[0][k - 1]; }
        }
      }
    }
  }

  /** No line survives the filter exactly when the whole text is whitespace. */
  lemma NoKeptLineIffBlank(text: string)
    ensures |Filter(Split(text, '\n'), KeptLine)| == 0 <==> IsBlank(text)
  {
    var pieces := Split(text, '\n');
    if |Filter(pieces, KeptLine)| == 0 {
      forall i | 0 <= i < |pieces| ensures IsBlank(pieces[i]) {
        assert pieces[i] in pieces;
        assert !KeptLine(pieces[i]);
        TrimEmptyIffBlank(pieces[i]);
      }
      JoinSplit(text, '\n');
      JoinBlank(pieces, "\n");
    } else {
      var line := Filter(pieces, KeptLine)[0];
      assert line in pieces;
      var i :| 0 <= i < |pieces| && pieces[i] == line;
      TrimEmptyIffBlank(line);
      if IsBlank(text) {
        SplitBlank(text, '\n', i);
        assert false;
      }
    }
  }

  /** The message for the first row of the wrong width (row numbers 1-based). */
  function RowError(index: nat, columns: nat, expected: nat): string {
    "Row " + NatToString(index + 1) + " has " + NatToString(columns)
      + " columns, expected " + NatToString(expected)
  }

  /** `validateCSV`: headers first, then at least one row, then the first row
      whose width differs from the header count. Does not change `d`. */
  method ValidateCsv(d: CsvData) returns (r: Validation)
    ensures |d.headers| == 0 ==> r == Invalid(NoHeadersError)
    ensures |d.headers| > 0 && |d.rows| == 0 ==> r == Invalid(NoRowsError)
    ensures |d.headers| > 0 && |d.rows| > 0 ==>
      (r == Valid <==> forall i :: 0 <= i < |d.rows| ==> |d.rows[i]| == |d.headers|)
    ensures |d.headers| > 0 ==> forall i ::
      (0 <= i < |d.rows| && |d.rows[i]| != |d.headers| &&
       (forall j :: 0 <= j < i ==> |d.rows[j]| == |d.headers|)) ==>
        r == Invalid(RowError(i, |d.rows[i]|, |d.headers|))
  {
    if |d.headers| == 0 {
      return Invalid(NoHeadersError);
    }
    if |d.rows| == 0 {
      return Invalid(NoRowsError);
    }
    var headerCount := |d.headers|;
    var i := 0;
    while i < |d.rows|
      invariant 0 <= i <= |d.rows|
      invariant forall j :: 0 <= j < i ==> |d.rows[j]| == headerCount
    {
      if |d.rows[i]| != headerCount {
        return Invalid(RowError(i, |d.rows[i]|, headerCount));
      }
      i := i + 1;
    }
    return Valid;
  }

  /** The worked example: headers [a, b] with rows [[1, 2], [3]]. */
  method ValidateShortSecondRow() returns (r: Validation)
    ensures r == Invalid("Row 2 has 1 columns, expected 2")
  {
    var d := CsvData(["a", "b"], [["1", "2"], ["3"]]);
    r := ValidateCsv(d);
    assert |d.rows[0]| == 2 && |d.rows[1]| == 1;
    assert r == Invalid(RowError(1, 1, 2));
    SecondRowMessage();
  }

  lemma SecondRowMessage()
    ensures RowError(1, 1, 2) == "Row 2 has 1 columns, expected 2"
  {
    assert NatToString(2) == "2" && NatToString(1) == "1";
  }

  /** `row.join(',')`. */
  function RowText(row: seq<string>): string {
    Join(row, ",")
  }

  /** `getCSVContent`: the header line, '\n', then the rows separated by '\n'. */
  function GetCsvContent(d: CsvData): string {
    Join(d.headers, ",") + "\n" + Join(Map(d.rows, RowText), "\n")
  }

  /** The datasets that survive serialising and re-parsing unchanged. */
  predicate RoundTrips(d: CsvData) {
    && (forall i :: 0 <= i < |d.headers| ==> CleanCell(d.headers[i]))
    && (forall k, i :: 0 <= k < |d.rows| && 0 <= i < |d.rows[k]| ==> CleanCell(d.rows[k][i]))
    && KeptLine(RowText(d.headers))
    && (forall k :: 0 <= k < |d.rows| ==> KeptLine(RowText(d.rows[k])))
  }

  lemma CellsOfRowText(row: seq<string>)
    requires forall i :: 0 <= i < |row| ==> CleanCell(row[i])
    requires KeptLine(RowText(row))
    ensures Cells(RowText(row)) == row
    ensures '\n' !in RowText(row)
  {
    assert |row| >= 1;
    SplitJoin(row, ',');
    forall i | 0 <= i < |row| ensures Trim(row[i]) == row[i] {
      TrimFixesTrimmed(row[i]);
    }
    JoinAvoids(row, ",", '\n');
  }

  /** The lines of the serialised text that survive the blank-line filter. */
  lemma ContentLines(d: CsvData)
    requires RoundTrips(d)
    ensures Filter(Split(GetCsvContent(d), '\n'), KeptLine) ==
      [RowText(d.headers)] + Map(d.rows, RowText)
  {
    var texts := Map(d.rows, RowText);
    CellsOfRowText(d.headers);
    forall k | 0 <= k < |texts| ensures '\n' !in texts[k] && KeptLine(texts[k]) {
      CellsOfRowText(d.rows[k]);
    }
    KeptLinesOfJoin(RowText(d.headers), texts);
  }

  lemma KeptLinesOfJoin(h: string, texts: seq<string>)
    requires '\n' !in h && KeptLine(h)
    requires forall k :: 0 <= k < |texts| ==> '\n' !in texts[k] && KeptLine(texts[k])
    ensures Filter(Split(h + "\n" + Join(texts, "\n"), '\n'), KeptLine) == [h] + texts
  {
    SplitAfterWord(h, '\n', Join(texts, "\n"));
    if |texts| == 0 {
      FilterHead(h, [""]);
      FilterBlankLine();
    } else {
      SplitJoin(texts, '\n');
      FilterAll(texts, KeptLine);
      FilterHead(h, texts);
    }
  }

  lemma FilterHead(h: string, rest: seq<string>)
    requires KeptLine(h)
    ensures Filter([h] + rest, KeptLine) == [h] + Filter(rest, KeptLine)
  {
    assert ([h] + rest)[1..] == rest;
  }

  lemma FilterBlankLine()
    ensures Filter([""], KeptLine) == []
  {
    assert Trim("") == "";
  }

  lemma RowsOfRowTexts(d: CsvData)
    requires RoundTrips(d)
    ensures Map(Map(d.rows, RowText), Cells) == d.rows
  {
    forall k | 0 <= k < |d.rows| ensures Cells(RowText(d.rows[k])) == d.rows[k] {
      CellsOfRowText(d.rows[k]);
    }
  }

  /** Serialising then parsing gives back the dataset, for datasets whose
      cells carry no separators or edge whitespace and whose lines are not
      blank. */
  lemma ParseGetCsvContent(d: CsvData)
    requires RoundTrips(d)
    ensures ParseCsv(GetCsvContent(d)) == Parsed(d)
  {
    var lines := [RowText(d.headers)] + Map(d.rows, RowText);
    ContentLines(d);
    CellsOfRowText(d.headers);
    RowsOfRowTexts(d);
    assert lines[1..] == Map(d.rows, RowText);
  }
}
