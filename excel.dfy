/**
  Report files: their names, the A1-style range of a data table, the text of
  a CSV export and the coercion of a raw field before it goes into a sheet.
*/
module Excel {
  import opened Wrappers
  import opened Strings

  /** `FILE_ENDING`: an `IntEnum`, so a plain integer with the same value finds the same entry. */
  const Csv := 1
  const Json := 2
  const Xl := 3
  const Xml := 4

  /** `__FILE_ENDING_LOOKUP`. */
  const FileEndingLookup: map<int, string> := map[Csv := "csv", Json := "json", Xl := "xlsx", Xml := "xml"]

  /** The suffix `get_file_name` uses: a missing (or zero) ending, or one not in the lookup, means `XL`. */
  function Suffix(ending: Option<int>): (s: string)
    ensures s in FileEndingLookup.Values && '.' !in s
    ensures ending.None? || ending.value !in FileEndingLookup ==> s == "xlsx"
    ensures ending.Some? && ending.value in FileEndingLookup ==> s == FileEndingLookup[ending.value]
  {
    var e := if ending.None? || ending.value == 0 || ending.value !in FileEndingLookup then Xl else ending.value;
    assert FileEndingLookup[e] in FileEndingLookup.Values;
    FileEndingLookup[e]
  }

  /**
    The timestamp part of a file name. During a tournament (when asked to
    consider one) it is `tournament-<year>-<short month name, lower case>`,
    otherwise the `%Y%m%d-%H%M%S` rendering of the retrieval time, given here.
  */
  function Timestamp(considerTourney: bool, tourneyRunning: bool, year: int, monthShortName: string, formatted: string): (s: string)
    ensures considerTourney && tourneyRunning ==> s == "tournament-" + IntToString(year) + "-" + Lower(monthShortName)
    ensures !(considerTourney && tourneyRunning) ==> s == formatted
  {
    if considerTourney && tourneyRunning then "tournament-" + IntToString(year) + "-" + Lower(monthShortName) else formatted
  }

  /** `get_file_name`: `<prefix with spaces as underscores>_<timestamp>.<suffix>`. */
  function FileName(prefix: string, timestamp: string, ending: Option<int>): (r: string)
    ensures |r| == |prefix| + 1 + |timestamp| + 1 + |Suffix(ending)|
    ensures forall i :: 0 <= i < |prefix| && prefix[i] == ' ' ==> r[i] == '_'
    ensures forall i :: 0 <= i < |prefix| && prefix[i] != ' ' ==> r[i] == prefix[i]
  {
    ReplaceChar(prefix, ' ', '_') + "_" + timestamp + "." + Suffix(ending)
  }

  /**
    The parts can be read back from the name: it starts with the prefix
    (spaces replaced, others kept, so it contains no space), continues with
    `_` and the timestamp, and ends with `.` and the suffix, which holds no dot;
    a prefix without spaces is kept as it is.
  */
  lemma FileNameParts(prefix: string, timestamp: string, ending: Option<int>)
    ensures var r := FileName(prefix, timestamp, ending);
      var p, n := |prefix|, |FileName(prefix, timestamp, ending)| - |Suffix(ending)|;
      && ' ' !in r[..p]
      && (forall i :: 0 <= i < p && prefix[i] == ' ' ==> r[i] == '_')
      && (forall i :: 0 <= i < p && prefix[i] != ' ' ==> r[i] == prefix[i])
      && (' ' !in prefix ==> r[..p] == prefix)
      && r[p] == '_' && r[p + 1..n - 1] == timestamp
      && r[n - 1] == '.' && r[n..] == Suffix(ending) && '.' !in r[n..]
  {
    var r := FileName(prefix, timestamp, ending);
    var fixed := ReplaceChar(prefix, ' ', '_');
    assert r == fixed + "_" + timestamp + "." + Suffix(ending);
    assert r[..|prefix|] == fixed;
    if ' ' !in prefix {
      assert forall i :: 0 <= i < |prefix| ==> prefix[i] != ' ';
    }
  }

  /** The largest column index `get_column_letter` accepts: column `ZZZ`. */
  const MaxColumn := 18278

  /** A column index `get_column_letter` accepts. */
  predicate ValidColumn(n: int) {
    1 <= n <= MaxColumn
  }

  datatype ExcelError = InvalidColumnIndex(index: int)

  /** The letter of a digit 1..26 of the bijective base-26 column naming. */
  function Letter(d: int): char
    requires 1 <= d <= 26
  {
    ('A' as int + d - 1) as char
  }

  /** A column's name: `A`..`Z`, then `AA`..`ZZ`, `AAA`.., bijective base 26. */
  function Letters(n: nat): (s: string)
    requires n >= 1
    ensures |s| >= 1 && forall i :: 0 <= i < |s| ==> IsUpperLetter(s[i])
    decreases n
  {
    if n <= 26 then [Letter(n)] else Letters((n - 1) / 26) + [Letter((n - 1) % 26 + 1)]
  }

  /** A column's number from its name (`column_index_from_string`). */
  function ColumnIndex(s: string): nat
    requires forall i :: 0 <= i < |s| ==> IsUpperLetter(s[i])
    decreases |s|
  {
    if |s| == 0 then 0 else ColumnIndex(s[..|s| - 1]) * 26 + LetterValue(s[|s| - 1])
  }

  /** The digit 1..26 a capital letter stands for. */
  function LetterValue(c: char): (d: nat)
    requires IsUpperLetter(c)
    ensures 1 <= d <= 26 && Letter(d) == c
  {
    c as int - 'A' as int + 1
  }

  /** `openpyxl.utils.get_column_letter`: fails outside 1..18278. */
  function ColumnLetter(n: int): (r: Result<string, ExcelError>)
    ensures r.Ok? <==> ValidColumn(n)
    ensures r.Err? ==> r.error == InvalidColumnIndex(n)
    ensures r.Ok? ==> forall i :: 0 <= i < |r.value| ==> IsUpperLetter(r.value[i])
    ensures r.Ok? ==> 1 <= |r.value| <= 3 && ColumnIndex(r.value) == n
  {
    if 1 <= n <= MaxColumn then
      LettersRoundTrip(n);
      LettersLength(n);
      Ok(Letters(n))
    else Err(InvalidColumnIndex(n))
  }

  /** Naming a column and reading the name back gives the column. */
  lemma {:induction false} LettersRoundTrip(n: nat)
    requires n >= 1
    ensures ColumnIndex(Letters(n)) == n
    decreases n
  {
    if n > 26 {
      var s := Letters(n);
      LettersRoundTrip((n - 1) / 26);
      assert s[..|s| - 1] == Letters((n - 1) / 26);
    }
  }

  /** Columns up to `ZZZ` have names of at most three letters. */
  lemma LettersLength(n: nat)
    requires 1 <= n <= MaxColumn
    ensures |Letters(n)| <= 3
  {
    if n > 26 {
      var q := (n - 1) / 26;
      if q > 26 {
        assert |Letters((q - 1) / 26)| == 1;
        assert |Letters(q)| == 2;
      }
    }
  }

  /** Every non-empty name of capital letters is the name of exactly the column it reads as. */
  lemma {:induction false} ColumnIndexRoundTrip(s: string)
    requires |s| >= 1 && forall i :: 0 <= i < |s| ==> IsUpperLetter(s[i])
    ensures ColumnIndex(s) >= 1 && Letters(ColumnIndex(s)) == s
    decreases |s|
  {
    var front := s[..|s| - 1];
    var d := LetterValue(s[|s| - 1]);
    if |s| == 1 {
      assert ColumnIndex(front) == 0;
      assert [Letter(d)] == s;
    } else {
      ColumnIndexRoundTrip(front);
      var q := ColumnIndex(front);
      var n := ColumnIndex(s);
      assert n == q * 26 + d;
      SplitDigit(q, d);
      assert Letters(n) == Letters(q) + [Letter(d)];
      assert front + [s[|s| - 1]] == s;
    }
  }

  /** The last digit of `q * 26 + d` and the number before it. */
  lemma SplitDigit(q: nat, d: int)
    requires 1 <= d <= 26
    ensures (q * 26 + d - 1) / 26 == q && (q * 26 + d - 1) % 26 + 1 == d
  {
  }

  /** One end of a range: column name, then row number. */
  function CellRef(column: nat, row: int): string
    requires column >= 1
  {
    Letters(column) + IntToString(row)
  }

  /** A start index as `_convert_to_ref` uses it: zero-based starts are shifted by one. */
  function Start(x: int, zeroBased: bool): int {
    if zeroBased then x + 1 else x
  }

  /**
    `_convert_to_ref`: the range from the start cell to the cell `columnCount`
    columns right and `rowCount` rows down. It fails on the first column
    index outside 1..18278, the start's before the end's.
  */
  function ConvertToRef(columnCount: int, rowCount: int, columnStart: int, rowStart: int, zeroBased: bool): (r: Result<string, ExcelError>)
    ensures r.Ok? <==> ValidColumn(Start(columnStart, zeroBased)) && ValidColumn(Start(columnStart, zeroBased) + columnCount)
    ensures r.Ok? ==>
      r.value == CellRef(Start(columnStart, zeroBased), Start(rowStart, zeroBased)) + ":"
        + CellRef(Start(columnStart, zeroBased) + columnCount, Start(rowStart, zeroBased) + rowCount)
    ensures !ValidColumn(Start(columnStart, zeroBased)) ==> r == Err(InvalidColumnIndex(Start(columnStart, zeroBased)))
    ensures ValidColumn(Start(columnStart, zeroBased)) && !ValidColumn(Start(columnStart, zeroBased) + columnCount) ==>
      r == Err(InvalidColumnIndex(Start(columnStart, zeroBased) + columnCount))
  {
    var cs := Start(columnStart, zeroBased);
    var rs := Start(rowStart, zeroBased);
    var start := ColumnLetter(cs);
    var end := ColumnLetter(cs + columnCount);
    if start.Err? then Err(start.error)
    else if end.Err? then Err(end.error)
    else Ok(CellRef(cs, rs) + ":" + CellRef(cs + columnCount, rs + rowCount))
  }

  /** `_get_ref_for_df`: a frame of `columns` columns and `rows` data rows, plus its header row. */
  function RefForFrame(columns: nat, rows: nat, columnStart: int, rowStart: int, zeroBased: bool): (r: Result<string, ExcelError>)
    ensures r.Ok? <==> ValidColumn(Start(columnStart, zeroBased)) && ValidColumn(Start(columnStart, zeroBased) + columns - 1)
    ensures r.Ok? ==>
      r.value == CellRef(Start(columnStart, zeroBased), Start(rowStart, zeroBased)) + ":"
        + CellRef(Start(columnStart, zeroBased) + columns - 1, Start(rowStart, zeroBased) + rows)
  {
    ConvertToRef(columns - 1, rows, columnStart, rowStart, zeroBased)
  }

  /**
    With the default starts a frame's table spans from `A1` to the cell of its
    last column and of the row after its last data row (the header takes row 1);
    a frame without columns has no valid range.
  */
  lemma RefForFrameDefault(columns: nat, rows: nat)
    ensures columns == 0 ==> RefForFrame(columns, rows, 0, 0, true) == Err(InvalidColumnIndex(0))
    ensures 1 <= columns <= MaxColumn ==>
      RefForFrame(columns, rows, 0, 0, true).Ok? && RefForFrame(columns, rows, 0, 0, true).value == "A1:" + CellRef(columns, rows + 1)
  {
    if columns >= 1 {
      assert Letters(1) == "A" && IntToString(1) == "1";
      assert CellRef(1, 1) + ":" == "A1:";
    }
  }

  /** The longest prefix of capital letters. */
  function LetterPrefix(s: string): (n: nat)
    ensures n <= |s| && forall i :: 0 <= i < n ==> IsUpperLetter(s[i])
    ensures n < |s| ==> !IsUpperLetter(s[n])
    decreases |s|
  {
    if |s| == 0 || !IsUpperLetter(s[0]) then 0 else 1 + LetterPrefix(s[1..])
  }

  /** Reads a cell reference back into its column and row (rows from 0 up). */
  function ParseCellRef(s: string): Option<(nat, nat)> {
    var n := LetterPrefix(s);
    var digits := s[n..];
    if n == 0 || |digits| == 0 || exists i :: 0 <= i < |digits| && !IsDigit(digits[i]) then None
    else Some((ColumnIndex(s[..n]), DigitsValue(digits)))
  }

  lemma {:induction false} LetterPrefixOfRef(letters: string, digits: string)
    requires forall i :: 0 <= i < |letters| ==> IsUpperLetter(letters[i])
    requires |digits| >= 1 && IsDigit(digits[0])
    ensures LetterPrefix(letters + digits) == |letters|
    decreases |letters|
  {
    if |letters| > 0 {
      assert (letters + digits)[1..] == letters[1..] + digits;
      LetterPrefixOfRef(letters[1..], digits);
    }
  }

  /** A cell reference with a non-negative row reads back as that column and row. */
  lemma CellRefRoundTrip(column: nat, row: nat)
    requires column >= 1
    ensures ParseCellRef(CellRef(column, row)) == Some((column, row))
  {
    var s := CellRef(column, row);
    LetterPrefixOfRef(Letters(column), NatToString(row));
    assert s[..|Letters(column)|] == Letters(column);
    assert s[|Letters(column)|..] == NatToString(row);
    LettersRoundTrip(column);
    DigitsValueOfNatToString(row);
  }

  /** `s` splits at its colon into two cells that read back as the given columns and rows. */
  ghost predicate RangeReadsBack(s: string, c1: int, r1: int, c2: int, r2: int) {
    var parts := Split(s, ':');
    |parts| == 2 && ParseCellRef(parts[0]) == Some((c1, r1)) && ParseCellRef(parts[1]) == Some((c2, r2))
  }

  /** A range from non-negative rows splits at its colon into the two corner cells, each of which reads back. */
  lemma ConvertToRefRoundTrip(columnCount: int, rowCount: nat, columnStart: int, rowStart: nat, zeroBased: bool)
    requires ConvertToRef(columnCount, rowCount, columnStart, rowStart, zeroBased).Ok?
    ensures RangeReadsBack(ConvertToRef(columnCount, rowCount, columnStart, rowStart, zeroBased).value,
      Start(columnStart, zeroBased), Start(rowStart, zeroBased),
      Start(columnStart, zeroBased) + columnCount, Start(rowStart, zeroBased) + rowCount)
  {
    var cs: nat, rs: nat := Start(columnStart, zeroBased), Start(rowStart, zeroBased);
    RangeRoundTrip(cs, rs, cs + columnCount, rs + rowCount);
  }

  lemma RangeRoundTrip(c1: nat, r1: nat, c2: nat, r2: nat)
    requires c1 >= 1 && c2 >= 1
    ensures RangeReadsBack(CellRef(c1, r1) + ":" + CellRef(c2, r2), c1, r1, c2, r2)
  {
    var a, b := CellRef(c1, r1), CellRef(c2, r2);
    NoColonInCellRef(c1, r1);
    NoColonInCellRef(c2, r2);
    SplitAfterFirst(a, b, ':');
    SplitWithoutSeparator(b, ':');
    assert a + ":" + b == a + [':'] + b;
    CellRefRoundTrip(c1, r1);
    CellRefRoundTrip(c2, r2);
  }

  lemma NoColonInCellRef(column: nat, row: nat)
    requires column >= 1
    ensures ':' !in CellRef(column, row)
  {
    var l, d := Letters(column), NatToString(row);
    assert forall i :: 0 <= i < |l| ==> l[i] != ':';
    assert forall i :: 0 <= i < |d| ==> d[i] != ':';
    assert CellRef(column, row) == l + d;
  }

  /** A field value as it comes out of the data, before `str`. */
  datatype Field = Text(s: string) | Int(n: int) | Bool(b: bool) | Null

  /** Python's `str(field)`. */
  function FieldText(f: Field): (r: string)
    ensures f.Text? ==> r == f.s
    ensures f.Int? ==> ParseInt(r) == Some(f.n)
    ensures f.Bool? ==> r == (if f.b then "True" else "False")
    ensures f.Null? ==> r == "None"
  {
    match f
    case Text(s) => s
    case Int(n) => ParseIntOfIntToString(n); IntToString(n)
    case Bool(b) => if b then "True" else "False"
    case Null => "None"
  }

  /** `delimiter.join(str(f) for f in line)`. */
  function CsvLine(line: seq<Field>, delimiter: string): (r: string)
    ensures |line| == 0 ==> r == ""
    ensures |line| >= 1 && |delimiter| == 1 && (forall j :: 0 <= j < |line| ==> delimiter[0] !in FieldText(line[j])) ==>
      Split(r, delimiter[0]) == seq(|line|, j requires 0 <= j < |line| => FieldText(line[j]))
  {
    var texts := seq(|line|, i requires 0 <= i < |line| => FieldText(line[i]));
    if |line| >= 1 && |delimiter| == 1 && (forall j :: 0 <= j < |line| ==> delimiter[0] !in texts[j]) then
      assert delimiter == [delimiter[0]];
      SplitJoin(texts, delimiter[0]);
      Join(texts, delimiter)
    else Join(texts, delimiter)
  }

  /** The file text `create_csv_from_data` writes: lines joined by newlines; an empty delimiter means a tab. */
  function CsvText(data: seq<seq<Field>>, delimiter: string): (r: string)
    ensures |data| == 0 ==> r == ""
    ensures |data| == 1 ==> r == CsvLine(data[0], if delimiter == "" then "\t" else delimiter)
  {
    var d := if delimiter == "" then "\t" else delimiter;
    Join(seq(|data|, i requires 0 <= i < |data| => CsvLine(data[i], d)), "\n")
  }

  /** The path `create_csv_from_data` writes to: the given file name, or a generated `.csv` name. */
  function CsvPath(fileName: string, prefix: string, timestamp: string): (p: string)
    ensures fileName != "" ==> p == fileName
    ensures fileName == "" ==> p == FileName(prefix, timestamp, Some(Csv))
  {
    if fileName != "" then fileName else FileName(prefix, timestamp, Some(Csv))
  }

  /**
    When no field's text holds a newline or the (one-character) delimiter and
    no line is empty, the text splits back into its lines and each line into
    the texts of its fields.
  */
  lemma CsvRoundTrip(data: seq<seq<Field>>, delimiter: string)
    requires |data| >= 1 && (delimiter == "" || (|delimiter| == 1 && delimiter[0] != '\n'))
    requires forall i :: 0 <= i < |data| ==> |data[i]| >= 1
    requires var c := if delimiter == "" then '\t' else delimiter[0];
      forall i, j :: 0 <= i < |data| && 0 <= j < |data[i]| ==> c !in FieldText(data[i][j]) && '\n' !in FieldText(data[i][j])
    ensures var c := if delimiter == "" then '\t' else delimiter[0];
      var lines := Split(CsvText(data, delimiter), '\n');
      && |lines| == |data|
      && forall i :: 0 <= i < |data| ==>
        Split(lines[i], c) == seq(|data[i]|, j requires 0 <= j < |data[i]| => FieldText(data[i][j]))
  {
    var c := if delimiter == "" then '\t' else delimiter[0];
    var d := if delimiter == "" then "\t" else delimiter;
    assert d == [c];
    var lines := seq(|data|, i requires 0 <= i < |data| => CsvLine(data[i], d));
    forall i | 0 <= i < |data|
      ensures '\n' !in lines[i]
      ensures Split(lines[i], c) == seq(|data[i]|, j requires 0 <= j < |data[i]| => FieldText(data[i][j]))
    {
      var texts := seq(|data[i]|, j requires 0 <= j < |data[i]| => FieldText(data[i][j]));
      SplitJoin(texts, c);
      JoinAvoids(texts, d, '\n');
    }
    SplitJoin(lines, '\n');
  }

  /** A join holds a character only if a part or the separator does. */
  lemma {:induction false} JoinAvoids(xs: seq<string>, sep: string, c: char)
    requires c !in sep && forall i :: 0 <= i < |xs| ==> c !in xs[i]
    ensures c !in Join(xs, sep)
    decreases |xs|
  {
    if |xs| > 1 {
      JoinAvoids(xs[1..], sep, c);
    }
  }

  /** What `fix_field` turns a raw text into; datetimes and floats are not interpreted. */
  datatype Coerced = AsDatetime | AsInt(n: int) | AsFloat(literal: string) | AsBool(b: bool) | AsText(s: string)

  /** Python's `int(s)` in base 10: surrounding whitespace, an optional sign, then decimal digits. */
  function ParseInt(s: string): (r: Option<int>)
    ensures r.Some? ==> |Strip(s)| >= 1
  {
    ParseSigned(Strip(s))
  }

  predicate AllDigits(s: string) {
    forall i :: 0 <= i < |s| ==> IsDigit(s[i])
  }

  /** An optional sign followed by one or more decimal digits. */
  function ParseSigned(t: string): (r: Option<int>)
    ensures r.Some? ==> |t| >= 1
  {
    if |t| >= 1 && (t[0] == '+' || t[0] == '-') then
      if |t| == 1 || !AllDigits(t[1..]) then None
      else var v: int := DigitsValue(t[1..]); Some(if t[0] == '-' then -v else v)
    else if |t| == 0 || !AllDigits(t) then None
    else Some(DigitsValue(t))
  }

  /** A text of two or more characters that starts with `0` is kept away from number parsing. */
  predicate LeadingZero(field: string) {
    |field| >= 2 && field[0] == '0'
  }

  /**
    `fix_field`, given whether the field parses as a game datetime and whether
    `float(field)` succeeds: a datetime wins, then an integer, then a float
    (both only without a leading zero), then the words `true` and `false` in
    any case and with surrounding whitespace; anything else is returned as it is.
  */
  function FixField(field: string, isDatetime: bool, floatParses: bool): (r: Coerced)
    ensures field == "" ==> r == AsText(field)
    ensures r.AsDatetime? <==> field != "" && isDatetime
    ensures r.AsInt? || r.AsFloat? ==> field != "" && !LeadingZero(field)
    ensures r.AsInt? ==> ParseInt(field) == Some(r.n)
    ensures r.AsBool? ==> Strip(Lower(field)) == (if r.b then "true" else "false")
    ensures r.AsText? ==> r.s == field
    ensures field != "" && !isDatetime && !LeadingZero(field) && ParseInt(field).Some? ==> r == AsInt(ParseInt(field).value)
    ensures field != "" && !isDatetime && !LeadingZero(field) && ParseInt(field).None? && floatParses ==> r == AsFloat(field)
    ensures field != "" && !isDatetime && (LeadingZero(field) || (ParseInt(field).None? && !floatParses)) ==>
      r == (if Strip(Lower(field)) == "true" then AsBool(true)
            else if Strip(Lower(field)) == "false" then AsBool(false)
            else AsText(field))
  {
    if field == "" then AsText(field)
    else if isDatetime then AsDatetime
    else if !LeadingZero(field) && ParseInt(field).Some? then AsInt(ParseInt(field).value)
    else if !LeadingZero(field) && floatParses then AsFloat(field)
    else
      var lowered := Strip(Lower(field));
      if lowered == "false" then AsBool(false)
      else if lowered == "true" then AsBool(true)
      else AsText(field)
  }

  lemma ParseUnsigned(t: string)
    requires |t| >= 1 && AllDigits(t)
    ensures ParseSigned(t) == Some(DigitsValue(t) as int)
  {
    assert IsDigit(t[0]);
  }

  lemma ParseNegative(t: string)
    requires |t| >= 2 && t[0] == '-' && AllDigits(t[1..])
    ensures ParseSigned(t) == Some(0 - DigitsValue(t[1..]))
  {
  }

  /** `int` reads back what `str` wrote. */
  lemma ParseIntOfIntToString(n: int)
    ensures ParseInt(IntToString(n)) == Some(n)
  {
    IntToStringStripped(n);
    ParseSignedOfIntToString(n);
  }

  lemma IntToStringStripped(n: int)
    ensures Strip(IntToString(n)) == IntToString(n)
  {
    var s := IntToString(n);
    assert !IsSpace(s[0]) && !IsSpace(s[|s| - 1]);
    StripUnchanged(s);
  }

  lemma ParseSignedOfIntToString(n: int)
    ensures ParseSigned(IntToString(n)) == Some(n)
  {
    var s := IntToString(n);
    var m := if n < 0 then -n else n;
    DigitsValueOfNatToString(m);
    var d := NatToString(m);
    if n < 0 {
      assert s[1..] == d;
      ParseNegative(s);
    } else {
      ParseUnsigned(d);
    }
  }

  /** The text of an integer (one that is not a datetime) becomes that integer. */
  lemma FixFieldOfInt(n: int, floatParses: bool)
    ensures FixField(IntToString(n), false, floatParses) == AsInt(n)
  {
    ParseIntOfIntToString(n);
    var s := IntToString(n);
    if n >= 0 {
      assert s[0] == '0' <==> n == 0;
    }
  }

  /** Text with a leading zero, such as an id `"007"`, is never turned into a number. */
  lemma LeadingZeroNotNumber(field: string, floatParses: bool)
    requires LeadingZero(field)
    ensures FixField(field, false, floatParses) == AsText(field) || FixField(field, false, floatParses).AsBool?
  {
  }

  /** The boolean words are recognised whatever their case and padding: `" TRUE "` becomes `True`. */
  lemma PaddedTrue()
    ensures FixField(" TRUE ", false, false) == AsBool(true)
  {
    PaddedTrueNotInt();
    PaddedTrueLowered();
    assert !LeadingZero(" TRUE ");
  }

  lemma PaddedTrueNotInt()
    ensures ParseInt(" TRUE ") == None
  {
    StripPadded("TRUE");
    assert " " + "TRUE" + " " == " TRUE ";
    assert !AllDigits("TRUE") by { assert !IsDigit("TRUE"[0]); }
  }

  lemma PaddedTrueLowered()
    ensures Strip(Lower(" TRUE ")) == "true"
  {
    StripPadded("true");
    assert " " + "true" + " " == " true ";
    LowerPadded();
  }

  lemma LowerPadded()
    ensures Lower(" TRUE ") == " true "
  {
  }

  /** One space on each side of a four-letter word is stripped. */
  lemma StripPadded(w: string)
    requires |w| == 4 && forall i :: 0 <= i < 4 ==> 'A' <= w[i] <= 'z'
    ensures Strip(" " + w + " ") == w
  {
    var p := " " + w + " ";
    assert p[1..] == w + " ";
    assert StripLeft(p) == StripLeft(w + " ");
    StripLeftWord(w + " ");
    assert (w + " ")[..4] == w;
    assert StripRight(w + " ") == StripRight(w);
    StripRightWord(w);
  }

  lemma StripLeftWord(s: string)
    requires |s| >= 1 && 'A' <= s[0] <= 'z'
    ensures StripLeft(s) == s
  {
    assert !IsSpace(s[0]);
  }

  lemma StripRightWord(s: string)
    requires |s| >= 1 && 'A' <= s[|s| - 1] <= 'z'
    ensures StripRight(s) == s
  {
    assert !IsSpace(s[|s| - 1]);
  }
}
