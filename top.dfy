/**
  Leaderboard messages: the top fleets, the top captains and the stars of the
  fleets of each division, as lists of lines. Fetching the data, escaping
  Markdown and the tournament clock are outside: their results are parameters.
*/
module Top {
  import opened Wrappers
  import opened Strings

  /** The emoji texts `emojis.trophy` and `emojis.star`. */
  datatype Emojis = Emojis(trophy: string, star: string)

  /** One entry of the fleet ranking: `AllianceName`, `Trophy` and `Score` as the service sends them. */
  datatype FleetEntry = FleetEntry(allianceName: string, trophy: string, score: string)

  /** One entry of the captain ranking: `Name`, `Trophy` and `AllianceName`. */
  datatype CaptainEntry = CaptainEntry(name: string, trophy: string, allianceName: string)

  /** One fleet of the division listing; `Trophy` may be absent and `Score` is read as an integer. */
  datatype FleetInfo = FleetInfo(allianceName: string, divisionDesignId: string, score: int, trophy: Option<string>)

  /** `**<position>.** ` */
  function Position(p: int): string {
    "**" + IntToString(p) + ".** "
  }

  /** One fleet line; the stars appear only while a tournament runs. */
  function FleetLine(p: int, e: FleetEntry, tourneyRunning: bool, escape: string -> string, em: Emojis): string {
    Position(p) + escape(e.allianceName) + " (" + e.trophy + " " + em.trophy
      + (if tourneyRunning then ", " + e.score + " " + em.star else "") + ")"
  }

  /**
    `_get_top_fleets_as_text`: the headline, then one line per entry in the
    order given, numbered from 1.
  */
  method TopFleetsText(entries: seq<FleetEntry>, take: int, tourneyRunning: bool, escape: string -> string, em: Emojis)
    returns (lines: seq<string>)
    ensures |lines| == |entries| + 1
    ensures lines[0] == "**Top " + IntToString(take) + " fleets**"
    ensures forall i :: 0 <= i < |entries| ==> lines[i + 1] == FleetLine(i + 1, entries[i], tourneyRunning, escape, em)
  {
    lines := ["**Top " + IntToString(take) + " fleets**"];
    var position := 0;
    while position < |entries|
      invariant 0 <= position <= |entries|
      invariant |lines| == position + 1 && lines[0] == "**Top " + IntToString(take) + " fleets**"
      invariant forall i :: 0 <= i < position ==> lines[i + 1] == FleetLine(i + 1, entries[i], tourneyRunning, escape, em)
    {
      var entry := entries[position];
      position := position + 1;
      lines := lines + [FleetLine(position, entry, tourneyRunning, escape, em)];
    }
  }

  /**
    Outside a tournament a fleet line ends with its trophies; during one the
    same line carries `, <score> <star>` before the closing parenthesis.
  */
  lemma FleetLineStars(p: int, e: FleetEntry, escape: string -> string, em: Emojis)
    ensures var quiet := FleetLine(p, e, false, escape, em);
      && |quiet| >= 1 && quiet[|quiet| - 1] == ')'
      && FleetLine(p, e, true, escape, em) == quiet[..|quiet| - 1] + ", " + e.score + " " + em.star + ")"
  {
    var stem := Position(p) + escape(e.allianceName) + " (" + e.trophy + " " + em.trophy;
    assert FleetLine(p, e, false, escape, em) == stem + ")";
    assert (stem + ")")[..|stem|] == stem;
  }

  /** One captain line. */
  function CaptainLine(p: int, e: CaptainEntry, escape: string -> string, em: Emojis): string {
    Position(p) + escape(e.name) + " (" + e.allianceName + "): " + e.trophy + " " + em.trophy
  }

  /** How many captains are listed: `take` cuts the list only when it is at least 1. */
  function CaptainCount(n: nat, take: int): nat {
    if 1 <= take < n then take else n
  }

  /** The lines of the first `n` captains, numbered from 1. */
  function CaptainLines(entries: seq<CaptainEntry>, n: nat, escape: string -> string, em: Emojis): (ls: seq<string>)
    requires n <= |entries|
    ensures |ls| == n && forall i :: 0 <= i < n ==> ls[i] == CaptainLine(i + 1, entries[i], escape, em)
  {
    if n == 0 then [] else CaptainLines(entries, n - 1, escape, em) + [CaptainLine(n, entries[n - 1], escape, em)]
  }

  /** `_get_top_captains_as_text`: like the fleets, but the loop stops once `take` lines are written. */
  method TopCaptainsText(entries: seq<CaptainEntry>, take: int, escape: string -> string, em: Emojis)
    returns (lines: seq<string>)
    ensures lines == ["**Top " + IntToString(take) + " captains**"] + CaptainLines(entries, CaptainCount(|entries|, take), escape, em)
  {
    var headline := "**Top " + IntToString(take) + " captains**";
    lines := [headline];
    var position := 0;
    while position < |entries|
      invariant 0 <= position <= |entries|
      invariant 1 <= take ==> position < take
      invariant lines == [headline] + CaptainLines(entries, position, escape, em)
    {
      var entry := entries[position];
      position := position + 1;
      lines := lines + [CaptainLine(position, entry, escape, em)];
      if position == take {
        break;
      }
    }
    assert position == CaptainCount(|entries|, take);
  }

  /** Every score is at least the next one's. */
  predicate SortedByScore(s: seq<FleetInfo>) {
    forall i, j :: 0 <= i < j < |s| ==> s[i].score >= s[j].score
  }

  /** Places `x` after the entries with a higher score and before the rest. */
  function Insert(x: FleetInfo, s: seq<FleetInfo>): (r: seq<FleetInfo>)
    ensures multiset(r) == multiset(s) + multiset{x}
    decreases |s|
  {
    if |s| == 0 then [x]
    else if s[0].score > x.score then
      assert s == [s[0]] + s[1..];
      [s[0]] + Insert(x, s[1..])
    else [x] + s
  }

  /** Inserting an entry no higher than a bound into entries no higher than it keeps every score within the bound. */
  lemma {:induction false} InsertBounded(x: FleetInfo, s: seq<FleetInfo>, bound: int)
    requires x.score <= bound && forall k :: 0 <= k < |s| ==> s[k].score <= bound
    ensures forall k :: 0 <= k < |Insert(x, s)| ==> Insert(x, s)[k].score <= bound
    decreases |s|
  {
    if |s| > 0 && s[0].score > x.score {
      InsertBounded(x, s[1..], bound);
      var rest := Insert(x, s[1..]);
      assert Insert(x, s) == [s[0]] + rest;
    }
  }

  lemma {:induction false} InsertSorted(x: FleetInfo, s: seq<FleetInfo>)
    requires SortedByScore(s)
    ensures SortedByScore(Insert(x, s))
    decreases |s|
  {
    if |s| > 0 && s[0].score > x.score {
      var rest := Insert(x, s[1..]);
      assert SortedByScore(s[1..]) by {
        forall i, j | 0 <= i < j < |s[1..]| ensures s[1..][i].score >= s[1..][j].score {
          assert s[1..][i] == s[i + 1] && s[1..][j] == s[j + 1];
        }
      }
      InsertSorted(x, s[1..]);
      InsertBounded(x, s[1..], s[0].score);
      var r := [s[0]] + rest;
      assert Insert(x, s) == r;
      forall i, j | 0 <= i < j < |r| ensures r[i].score >= r[j].score {
        if i == 0 {
          assert r[j] == rest[j - 1];
        } else {
          assert r[i] == rest[i - 1] && r[j] == rest[j - 1];
        }
      }
    } else if |s| > 0 {
      var r := [x] + s;
      assert Insert(x, s) == r;
      forall i, j | 0 <= i < j < |r| ensures r[i].score >= r[j].score {
        if i == 0 {
          assert r[j] == s[j - 1] && s[0].score >= s[j - 1].score;
        } else {
          assert r[i] == s[i - 1] && r[j] == s[j - 1];
        }
      }
    }
  }

  /** `util.sort_entities_by(fleet_infos, [('Score', int, True)])`: by score, highest first. */
  function SortByScore(s: seq<FleetInfo>): (r: seq<FleetInfo>)
    ensures SortedByScore(r) && multiset(r) == multiset(s) && |r| == |s|
    decreases |s|
  {
    if |s| == 0 then []
    else
      assert s == [s[0]] + s[1..];
      InsertSorted(s[0], SortByScore(s[1..]));
      var r := Insert(s[0], SortByScore(s[1..]));
      assert |r| == |multiset(r)| == |multiset(s)| == |s|;
      r
  }

  /** One line of a division block: position, stars, name and, when present, trophies. */
  function StarLine(p: int, f: FleetInfo, escape: string -> string, em: Emojis): string {
    Position(p) + IntToString(f.score) + " " + em.star + " " + escape(f.allianceName)
      + (if f.trophy.Some? then " (" + f.trophy.value + " " + em.trophy + ")" else "")
  }

  function DivisionHeader(letter: string): string {
    "__**Division " + Upper(letter) + "**__"
  }

  /** The lines of the first `n` fleets of `sorted`, numbered from 1. */
  function StarLines(sorted: seq<FleetInfo>, n: nat, escape: string -> string, em: Emojis): (ls: seq<string>)
    requires n <= |sorted|
    ensures |ls| == n && forall i :: 0 <= i < n ==> ls[i] == StarLine(i + 1, sorted[i], escape, em)
  {
    if n == 0 then [] else StarLines(sorted, n - 1, escape, em) + [StarLine(n, sorted[n - 1], escape, em)]
  }

  /** The block of one division, as a value: the header, then the fleets from the highest score down. */
  function DivisionBlock(letter: string, fleets: seq<FleetInfo>, escape: string -> string, em: Emojis): (b: seq<string>)
    ensures |b| == |fleets| + 1 && b[0] == DivisionHeader(letter)
  {
    var sorted := SortByScore(fleets);
    [DivisionHeader(letter)] + StarLines(sorted, |sorted|, escape, em)
  }

  /**
    `_get_division_stars_as_text`: the header, then the fleets from the highest
    score down, numbered from 1. `order` is the sorted list the lines follow.
  */
  method DivisionStarsText(letter: string, fleets: seq<FleetInfo>, escape: string -> string, em: Emojis)
    returns (lines: seq<string>, ghost order: seq<FleetInfo>)
    ensures SortedByScore(order) && multiset(order) == multiset(fleets) && |order| == |fleets|
    ensures |lines| == |fleets| + 1 && lines[0] == DivisionHeader(letter)
    ensures forall i :: 0 <= i < |fleets| ==> lines[i + 1] == StarLine(i + 1, order[i], escape, em)
    ensures lines == DivisionBlock(letter, fleets, escape, em)
  {
    var sorted := SortByScore(fleets);
    order := sorted;
    lines := NumberedStarLines(DivisionHeader(letter), sorted, escape, em);
  }

  /** The loop of `_get_division_stars_as_text`: one line per fleet of `sorted`, in order, after `header`. */
  method NumberedStarLines(header: string, sorted: seq<FleetInfo>, escape: string -> string, em: Emojis)
    returns (lines: seq<string>)
    ensures lines == [header] + StarLines(sorted, |sorted|, escape, em)
  {
    lines := [header];
    var i := 0;
    while i < |sorted|
      invariant 0 <= i <= |sorted|
      invariant lines == [header] + StarLines(sorted, i, escape, em)
    {
      lines := lines + [StarLine(i + 1, sorted[i], escape, em)];
      i := i + 1;
    }
  }

  /** `[f for f in fleet_infos if f['DivisionDesignId'] == id]`. */
  function InDivision(fleets: seq<FleetInfo>, id: string): (r: seq<FleetInfo>)
    ensures forall f :: f in r <==> f in fleets && f.divisionDesignId == id
    ensures |r| <= |fleets|
    decreases |fleets|
  {
    if |fleets| == 0 then []
    else (if fleets[0].divisionDesignId == id then [fleets[0]] else []) + InDivision(fleets[1..], id)
  }

  /** Every fleet of the division is kept as often as it occurs, and no other fleet is. */
  lemma {:induction false} InDivisionCounts(fleets: seq<FleetInfo>, id: string)
    ensures forall f :: multiset(InDivision(fleets, id))[f] == if f.divisionDesignId == id then multiset(fleets)[f] else 0
    decreases |fleets|
  {
    if |fleets| > 0 {
      InDivisionCounts(fleets[1..], id);
      assert fleets == [fleets[0]] + fleets[1..];
    }
  }

  /** The filter keeps the order of the list: filtering a concatenation concatenates the filtered parts. */
  lemma {:induction false} InDivisionAppend(a: seq<FleetInfo>, b: seq<FleetInfo>, id: string)
    ensures InDivision(a + b, id) == InDivision(a, id) + InDivision(b, id)
    decreases |a|
  {
    if |a| == 0 {
      assert a + b == b;
    } else {
      var head := if a[0].divisionDesignId == id then [a[0]] else [];
      assert (a + b)[0] == a[0] && (a + b)[1..] == a[1..] + b;
      assert InDivision(a + b, id) == head + InDivision(a[1..] + b, id);
      assert InDivision(a, id) == head + InDivision(a[1..], id);
      InDivisionAppend(a[1..], b, id);
    }
  }

  /**
    The division tables `DIVISION_CHAR_TO_DESIGN_ID` and the entries of
    `DIVISION_DESIGN_ID_TO_CHAR` in their iteration order.
  */
  datatype DivisionTable = DivisionTable(byLetter: map<string, string>, byDesign: seq<(string, string)>)

  datatype TopError = InvalidDivision(division: string)

  /** A dictionary with insertion order: a new key goes last, an existing key keeps its place. */
  function Put<V>(d: seq<(string, V)>, k: string, v: V): (r: seq<(string, V)>)
    ensures (exists i :: 0 <= i < |d| && d[i].0 == k) ==> |r| == |d|
    ensures forall i :: 0 <= i < |d| && d[i].0 == k && (forall j :: 0 <= j < i ==> d[j].0 != k) ==> r == d[i := (k, v)]
    ensures (forall i :: 0 <= i < |d| ==> d[i].0 != k) ==> r == d + [(k, v)]
    decreases |d|
  {
    if |d| == 0 then [(k, v)]
    else if d[0].0 == k then [(k, v)] + d[1..]
    else [d[0]] + Put(d[1..], k, v)
  }

  /**
    The letter asked for, after `pss_assert.valid_parameter_value`: it must be
    one of the table's letters other than `-`, in either case.
  */
  predicate ValidDivision(t: DivisionTable, d: string) {
    Upper(d) in t.byLetter && Upper(d) != "-"
  }

  /** The divisions `get_division_stars` lists, each with its fleets. */
  function Divisions(division: Option<string>, fleets: seq<FleetInfo>, t: DivisionTable): Result<seq<(string, seq<FleetInfo>)>, TopError> {
    if division.Some? && division.value != "" then
      if !ValidDivision(t, division.value) then Err(InvalidDivision(division.value))
      else Ok([(Upper(division.value), InDivision(fleets, t.byLetter[Upper(division.value)]))])
    else Ok(AllDivisions(fleets, t.byDesign))
  }

  /** Every division of the table except design id `0`, in table order. */
  function AllDivisions(fleets: seq<FleetInfo>, byDesign: seq<(string, string)>): seq<(string, seq<FleetInfo>)>
    decreases |byDesign|
  {
    if |byDesign| == 0 then []
    else
      var n := |byDesign| - 1;
      var before := AllDivisions(fleets, byDesign[..n]);
      if byDesign[n].0 != "0" then Put(before, byDesign[n].1, InDivision(fleets, byDesign[n].0)) else before
  }

  /** The blocks with one separator line between neighbours and none after the last. */
  function Interleave(blocks: seq<seq<string>>, sep: string): seq<string>
    decreases |blocks|
  {
    if |blocks| == 0 then []
    else if |blocks| == 1 then blocks[0]
    else Interleave(blocks[..|blocks| - 1], sep) + [sep] + blocks[|blocks| - 1]
  }

  /** The blocks of the divisions, in order. */
  function Blocks(divisions: seq<(string, seq<FleetInfo>)>, escape: string -> string, em: Emojis): (bs: seq<seq<string>>)
    ensures |bs| == |divisions|
  {
    seq(|divisions|, i requires 0 <= i < |divisions| => DivisionBlock(divisions[i].0, divisions[i].1, escape, em))
  }

  /** The historic data note, when there is one. */
  function NoteLines(note: Option<string>): seq<string> {
    if note.Some? then [note.value] else []
  }

  /** The lines `get_division_stars` returns. */
  function DivisionStars(division: Option<string>, fleets: seq<FleetInfo>, t: DivisionTable, note: Option<string>, emptyLine: string, escape: string -> string, em: Emojis)
    : Result<(seq<string>, bool), TopError>
  {
    match Divisions(division, fleets, t)
    case Err(e) => Err(e)
    case Ok(divisions) =>
      if |divisions| == 0 then Ok(([], false))
      else Ok((Interleave(Blocks(divisions, escape, em), emptyLine) + NoteLines(note), true))
  }

  /** The `divisions` dictionary: the one division asked for, or all of them. */
  method CollectDivisions(division: Option<string>, fleets: seq<FleetInfo>, t: DivisionTable) returns (r: Result<seq<(string, seq<FleetInfo>)>, TopError>)
    ensures r == Divisions(division, fleets, t)
  {
    if division.Some? && division.value != "" {
      if !ValidDivision(t, division.value) {
        return Err(InvalidDivision(division.value));
      }
      var letter := Upper(division.value);
      return Ok([(letter, InDivision(fleets, t.byLetter[letter]))]);
    }
    var divisions: seq<(string, seq<FleetInfo>)> := [];
    var k := 0;
    while k < |t.byDesign|
      invariant 0 <= k <= |t.byDesign|
      invariant divisions == AllDivisions(fleets, t.byDesign[..k])
    {
      assert t.byDesign[..k + 1][..k] == t.byDesign[..k];
      var (designId, letter) := t.byDesign[k];
      if designId != "0" {
        divisions := Put(divisions, letter, InDivision(fleets, designId));
      }
      k := k + 1;
    }
    assert t.byDesign[..|t.byDesign|] == t.byDesign;
    return Ok(divisions);
  }

  /** Each block followed by the separator line, then the last separator dropped. */
  method JoinBlocks(divisions: seq<(string, seq<FleetInfo>)>, emptyLine: string, escape: string -> string, em: Emojis) returns (result: seq<string>)
    requires |divisions| >= 1
    ensures result == Interleave(Blocks(divisions, escape, em), emptyLine)
  {
    result := BlocksWithSeparators(divisions, emptyLine, escape, em);
    result := result[..|result| - 1];
  }

  /** The loop of `get_division_stars`: every block followed by a separator line. */
  method BlocksWithSeparators(divisions: seq<(string, seq<FleetInfo>)>, emptyLine: string, escape: string -> string, em: Emojis) returns (result: seq<string>)
    requires |divisions| >= 1
    ensures result == Interleave(Blocks(divisions, escape, em), emptyLine) + [emptyLine]
  {
    ghost var blocks := Blocks(divisions, escape, em);
    result := [];
    var i := 0;
    while i < |divisions|
      invariant 0 <= i <= |divisions|
      invariant result == Separated(blocks[..i], emptyLine)
    {
      assert blocks[i] == DivisionBlock(divisions[i].0, divisions[i].1, escape, em);
      SeparatedStep(blocks, i, emptyLine);
      result := AppendBlock(result, divisions[i].0, divisions[i].1, emptyLine, escape, em);
      i := i + 1;
    }
    assert blocks[..|divisions|] == blocks;
    SeparatedInterleave(blocks, emptyLine);
  }

  /** Each block followed by the separator. */
  function Separated(blocks: seq<seq<string>>, sep: string): seq<string>
    decreases |blocks|
  {
    if |blocks| == 0 then [] else Separated(blocks[..|blocks| - 1], sep) + blocks[|blocks| - 1] + [sep]
  }

  lemma SeparatedStep(blocks: seq<seq<string>>, i: nat, sep: string)
    requires i < |blocks|
    ensures Separated(blocks[..i + 1], sep) == Separated(blocks[..i], sep) + blocks[i] + [sep]
  {
    assert blocks[..i + 1][..i] == blocks[..i];
  }

  /** Dropping the last separator leaves the interleaving. */
  lemma {:induction false} SeparatedInterleave(blocks: seq<seq<string>>, sep: string)
    requires |blocks| >= 1
    ensures Separated(blocks, sep) == Interleave(blocks, sep) + [sep]
    decreases |blocks|
  {
    var n := |blocks| - 1;
    if n == 0 {
      assert blocks[..0] == [];
    } else {
      SeparatedInterleave(blocks[..n], sep);
    }
  }

  /** `result.extend(_get_division_stars_as_text(...))` and `result.append(EMPTY_LINE)`. */
  method AppendBlock(result: seq<string>, letter: string, fleets: seq<FleetInfo>, emptyLine: string, escape: string -> string, em: Emojis)
    returns (r: seq<string>)
    ensures r == result + DivisionBlock(letter, fleets, escape, em) + [emptyLine]
  {
    var block, _ := DivisionStarsText(letter, fleets, escape, em);
    r := result + block + [emptyLine];
  }

  /**
    `get_division_stars` on fleet data already at hand; `note` is the historic
    data note for the retrieval date, when one is given.
  */
  method GetDivisionStars(division: Option<string>, fleets: seq<FleetInfo>, t: DivisionTable, note: Option<string>, emptyLine: string, escape: string -> string, em: Emojis)
    returns (r: Result<(seq<string>, bool), TopError>)
    ensures r == DivisionStars(division, fleets, t, note, emptyLine, escape, em)
  {
    var divisions := CollectDivisions(division, fleets, t);
    if divisions.Err? {
      return Err(divisions.error);
    }
    if |divisions.value| == 0 {
      return Ok(([], false));
    }
    var result := JoinBlocks(divisions.value, emptyLine, escape, em);
    if note.Some? {
      result := result + [note.value];
    }
    assert result == Interleave(Blocks(divisions.value, escape, em), emptyLine) + NoteLines(note);
    return Ok((result, true));
  }

  /**
    The separators sit exactly between blocks: the interleaving is the blocks'
    lines with one separator after each block but the last, so its length is
    the blocks' total plus one less than their number.
  */
  lemma {:induction false} InterleaveShape(blocks: seq<seq<string>>, sep: string)
    requires |blocks| >= 1
    ensures Interleave(blocks, sep) + [sep] == Flatten(seq(|blocks|, i requires 0 <= i < |blocks| => blocks[i] + [sep]))
    ensures |Interleave(blocks, sep)| == |Flatten(blocks)| + |blocks| - 1
    decreases |blocks|
  {
    var n := |blocks| - 1;
    var withSep := seq(|blocks|, i requires 0 <= i < |blocks| => blocks[i] + [sep]);
    if n == 0 {
      assert withSep[..0] == [];
      assert blocks[..0] == [];
    } else {
      InterleaveShape(blocks[..n], sep);
      assert withSep[..n] == seq(n, i requires 0 <= i < n => blocks[..n][i] + [sep]);
    }
  }

  /** A division that is asked for lists only the fleets of that division's design id. */
  lemma OneDivisionFilters(d: string, fleets: seq<FleetInfo>, t: DivisionTable)
    requires d != "" && ValidDivision(t, d)
    ensures var r := Divisions(Some(d), fleets, t);
      && r.Ok? && |r.value| == 1 && r.value[0].0 == Upper(d)
      && forall f :: f in r.value[0].1 <==> f in fleets && f.divisionDesignId == t.byLetter[Upper(d)]
  {
  }

  /** No division at all gives no lines and the flag `false`; otherwise the flag is `true` and the lines start with the first division's header. */
  lemma DivisionStarsShape(division: Option<string>, fleets: seq<FleetInfo>, t: DivisionTable, note: Option<string>, emptyLine: string, escape: string -> string, em: Emojis)
    requires Divisions(division, fleets, t).Ok?
    ensures var ds := Divisions(division, fleets, t).value;
      var r := DivisionStars(division, fleets, t, note, emptyLine, escape, em);
      && r.Ok?
      && (|ds| == 0 ==> r.value == ([], false))
      && (|ds| > 0 ==> r.value.1 && |r.value.0| >= 1 && r.value.0[0] == DivisionHeader(ds[0].0))
      && (|ds| > 0 && note.Some? ==> r.value.0[|r.value.0| - 1] == note.value)
  {
    var ds := Divisions(division, fleets, t).value;
    if |ds| > 0 {
      InterleaveStartsWithFirst(Blocks(ds, escape, em), emptyLine);
    }
  }

  lemma {:induction false} InterleaveStartsWithFirst(blocks: seq<seq<string>>, sep: string)
    requires |blocks| >= 1 && |blocks[0]| >= 1
    ensures |Interleave(blocks, sep)| >= 1 && Interleave(blocks, sep)[0] == blocks[0][0]
    decreases |blocks|
  {
    if |blocks| > 1 {
      InterleaveStartsWithFirst(blocks[..|blocks| - 1], sep);
    }
  }

  /** A letter outside the table, or `-`, is refused. */
  lemma InvalidDivisionRefused(d: string, fleets: seq<FleetInfo>, t: DivisionTable)
    requires d != "" && !ValidDivision(t, d)
    ensures Divisions(Some(d), fleets, t) == Err(InvalidDivision(d))
  {
  }
}
