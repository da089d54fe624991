/**
  Text utilities of the bot's core: chunking a list into messages under a
  character cap, normalising search text, resolving a search to an original
  name, and inverting a dictionary of records.
*/
module CoreText {
  import opened Wrappers
  import opened Strings

  const Sep: string := ", "

  /**
    `list_to_text`: items are appended to the current chunk with ", " while the
    chunk stays within `maxChars`; otherwise the chunk is closed and the item
    starts the next one. `groups` are the items of each chunk.
  */
  method ListToText(lst: seq<string>, maxChars: int) returns (chunks: seq<string>, ghost groups: seq<seq<string>>)
    ensures |lst| == 0 ==> chunks == [""]
    ensures |lst| >= 1 ==> Join(chunks, Sep) == Join(lst, Sep)
    ensures 1 <= |chunks| <= (if |lst| == 0 then 1 else |lst|)
    ensures |lst| >= 1 ==> |groups| == |chunks| && Flatten(groups) == lst
    ensures |lst| >= 1 ==> Chunked(chunks, groups, maxChars)
    ensures |lst| >= 1 ==> forall g :: 0 <= g < |chunks| - 1 ==> |chunks[g] + Sep + groups[g + 1][0]| > maxChars
  {
    if |lst| == 0 {
      return [""], [];
    }
    chunks, groups := [], [];
    var txt := lst[0];
    ghost var cur := [lst[0]];
    StartChunks(lst, maxChars);
    var i := 1;
    while i < |lst|
      invariant 1 <= i <= |lst|
      invariant Progress(lst[..i], chunks, groups, txt, cur, maxChars)
      invariant |groups| < i
    {
      var item := lst[i];
      assert lst[..i + 1] == lst[..i] + [item];
      var newText := txt + Sep + item;
      if |newText| > maxChars {
        CloseChunk(lst[..i], chunks, groups, txt, cur, maxChars, item);
        chunks := chunks + [txt];
        groups := groups + [cur];
        txt := item;
        cur := [item];
      } else {
        ExtendChunk(lst[..i], chunks, groups, txt, cur, maxChars, item);
        txt := txt + Sep + item;
        cur := cur + [item];
      }
      i := i + 1;
    }
    assert lst[..|lst|] == lst;
    FinishChunks(lst, chunks, groups, txt, cur, maxChars);
    chunks := chunks + [txt];
    groups := groups + [cur];
  }

  /** The first item opens the first chunk. */
  lemma StartChunks(lst: seq<string>, maxChars: int)
    requires |lst| >= 1
    ensures Progress(lst[..1], [], [], lst[0], [lst[0]], maxChars)
  {
    assert lst[..1] == [lst[0]];
    assert Flatten([]) + [lst[0]] == [lst[0]];
  }

  /** Closing the open chunk after the last item gives the chunks of the whole list. */
  lemma FinishChunks(lst: seq<string>, chunks: seq<string>, groups: seq<seq<string>>, txt: string, cur: seq<string>, maxChars: int)
    requires Progress(lst, chunks, groups, txt, cur, maxChars) && |groups| < |lst|
    ensures var cs, gs := chunks + [txt], groups + [cur];
      && Join(cs, Sep) == Join(lst, Sep)
      && 1 <= |cs| <= |lst|
      && |gs| == |cs| && Flatten(gs) == lst
      && Chunked(cs, gs, maxChars)
      && forall g :: 0 <= g < |cs| - 1 ==> |cs[g] + Sep + gs[g + 1][0]| > maxChars
  {
    FlattenSnoc(groups, cur);
  }

  lemma CloseGreedy(chunks: seq<string>, groups: seq<seq<string>>, txt: string, cur: seq<string>, item: string, maxChars: int)
    requires Greedy(chunks + [txt], groups + [cur], maxChars) && |txt + Sep + item| > maxChars
    ensures Greedy(chunks + [txt] + [item], groups + [cur] + [[item]], maxChars)
  {
    var cs, gs := chunks + [txt] + [item], groups + [cur] + [[item]];
    assert |cs| == |gs|;
    forall g | 0 <= g < |cs| - 1
      ensures Overflows(cs[g], gs[g + 1], maxChars)
    {
      if g < |cs| - 2 {
        assert cs[g] == (chunks + [txt])[g] && gs[g + 1] == (groups + [cur])[g + 1];
      } else {
        assert cs[g] == txt && gs[g + 1] == [item];
      }
    }
    assert Greedy(cs, gs, maxChars);
  }

  lemma ExtendGreedy(chunks: seq<string>, groups: seq<seq<string>>, txt: string, cur: seq<string>, item: string, maxChars: int)
    requires Greedy(chunks + [txt], groups + [cur], maxChars) && |cur| >= 1
    ensures Greedy(chunks + [txt + Sep + item], groups + [cur + [item]], maxChars)
  {
    var cs, gs := chunks + [txt + Sep + item], groups + [cur + [item]];
    assert |cs| == |gs|;
    forall g | 0 <= g < |cs| - 1
      ensures Overflows(cs[g], gs[g + 1], maxChars)
    {
      assert cs[g] == (chunks + [txt])[g];
      if g + 1 < |groups| {
        assert gs[g + 1] == (groups + [cur])[g + 1];
      } else {
        assert gs[g + 1] == cur + [item] && (groups + [cur])[g + 1] == cur;
      }
    }
    assert Greedy(cs, gs, maxChars);
  }

  /** Every chunk is its group of items joined by ", ", and a chunk of two or more items is within the cap. */
  ghost predicate Chunked(chunks: seq<string>, groups: seq<seq<string>>, maxChars: int) {
    && |chunks| == |groups|
    && forall g :: 0 <= g < |groups| ==>
      && |groups[g]| >= 1
      && chunks[g] == Join(groups[g], Sep)
      && (|groups[g]| >= 2 ==> |chunks[g]| <= maxChars)
  }

  /** A chunk is closed only when the first item of the next one would not fit after it. */
  ghost predicate Greedy(chunks: seq<string>, groups: seq<seq<string>>, maxChars: int) {
    && |chunks| == |groups|
    && forall g :: 0 <= g < |chunks| - 1 ==> Overflows(chunks[g], groups[g + 1], maxChars)
  }

  /** The first item of `next` does not fit after `chunk`. */
  ghost predicate Overflows(chunk: string, next: seq<string>, maxChars: int) {
    |next| >= 1 && |chunk| + |Sep| + |next[0]| > maxChars
  }

  /** The loop state after the items `done`: closed chunks, then the open chunk `txt` holding the items `cur`. */
  ghost predicate Progress(done: seq<string>, chunks: seq<string>, groups: seq<seq<string>>, txt: string, cur: seq<string>, maxChars: int) {
    && Chunked(chunks + [txt], groups + [cur], maxChars)
    && Greedy(chunks + [txt], groups + [cur], maxChars)
    && Flatten(groups) + cur == done
    && Join(chunks + [txt], Sep) == Join(done, Sep)
  }

  lemma CloseChunk(done: seq<string>, chunks: seq<string>, groups: seq<seq<string>>, txt: string, cur: seq<string>, maxChars: int, item: string)
    requires |done| >= 1 && Progress(done, chunks, groups, txt, cur, maxChars)
    requires |txt + Sep + item| > maxChars
    ensures Progress(done + [item], chunks + [txt], groups + [cur], item, [item], maxChars)
  {
    CloseGreedy(chunks, groups, txt, cur, item, maxChars);
    JoinSnoc(done, item, Sep);
    JoinSnoc(chunks + [txt], item, Sep);
    FlattenSnoc(groups, cur);
    var cs, gs := chunks + [txt] + [item], groups + [cur] + [[item]];
    forall g | 0 <= g < |gs|
      ensures |gs[g]| >= 1 && cs[g] == Join(gs[g], Sep) && (|gs[g]| >= 2 ==> |cs[g]| <= maxChars)
    {
      if g < |gs| - 1 {
        assert gs[g] == (groups + [cur])[g] && cs[g] == (chunks + [txt])[g];
      }
    }
  }

  /** Extending the last joined element extends the join. */
  lemma JoinExtendLast(xs: seq<string>, x: string, y: string)
    ensures Join(xs + [x + Sep + y], Sep) == Join(xs + [x], Sep) + Sep + y
  {
    if |xs| == 0 {
      assert [x + Sep + y] == xs + [x + Sep + y];
    } else {
      JoinSnoc(xs, x, Sep);
      JoinSnoc(xs, x + Sep + y, Sep);
    }
  }

  lemma ExtendChunk(done: seq<string>, chunks: seq<string>, groups: seq<seq<string>>, txt: string, cur: seq<string>, maxChars: int, item: string)
    requires |done| >= 1 && Progress(done, chunks, groups, txt, cur, maxChars)
    requires |txt + Sep + item| <= maxChars
    ensures Progress(done + [item], chunks, groups, txt + Sep + item, cur + [item], maxChars)
  {
    var n := |groups|;
    assert (groups + [cur])[n] == cur;
    ExtendGreedy(chunks, groups, txt, cur, item, maxChars);
    assert (chunks + [txt])[n] == txt;
    JoinSnoc(done, item, Sep);
    JoinSnoc(cur, item, Sep);
    JoinExtendLast(chunks, txt, item);
    assert Flatten(groups) + (cur + [item]) == done + [item];
    var cs, gs := chunks + [txt + Sep + item], groups + [cur + [item]];
    forall g | 0 <= g < |gs|
      ensures |gs[g]| >= 1 && cs[g] == Join(gs[g], Sep) && (|gs[g]| >= 2 ==> |cs[g]| <= maxChars)
    {
      if g < n {
        assert gs[g] == (groups + [cur])[g] && cs[g] == (chunks + [txt])[g];
      }
    }
  }

  /** The characters `[a-z0-9]` that survive normalisation. */
  predicate IsSearchChar(c: char) {
    'a' <= c <= 'z' || '0' <= c <= '9'
  }

  /** `re.sub('[^a-z0-9]', '', s)`: keeps the search characters, in order. */
  function KeepSearchChars(s: string): (r: string)
    ensures |r| <= |s|
    ensures forall i :: 0 <= i < |r| ==> IsSearchChar(r[i])
    decreases |s|
  {
    if |s| == 0 then ""
    else (if IsSearchChar(s[0]) then [s[0]] else []) + KeepSearchChars(s[1..])
  }

  /** `fix_search_text`: lower case, then every character outside `[a-z0-9]` removed. */
  function FixSearchText(s: string): (r: string)
    ensures forall i :: 0 <= i < |r| ==> IsSearchChar(r[i])
    ensures |r| <= |s|
  {
    KeepSearchChars(Lower(s))
  }

  /** Text that is already normalised is left as it is. */
  lemma {:induction false} KeepSearchCharsFixed(s: string)
    requires forall i :: 0 <= i < |s| ==> IsSearchChar(s[i])
    ensures KeepSearchChars(s) == s
    decreases |s|
  {
    if |s| > 0 {
      KeepSearchCharsFixed(s[1..]);
      assert [s[0]] + s[1..] == s;
    }
  }

  lemma LowerOfSearchText(s: string)
    requires forall i :: 0 <= i < |s| ==> IsSearchChar(s[i])
    ensures Lower(s) == s
  {
  }

  /** Normalising twice is normalising once. */
  lemma FixSearchTextIdempotent(s: string)
    ensures FixSearchText(FixSearchText(s)) == FixSearchText(s)
  {
    var r := FixSearchText(s);
    LowerOfSearchText(r);
    KeepSearchCharsFixed(r);
  }

  /** A character of the input survives exactly when its lower-case form is a search character. */
  lemma {:induction false} KeepSearchCharsMembers(s: string, c: char)
    ensures c in KeepSearchChars(s) <==> IsSearchChar(c) && c in s
    decreases |s|
  {
    if |s| > 0 {
      KeepSearchCharsMembers(s[1..], c);
      assert s == [s[0]] + s[1..];
    }
  }

  /** The index of the first element satisfying the exact or the substring test. */
  function FirstMatch(lookup: seq<string>, key: string, exact: bool): (r: Option<nat>)
    ensures r.Some? ==> r.value < |lookup| && Matches(lookup[r.value], key, exact)
    ensures r.Some? ==> forall k :: 0 <= k < r.value ==> !Matches(lookup[k], key, exact)
    ensures r.None? <==> forall k :: 0 <= k < |lookup| ==> !Matches(lookup[k], key, exact)
    decreases |lookup|
  {
    if |lookup| == 0 then None
    else if Matches(lookup[0], key, exact) then Some(0)
    else
      match FirstMatch(lookup[1..], key, exact)
      case None => None
      case Some(k) => Some(k + 1)
  }

  /** Equality for `list.index`, otherwise `re.search` of a pattern made only of `[a-z0-9]`, which is a substring test. */
  predicate Matches(t: string, key: string, exact: bool) {
    if exact then t == key else IsSubstring(key, t)
  }

  /** `[fix_search_text(s) for s in lst_original]`. */
  function Normalised(names: seq<string>): (r: seq<string>)
    ensures |r| == |names| && forall i :: 0 <= i < |names| ==> r[i] == FixSearchText(names[i])
  {
    seq(|names|, i requires 0 <= i < |names| => FixSearchText(names[i]))
  }

  /** `get_real_name`: an exact match after normalisation wins, then the first normalised name containing the search text. */
  function GetRealName(search: string, names: seq<string>): (r: Option<string>)
    ensures r.Some? ==> r.value in names
  {
    var lookup := Normalised(names);
    var key := FixSearchText(search);
    match FirstMatch(lookup, key, true)
    case Some(i) => Some(names[i])
    case None =>
      match FirstMatch(lookup, key, false)
      case Some(i) => Some(names[i])
      case None => None
  }

  /**
    The exact case: when some name normalises to the normalised search text,
    the result is the first such name.
  */
  lemma GetRealNameExact(search: string, names: seq<string>, j: nat)
    requires j < |names| && FixSearchText(names[j]) == FixSearchText(search)
    requires forall k :: 0 <= k < j ==> FixSearchText(names[k]) != FixSearchText(search)
    ensures GetRealName(search, names) == Some(names[j])
  {
    var lookup := Normalised(names);
    var key := FixSearchText(search);
    assert Matches(lookup[j], key, true);
  }

  /**
    The substring case: with no exact match, the result is the first name whose
    normalised form contains the normalised search text, and `None` when no
    name does.
  */
  lemma GetRealNameSubstring(search: string, names: seq<string>)
    requires forall k :: 0 <= k < |names| ==> FixSearchText(names[k]) != FixSearchText(search)
    ensures GetRealName(search, names).None? <==>
      forall k :: 0 <= k < |names| ==> !IsSubstring(FixSearchText(search), FixSearchText(names[k]))
    ensures GetRealName(search, names).Some? ==>
      exists j :: 0 <= j < |names| && GetRealName(search, names) == Some(names[j])
        && IsSubstring(FixSearchText(search), FixSearchText(names[j]))
        && forall k :: 0 <= k < j ==> !IsSubstring(FixSearchText(search), FixSearchText(names[k]))
  {
    var lookup := Normalised(names);
    var key := FixSearchText(search);
    assert FirstMatch(lookup, key, true).None? by {
      forall k | 0 <= k < |lookup| ensures !Matches(lookup[k], key, true) {
        assert lookup[k] == FixSearchText(names[k]);
      }
    }
    var r := FirstMatch(lookup, key, false);
    if r.Some? {
      assert Matches(lookup[r.value], key, false);
      forall k | 0 <= k < r.value ensures !IsSubstring(key, FixSearchText(names[k])) {
        assert !Matches(lookup[k], key, false);
      }
    } else {
      forall k | 0 <= k < |names| ensures !IsSubstring(key, FixSearchText(names[k])) {
        assert !Matches(lookup[k], key, false);
      }
    }
  }

  /** An empty search text is contained in every name, so the first name is returned (when there is one). */
  lemma EmptySearchFindsFirst(names: seq<string>)
    requires |names| >= 1
    ensures GetRealName("", names).Some?
  {
    assert OccursAt("", Normalised(names)[0], 0);
    assert Matches(Normalised(names)[0], "", false);
  }

  /** The error of a record that lacks a field the caller named: `KeyError(key)`. */
  datatype LookupError = KeyMissing(key: string)

  /** One inversion step: the value is looked up before the key, as Python evaluates `d[k] = v`. */
  function ReverseEntry(item: map<string, string>, newKey: string, newValue: string): Result<(string, string), LookupError> {
    if newValue !in item then Err(KeyMissing(newValue))
    else if newKey !in item then Err(KeyMissing(newKey))
    else Ok((item[newKey], item[newValue]))
  }

  /** The dictionary `create_reverse_lookup` builds from the records, in iteration order. */
  function ReverseLookup(items: seq<map<string, string>>, newKey: string, newValue: string): Result<map<string, string>, LookupError>
    decreases |items|
  {
    if |items| == 0 then Ok(map[])
    else
      var rest :- ReverseLookup(items[..|items| - 1], newKey, newValue);
      var entry :- ReverseEntry(items[|items| - 1], newKey, newValue);
      Ok(rest[entry.0 := entry.1])
  }

  /** `create_reverse_lookup`: one assignment per record, in order. */
  method CreateReverseLookup(items: seq<map<string, string>>, newKey: string, newValue: string)
    returns (r: Result<map<string, string>, LookupError>)
    ensures r == ReverseLookup(items, newKey, newValue)
  {
    var rlookup: map<string, string> := map[];
    var i := 0;
    while i < |items|
      invariant 0 <= i <= |items|
      invariant ReverseLookup(items[..i], newKey, newValue) == Ok(rlookup)
    {
      var item := items[i];
      assert items[..i + 1][..i] == items[..i];
      if newValue !in item {
        ReverseLookupAbort(items, newKey, newValue, i + 1);
        return Err(KeyMissing(newValue));
      }
      if newKey !in item {
        ReverseLookupAbort(items, newKey, newValue, i + 1);
        return Err(KeyMissing(newKey));
      }
      rlookup := rlookup[item[newKey] := item[newValue]];
      i := i + 1;
    }
    assert items[..|items|] == items;
    return Ok(rlookup);
  }

  /** A failure on a prefix is the failure of the whole list. */
  lemma {:induction false} ReverseLookupAbort(items: seq<map<string, string>>, newKey: string, newValue: string, n: nat)
    requires n <= |items| && ReverseLookup(items[..n], newKey, newValue).Err?
    ensures ReverseLookup(items, newKey, newValue) == ReverseLookup(items[..n], newKey, newValue)
    decreases |items| - n
  {
    if n < |items| {
      assert items[..n + 1][..n] == items[..n];
      ReverseLookupAbort(items, newKey, newValue, n + 1);
    } else {
      assert items[..n] == items;
    }
  }

  /**
    The inversion succeeds exactly when every record has both fields; its keys
    are exactly the records' `newKey` values, and each maps to the `newValue`
    of the last record carrying that key.
  */
  lemma ReverseLookupLastWins(items: seq<map<string, string>>, newKey: string, newValue: string)
    ensures ReverseLookup(items, newKey, newValue).Ok? <==> forall j :: 0 <= j < |items| ==> newKey in items[j] && newValue in items[j]
    ensures ReverseLookup(items, newKey, newValue).Ok? ==>
      var m := ReverseLookup(items, newKey, newValue).value;
      && (forall k :: k in m <==> exists j :: 0 <= j < |items| && items[j][newKey] == k)
      && (forall j :: 0 <= j < |items| && (forall l :: j < l < |items| ==> items[l][newKey] != items[j][newKey]) ==>
            m[items[j][newKey]] == items[j][newValue])
  {
    ReverseLookupOk(items, newKey, newValue);
    if ReverseLookup(items, newKey, newValue).Ok? {
      ReverseLookupKeys(items, newKey, newValue);
      ReverseLookupValues(items, newKey, newValue);
    }
  }

  /** The inversion succeeds exactly when every record has both fields. */
  lemma {:induction false} ReverseLookupOk(items: seq<map<string, string>>, newKey: string, newValue: string)
    ensures ReverseLookup(items, newKey, newValue).Ok? <==> forall j :: 0 <= j < |items| ==> newKey in items[j] && newValue in items[j]
    decreases |items|
  {
    if |items| > 0 {
      var front := items[..|items| - 1];
      ReverseLookupOk(front, newKey, newValue);
      assert forall j :: 0 <= j < |front| ==> front[j] == items[j];
    }
  }

  /** The keys of a successful inversion are exactly the records' `newKey` values. */
  lemma {:induction false} ReverseLookupKeys(items: seq<map<string, string>>, newKey: string, newValue: string)
    requires ReverseLookup(items, newKey, newValue).Ok?
    ensures forall j :: 0 <= j < |items| ==> newKey in items[j]
    ensures forall k :: k in ReverseLookup(items, newKey, newValue).value <==> exists j :: 0 <= j < |items| && items[j][newKey] == k
    decreases |items|
  {
    if |items| > 0 {
      var n := |items| - 1;
      var front := items[..n];
      ReverseLookupKeys(front, newKey, newValue);
      assert forall j :: 0 <= j < n ==> front[j] == items[j];
      var m := ReverseLookup(items, newKey, newValue).value;
      var m0 := ReverseLookup(front, newKey, newValue).value;
      assert m == m0[items[n][newKey] := items[n][newValue]];
      forall k | k in m ensures exists j :: 0 <= j < |items| && items[j][newKey] == k {
        if k != items[n][newKey] {
          var j :| 0 <= j < n && front[j][newKey] == k;
          assert items[j][newKey] == k;
        }
      }
    }
  }

  /** Each key of a successful inversion maps to the `newValue` of the last record carrying it. */
  lemma {:induction false} ReverseLookupValues(items: seq<map<string, string>>, newKey: string, newValue: string)
    requires ReverseLookup(items, newKey, newValue).Ok?
    ensures forall j :: 0 <= j < |items| ==> newKey in items[j] && newValue in items[j]
    ensures forall j :: 0 <= j < |items| && (forall l :: j < l < |items| ==> items[l][newKey] != items[j][newKey]) ==>
      var m := ReverseLookup(items, newKey, newValue).value;
      items[j][newKey] in m && m[items[j][newKey]] == items[j][newValue]
    decreases |items|
  {
    if |items| > 0 {
      var n := |items| - 1;
      var front := items[..n];
      ReverseLookupValues(front, newKey, newValue);
      assert forall j :: 0 <= j < n ==> front[j] == items[j];
      var m0 := ReverseLookup(front, newKey, newValue).value;
      assert ReverseLookup(items, newKey, newValue).value == m0[items[n][newKey] := items[n][newValue]];
    }
  }

  /** Two records with the same key: the later one's value is kept. */
  lemma ReverseLookupExample()
    ensures var items := [map["Name" := "a", "Id" := "1"], map["Name" := "a", "Id" := "2"]];
      && ReverseLookup(items, "Name", "Id").Ok?
      && ReverseLookup(items, "Name", "Id").value == map["a" := "2"]
  {
    var items := [map["Name" := "a", "Id" := "1"], map["Name" := "a", "Id" := "2"]];
    assert items[..1][..0] == [];
    assert ReverseLookup(items[..1][..0], "Name", "Id") == Ok(map[]);
    assert ReverseLookup(items[..1], "Name", "Id") == Ok(map["a" := "1"]);
  }
}
