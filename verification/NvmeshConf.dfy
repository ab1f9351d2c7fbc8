/** The text of the "nvmesh.conf" entry: parser, printer and the merge that keeps user settings. */
module NvmeshConf {
  import opened Strings

  type Dict = map<string, string>

  // ---- parser --------------------------------------------------------------------------------

  function LineKey(line: string): string
  {
    Split(line, '=')[0]
  }

  function LineValue(line: string): string
  {
    Join(Split(line, '=')[1..], '=')
  }

  function ParseLines(lines: seq<string>): Dict
  {
    if lines == [] then map[]
    else
      var last := lines[|lines| - 1];
      ParseLines(lines[..|lines| - 1])[LineKey(last) := LineValue(last)]
  }

  function Parse(conf: string): Dict
  {
    ParseLines(Split(conf, '\n'))
  }

  method ConfigStringToDict(conf: string) returns (dict: Dict)
    ensures dict == Parse(conf)
  {
    dict := map[];
    var lines := Split(conf, '\n');
    for i := 0 to |lines|
      invariant dict == ParseLines(lines[..i])
    {
      var lineParts := Split(lines[i], '=');
      var key := lineParts[0];
      var value := Join(lineParts[1..], '=');
      dict := dict[key := value];
      assert lines[..i + 1] == lines[..i] + [lines[i]];
    }
    assert lines[..|lines|] == lines;
  }

  /** The line is for this key: it is the key, or the key with '=' and more behind it. */
  predicate IsFor(line: string, key: string)
  {
    '=' !in key && key <= line && (|line| > |key| ==> line[|key|] == '=')
  }

  lemma LineMeans(line: string, key: string)
    ensures LineKey(line) == key <==> IsFor(line, key)
    ensures IsFor(line, key) ==> LineValue(line) == if |line| > |key| then line[|key| + 1..] else ""
  {
    SplitPieces(line, '=');
    JoinOfSplit(line, '=');
    var parts := Split(line, '=');
    if LineKey(line) == key {
      assert '=' !in key;
      if |parts| > 1 { assert line == key + (['='] + Join(parts[1..], '=')); } else { assert line == key; }
    }
    if IsFor(line, key) {
      if |line| > |key| {
        var rest := line[|key| + 1..];
        assert line == key + ['='] + rest;
        SplitAfterPrefix(key, rest, '=');
        JoinOfSplit(rest, '=');
      } else {
        assert line == key;
        SplitWithoutSeparator(key, '=');
      }
    }
  }

  /** Line i has the last word on this key. */
  predicate LastFor(lines: seq<string>, i: nat, key: string)
    requires i < |lines|
  {
    IsFor(lines[i], key) && forall j :: i < j < |lines| ==> !IsFor(lines[j], key)
  }

  /** Some line is for this key. */
  predicate SetBy(lines: seq<string>, key: string)
  {
    exists i :: 0 <= i < |lines| && IsFor(lines[i], key)
  }

  lemma {:induction false} LinesMean(lines: seq<string>, k: string)
    ensures k in ParseLines(lines) <==> SetBy(lines, k)
    ensures forall i :: 0 <= i < |lines| && LastFor(lines, i, k) ==>
      k in ParseLines(lines) && ParseLines(lines)[k] == if |lines[i]| > |k| then lines[i][|k| + 1..] else ""
  {
    hide LineKey, LineValue, IsFor;
    if lines != [] {
      var n := |lines| - 1;
      var front := lines[..n];
      LinesMean(front, k);
      LineMeans(lines[n], k);
      if SetBy(front, k) {
        var i :| 0 <= i < |front| && IsFor(front[i], k);
        assert lines[i] == front[i];
      }
      if SetBy(lines, k) {
        var i :| 0 <= i < |lines| && IsFor(lines[i], k);
        if i < n { assert front[i] == lines[i]; }
      }
      forall i | 0 <= i < |lines| && LastFor(lines, i, k)
        ensures k in ParseLines(lines) && ParseLines(lines)[k] == if |lines[i]| > |k| then lines[i][|k| + 1..] else ""
      {
        if i < n { assert front[i] == lines[i] && LastFor(front, i, k); }
      }
    }
  }

  /** A text's settings: a key is set exactly when some line is for it, and the last such line has the value, which is
      whatever follows its first '=', and empty if there is none. */
  lemma ParseMeans(s: string, k: string)
    ensures var lines := Split(s, '\n');
      && (k in Parse(s) <==> SetBy(lines, k))
      && (forall i :: 0 <= i < |lines| && LastFor(lines, i, k) ==>
            k in Parse(s) && Parse(s)[k] == if |lines[i]| > |k| then lines[i][|k| + 1..] else "")
  {
    hide IsFor, ParseLines, Split;
    LinesMean(Split(s, '\n'), k);
  }

  // ---- printer -------------------------------------------------------------------------------

  function Lines(keys: seq<string>, d: Dict): (lines: seq<string>)
    requires forall k :: k in keys ==> k in d
    ensures |lines| == |keys|
  {
    seq(|keys|, i requires 0 <= i < |keys| => keys[i] + ['='] + d[keys[i]])
  }

  /** One "key=value" line per key, keys ascending. */
  ghost function Print(d: Dict): string
  {
    ListingIsAscending(d.Keys);
    Join(Lines(Listing(d.Keys), d), '\n')
  }

  /** Ranging over a map: the runtime picks the order. */
  method MapKeys(d: Dict) returns (keys: seq<string>)
    ensures Enumerates(keys, d.Keys)
  {
    keys := [];
    var remaining := d.Keys;
    while remaining != {}
      invariant remaining <= d.Keys
      invariant Enumerates(keys, d.Keys - remaining)
      decreases |remaining|
    {
      var k :| k in remaining;
      keys := keys + [k];
      remaining := remaining - {k};
    }
    assert d.Keys - remaining == d.Keys;
  }

  method ConfigDictToString(d: Dict) returns (text: string)
    ensures text == Print(d)
  {
    var keys := MapKeys(d);
    var sortedKeys := Sort(keys);
    SortedEnumeration(keys, d.Keys);
    ListingIsAscending(d.Keys);
    var lines: seq<string> := [];
    for i := 0 to |sortedKeys|
      invariant lines == Lines(sortedKeys, d)[..i]
    {
      lines := lines + [sortedKeys[i] + ['='] + d[sortedKeys[i]]];
    }
    assert lines == Lines(sortedKeys, d);
    text := Join(lines, '\n');
  }

  // ---- round trip ----------------------------------------------------------------------------

  /** The maps that survive printing: at least one key, and no separator inside a key or value. */
  ghost predicate Printable(d: Dict)
  {
    && d != map[]
    && forall k :: k in d ==> '=' !in k && '\n' !in k && '\n' !in d[k]
  }

  lemma {:induction false} JoinStaysClean(parts: seq<string>, sep: char, c: char)
    requires c != sep && forall p :: p in parts ==> c !in p
    ensures c !in Join(parts, sep)
  {
    if |parts| > 1 { JoinStaysClean(parts[1..], sep, c); }
  }

  lemma LineIsClean(line: string)
    requires '\n' !in line
    ensures '=' !in LineKey(line) && '\n' !in LineKey(line) && '\n' !in LineValue(line)
  {
    SplitPieces(line, '=');
    var parts := Split(line, '=');
    assert parts[0] in parts;
    JoinStaysClean(parts[1..], '=', '\n');
  }

  lemma {:induction false} ParseLinesPrintable(lines: seq<string>)
    requires forall l :: l in lines ==> '\n' !in l
    ensures lines != [] ==> Printable(ParseLines(lines))
  {
    if lines != [] {
      var n := |lines| - 1;
      assert lines[n] in lines;
      LineIsClean(lines[n]);
      ParseLinesPrintable(lines[..n]);
      assert LineKey(lines[n]) in ParseLines(lines);
    }
  }

  lemma ParseYieldsPrintable(s: string)
    ensures Printable(Parse(s))
  {
    SplitPieces(s, '\n');
    ParseLinesPrintable(Split(s, '\n'));
  }

  lemma PrintedLine(k: string, v: string)
    requires '=' !in k
    ensures LineKey(k + ['='] + v) == k && LineValue(k + ['='] + v) == v
  {
    SplitAfterPrefix(k, v, '=');
    JoinOfSplit(v, '=');
    assert ([k] + Split(v, '='))[1..] == Split(v, '=');
  }

  lemma {:induction false} ParseOfLines(keys: seq<string>, d: Dict)
    requires forall k :: k in keys ==> k in d && '=' !in k
    ensures ParseLines(Lines(keys, d)) == map k | k in keys :: d[k]
  {
    if keys != [] {
      var n := |keys| - 1;
      var front := keys[..n];
      assert keys == front + [keys[n]];
      ParseOfLines(front, d);
      PrintedLine(keys[n], d[keys[n]]);
      assert Lines(keys, d)[..n] == Lines(front, d);
    }
  }

  lemma PrintedLinesAreClean(keys: seq<string>, d: Dict)
    requires forall k :: k in keys ==> k in d && '\n' !in k && '\n' !in d[k]
    ensures forall l :: l in Lines(keys, d) ==> '\n' !in l
  {
    forall l | l in Lines(keys, d) ensures '\n' !in l {
      var i :| 0 <= i < |keys| && l == Lines(keys, d)[i];
      assert keys[i] in keys;
    }
  }

  predicate IsTable(lines: seq<string>, keys: seq<string>, d: Dict)
  {
    |lines| == |keys| && forall i :: 0 <= i < |keys| ==> keys[i] in d && lines[i] == keys[i] + "=" + d[keys[i]]
  }

  /** The printed text, line by line: every key once, in ascending order, each with '=' and its value. */
  lemma PrintMeans(d: Dict)
    requires d != map[] && forall k :: k in d ==> '\n' !in k && '\n' !in d[k]
    ensures var lines := Split(Print(d), '\n');
      |lines| == |d| && exists keys :: Enumerates(keys, d.Keys) && Ascending(keys) && IsTable(lines, keys, d)
  {
    ListingIsAscending(d.Keys);
    var keys := Listing(d.Keys);
    EnumerationSize(keys, d.Keys);
    PrintedLinesAreClean(keys, d);
    assert |keys| == |d.Keys| == |d|;
    SplitOfJoin(Lines(keys, d), '\n');
    assert IsTable(Lines(keys, d), keys, d);
  }

  lemma {:induction false} EnumerationSize(q: seq<string>, s: set<string>)
    requires Enumerates(q, s)
    ensures |q| == |s|
  {
    if q == [] {
      assert forall x :: x in s ==> x in q;
    } else {
      var n := |q| - 1;
      assert q == q[..n] + [q[n]];
      EnumerationSize(q[..n], s - {q[n]});
    }
  }

  lemma PrintThenParse(d: Dict)
    requires Printable(d)
    ensures Parse(Print(d)) == d
  {
    var keys := Listing(d.Keys);
    ListingIsAscending(d.Keys);
    var k :| k in d.Keys;
    assert k in keys;
    PrintedLinesAreClean(keys, d);
    SplitOfJoin(Lines(keys, d), '\n');
    ParseOfLines(keys, d);
  }

  /** The round trip holds for exactly the printable maps; the empty map and embedded separators are lost. */
  lemma RoundTripExactly(d: Dict)
    ensures Parse(Print(d)) == d <==> Printable(d)
  {
    if Printable(d) { PrintThenParse(d); }
    ParseYieldsPrintable(Print(d));
  }

  /** Normalising any text once is enough: printing what was parsed is a fixed point with the same meaning. */
  lemma NormalFormIsStable(s: string)
    ensures Parse(Print(Parse(s))) == Parse(s)
    ensures Print(Parse(Print(Parse(s)))) == Print(Parse(s))
  {
    ParseYieldsPrintable(s);
    PrintThenParse(Parse(s));
  }

  lemma PrintIsInjective(d: Dict, e: Dict)
    requires Printable(d) && Printable(e)
    ensures Print(d) == Print(e) <==> d == e
  {
    PrintThenParse(d);
    PrintThenParse(e);
  }

  /** Any two enumerations of the keys print the same text. */
  lemma PrintIgnoresMapOrder(d: Dict, first: seq<string>, second: seq<string>)
    requires Enumerates(first, d.Keys) && Enumerates(second, d.Keys)
    ensures Sort(first) == Sort(second) && forall k :: k in Sort(first) ==> k in d
    ensures Join(Lines(Sort(first), d), '\n') == Join(Lines(Sort(second), d), '\n') == Print(d)
  {
    SortedEnumeration(first, d.Keys);
    SortedEnumeration(second, d.Keys);
    ListingIsAscending(d.Keys);
  }

  // ---- merge ---------------------------------------------------------------------------------

  /** Go's map read: a missing key reads as the empty string. */
  function Lookup(d: Dict, k: string): string
  {
    if k in d then d[k] else ""
  }

  /** The text the operator wants stored: its own settings on top of what is there. */
  ghost function Merged(expected: string, current: string): string
  {
    Print(Parse(current) + Parse(expected))
  }

  ghost predicate NeedsUpdate(expected: string, current: string)
  {
    exists k :: k in Parse(expected) && Lookup(Parse(current), k) != Parse(expected)[k]
  }

  method AnyFieldDiffers(expectedDict: Dict, currentDict: Dict) returns (differs: bool)
    ensures differs <==> exists k :: k in expectedDict && Lookup(currentDict, k) != expectedDict[k]
  {
    differs := false;
    var fields := MapKeys(expectedDict);
    for i := 0 to |fields|
      invariant differs <==> exists j :: 0 <= j < i && Lookup(currentDict, fields[j]) != expectedDict[fields[j]]
    {
      if Lookup(currentDict, fields[i]) != expectedDict[fields[i]] { differs := true; }
    }
    assert forall k :: k in expectedDict ==> k in fields;
  }

  method CopyUserFields(expectedDict: Dict, currentDict: Dict) returns (merged: Dict)
    ensures merged == currentDict + expectedDict
  {
    merged := expectedDict;
    var fields := currentDict.Keys;
    while fields != {}
      invariant fields <= currentDict.Keys
      invariant merged == (currentDict - fields) + expectedDict
      decreases |fields|
    {
      var field :| field in fields;
      if field !in merged {
        merged := merged[field := currentDict[field]];
      }
      fields := fields - {field};
    }
    assert currentDict - {} == currentDict;
  }

  method ShouldUpdateNVMeshConf(expected: string, current: string) returns (shouldUpdate: bool, text: string)
    ensures shouldUpdate <==> NeedsUpdate(expected, current)
    ensures text == Merged(expected, current)
  {
    var expectedDict := ConfigStringToDict(expected);
    var currentDict := ConfigStringToDict(current);
    shouldUpdate := AnyFieldDiffers(expectedDict, currentDict);
    expectedDict := CopyUserFields(expectedDict, currentDict);
    text := ConfigDictToString(expectedDict);
  }

  lemma MergedIsPrintable(expected: string, current: string)
    ensures Parse(Merged(expected, current)) == Parse(current) + Parse(expected)
  {
    ParseYieldsPrintable(expected);
    ParseYieldsPrintable(current);
    var k :| k in Parse(expected);
    assert k in Parse(current) + Parse(expected);
    PrintThenParse(Parse(current) + Parse(expected));
  }

  /** What a reader of the merged text finds, key by key, and what the flag says about it. */
  lemma MergeIsExact(expected: string, current: string)
    ensures Parse(Merged(expected, current)).Keys == Parse(expected).Keys + Parse(current).Keys
    ensures forall k :: k in Parse(expected) ==> Lookup(Parse(Merged(expected, current)), k) == Parse(expected)[k]
    ensures forall k :: k in Parse(current) && k !in Parse(expected) ==>
      Lookup(Parse(Merged(expected, current)), k) == Parse(current)[k]
    ensures NeedsUpdate(expected, current) <==>
      exists k :: Lookup(Parse(Merged(expected, current)), k) != Lookup(Parse(current), k)
  {
    MergedIsPrintable(expected, current);
    if NeedsUpdate(expected, current) {
      var k :| k in Parse(expected) && Lookup(Parse(current), k) != Parse(expected)[k];
      assert Lookup(Parse(Merged(expected, current)), k) != Lookup(Parse(current), k);
    }
  }

  /** Merging into the merged text asks for nothing and changes nothing. */
  lemma MergeConverges(expected: string, current: string)
    ensures !NeedsUpdate(expected, Merged(expected, current))
    ensures Merged(expected, Merged(expected, current)) == Merged(expected, current)
  {
    MergedIsPrintable(expected, current);
    assert (Parse(current) + Parse(expected)) + Parse(expected) == Parse(current) + Parse(expected);
  }
}
