/**
 The scanning, parsing and printing loops of packages/cli/src/config.ts, each
 proved equal to the function the round trip is stated about.
 */
module YamlConfig {
  import opened Wrappers
  import opened JsText
  import opened YamlScalars
  import opened YamlBlocks
  import opened YamlRoundTrip
  import opened YamlText

  // ----- scanning -----

  /** The shared scan: quotes open and close, a backslash in double quotes hides one character. */
  method Scan(text: string, target: Target) returns (at: Option<nat>)
    ensures at == Find(text, 0, Bare, false, target)
  {
    var quote := Bare;
    var escaped := false;
    var index := 0;
    while index < |text|
      invariant index <= |text|
      invariant Find(text, 0, Bare, false, target) == Find(text, index, quote, escaped, target)
      invariant escaped ==> quote == Double
    {
      var character := text[index];
      if quote == Double && escaped {
        escaped := false;
      } else if quote == Double && character == '\\' {
        escaped := true;
      } else if character == '\'' || character == '"' {
        var here := if character == '"' then Double else Single;
        quote := if quote == here then Bare else if quote == Bare then here else quote;
      } else if quote == Bare && Hit(text, index, target) {
        return Some(index);
      }
      index := index + 1;
    }
    return None;
  }

  method SplitAtColon(text: string) returns (pair: Result<Option<(string, string)>, YamlError>)
    ensures pair == SplitPair(text)
  {
    var at := Scan(text, Colon);
    if at.None? {
      return Ok(None);
    }
    var key := Trim(text[..at.value]);
    if key == "" {
      return Ok(None);
    }
    var name := Unquote(key);
    if name.Err? {
      return Err(name.error);
    }
    return Ok(Some((name.value, Trim(text[at.value + 1..]))));
  }

  method CutComment(value: string) returns (r: string)
    ensures r == StripComment(value)
  {
    var at := Scan(value, Hash);
    return if at.Some? then value[..at.value] else value;
  }

  // ----- parsing -----

  datatype Located = Located(value: Yaml, index: nat)

  /** An index into the lines stands for the lines from there on. */
  ghost predicate Agrees(ls: seq<Line>, spec: Result<Parsed, YamlError>, r: Result<Located, YamlError>) {
    match spec
    case Err(e) => r == Err(e)
    case Ok(p) => r.Ok? && r.value.value == p.value && r.value.index <= |ls| && ls[r.value.index..] == p.rest
  }

  method ReadBlock(ls: seq<Line>, start: nat, indent: nat) returns (r: Result<Located, YamlError>)
    requires start < |ls|
    ensures Agrees(ls, ParseBlock(ls[start..], indent), r)
    decreases |ls| - start, 1
  {
    if IsDash(ls[start].text) {
      r := ReadSequence(ls, start, indent);
    } else {
      r := ReadMapping(ls, start, indent);
    }
  }

  method ReadMapping(ls: seq<Line>, start: nat, indent: nat) returns (r: Result<Located, YamlError>)
    requires start < |ls|
    ensures Agrees(ls, ParseMap(ls[start..], indent, []), r)
    decreases |ls| - start, 0
  {
    hide SplitPair, ParseScalar, ParseBlock, InObject;
    var made: seq<Entry> := [];
    var index := start;
    while index < |ls|
      invariant start <= index <= |ls|
      invariant ParseMap(ls[start..], indent, []) == ParseMap(ls[index..], indent, made)
      decreases |ls| - index
    {
      var line := ls[index];
      assert ls[index..][0] == line && ls[index..][1..] == ls[index + 1..];
      if line.indent < indent {
        break;
      }
      if line.indent > indent {
        return Err(Indentation);
      }
      if IsDash(line.text) {
        return Ok(Located(Map(made), index));
      }
      var pair := SplitAtColon(line.text);
      if pair.Err? {
        return Err(pair.error);
      }
      if pair.value.None? {
        return Err(ExpectedPair);
      }
      var (key, text) := pair.value.value;
      if InObject(made, key) {
        return Err(DuplicateKey);
      }
      if text != "" {
        var value := ParseScalar(text);
        if value.Err? {
          return Err(value.error);
        }
        made := made + [Entry(key, value.value)];
        index := index + 1;
      } else if index + 1 == |ls| || ls[index + 1].indent <= indent {
        made := made + [Entry(key, Map([]))];
        index := index + 1;
      } else {
        var child := ReadBlock(ls, index + 1, ls[index + 1].indent);
        if child.Err? {
          return Err(child.error);
        }
        made := made + [Entry(key, child.value.value)];
        index := child.value.index;
      }
    }
    return Ok(Located(Map(made), index));
  }

  method ReadSequence(ls: seq<Line>, start: nat, indent: nat) returns (r: Result<Located, YamlError>)
    requires start < |ls|
    ensures Agrees(ls, ParseItems(ls[start..], indent, []), r)
    decreases |ls| - start, 0
  {
    var values: seq<Yaml> := [];
    var index := start;
    while index < |ls|
      invariant start <= index <= |ls|
      invariant ParseItems(ls[start..], indent, []) == ParseItems(ls[index..], indent, values)
      decreases |ls| - index
    {
      var line := ls[index];
      assert ls[index..][0] == line;
      if line.indent < indent {
        break;
      }
      if line.indent != indent || !IsDash(line.text) {
        return Err(ExpectedItem);
      }
      var one := ReadItem(ls, index, indent);
      if one.Err? {
        return Err(one.error);
      }
      values := values + [one.value.value];
      index := one.value.index;
    }
    return Ok(Located(List(values), index));
  }

  /** The body of the sequence loop: one item. */
  method ReadItem(ls: seq<Line>, start: nat, indent: nat) returns (r: Result<Located, YamlError>)
    requires start < |ls| && IsDash(ls[start].text)
    ensures Agrees(ls, ParseItem(ls[start..], indent), r)
    decreases |ls| - start, 0, 0
  {
    assert ls[start..][0] == ls[start] && ls[start..][1..] == ls[start + 1..];
    assert start + 1 < |ls| ==> ls[start..][1] == ls[start + 1];
    var item := ItemText(ls[start].text);
    var deeper := start + 1 < |ls| && ls[start + 1].indent > indent;
    if item == "" {
      if !deeper {
        return Ok(Located(Null, start + 1));
      }
      r := ReadBlock(ls, start + 1, ls[start + 1].indent);
      return;
    }
    var pair := SplitAtColon(item);
    if pair.Err? {
      return Err(pair.error);
    }
    if pair.value.None? {
      var value := ParseScalar(item);
      return if value.Err? then Err(value.error) else Ok(Located(value.value, start + 1));
    }
    var (key, text) := pair.value.value;
    var first := if text == "" then Ok(Map([])) else ParseScalar(text);
    if first.Err? {
      return Err(first.error);
    }
    if !deeper {
      return Ok(Located(Map(Assigned(key, first.value)), start + 1));
    }
    var childIndent := ls[start + 1].indent;
    hide ParseBlock, ParseScalar, SplitPair, Continue, ItemText;
    if text != "" {
      r := ReadContinuation(ls, key, first.value, start + 1, childIndent);
    } else {
      var child := ReadBlock(ls, start + 1, childIndent);
      if child.Err? {
        return Err(child.error);
      }
      r := ReadContinuation(ls, key, child.value.value, child.value.index, childIndent);
    }
  }

  method ReadContinuation(ls: seq<Line>, first: string, value: Yaml, index: nat, indent: nat) returns (r: Result<Located, YamlError>)
    requires index <= |ls|
    ensures Agrees(ls, Continue(first, value, ls[index..], indent), r)
    decreases |ls| - index, 2
  {
    assert index < |ls| ==> ls[index..][0] == ls[index];
    if index == |ls| || ls[index].indent != indent || "- " <= ls[index].text {
      return Ok(Located(Map(Assigned(first, value)), index));
    }
    hide ParseBlock;
    var rest := ReadBlock(ls, index, indent);
    if rest.Err? {
      return Err(rest.error);
    }
    if !rest.value.value.Map? {
      return Err(BadContinuation);
    }
    var more := rest.value.value.entries;
    for i := 0 to |more|
      invariant forall j :: 0 <= j < i ==> !Taken(first, value, more[j].key)
    {
      if Taken(first, value, more[i].key) {
        return Err(DuplicateKey);
      }
    }
    return Ok(Located(Map(Assigned(first, value) + more), rest.value.index));
  }

  // ----- printing -----

  function RawLines(ls: seq<Line>): seq<string> {
    seq(|ls|, i requires 0 <= i < |ls| => Raw(ls[i]))
  }

  lemma RawJoin(a: seq<Line>, b: seq<Line>)
    ensures RawLines(a + b) == RawLines(a) + RawLines(b)
  {
  }

  /** What `writeYamlValue` produces for a value, under a key or without one. */
  function Written(value: Yaml, indent: nat, key: Option<string>): seq<Line> {
    if key.Some? then EntryLines(key.value, value, indent)
    else if Flat(value) then [Line(indent, FlatText(value))]
    else BlockLines(value, indent)
  }

  method WriteYamlValue(value: Yaml, indent: nat, key: Option<string>) returns (output: seq<string>)
    ensures output == RawLines(Written(value, indent, key))
    decreases value, 1
  {
    var prefix := Spaces(indent);
    if Flat(value) {
      if key.Some? {
        FlatLine(key.value, value, indent);
        return [prefix + (key.value + ":" + (" " + FlatText(value)))];
      }
      return [prefix + FlatText(value)];
    }
    var childIndent := if key.None? then indent else indent + 2;
    var head := if key.None? then [] else [prefix + (key.value + ":" + "")];
    if key.Some? {
      CompoundLines(key.value, value, indent);
      RawJoin([Line(indent, key.value + ":" + "")], BlockLines(value, indent + 2));
    }
    var rest;
    if value.List? {
      rest := WriteItems(value.items, childIndent);
    } else {
      rest := WriteEntries(value.entries, childIndent);
    }
    output := head + rest;
  }

  method WriteEntries(entries: seq<Entry>, indent: nat) returns (output: seq<string>)
    ensures output == RawLines(MapLines(entries, indent))
    decreases entries, 2
  {
    output := [];
    for i := 0 to |entries|
      invariant output + RawLines(MapLines(entries[i..], indent)) == RawLines(MapLines(entries, indent))
    {
      assert entries[i..][0] == entries[i] && entries[i..][1..] == entries[i + 1..];
      var more := WriteYamlValue(entries[i].value, indent, Some(entries[i].key));
      RawJoin(EntryLines(entries[i].key, entries[i].value, indent), MapLines(entries[i + 1..], indent));
      output := output + more;
    }
    assert entries[|entries|..] == [];
  }

  method WriteItems(items: seq<Yaml>, indent: nat) returns (output: seq<string>)
    ensures output == RawLines(ItemLines(items, indent))
    decreases items, 2
  {
    output := [];
    for i := 0 to |items|
      invariant output + RawLines(ItemLines(items[i..], indent)) == RawLines(ItemLines(items, indent))
    {
      assert items[i..][0] == items[i] && items[i..][1..] == items[i + 1..];
      var more := WriteItem(items[i], indent);
      RawJoin(OneItem(items[i], indent), ItemLines(items[i + 1..], indent));
      output := output + more;
    }
    assert items[|items|..] == [];
  }

  lemma {:induction false} TrimSpaced(n: nat, text: string)
    ensures TrimStart(Spaces(n) + text) == TrimStart(text)
    decreases n
  {
    if n == 0 {
      assert Spaces(0) + text == text;
    } else {
      assert (Spaces(n) + text)[1..] == Spaces(n - 1) + text;
      TrimSpaced(n - 1, text);
    }
  }

  method WriteItem(item: Yaml, indent: nat) returns (output: seq<string>)
    ensures output == RawLines(OneItem(item, indent))
    decreases item, 1
  {
    var prefix := Spaces(indent);
    if Flat(item) {
      FlatItem(item, indent);
      return [prefix + ("- " + FlatText(item))];
    }
    if item.List? {
      var inner := WriteItems(item.items, indent + 2);
      RawJoin([Line(indent, "-")], ItemLines(item.items, indent + 2));
      return [prefix + "-"] + inner;
    }
    hide OneItem, EntryLines, MapLines, ItemLines, TrimStart;
    var e, more := item.entries[0], item.entries[1..];
    assert [e] + more == item.entries;
    var firstLines := WriteYamlValue(e.value, indent + 2, Some(e.key));
    var rest := WriteEntries(more, indent + 2);
    ghost var first := EntryLines(e.key, e.value, indent + 2);
    OneItemIs(e, more, indent);
    TrimSpaced(indent + 2, first[0].text);
    RawJoin([Line(indent, "- " + TrimStart(first[0].text))] + first[1..], MapLines(more, indent + 2));
    RawJoin([Line(indent, "- " + TrimStart(first[0].text))], first[1..]);
    assert RawLines(first)[1..] == RawLines(first[1..]);
    output := [prefix + ("- " + TrimStart(firstLines[0]))] + firstLines[1..] + rest;
  }

  /** Print a value: its lines joined by line ends, and one more. */
  method Stringify(v: Yaml) returns (text: string)
    ensures text == StringifyYaml(v)
  {
    var output := WriteYamlValue(v, 0, None);
    ghost var ls := ValueLines(v);
    assert output == RawLines(ls);
    text := "";
    var i: nat := |output|;
    assert ls[i..] == [];
    while i > 0
      invariant i <= |output| && text == SourceOf(ls[i..])
    {
      i := i - 1;
      assert ls[i..][0] == ls[i] && ls[i..][1..] == ls[i + 1..];
      text := output[i] + "\n" + text;
    }
    assert ls[0..] == ls;
  }

  /** Read a document: its lines, then one block that must use them all. */
  method Parse(source: string) returns (r: Result<Yaml, YamlError>)
    ensures r == ParseYaml(source)
  {
    var raws := SplitLines(source);
    var ls: seq<Line> := [];
    PrependNone(LexAll(raws));
    assert raws[0..] == raws;
    hide LexAll, LexLine, Prepend;
    for i := 0 to |raws|
      invariant LexAll(raws) == Prepend(ls, LexAll(raws[i..]))
    {
      LexStep(raws, i);
      var line := LexLine(raws[i]);
      if line.Err? {
        PrependError(ls, line.error);
        return Err(line.error);
      }
      if line.value.Some? {
        PrependOne(ls, line.value.value, LexAll(raws[i + 1..]));
        ls := ls + [line.value.value];
      } else {
        PrependNone(LexAll(raws[i + 1..]));
      }
    }
    assert raws[|raws|..] == [];
    PrependEnd(ls);
    if ls == [] {
      return Ok(Map([]));
    }
    if ls[0].indent != 0 {
      return Err(RootIndent);
    }
    var parsed := ReadBlock(ls, 0, 0);
    assert ls[0..] == ls;
    if parsed.Err? {
      return Err(parsed.error);
    }
    return if parsed.value.index != |ls| then Err(Indentation) else Ok(parsed.value.value);
  }

  function Prepend(a: seq<Line>, r: Result<seq<Line>, YamlError>): Result<seq<Line>, YamlError> {
    if r.Err? then r else Ok(a + r.value)
  }

  lemma {:induction false} PrependNone(r: Result<seq<Line>, YamlError>)
    ensures Prepend([], r) == r
  {
    if r.Ok? {
      assert [] + r.value == r.value;
    }
  }

  lemma {:induction false} PrependError(a: seq<Line>, e: YamlError)
    ensures Prepend(a, Err(e)) == Err(e)
  {
  }

  lemma PrependEnd(a: seq<Line>)
    ensures Prepend(a, LexAll([])) == Ok(a)
  {
    assert a + [] == a;
  }

  lemma {:induction false} PrependOne(a: seq<Line>, l: Line, r: Result<seq<Line>, YamlError>)
    ensures Prepend(a, Prepend([l], r)) == Prepend(a + [l], r)
  {
    if r.Ok? {
      assert a + ([l] + r.value) == (a + [l]) + r.value;
    }
  }

  lemma LexStep(raws: seq<string>, i: nat)
    requires i < |raws|
    ensures var line := LexLine(raws[i]);
      LexAll(raws[i..]) ==
        if line.Err? then Err(line.error)
        else if line.value.Some? then Prepend([line.value.value], LexAll(raws[i + 1..]))
        else Prepend([], LexAll(raws[i + 1..]))
  {
    hide LexLine;
    assert raws[i..][0] == raws[i] && raws[i..][1..] == raws[i + 1..];
  }
}
