/**
 Block structure of the YAML printer and parser (packages/cli/src/config.ts:
 `writeYamlValue`, `parseBlock`, `parseSequence`) as functions on lines, and the
 round trip between them.
 */
module YamlBlocks {
  import opened Wrappers
  import opened JsText
  import opened YamlScalars

  /** A line's indentation and the text after it. */
  datatype Line = Line(indent: nat, text: string)

  // ----- printing -----

  function EntryLines(key: string, value: Yaml, indent: nat): (ls: seq<Line>)
    ensures |ls| > 0 && ls[0].indent == indent
    decreases value, 1
  {
    match value
    case List(items) =>
      if items == [] then [Line(indent, key + ": []")] else [Line(indent, key + ":")] + ItemLines(items, indent + 2)
    case Map(entries) =>
      if entries == [] then [Line(indent, key + ": {}")] else [Line(indent, key + ":")] + MapLines(entries, indent + 2)
    case _ => [Line(indent, key + ": " + FormatScalar(value))]
  }

  function MapLines(entries: seq<Entry>, indent: nat): seq<Line>
    decreases entries, 2
  {
    if entries == [] then [] else EntryLines(entries[0].key, entries[0].value, indent) + MapLines(entries[1..], indent)
  }

  function ItemLines(items: seq<Yaml>, indent: nat): seq<Line>
    decreases items, 2
  {
    if items == [] then [] else OneItem(items[0], indent) + ItemLines(items[1..], indent)
  }

  /** A mapping shares its first entry's line with the dash. */
  function OneItem(item: Yaml, indent: nat): (ls: seq<Line>)
    ensures |ls| > 0 && ls[0].indent == indent
    decreases item, 1
  {
    match item
    case Map(entries) =>
      if entries == [] then [Line(indent, "- {}")]
      else
        var first := EntryLines(entries[0].key, entries[0].value, indent + 2);
        [Line(indent, "- " + TrimStart(first[0].text))] + first[1..] + MapLines(entries[1..], indent + 2)
    case List(items) =>
      if items == [] then [Line(indent, "- []")] else [Line(indent, "-")] + ItemLines(items, indent + 2)
    case _ => [Line(indent, "- " + FormatScalar(item))]
  }

  // ----- parsing -----

  datatype Parsed = Parsed(value: Yaml, rest: seq<Line>)

  predicate IsDash(text: string) {
    text == "-" || "- " <= text
  }

  /** The names every object inherits, which the duplicate check sees as present. */
  const INHERITED := {
    "constructor", "__defineGetter__", "__defineSetter__", "hasOwnProperty", "__lookupGetter__", "__lookupSetter__",
    "isPrototypeOf", "propertyIsEnumerable", "toString", "valueOf", "__proto__", "toLocaleString"}

  /** The names an array inherits or has besides those. */
  const ARRAY_NAMES := {
    "length", "at", "concat", "copyWithin", "entries", "every", "fill", "filter", "find", "findIndex", "findLast",
    "findLastIndex", "flat", "flatMap", "forEach", "includes", "indexOf", "join", "keys", "lastIndexOf", "map", "pop",
    "push", "reduce", "reduceRight", "reverse", "shift", "slice", "some", "sort", "splice", "toReversed", "toSorted",
    "toSpliced", "unshift", "values", "with"}

  predicate HasKey(entries: seq<Entry>, key: string) {
    exists i :: 0 <= i < |entries| && entries[i].key == key
  }

  /** `key in object`. */
  predicate InObject(entries: seq<Entry>, key: string) {
    HasKey(entries, key) || key in INHERITED
  }

  function ParseBlock(ls: seq<Line>, indent: nat): (r: Result<Parsed, YamlError>)
    requires ls != []
    ensures r.Ok? ==> |r.value.rest| <= |ls|
    decreases |ls|, 1
  {
    if IsDash(ls[0].text) then ParseItems(ls, indent, []) else ParseMap(ls, indent, [])
  }

  /** Entries at `indent`, up to a line further left or a list item. */
  function ParseMap(ls: seq<Line>, indent: nat, entries: seq<Entry>): (r: Result<Parsed, YamlError>)
    ensures r.Ok? ==> |r.value.rest| <= |ls|
    decreases |ls|, 0
  {
    if ls == [] || ls[0].indent < indent then Ok(Parsed(Map(entries), ls))
    else if ls[0].indent > indent then Err(Indentation)
    else if IsDash(ls[0].text) then Ok(Parsed(Map(entries), ls))
    else
      var pair := SplitPair(ls[0].text);
      if pair.Err? then Err(pair.error)
      else if pair.value.None? then Err(ExpectedPair)
      else
        var (key, text) := pair.value.value;
        if InObject(entries, key) then Err(DuplicateKey)
        else if text != "" then
          var value := ParseScalar(text);
          if value.Err? then Err(value.error) else ParseMap(ls[1..], indent, entries + [Entry(key, value.value)])
        else if |ls| == 1 || ls[1].indent <= indent then ParseMap(ls[1..], indent, entries + [Entry(key, Map([]))])
        else
          var child := ParseBlock(ls[1..], ls[1].indent);
          if child.Err? then child
          else ParseMap(child.value.rest, indent, entries + [Entry(key, child.value.value)])
  }

  /** Items at `indent`, up to a line further left. */
  function ParseItems(ls: seq<Line>, indent: nat, items: seq<Yaml>): (r: Result<Parsed, YamlError>)
    ensures r.Ok? ==> |r.value.rest| <= |ls|
    decreases |ls|, 0
  {
    if ls == [] || ls[0].indent < indent then Ok(Parsed(List(items), ls))
    else if ls[0].indent != indent || !IsDash(ls[0].text) then Err(ExpectedItem)
    else
      var one := ParseItem(ls, indent);
      if one.Err? then one else ParseItems(one.value.rest, indent, items + [one.value.value])
  }

  function ItemText(text: string): string
    requires IsDash(text)
  {
    if text == "-" then "" else Trim(text[2..])
  }

  /** One item: nothing, a nested block, a scalar, or a mapping begun on the dash's line. */
  function ParseItem(ls: seq<Line>, indent: nat): (r: Result<Parsed, YamlError>)
    requires ls != [] && IsDash(ls[0].text)
    ensures r.Ok? ==> |r.value.rest| < |ls|
    decreases |ls|, 0, 0
  {
    var item := ItemText(ls[0].text);
    if item == "" then
      if |ls| == 1 || ls[1].indent <= indent then Ok(Parsed(Null, ls[1..])) else ParseBlock(ls[1..], ls[1].indent)
    else
      var pair := SplitPair(item);
      if pair.Err? then Err(pair.error)
      else if pair.value.None? then
        var value := ParseScalar(item);
        if value.Err? then Err(value.error) else Ok(Parsed(value.value, ls[1..]))
      else
        var (key, text) := pair.value.value;
        var first := if text == "" then Ok(Map([])) else ParseScalar(text);
        if first.Err? then Err(first.error)
        else if |ls| == 1 || ls[1].indent <= indent then Ok(Parsed(Map(Assigned(key, first.value)), ls[1..]))
        else if text != "" then Continue(key, first.value, ls[1..], ls[1].indent)
        else
          var child := ParseBlock(ls[1..], ls[1].indent);
          if child.Err? then child else Continue(key, child.value.value, child.value.rest, ls[1].indent)
  }

  /** The first key is assigned unchecked; assigning `__proto__` makes no property but sets the prototype. */
  function Assigned(key: string, value: Yaml): seq<Entry> {
    if key == "__proto__" then [] else [Entry(key, value)]
  }

  /** `key in object` once the first key of an item's mapping has been assigned. */
  predicate Taken(first: string, value: Yaml, key: string) {
    if first != "__proto__" then key == first || key in INHERITED
    else match value
      case Null => false
      case Map(entries) => HasKey(entries, key) || key in INHERITED
      case List(items) => (exists i | 0 <= i < |items| :: key == ShowNat(i)) || key in ARRAY_NAMES || key in INHERITED
      case _ => key in INHERITED
  }

  predicate Clashes(first: string, value: Yaml, more: seq<Entry>) {
    exists i :: 0 <= i < |more| && Taken(first, value, more[i].key)
  }

  /** Further entries of an item's mapping, if the next line stands at `indent` and is no item. */
  function Continue(first: string, value: Yaml, ls: seq<Line>, indent: nat): (r: Result<Parsed, YamlError>)
    ensures r.Ok? ==> |r.value.rest| <= |ls|
    decreases |ls|, 2
  {
    if ls == [] || ls[0].indent != indent || "- " <= ls[0].text then Ok(Parsed(Map(Assigned(first, value)), ls))
    else
      var rest := ParseBlock(ls, indent);
      if rest.Err? then rest
      else if !rest.value.value.Map? then Err(BadContinuation)
      else if Clashes(first, value, rest.value.value.entries) then Err(DuplicateKey)
      else Ok(Parsed(Map(Assigned(first, value) + rest.value.value.entries), rest.value.rest))
  }
}
