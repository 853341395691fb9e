/** What the YAML printer writes, the parser reads back (packages/cli/src/config.ts). */
module YamlRoundTrip {
  import opened Wrappers
  import opened JsText
  import opened JsNumber
  import opened YamlScalars
  import opened YamlBlocks

  // ----- the domain -----

  /** Keys that are canonical array indices change their place in an object. */
  predicate IntegerKey(key: string) {
    Digits(key) && (key[0] == '0' ==> |key| == 1)
  }

  predicate DistinctKeys(entries: seq<Entry>) {
    forall i, j :: 0 <= i < j < |entries| ==> entries[i].key != entries[j].key
  }

  /** Keys plain, no array index and none twice, numbers whole doubles: what the printer's lines can carry. */
  predicate Writable(v: Yaml)
    decreases v, 0
  {
    match v
    case Num(n) => IsDouble(Abs(n))
    case Decimal(_) => false
    case List(items) => WritableItems(items)
    case Map(entries) => WritableEntries(entries) && DistinctKeys(entries)
    case _ => true
  }

  predicate WritableItems(items: seq<Yaml>)
    decreases items, 1
  {
    items == [] || (Writable(items[0]) && WritableItems(items[1..]))
  }

  predicate WritableEntries(entries: seq<Entry>)
    decreases entries, 1
  {
    entries == [] || (PlainText(entries[0].key) && !IntegerKey(entries[0].key) && Writable(entries[0].value) && WritableEntries(entries[1..]))
  }

  /** A bare list item must not read as a key. */
  predicate ItemSafe(s: string) {
    PlainText(s) && |s| > 1 ==> s[|s| - 1] != ':'
  }

  /** Written on its key's own line. */
  predicate Flat(v: Yaml) {
    Scalar(v) || (v.List? && v.items == []) || (v.Map? && v.entries == [])
  }

  // ----- what is read back -----

  /** What the parser makes of a printed value, as a list item or elsewhere. */
  function Image(v: Yaml, listed: bool): Result<Yaml, YamlError>
    decreases v, 0
  {
    match v
    case Num(n) => Ok(if Large(n) then Str(ShowInt(n)) else v)
    case Str(s) =>
      if NumberOf(s).Some? then Ok(NumberOf(s).value)
      else if listed && !ItemSafe(s) then Ok(Map(Assigned(s[..|s| - 1], Map([]))))
      else Ok(v)
    case List(items) =>
      var read := ImageItems(items);
      if read.Err? then Err(read.error) else Ok(List(read.value))
    case Map(entries) =>
      if entries == [] then Ok(v)
      else if !listed then
        var read := ImageEntries(entries);
        if read.Err? then Err(read.error) else Ok(Map(read.value))
      else
        var first := Image(entries[0].value, false);
        if first.Err? then Err(first.error)
        else if |entries| > 1 && !Flat(entries[0].value) then Err(ExpectedItem)
        else
          var rest := ImageEntries(entries[1..]);
          if rest.Err? then Err(rest.error)
          else if Clashes(entries[0].key, first.value, rest.value) then Err(DuplicateKey)
          else Ok(Map(Assigned(entries[0].key, first.value) + rest.value))
    case _ => Ok(v)
  }

  function ImageItems(items: seq<Yaml>): Result<seq<Yaml>, YamlError>
    decreases items, 1
  {
    if items == [] then Ok([])
    else
      var first := Image(items[0], true);
      if first.Err? then Err(first.error)
      else
        var rest := ImageItems(items[1..]);
        if rest.Err? then rest else Ok([first.value] + rest.value)
  }

  function ImageEntries(entries: seq<Entry>): Result<seq<Entry>, YamlError>
    decreases entries, 1
  {
    if entries == [] then Ok([])
    else if entries[0].key in INHERITED then Err(DuplicateKey)
    else
      var first := Image(entries[0].value, false);
      if first.Err? then Err(first.error)
      else
        var rest := ImageEntries(entries[1..]);
        if rest.Err? then rest else Ok([Entry(entries[0].key, first.value)] + rest.value)
  }

  /** Values that come back as they were. */
  predicate Printable(v: Yaml, listed: bool)
    decreases v, 0
  {
    match v
    case Num(n) => !Large(n)
    case Str(s) => NumberOf(s).None? && (listed ==> ItemSafe(s))
    case List(items) => PrintableItems(items)
    case Map(entries) =>
      if !listed || entries == [] then PrintableEntries(entries)
      else
        && entries[0].key != "__proto__" && Printable(entries[0].value, false) && PrintableEntries(entries[1..])
        && (|entries| <= 1 || Flat(entries[0].value))
    case _ => true
  }

  predicate PrintableItems(items: seq<Yaml>)
    decreases items, 1
  {
    items == [] || (Printable(items[0], true) && PrintableItems(items[1..]))
  }

  predicate PrintableEntries(entries: seq<Entry>)
    decreases entries, 1
  {
    entries == [] || (entries[0].key !in INHERITED && Printable(entries[0].value, false) && PrintableEntries(entries[1..]))
  }

  /** Exactly the printable values are their own image. */
  lemma {:induction false} ImageIsSame(v: Yaml, listed: bool)
    requires Writable(v)
    ensures Image(v, listed) == Ok(v) <==> Printable(v, listed)
    decreases v, 0
  {
    match v
    case Str(s) =>
      if NumberOf(s).Some? {
        assert !NumberOf(s).value.Str?;
      }
    case List(items) =>
      ImageItemsAreSame(items);
    case Map(entries) =>
      if entries != [] {
        ImageEntriesAreSame(entries);
        ImageIsSame(entries[0].value, false);
        ImageEntriesAreSame(entries[1..]);
        ImageKeys(entries[1..]);
        hide Image, ImageEntries, Printable, PrintableEntries, Writable;
        if listed {
          ListedImageIsSame(v);
        } else {
          UnlistedImageIsSame(v);
        }
      }
    case _ =>
  }

  lemma {:induction false} UnlistedImageIsSame(v: Yaml)
    requires v.Map? && v.entries != []
    requires ImageEntries(v.entries) == Ok(v.entries) <==> PrintableEntries(v.entries)
    ensures Image(v, false) == Ok(v) <==> Printable(v, false)
  {
    hide ImageEntries, PrintableEntries;
  }

  lemma {:induction false} ListedImageIsSame(v: Yaml)
    requires v.Map? && v.entries != [] && DistinctKeys(v.entries)
    requires Image(v.entries[0].value, false) == Ok(v.entries[0].value) <==> Printable(v.entries[0].value, false)
    requires ImageEntries(v.entries[1..]) == Ok(v.entries[1..]) <==> PrintableEntries(v.entries[1..])
    requires ImageEntries(v.entries[1..]).Ok? ==> SameKeys(ImageEntries(v.entries[1..]).value, v.entries[1..])
    ensures Image(v, true) == Ok(v) <==> Printable(v, true)
  {
    hide ImageEntries, PrintableEntries;
    var first, rest := Image(v.entries[0].value, false), ImageEntries(v.entries[1..]);
    if first.Ok? && rest.Ok? {
      var key := v.entries[0].key;
      if key == "__proto__" {
        assert |Assigned(key, first.value) + rest.value| < |v.entries|;
      } else {
        NoClash(v.entries, first.value, rest.value);
        var es := [Entry(key, first.value)] + rest.value;
        assert es == v.entries <==> first.value == v.entries[0].value && rest.value == v.entries[1..] by {
          assert v.entries == [v.entries[0]] + v.entries[1..];
          assert es[1..] == rest.value && es[0] == Entry(key, first.value);
        }
      }
    }
  }

  /** The same keys in the same order, none of them inherited. */
  predicate SameKeys(read: seq<Entry>, entries: seq<Entry>) {
    && |read| == |entries|
    && forall i :: 0 <= i < |entries| ==> read[i].key == entries[i].key && entries[i].key !in INHERITED
  }

  lemma {:induction false} NoClash(entries: seq<Entry>, value: Yaml, read: seq<Entry>)
    requires entries != [] && DistinctKeys(entries) && entries[0].key != "__proto__" && SameKeys(read, entries[1..])
    ensures !Clashes(entries[0].key, value, read)
  {
    forall i | 0 <= i < |read| ensures !Taken(entries[0].key, value, read[i].key) {
      assert entries[1..][i] == entries[i + 1];
    }
  }

  lemma {:induction false} ImageKeys(entries: seq<Entry>)
    ensures ImageEntries(entries).Ok? ==> SameKeys(ImageEntries(entries).value, entries)
  {
    if entries != [] {
      ImageKeys(entries[1..]);
      hide Image;
      if ImageEntries(entries).Ok? {
        forall i | 0 <= i < |entries|
          ensures ImageEntries(entries).value[i].key == entries[i].key && entries[i].key !in INHERITED
        {
          if i > 0 {
            assert entries[i] == entries[1..][i - 1];
          }
        }
      }
    }
  }

  lemma {:induction false} ImageItemsAreSame(items: seq<Yaml>)
    requires WritableItems(items)
    ensures ImageItems(items) == Ok(items) <==> PrintableItems(items)
    decreases items, 1
  {
    if items != [] {
      ImageIsSame(items[0], true);
      ImageItemsAreSame(items[1..]);
      hide Image, Printable;
      assert items == [items[0]] + items[1..];
    }
  }

  lemma {:induction false} ImageEntriesAreSame(entries: seq<Entry>)
    requires WritableEntries(entries)
    ensures ImageEntries(entries) == Ok(entries) <==> PrintableEntries(entries)
    decreases entries, 1
  {
    if entries != [] {
      ImageIsSame(entries[0].value, false);
      ImageEntriesAreSame(entries[1..]);
      hide Image, Printable;
      assert entries == [entries[0]] + entries[1..];
    }
  }

  // ----- lines taken apart -----

  lemma TrimSolid(s: string)
    requires Solid(s)
    ensures TrimStart(s) == s && TrimEnd(s) == s && Trim(s) == s && Trim(" " + s) == s
  {
    assert (" " + s)[1..] == s;
  }

  /** A key's line splits at the colon after the key. */
  lemma KeyLine(key: string, after: string)
    requires PlainText(key) && (after == "" || (after[0] == ' ' && Solid(after[1..])))
    ensures SplitPair(key + ":" + after) == Ok(Some((key, if after == "" then "" else after[1..])))
  {
    var text := key + ":" + after;
    assert Stands(text, 0, key);
    assert text[|key|] == ':';
    SkipPlainText(text, 0, key, Colon);
    assert Hit(text, |key|, Colon);
    assert text[..|key|] == key && text[|key| + 1..] == after;
    PlainIsSolid(key);
    TrimSolid(key);
    assert PlainChar(key[0]);
    assert Unquote(key) == Ok(key);
    if after != "" {
      assert after == " " + after[1..];
      TrimSolid(after[1..]);
    }
    hide Unquote, Find;
    assert Trim("") == "";
  }

  lemma KeyIsNoDash(key: string, after: string)
    requires PlainText(key)
    ensures !IsDash(key + ":" + after)
  {
    var text := key + ":" + after;
    if |key| > 1 {
      assert text[1] == key[1] && PlainChar(key[1]);
    } else {
      assert text[1] == ':';
    }
  }

  /** A flat value's text after its key, and what it parses to. */
  function FlatText(v: Yaml): string
    requires Flat(v)
  {
    if v.List? then "[]" else if v.Map? then "{}" else FormatScalar(v)
  }

  /** A flat value's text parses to its image. */
  lemma {:induction false} FlatReads(v: Yaml)
    requires Flat(v) && Writable(v)
    ensures Solid(FlatText(v)) && ParseScalar(FlatText(v)) == Image(v, false) && Image(v, false).Ok?
  {
    if Scalar(v) {
      FormatIsSolid(v);
      ScalarRoundTrip(v);
      if v.Str? && NumberOf(v.text).Some? {
        NumberIsPlain(v.text);
        PlainScalar(v.text);
      }
      hide ParseScalar, NumberOf, Solid, PlainText, Keyword;
    }
  }

  lemma {:induction false} FlatLine(key: string, v: Yaml, indent: nat)
    requires Flat(v)
    ensures EntryLines(key, v, indent) == [Line(indent, key + ":" + (" " + FlatText(v)))]
  {
    assert key + ": " + FlatText(v) == key + ":" + (" " + FlatText(v));
    assert key + ": []" == key + ": " + "[]" && key + ": {}" == key + ": " + "{}";
  }

  /** The lines of a compound value under a key that stands on a line of its own. */
  function BlockLines(v: Yaml, indent: nat): seq<Line>
    requires !Flat(v)
  {
    if v.List? then ItemLines(v.items, indent) else MapLines(v.entries, indent)
  }

  lemma {:induction false} CompoundLines(key: string, v: Yaml, indent: nat)
    requires !Flat(v)
    ensures EntryLines(key, v, indent) == [Line(indent, key + ":" + "")] + BlockLines(v, indent + 2)
    ensures |BlockLines(v, indent + 2)| > 0 && BlockLines(v, indent + 2)[0].indent == indent + 2
  {
    assert key + ":" + "" == key + ":";
  }

  predicate Below(tail: seq<Line>, indent: nat) {
    tail == [] || tail[0].indent < indent
  }

  // ----- blocks -----

  /** A parsing result for a value's image: nothing of the next lines is taken. */
  function Read(image: Result<Yaml, YamlError>, tail: seq<Line>): Result<Parsed, YamlError> {
    if image.Err? then Err(image.error) else Ok(Parsed(image.value, tail))
  }

  /** A compound value's lines parse to its image and stop at the next line further left. */
  lemma {:induction false} BlockReads(v: Yaml, indent: nat, tail: seq<Line>)
    requires !Flat(v) && Writable(v) && Below(tail, indent)
    ensures BlockLines(v, indent) + tail != []
    ensures ParseBlock(BlockLines(v, indent) + tail, indent) == Read(Image(v, false), tail)
    decreases v, 0
  {
    if v.List? {
      ItemsRead(v.items, indent, tail, []);
      FirstItemDash(v.items, indent);
      hide ParseItems, ItemLines, ImageItems, ParseMap;
      assert ImageItems(v.items).Ok? ==> [] + ImageItems(v.items).value == ImageItems(v.items).value;
      assert (ItemLines(v.items, indent) + tail)[0] == ItemLines(v.items, indent)[0];
    } else {
      NothingHeld(v.entries);
      MapReads(v.entries, indent, tail, []);
      FirstEntryNoDash(v.entries, indent);
      hide ParseMap, MapLines, ImageEntries, ParseItems;
      assert ImageEntries(v.entries).Ok? ==> [] + ImageEntries(v.entries).value == ImageEntries(v.entries).value;
      assert (MapLines(v.entries, indent) + tail)[0] == MapLines(v.entries, indent)[0];
    }
  }

  lemma {:induction false} FirstItemDash(items: seq<Yaml>, indent: nat)
    requires items != []
    ensures |ItemLines(items, indent)| > 0 && IsDash(ItemLines(items, indent)[0].text) && ItemLines(items, indent)[0].indent == indent
  {
  }

  lemma {:induction false} FirstEntryNoDash(entries: seq<Entry>, indent: nat)
    requires entries != [] && WritableEntries(entries)
    ensures |MapLines(entries, indent)| > 0 && !IsDash(MapLines(entries, indent)[0].text) && MapLines(entries, indent)[0].indent == indent
  {
    var e := entries[0];
    if Flat(e.value) {
      FlatLine(e.key, e.value, indent);
      KeyIsNoDash(e.key, " " + FlatText(e.value));
    } else {
      CompoundLines(e.key, e.value, indent);
      KeyIsNoDash(e.key, "");
    }
  }

  /** What one entry's lines do: refuse an inherited key, fail as its value does, or add its image. */
  function AfterEntry(e: Entry, indent: nat, tail: seq<Line>, acc: seq<Entry>): Result<Parsed, YamlError> {
    var image := Image(e.value, false);
    if e.key in INHERITED then Err(DuplicateKey)
    else if image.Err? then Err(image.error)
    else ParseMap(tail, indent, acc + [Entry(e.key, image.value)])
  }

  lemma {:induction false} FlatEntryReads(e: Entry, indent: nat, tail: seq<Line>, acc: seq<Entry>)
    requires PlainText(e.key) && Writable(e.value) && !HasKey(acc, e.key) && Flat(e.value)
    ensures ParseMap(EntryLines(e.key, e.value, indent) + tail, indent, acc) == AfterEntry(e, indent, tail, acc)
  {
    var ls := EntryLines(e.key, e.value, indent) + tail;
    FlatLine(e.key, e.value, indent);
    FlatReads(e.value);
    KeyIsNoDash(e.key, " " + FlatText(e.value));
    hide ParseMap, EntryLines, Writable, FlatText, SplitPair, ParseScalar, IsDash, Image;
    assert (" " + FlatText(e.value))[1..] == FlatText(e.value);
    KeyLine(e.key, " " + FlatText(e.value));
    FlatStep(ls, indent, acc, Entry(e.key, Image(e.value, false).value), FlatText(e.value));
    assert ls[1..] == tail;
  }

  lemma {:induction false} CompoundEntryLines(e: Entry, indent: nat, tail: seq<Line>)
    requires !Flat(e.value)
    ensures var ls := EntryLines(e.key, e.value, indent) + tail;
      && |ls| > 1 && ls[0] == Line(indent, e.key + ":" + "")
      && ls[1..] == BlockLines(e.value, indent + 2) + tail && ls[1].indent == indent + 2
  {
    CompoundLines(e.key, e.value, indent);
    hide EntryLines, BlockLines;
  }

  lemma {:induction false} EntryReads(e: Entry, indent: nat, tail: seq<Line>, acc: seq<Entry>)
    requires PlainText(e.key) && Writable(e.value) && !HasKey(acc, e.key) && Below(tail, indent + 1)
    ensures ParseMap(EntryLines(e.key, e.value, indent) + tail, indent, acc) == AfterEntry(e, indent, tail, acc)
    decreases e.value, 1
  {
    if Flat(e.value) {
      FlatEntryReads(e, indent, tail, acc);
    } else {
      hide ParseMap, EntryLines, Writable, ParseBlock, SplitPair, IsDash, BlockLines, Image;
      KeyIsNoDash(e.key, "");
      KeyLine(e.key, "");
      CompoundEntryLines(e, indent, tail);
      BlockReads(e.value, indent + 2, tail);
      CompoundStep(EntryLines(e.key, e.value, indent) + tail, indent, acc, e.key, Image(e.value, false), tail);
    }
  }

  lemma {:induction false} FlatStep(ls: seq<Line>, indent: nat, acc: seq<Entry>, e: Entry, text: string)
    requires ls != [] && ls[0].indent == indent && !IsDash(ls[0].text) && text != ""
    requires SplitPair(ls[0].text) == Ok(Some((e.key, text))) && !HasKey(acc, e.key) && ParseScalar(text) == Ok(e.value)
    ensures ParseMap(ls, indent, acc) == if e.key in INHERITED then Err(DuplicateKey) else ParseMap(ls[1..], indent, acc + [e])
  {
    hide SplitPair, ParseScalar, ParseBlock, HasKey;
  }

  lemma {:induction false} CompoundStep(ls: seq<Line>, indent: nat, acc: seq<Entry>, key: string, image: Result<Yaml, YamlError>, tail: seq<Line>)
    requires |ls| > 1 && ls[0].indent == indent < ls[1].indent && !IsDash(ls[0].text)
    requires SplitPair(ls[0].text) == Ok(Some((key, ""))) && !HasKey(acc, key)
    requires ParseBlock(ls[1..], ls[1].indent) == Read(image, tail)
    ensures ParseMap(ls, indent, acc) ==
      if key in INHERITED then Err(DuplicateKey)
      else if image.Err? then Err(image.error)
      else ParseMap(tail, indent, acc + [Entry(key, image.value)])
  {
    hide SplitPair, ParseScalar, ParseBlock, HasKey;
  }

  lemma {:induction false} MapEnds(tail: seq<Line>, indent: nat, acc: seq<Entry>)
    requires Below(tail, indent)
    ensures ParseMap(tail, indent, acc) == Ok(Parsed(Map(acc), tail))
  {
  }

  lemma {:induction false} FirstWritable(entries: seq<Entry>)
    requires WritableEntries(entries) && entries != []
    ensures PlainText(entries[0].key) && Writable(entries[0].value) && WritableEntries(entries[1..])
  {
    hide Writable, PlainText;
  }

  /** What a mapping's lines do, from the entries already read. */
  function AfterEntries(entries: seq<Entry>, tail: seq<Line>, acc: seq<Entry>): Result<Parsed, YamlError> {
    var read := ImageEntries(entries);
    if read.Err? then Err(read.error) else Ok(Parsed(Map(acc + read.value), tail))
  }

  lemma {:induction false} MapReads(entries: seq<Entry>, indent: nat, tail: seq<Line>, acc: seq<Entry>)
    requires WritableEntries(entries) && DistinctKeys(entries) && Below(tail, indent)
    requires forall i :: 0 <= i < |entries| ==> !HasKey(acc, entries[i].key)
    ensures ParseMap(MapLines(entries, indent) + tail, indent, acc) == AfterEntries(entries, tail, acc)
    decreases entries, 2
  {
    if entries == [] {
      assert MapLines(entries, indent) + tail == tail;
      assert acc + [] == acc;
      MapEnds(tail, indent, acc);
    } else {
      hide ParseMap, Writable, WritableEntries, PlainText, HasKey, DistinctKeys, EntryLines, MapLines, Image, ImageEntries, AfterEntries, Below;
      FirstWritable(entries);
      EntriesSplit(entries, indent, tail);
      EntryReads(entries[0], indent, MapLines(entries[1..], indent) + tail, acc);
      EntriesJoin(entries, tail, acc);
      if entries[0].key !in INHERITED && Image(entries[0].value, false).Ok? {
        var e := Entry(entries[0].key, Image(entries[0].value, false).value);
        NextAcc(entries, acc, e);
        MapReads(entries[1..], indent, tail, acc + [e]);
      }
    }
  }

  lemma {:induction false} EntriesJoin(entries: seq<Entry>, tail: seq<Line>, acc: seq<Entry>)
    requires entries != []
    ensures var image := Image(entries[0].value, false);
      AfterEntries(entries, tail, acc) ==
        if entries[0].key in INHERITED then Err(DuplicateKey)
        else if image.Err? then Err(image.error)
        else AfterEntries(entries[1..], tail, acc + [Entry(entries[0].key, image.value)])
  {
    hide Image, ImageEntries;
    FirstImage(entries);
    if Image(entries[0].value, false).Ok? && ImageEntries(entries[1..]).Ok? {
      var e := Entry(entries[0].key, Image(entries[0].value, false).value);
      assert (acc + [e]) + ImageEntries(entries[1..]).value == acc + ([e] + ImageEntries(entries[1..]).value);
    }
  }

  lemma {:induction false} FirstImage(entries: seq<Entry>)
    requires entries != []
    ensures var first, rest := Image(entries[0].value, false), ImageEntries(entries[1..]);
      ImageEntries(entries) ==
        if entries[0].key in INHERITED then Err(DuplicateKey)
        else if first.Err? then Err(first.error)
        else if rest.Err? then rest
        else Ok([Entry(entries[0].key, first.value)] + rest.value)
  {
    hide Image;
  }

  /** A mapping's lines are its first entry's and the rest's. */
  lemma {:induction false} EntriesSplit(entries: seq<Entry>, indent: nat, tail: seq<Line>)
    requires entries != [] && WritableEntries(entries) && Below(tail, indent)
    ensures var rest := MapLines(entries[1..], indent) + tail;
      && MapLines(entries, indent) + tail == EntryLines(entries[0].key, entries[0].value, indent) + rest && Below(rest, indent + 1)
  {
    var first, rest := EntryLines(entries[0].key, entries[0].value, indent), MapLines(entries[1..], indent);
    assert MapLines(entries, indent) == first + rest;
    hide EntryLines, MapLines, Below;
    MoreBelow(entries[1..], indent, tail);
    Regroup(first, rest, tail);
  }

  lemma {:induction false} MoreBelow(entries: seq<Entry>, indent: nat, tail: seq<Line>)
    requires WritableEntries(entries) && Below(tail, indent)
    ensures Below(MapLines(entries, indent) + tail, indent + 1)
  {
    var rest := MapLines(entries, indent);
    if entries != [] {
      FirstEntryNoDash(entries, indent);
      hide MapLines;
      assert (rest + tail)[0] == rest[0];
    } else {
      assert rest + tail == tail;
    }
  }

  lemma {:induction false} NextAcc(entries: seq<Entry>, acc: seq<Entry>, e: Entry)
    requires entries != [] && DistinctKeys(entries) && forall i :: 0 <= i < |entries| ==> !HasKey(acc, entries[i].key)
    requires e.key == entries[0].key
    ensures DistinctKeys(entries[1..])
    ensures forall i :: 0 <= i < |entries[1..]| ==> !HasKey(acc + [e], entries[1..][i].key)
  {
    forall i | 0 <= i < |entries[1..]| ensures !HasKey(acc + [e], entries[1..][i].key) {
      assert !HasKey(acc, entries[i + 1].key);
    }
  }

  lemma {:induction false} NothingHeld(entries: seq<Entry>)
    ensures forall i :: 0 <= i < |entries| ==> !HasKey([], entries[i].key)
  {
  }

  // ----- items -----

  /** A list's lines are its first item's and the rest's. */
  lemma {:induction false} ItemsSplit(items: seq<Yaml>, indent: nat, tail: seq<Line>)
    requires items != [] && Below(tail, indent)
    ensures var ls, rest := ItemLines(items, indent) + tail, ItemLines(items[1..], indent) + tail;
      && ls == OneItem(items[0], indent) + rest && ls[0].indent == indent && IsDash(ls[0].text) && Below(rest, indent + 1)
  {
    RestBelow(items, indent, tail);
    FirstItemDash(items, indent);
    hide IsDash;
    FirstThenRest(items, indent, tail);
  }

  lemma {:induction false} RestBelow(items: seq<Yaml>, indent: nat, tail: seq<Line>)
    requires items != [] && Below(tail, indent)
    ensures Below(ItemLines(items[1..], indent) + tail, indent + 1)
  {
    var rest := ItemLines(items[1..], indent);
    if items[1..] != [] {
      FirstItemDash(items[1..], indent);
      hide ItemLines;
      assert (rest + tail)[0] == rest[0];
    } else {
      assert rest + tail == tail;
    }
  }

  lemma {:induction false} FirstThenRest(items: seq<Yaml>, indent: nat, tail: seq<Line>)
    requires items != []
    ensures ItemLines(items, indent) + tail == OneItem(items[0], indent) + (ItemLines(items[1..], indent) + tail)
  {
    var first, rest := OneItem(items[0], indent), ItemLines(items[1..], indent);
    assert ItemLines(items, indent) == first + rest;
    hide OneItem, ItemLines;
    Regroup(first, rest, tail);
  }

  /** What one item's lines do. */
  function AfterItem(item: Yaml, indent: nat, tail: seq<Line>, acc: seq<Yaml>): Result<Parsed, YamlError> {
    var image := Image(item, true);
    if image.Err? then Err(image.error) else ParseItems(tail, indent, acc + [image.value])
  }

  lemma {:induction false} ItemsRead(items: seq<Yaml>, indent: nat, tail: seq<Line>, acc: seq<Yaml>)
    requires WritableItems(items) && Below(tail, indent)
    ensures ParseItems(ItemLines(items, indent) + tail, indent, acc) ==
      var read := ImageItems(items); if read.Err? then Err(read.error) else Ok(Parsed(List(acc + read.value), tail))
    decreases items, 2
  {
    if items == [] {
      assert ItemLines(items, indent) + tail == tail;
      assert acc + [] == acc;
    } else {
      hide ParseItems, OneItem, Writable, IsDash, Image;
      ItemsSplit(items, indent, tail);
      ItemReads(items[0], indent, ItemLines(items[1..], indent) + tail, acc);
      if Image(items[0], true).Ok? {
        var item := Image(items[0], true).value;
        ItemsRead(items[1..], indent, tail, acc + [item]);
        if ImageItems(items[1..]).Ok? {
          assert (acc + [item]) + ImageItems(items[1..]).value == acc + ([item] + ImageItems(items[1..]).value);
        }
      }
    }
  }

  lemma {:induction false} ItemsStep(ls: seq<Line>, indent: nat, acc: seq<Yaml>)
    requires ls != [] && ls[0].indent == indent && IsDash(ls[0].text)
    ensures ParseItems(ls, indent, acc) ==
      var one := ParseItem(ls, indent);
      if one.Err? then Err(one.error) else ParseItems(one.value.rest, indent, acc + [one.value.value])
  {
    hide ParseItem;
  }

  lemma DashText(text: string)
    requires Solid(text)
    ensures IsDash("- " + text) && ItemText("- " + text) == text
  {
    assert ("- " + text)[2..] == text;
    TrimSolid(text);
  }

  lemma {:induction false} ItemReads(item: Yaml, indent: nat, tail: seq<Line>, acc: seq<Yaml>)
    requires Writable(item) && Below(tail, indent + 1)
    ensures ParseItems(OneItem(item, indent) + tail, indent, acc) == AfterItem(item, indent, tail, acc)
    decreases item, 1
  {
    var ls := OneItem(item, indent) + tail;
    if Flat(item) {
      FlatItemReads(item, indent, tail);
      hide ParseItem, Image, IsDash, OneItem, ParseItems;
      ItemsStep(ls, indent, acc);
    } else if item.List? {
      BlockReads(item, indent + 2, tail);
      ListItemStarts(item, indent, tail);
      hide ParseBlock, Image, OneItem, BlockLines, ParseItems;
      ItemsStep(ls, indent, acc);
    } else if Flat(item.entries[0].value) {
      MapItemReads(item, indent, tail);
      hide ParseItem, Image, IsDash, OneItem, ParseItems;
      ItemsStep(ls, indent, acc);
    } else {
      MapEntry(item);
      BlockReads(item.entries[0].value, indent + 4, MapLines(item.entries[1..], indent + 2) + tail);
      CompoundItemReads(item, indent, tail, acc);
    }
  }

  lemma {:induction false} ListItemStarts(item: Yaml, indent: nat, tail: seq<Line>)
    requires item.List? && item.items != []
    ensures var ls := OneItem(item, indent) + tail;
      && |ls| > 1 && ls[0] == Line(indent, "-") && ls[1..] == BlockLines(item, indent + 2) + tail && ls[1].indent == indent + 2
    ensures Image(item, true) == Image(item, false)
  {
    FirstItemDash(item.items, indent + 2);
    hide ItemLines, ImageItems;
  }

  lemma {:induction false} FlatItem(item: Yaml, indent: nat)
    requires Flat(item)
    ensures OneItem(item, indent) == [Line(indent, "- " + FlatText(item))]
  {
    assert "- []" == "- " + "[]" && "- {}" == "- " + "{}";
  }

  /** A flat item reads as its image; one that looks like a key becomes a mapping. */
  lemma {:induction false} FlatItemReads(item: Yaml, indent: nat, tail: seq<Line>)
    requires Flat(item) && Writable(item) && Below(tail, indent + 1)
    ensures var ls := OneItem(item, indent) + tail;
      ls[0].indent == indent && IsDash(ls[0].text) && ParseItem(ls, indent) == Read(Image(item, true), tail)
  {
    hide OneItem, FlatText, Solid, IsDash, ItemText, ParseItem, Image, Writable, Flat, ItemSafe;
    var ls := OneItem(item, indent) + tail;
    FlatItem(item, indent);
    FlatReads(item);
    DashText(FlatText(item));
    assert ls[1..] == tail;
    if item.Str? && !ItemSafe(item.text) {
      ColonItem(item.text);
      LoneKeyItem(ls, indent, item.text[..|item.text| - 1], tail);
    } else {
      NoPair(item);
      FlatImage(item);
      FlatTextLong(item);
      ScalarItem(ls, indent, FlatText(item));
    }
  }

  lemma {:induction false} ScalarItem(ls: seq<Line>, indent: nat, text: string)
    requires ls != [] && IsDash(ls[0].text) && ItemText(ls[0].text) == text && text != "" && SplitPair(text) == Ok(None)
    ensures ParseItem(ls, indent) == Read(ParseScalar(text), ls[1..])
  {
    hide SplitPair, ParseScalar, ItemText;
  }

  lemma {:induction false} FlatImage(item: Yaml)
    requires Flat(item) && (item.Str? ==> ItemSafe(item.text))
    ensures Image(item, true) == Image(item, false)
  {
  }

  lemma ColonItem(s: string)
    requires !ItemSafe(s)
    ensures FlatText(Str(s)) == s && PlainText(s[..|s| - 1]) && SplitPair(s) == Ok(Some((s[..|s| - 1], "")))
    ensures Image(Str(s), true) == Ok(Map(Assigned(s[..|s| - 1], Map([]))))
  {
    hide SplitPair, NumberOf, Keyword;
    var key := s[..|s| - 1];
    ColonIsNoKeyword(s);
    if NumberOf(s).Some? {
      NumberHasNoColon(s);
    }
    assert forall i :: 0 <= i < |key| ==> key[i] == s[i];
    KeyLine(key, "");
    assert s == key + ":" + "";
  }

  lemma ColonIsNoKeyword(s: string)
    requires s != "" && s[|s| - 1] == ':'
    ensures !Keyword(s)
  {
    assert Lower(s)[|s| - 1] == ':';
  }

  lemma NumberHasNoColon(s: string)
    requires NumberOf(s).Some?
    ensures s[|s| - 1] != ':'
  {
    var t := if s[0] == '-' then s[1..] else s;
    var n := LeadingDigits(t);
    assert t[|t| - 1] == s[|s| - 1];
    if n < |t| {
      var fraction := t[n + 1..];
      assert IsDigit(fraction[|fraction| - 1]) && fraction[|fraction| - 1] == t[|t| - 1];
    }
  }

  lemma LoneKeyItem(ls: seq<Line>, indent: nat, key: string, tail: seq<Line>)
    requires ls != [] && IsDash(ls[0].text) && ItemText(ls[0].text) != "" && SplitPair(ItemText(ls[0].text)) == Ok(Some((key, "")))
    requires ls[1..] == tail && Below(tail, indent + 1)
    ensures ParseItem(ls, indent) == Ok(Parsed(Map(Assigned(key, Map([]))), tail))
  {
    hide SplitPair, ItemText;
    assert |ls| > 1 ==> ls[1] == tail[0];
  }

  /** A flat item's text is no key. */
  lemma {:induction false} NoPair(item: Yaml)
    requires Flat(item) && Writable(item) && (item.Str? ==> ItemSafe(item.text))
    ensures SplitPair(FlatText(item)) == Ok(None)
  {
    var text := FlatText(item);
    if item == Str(":") {
      assert Lower(":") == ":";
      assert text == ":";
      assert Find(text, 0, Bare, false, Colon) == Some(0);
      assert text[..0] == "";
    } else if Scalar(item) {
      assert Stands(text, 0, text);
      SkipFormat(text, 0, item, Colon);
    } else {
      SkipNeutral(text, 0, |text|, Colon);
    }
  }

  /** A dash line that begins a mapping. */
  lemma PairItem(ls: seq<Line>, indent: nat, line: string, key: string, text: string)
    requires ls != [] && IsDash(ls[0].text) && ItemText(ls[0].text) == line != "" && SplitPair(line) == Ok(Some((key, text)))
    ensures text != "" && ParseScalar(text).Ok? ==>
      var value := ParseScalar(text).value;
      ParseItem(ls, indent) ==
        if |ls| == 1 || ls[1].indent <= indent then Ok(Parsed(Map(Assigned(key, value)), ls[1..])) else Continue(key, value, ls[1..], ls[1].indent)
    ensures text == "" && |ls| > 1 && ls[1].indent > indent ==>
      var child := ParseBlock(ls[1..], ls[1].indent);
      ParseItem(ls, indent) ==
        if child.Err? then child else Continue(key, child.value.value, child.value.rest, ls[1].indent)
  {
    hide SplitPair, ParseScalar, ItemText, ParseBlock, Continue, Assigned;
  }

  lemma {:induction false} MapEntry(item: Yaml)
    requires item.Map? && item.entries != [] && Writable(item)
    ensures var e, more := item.entries[0], item.entries[1..];
      && item.entries == [e] + more && PlainText(e.key) && Writable(e.value) && WritableEntries(more) && DistinctKeys(more)
      && forall i :: 0 <= i < |more| ==> more[i].key != e.key
  {
    hide PlainText;
    var e, more := item.entries[0], item.entries[1..];
    forall i | 0 <= i < |more| ensures more[i].key != e.key {
      assert more[i] == item.entries[i + 1];
    }
  }

  /** An item's mapping whose first value stands on the dash's line. */
  lemma {:induction false} MapItemReads(item: Yaml, indent: nat, tail: seq<Line>)
    requires item.Map? && item.entries != [] && Writable(item) && Flat(item.entries[0].value) && Below(tail, indent + 1)
    ensures var ls := OneItem(item, indent) + tail;
      ls[0].indent == indent && IsDash(ls[0].text) && ParseItem(ls, indent) == Read(Image(item, true), tail)
    decreases item, 0
  {
    hide SplitPair, ParseScalar, Trim, TrimStart, ItemText, MapLines, EntryLines, FlatText, Solid, PlainText, Flat, FormatScalar, IsDash, BlockLines, OneItem, Continue, ParseItem, ParseBlock, ParseMap, Writable, DistinctKeys, InObject, Image, ImageEntries;
    var e, more := item.entries[0], item.entries[1..];
    var ls := OneItem(item, indent) + tail;
    MapEntry(item);
    FlatItemStarts(e, more, indent, tail);
    var text, line := FlatText(e.value), e.key + ":" + (" " + FlatText(e.value));
    var entries := Assigned(e.key, Image(e.value, false).value);
    PairItem(ls, indent, line, e.key, text);
    ListedImage(item);
    if more == [] {
      NoLines(indent + 2);
      NoImages();
      assert [] + tail == tail && entries + [] == entries;
      assert |ls| > 1 ==> ls[1] == ls[1..][0];
    } else {
      NothingHeld(more);
      MapReads(more, indent + 2, tail, []);
      FirstEntryNoDash(more, indent + 2);
      assert ls[1] == (MapLines(more, indent + 2) + tail)[0] == MapLines(more, indent + 2)[0];
      ContinueReads(e.key, Image(e.value, false).value, more, indent + 2, tail);
    }
  }

  /** The image of a list item's mapping with a flat first value. */
  lemma {:induction false} ListedImage(item: Yaml)
    requires item.Map? && item.entries != [] && Flat(item.entries[0].value) && Image(item.entries[0].value, false).Ok?
    ensures var first, rest := Image(item.entries[0].value, false).value, ImageEntries(item.entries[1..]);
      Image(item, true) ==
        if rest.Err? then Err(rest.error)
        else if Clashes(item.entries[0].key, first, rest.value) then Err(DuplicateKey)
        else Ok(Map(Assigned(item.entries[0].key, first) + rest.value))
  {
    hide ImageEntries, Assigned;
  }

  lemma NoImages()
    ensures ImageEntries([]) == Ok([])
  {
  }

  lemma NoLines(indent: nat)
    ensures MapLines([], indent) == []
  {
  }

  lemma {:induction false} OneItemIs(e: Entry, more: seq<Entry>, indent: nat)
    ensures var first := EntryLines(e.key, e.value, indent + 2);
      OneItem(Map([e] + more), indent) == [Line(indent, "- " + TrimStart(first[0].text))] + first[1..] + MapLines(more, indent + 2)
  {
    assert ([e] + more)[1..] == more && ([e] + more)[0] == e;
    hide EntryLines, MapLines, TrimStart;
  }

  lemma {:induction false} FlatTextLong(v: Yaml)
    requires Flat(v) && Solid(FlatText(v))
    ensures FlatText(v) != ""
  {
    hide FlatText;
  }

  /** The dash line of a mapping whose first value is flat. */
  lemma {:induction false} FlatItemStarts(e: Entry, more: seq<Entry>, indent: nat, tail: seq<Line>)
    requires PlainText(e.key) && Flat(e.value) && Writable(e.value)
    ensures var text := FlatText(e.value);
      var line := e.key + ":" + (" " + text);
      var ls := OneItem(Map([e] + more), indent) + tail;
      && ls != [] && ls[0].indent == indent && IsDash(ls[0].text) && ItemText(ls[0].text) == line != ""
      && text != "" && SplitPair(line) == Ok(Some((e.key, text))) && ParseScalar(text) == Image(e.value, false) && Image(e.value, false).Ok?
      && ls[1..] == MapLines(more, indent + 2) + tail
  {
    hide SplitPair, ParseScalar, Trim, TrimStart, ItemText, MapLines, EntryLines, FlatText, Solid, PlainText, Flat, FormatScalar, IsDash, BlockLines, OneItem, Image, Writable;
    var text := FlatText(e.value);
    var line := e.key + ":" + (" " + text);
    FlatLine(e.key, e.value, indent + 2);
    FlatReads(e.value);
    FlatTextLong(e.value);
    assert (" " + text)[1..] == text;
    KeyLine(e.key, " " + text);
    KeyLineSolid(e.key, text);
    TrimSolid(line);
    DashText(line);
    OneItemIs(e, more, indent);
  }

  /** The entries that follow the dash's line join the first, or fail as they do on their own. */
  lemma {:induction false} ContinueReads(first: string, value: Yaml, more: seq<Entry>, indent: nat, tail: seq<Line>)
    requires more != [] && WritableEntries(more)
    requires ParseMap(MapLines(more, indent) + tail, indent, []) == AfterEntries(more, tail, [])
    ensures var read := ImageEntries(more);
      Continue(first, value, MapLines(more, indent) + tail, indent) ==
        if read.Err? then Err(read.error)
        else if Clashes(first, value, read.value) then Err(DuplicateKey)
        else Ok(Parsed(Map(Assigned(first, value) + read.value), tail))
  {
    FirstEntryNoDash(more, indent);
    var ls := MapLines(more, indent) + tail;
    assert ls[0] == MapLines(more, indent)[0];
    hide ParseMap, MapLines, ImageEntries, WritableEntries, Clashes;
    if ImageEntries(more).Ok? {
      assert [] + ImageEntries(more).value == ImageEntries(more).value;
    }
  }

  lemma KeyLineSolid(key: string, text: string)
    requires PlainText(key) && Solid(text)
    ensures Solid(key + ":" + (" " + text)) && Solid(key + ":")
  {
    PlainIsSolid(key);
    var line := key + ":" + (" " + text);
    forall i | 0 <= i < |line| ensures line[i] !in {'\n', '\r', '\t'} {
      if i < |key| {
        assert line[i] == key[i];
      } else if i > |key| + 1 {
        assert line[i] == text[i - |key| - 2];
      }
    }
  }

  /** An item's mapping whose first value starts on the next line: further entries find no place. */
  lemma {:induction false} CompoundItemReads(item: Yaml, indent: nat, tail: seq<Line>, acc: seq<Yaml>)
    requires item.Map? && item.entries != [] && Writable(item) && !Flat(item.entries[0].value) && Below(tail, indent + 1)
    requires var e, rest := item.entries[0], MapLines(item.entries[1..], indent + 2) + tail;
      && BlockLines(e.value, indent + 4) + rest != []
      && ParseBlock(BlockLines(e.value, indent + 4) + rest, indent + 4) == Read(Image(e.value, false), rest)
    ensures ParseItems(OneItem(item, indent) + tail, indent, acc) == AfterItem(item, indent, tail, acc)
  {
    hide SplitPair, ParseScalar, Trim, Continue, ParseItem, ParseItems, ParseBlock, ItemText, BlockLines, EntryLines, OneItem, MapLines, Image, Writable, IsDash, PlainText, Assigned;
    var e, more := item.entries[0], item.entries[1..];
    var rest := MapLines(more, indent + 2) + tail;
    var ls := OneItem(item, indent) + tail;
    MapEntry(item);
    CompoundItemStarts(e, more, indent, tail);
    PairItem(ls, indent, e.key + ":", e.key, "");
    ItemsStep(ls, indent, acc);
    CompoundImage(item);
    if Image(e.value, false).Ok? {
      var entries := Assigned(e.key, Image(e.value, false).value);
      if more == [] {
        NoLines(indent + 2);
        assert rest == tail;
        ContinueEnds(e.key, Image(e.value, false).value, tail, indent + 4);
      } else {
        FirstEntryNoDash(more, indent + 2);
        assert rest[0] == MapLines(more, indent + 2)[0];
        ContinueEnds(e.key, Image(e.value, false).value, rest, indent + 4);
        StrayLine(rest, indent, acc + [Map(entries)]);
      }
    }
  }

  lemma {:induction false} CompoundImage(item: Yaml)
    requires item.Map? && item.entries != [] && !Flat(item.entries[0].value)
    ensures var first := Image(item.entries[0].value, false);
      Image(item, true) ==
        if first.Err? then Err(first.error)
        else if |item.entries| > 1 then Err(ExpectedItem)
        else Ok(Map(Assigned(item.entries[0].key, first.value)))
  {
    hide Flat, Assigned;
    if |item.entries| == 1 && Image(item.entries[0].value, false).Ok? {
      assert item.entries[1..] == [];
      NoImages();
      var entries := Assigned(item.entries[0].key, Image(item.entries[0].value, false).value);
      assert entries + [] == entries;
    }
  }

  lemma {:induction false} StrayLine(ls: seq<Line>, indent: nat, items: seq<Yaml>)
    requires ls != [] && ls[0].indent > indent
    ensures ParseItems(ls, indent, items) == Err(ExpectedItem)
  {
  }

  lemma {:induction false} ContinueEnds(first: string, value: Yaml, tail: seq<Line>, indent: nat)
    requires Below(tail, indent)
    ensures Continue(first, value, tail, indent) == Ok(Parsed(Map(Assigned(first, value)), tail))
  {
  }

  /** The dash line of a mapping whose first value is compound. */
  lemma {:induction false} CompoundItemStarts(e: Entry, more: seq<Entry>, indent: nat, tail: seq<Line>)
    requires PlainText(e.key) && !Flat(e.value)
    ensures var line := e.key + ":";
      var ls := OneItem(Map([e] + more), indent) + tail;
      && |ls| > 1 && ls[0].indent == indent && IsDash(ls[0].text) && ItemText(ls[0].text) == line != ""
      && SplitPair(line) == Ok(Some((e.key, ""))) && ls[1].indent == indent + 4
      && ls[1..] == BlockLines(e.value, indent + 4) + (MapLines(more, indent + 2) + tail)
  {
    hide SplitPair, ParseScalar, Trim, TrimStart, ItemText, MapLines, EntryLines, FlatText, Solid, PlainText, Flat, FormatScalar, IsDash, BlockLines, OneItem;
    var line := e.key + ":";
    CompoundLines(e.key, e.value, indent + 2);
    KeyLine(e.key, "");
    assert e.key + ":" + "" == line;
    PlainIsSolid(e.key);
    KeyLineSolid(e.key, e.key);
    TrimSolid(line);
    DashText(line);
    OneItemIs(e, more, indent);
    var block, rest := BlockLines(e.value, indent + 4), MapLines(more, indent + 2);
    var ls := OneItem(Map([e] + more), indent) + tail;
    assert ls == [Line(indent, "- " + line)] + block + rest + tail;
    Regroup(block, rest, tail);
    assert ls[1] == block[0];
  }
}
