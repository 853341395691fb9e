/**
 The text layer of the YAML printer and parser (packages/cli/src/config.ts:
 `parseYaml`, `stringifyYaml`) and the round trip from text to text.
 */
module YamlText {
  import opened Wrappers
  import opened JsText
  import opened JsNumber
  import opened YamlScalars
  import opened YamlBlocks
  import opened YamlRoundTrip

  function Spaces(n: nat): (s: string)
    ensures |s| == n && forall i :: 0 <= i < n ==> s[i] == ' '
  {
    seq(n, i => ' ')
  }

  function Raw(l: Line): string {
    Spaces(l.indent) + l.text
  }

  // ----- printing -----

  /** `writeYamlValue` without a key. */
  function ValueLines(v: Yaml): seq<Line> {
    if Flat(v) then [Line(0, FlatText(v))] else BlockLines(v, 0)
  }

  /** Lines joined by line ends, with one at the end. */
  function SourceOf(ls: seq<Line>): string {
    if ls == [] then "" else Raw(ls[0]) + "\n" + SourceOf(ls[1..])
  }

  function StringifyYaml(v: Yaml): string {
    SourceOf(ValueLines(v))
  }

  // ----- reading lines -----

  /** Pieces between line ends, each `\n` or `\r\n`. */
  function SplitLines(source: string): seq<string> {
    var pieces := Split(source, '\n');
    seq(|pieces|, i requires 0 <= i < |pieces| =>
      if i < |pieces| - 1 && pieces[i] != "" && pieces[i][|pieces[i]| - 1] == '\r' then pieces[i][..|pieces[i]| - 1] else pieces[i])
  }

  /** One raw line: an error, nothing, or an indented text. */
  function LexLine(raw: string): Result<Option<Line>, YamlError> {
    if '\t' in raw then Err(Tab)
    else
      var text := TrimEnd(StripComment(raw));
      if Trim(text) in {"", "---", "..."} then Ok(None)
      else
        var indent := |text| - |TrimStart(text)|;
        if indent < 0 then Ok(None) else Ok(Some(Line(indent, text[indent..])))
  }

  function LexAll(raws: seq<string>): Result<seq<Line>, YamlError> {
    if raws == [] then Ok([])
    else
      var first := LexLine(raws[0]);
      var rest := LexAll(raws[1..]);
      if first.Err? then Err(first.error)
      else if rest.Err? then rest
      else Ok((if first.value.Some? then [first.value.value] else []) + rest.value)
  }

  function ParseLines(ls: seq<Line>): Result<Yaml, YamlError> {
    if ls == [] then Ok(Map([]))
    else if ls[0].indent != 0 then Err(RootIndent)
    else
      var parsed := ParseBlock(ls, 0);
      if parsed.Err? then Err(parsed.error)
      else if parsed.value.rest != [] then Err(Indentation)
      else Ok(parsed.value.value)
  }

  function ParseYaml(source: string): Result<Yaml, YamlError> {
    var ls := LexAll(SplitLines(source));
    if ls.Err? then Err(ls.error) else ParseLines(ls.value)
  }

  // ----- clean lines -----

  /** Wherever `text` stands, a scan from its start for a comment passes over it and leaves its quotes. */
  ghost predicate Uncommented(text: string) {
    forall raw, i: nat | Stands(raw, i, text) :: Find(raw, i, Bare, false, Hash) == Find(raw, i + |text|, Bare, false, Hash)
  }

  predicate QuietChar(c: char) {
    PlainChar(c) || c in {' ', '[', ']', '{', '}'}
  }

  lemma UncommentedNothing()
    ensures Uncommented("")
  {
  }

  lemma {:induction false} UncommentedFormat(v: Yaml)
    requires Scalar(v) && !v.Decimal?
    ensures Uncommented(FormatScalar(v))
  {
    forall raw, i: nat | Stands(raw, i, FormatScalar(v))
      ensures Find(raw, i, Bare, false, Hash) == Find(raw, i + |FormatScalar(v)|, Bare, false, Hash)
    {
      SkipFormat(raw, i, v, Hash);
    }
  }

  lemma UncommentedAfter(pre: string, text: string)
    requires (forall i :: 0 <= i < |pre| ==> QuietChar(pre[i])) && Uncommented(text)
    ensures Uncommented(pre + text)
  {
    forall raw, i: nat | Stands(raw, i, pre + text)
      ensures Find(raw, i, Bare, false, Hash) == Find(raw, i + |pre + text|, Bare, false, Hash)
    {
      StandsSplit(raw, i, pre, text);
      StandsAt(raw, i, pre);
      forall k | i <= k < i + |pre| ensures Neutral(raw, k, Hash) {
        assert raw[i + (k - i)] == pre[k - i] && QuietChar(pre[k - i]);
      }
      SkipNeutral(raw, i, i + |pre|, Hash);
    }
  }

  ghost predicate CleanText(text: string) {
    Solid(text) && Uncommented(text) && text !in {"---", "..."}
  }

  ghost predicate AllClean(ls: seq<Line>) {
    forall i :: 0 <= i < |ls| ==> CleanText(ls[i].text)
  }

  lemma {:induction false} FlatTextClean(v: Yaml)
    requires Flat(v) && Writable(v)
    ensures Solid(FlatText(v)) && Uncommented(FlatText(v))
  {
    if Scalar(v) {
      FormatIsSolid(v);
      UncommentedFormat(v);
    } else {
      UncommentedNothing();
      UncommentedAfter(FlatText(v), "");
      assert FlatText(v) + "" == FlatText(v);
    }
  }

  /** A key's line is clean, with a flat value after it or none. */
  lemma KeyLineClean(key: string, after: string)
    requires PlainText(key) && (after == "" || (after[0] == ' ' && Solid(after[1..]) && Uncommented(after[1..])))
    ensures CleanText(key + ":" + after)
  {
    var line := key + ":" + after;
    PlainIsSolid(key);
    if after == "" {
      KeyLineSolid(key, key);
      UncommentedNothing();
      UncommentedAfter(key + ":", "");
      assert key + ":" + "" == key + ":";
      assert line[|line| - 1] == ':';
    } else {
      KeyLineSolid(key, after[1..]);
      assert after == " " + after[1..];
      UncommentedAfter(key + ": ", after[1..]);
      assert line == key + ": " + after[1..];
      assert line[|key| + 1] == ' ';
    }
  }

  lemma DashLineClean(text: string)
    requires Solid(text) && Uncommented(text)
    ensures CleanText("- " + text)
  {
    UncommentedAfter("- ", text);
    var line := "- " + text;
    assert line[1] == ' ';
    forall i | 0 <= i < |line| ensures line[i] !in {'\n', '\r', '\t'} {
      if i > 1 {
        assert line[i] == text[i - 2];
      }
    }
  }

  lemma LoneDashClean()
    ensures CleanText("-")
  {
    UncommentedNothing();
    UncommentedAfter("-", "");
    assert "-" + "" == "-";
  }

  lemma CleanJoin(a: seq<Line>, b: seq<Line>)
    requires AllClean(a) && AllClean(b)
    ensures AllClean(a + b)
  {
    hide CleanText;
  }

  lemma CleanOne(l: Line)
    requires CleanText(l.text)
    ensures AllClean([l])
  {
  }

  lemma {:induction false} EntryClean(key: string, v: Yaml, indent: nat)
    requires PlainText(key) && Writable(v)
    ensures AllClean(EntryLines(key, v, indent))
    decreases v, 1
  {
    hide CleanText, AllClean;
    if Flat(v) {
      FlatLine(key, v, indent);
      FlatTextClean(v);
      assert (" " + FlatText(v))[1..] == FlatText(v);
      KeyLineClean(key, " " + FlatText(v));
      CleanOne(Line(indent, key + ":" + (" " + FlatText(v))));
    } else {
      CompoundLines(key, v, indent);
      KeyLineClean(key, "");
      CleanOne(Line(indent, key + ":" + ""));
      BlockClean(v, indent + 2);
      CleanJoin([Line(indent, key + ":" + "")], BlockLines(v, indent + 2));
    }
  }

  lemma {:induction false} BlockClean(v: Yaml, indent: nat)
    requires !Flat(v) && Writable(v)
    ensures AllClean(BlockLines(v, indent))
    decreases v, 0
  {
    hide CleanText, AllClean;
    if v.List? {
      ItemsClean(v.items, indent);
    } else {
      MapClean(v.entries, indent);
    }
  }

  lemma {:induction false} MapClean(entries: seq<Entry>, indent: nat)
    requires WritableEntries(entries)
    ensures AllClean(MapLines(entries, indent))
    decreases entries, 2
  {
    if entries != [] {
      hide CleanText;
      EntryClean(entries[0].key, entries[0].value, indent);
      MapClean(entries[1..], indent);
      CleanJoin(EntryLines(entries[0].key, entries[0].value, indent), MapLines(entries[1..], indent));
    }
  }

  lemma {:induction false} ItemsClean(items: seq<Yaml>, indent: nat)
    requires WritableItems(items)
    ensures AllClean(ItemLines(items, indent))
    decreases items, 2
  {
    if items != [] {
      hide CleanText;
      ItemClean(items[0], indent);
      ItemsClean(items[1..], indent);
      CleanJoin(OneItem(items[0], indent), ItemLines(items[1..], indent));
    }
  }

  lemma {:induction false} ItemClean(item: Yaml, indent: nat)
    requires Writable(item)
    ensures AllClean(OneItem(item, indent))
    decreases item, 1
  {
    if Flat(item) {
      FlatItem(item, indent);
      FlatTextClean(item);
      DashLineClean(FlatText(item));
      CleanOne(Line(indent, "- " + FlatText(item)));
    } else if item.List? {
      LoneDashClean();
      CleanOne(Line(indent, "-"));
      ItemsClean(item.items, indent + 2);
      CleanJoin([Line(indent, "-")], ItemLines(item.items, indent + 2));
    } else {
      MapItemClean(item, indent);
    }
  }

  lemma {:induction false} MapItemClean(item: Yaml, indent: nat)
    requires item.Map? && item.entries != [] && Writable(item)
    ensures AllClean(OneItem(item, indent))
    decreases item, 0
  {
    var e, more := item.entries[0], item.entries[1..];
    EntryClean(e.key, e.value, indent + 2);
    MapClean(more, indent + 2);
    var first := EntryLines(e.key, e.value, indent + 2);
    assert [e] + more == item.entries;
    OneItemIs(e, more, indent);
    assert CleanText(first[0].text);
    TrimSolid(first[0].text);
    DashLineClean(first[0].text);
    CleanOne(Line(indent, "- " + first[0].text));
    hide CleanText, EntryLines, MapLines, OneItem, TrimStart;
    assert AllClean(first[1..]);
    CleanJoin([Line(indent, "- " + first[0].text)], first[1..]);
    CleanJoin([Line(indent, "- " + first[0].text)] + first[1..], MapLines(more, indent + 2));
  }

  // ----- lexing what was printed, with comments added -----

  /** A comment on a line of its own, or a printed line, with a comment after a gap if there is one. */
  datatype Annotated = Remark(indent: nat, note: string) | Code(line: Line, gap: nat, note: string)

  function Shown(a: Annotated): string {
    match a
    case Remark(indent, note) => Spaces(indent) + "#" + note
    case Code(line, gap, note) => if gap == 0 then Raw(line) else Raw(line) + Spaces(gap) + "#" + note
  }

  function LineIn(a: Annotated): Option<Line> {
    if a.Code? then Some(a.line) else None
  }

  function AnnotatedSource(ws: seq<Annotated>): string {
    if ws == [] then "" else Shown(ws[0]) + "\n" + AnnotatedSource(ws[1..])
  }

  function LinesIn(ws: seq<Annotated>): seq<Line> {
    if ws == [] then [] else (if ws[0].Code? then [ws[0].line] else []) + LinesIn(ws[1..])
  }

  function Raws(ws: seq<Annotated>): seq<string> {
    if ws == [] then [""] else [Shown(ws[0])] + Raws(ws[1..])
  }

  predicate Quiet(note: string) {
    forall i :: 0 <= i < |note| ==> note[i] !in {'\n', '\r', '\t'}
  }

  ghost predicate Fine(a: Annotated) {
    Quiet(a.note) && (a.Code? ==> CleanText(a.line.text))
  }

  lemma {:induction false} TrimSpaces(n: nat, text: string)
    requires Solid(text)
    ensures TrimStart(Spaces(n) + text) == text
    decreases n
  {
    if n == 0 {
      assert Spaces(0) + text == text;
      TrimSolid(text);
    } else {
      assert (Spaces(n) + text)[1..] == Spaces(n - 1) + text;
      TrimSpaces(n - 1, text);
    }
  }

  lemma {:induction false} TrimEndSpaces(text: string, n: nat)
    requires text == "" || !IsSpace(text[|text| - 1])
    ensures TrimEnd(text + Spaces(n)) == text
    decreases n
  {
    var padded := text + Spaces(n);
    if n == 0 {
      assert padded == text;
    } else {
      assert padded[..|padded| - 1] == text + Spaces(n - 1);
      TrimEndSpaces(text, n - 1);
    }
  }

  lemma CommentFound(text: string, gap: nat, note: string)
    requires gap > 0 || text == ""
    ensures Find(text + Spaces(gap) + "#" + note, |text|, Bare, false, Hash) == Some(|text| + gap)
  {
    var raw := text + Spaces(gap) + "#" + note;
    forall k | |text| <= k < |text| + gap ensures raw[k] == ' ' {
      assert raw[k] == Spaces(gap)[k - |text|];
    }
    assert raw[|text| + gap] == '#';
    hide Spaces;
    SkipNeutral(raw, |text|, |text| + gap, Hash);
  }

  /** What a comment leaves of a line, its characters before the gap. */
  lemma CommentIsCut(text: string, gap: nat, note: string)
    requires gap > 0 || text == ""
    requires Find(text + Spaces(gap) + "#" + note, 0, Bare, false, Hash) == Find(text + Spaces(gap) + "#" + note, |text|, Bare, false, Hash)
    requires text == "" || !IsSpace(text[|text| - 1])
    ensures TrimEnd(StripComment(text + Spaces(gap) + "#" + note)) == text
  {
    hide Find, TrimEnd, Spaces;
    CommentFound(text, gap, note);
    var raw := text + Spaces(gap) + "#" + note;
    assert raw[..|text| + gap] == text + Spaces(gap);
    TrimEndSpaces(text, gap);
  }

  lemma CodeIsCut(l: Line, gap: nat, note: string)
    requires CleanText(l.text)
    ensures TrimEnd(StripComment(Shown(Code(l, gap, note)))) == Raw(l)
  {
    var raw, shown := Raw(l), Shown(Code(l, gap, note));
    assert forall i :: 0 <= i < |raw| ==> shown[i] == raw[i];
    assert Stands(shown, l.indent, l.text) by {
      assert shown[l.indent..l.indent + |l.text|] == l.text;
    }
    SkipNeutral(shown, 0, l.indent, Hash);
    assert raw[|raw| - 1] == l.text[|l.text| - 1];
    hide Find, Stands;
    if gap == 0 {
      assert Find(shown, |shown|, Bare, false, Hash).None? by {
        NothingAtTheEnd(shown);
      }
      assert TrimEnd(raw + Spaces(0)) == raw by {
        TrimEndSpaces(raw, 0);
      }
      assert raw + Spaces(0) == raw;
    } else {
      CommentIsCut(raw, gap, note);
    }
  }

  lemma NothingAtTheEnd(text: string)
    ensures Find(text, |text|, Bare, false, Hash).None?
  {
  }

  lemma QuietCode(l: Line, gap: nat, note: string)
    requires CleanText(l.text) && Quiet(note)
    ensures Quiet(Shown(Code(l, gap, note)))
  {
    hide Uncommented;
    var raw, shown := Raw(l), Shown(Code(l, gap, note));
    forall i | 0 <= i < |shown| ensures shown[i] !in {'\n', '\r', '\t'} {
      if l.indent <= i < |raw| {
        assert shown[i] == l.text[i - l.indent];
      } else if i > |raw| + gap {
        assert shown[i] == note[i - |raw| - gap - 1];
      }
    }
  }

  /** A printed line is read back as it was, with a comment after it or none. */
  lemma LexCode(l: Line, gap: nat, note: string)
    requires CleanText(l.text) && Quiet(note)
    ensures LexLine(Shown(Code(l, gap, note))) == Ok(Some(l)) && Quiet(Shown(Code(l, gap, note)))
  {
    CodeIsCut(l, gap, note);
    QuietCode(l, gap, note);
    TrimSpaces(l.indent, l.text);
    TrimSolid(l.text);
    hide StripComment, TrimEnd, TrimStart, Uncommented, Shown;
    assert Raw(l)[l.indent..] == l.text;
  }

  /** A line of its own for a comment is no line. */
  lemma LexRemark(indent: nat, note: string)
    requires Quiet(note)
    ensures LexLine(Shown(Remark(indent, note))) == Ok(None) && Quiet(Shown(Remark(indent, note)))
  {
    var shown := Shown(Remark(indent, note));
    assert shown == "" + Spaces(indent) + "#" + note;
    CommentIsCut("", indent, note);
    TrimNothing();
    hide StripComment, TrimEnd, TrimStart, Trim;
    forall i | 0 <= i < |shown| ensures shown[i] !in {'\n', '\r', '\t'} {
      if i > indent {
        assert shown[i] == note[i - indent - 1];
      }
    }
  }

  lemma TrimNothing()
    ensures Trim("") == ""
  {
  }

  lemma LexShown(a: Annotated)
    requires Fine(a)
    ensures LexLine(Shown(a)) == Ok(LineIn(a)) && Quiet(Shown(a))
  {
    match a
    case Remark(indent, note) => LexRemark(indent, note);
    case Code(line, gap, note) => LexCode(line, gap, note);
  }

  lemma {:induction false} SplitLine(a: string, rest: string)
    requires forall i :: 0 <= i < |a| ==> a[i] != '\n'
    ensures Split(a + "\n" + rest, '\n') == [a] + Split(rest, '\n')
    decreases |a|
  {
    var s := a + "\n" + rest;
    if a == "" {
      assert s[1..] == rest;
    } else {
      assert s[1..] == a[1..] + "\n" + rest;
      SplitLine(a[1..], rest);
      assert [a[0]] + a[1..] == a;
    }
  }

  lemma {:induction false} SplitSource(ws: seq<Annotated>)
    requires forall i :: 0 <= i < |ws| ==> Fine(ws[i])
    ensures Split(AnnotatedSource(ws), '\n') == Raws(ws)
    ensures forall i :: 0 <= i < |Raws(ws)| ==> Quiet(Raws(ws)[i])
    decreases |ws|
  {
    if ws != [] {
      LexShown(ws[0]);
      hide Fine, Split, Shown;
      SplitSource(ws[1..]);
      SplitLine(Shown(ws[0]), AnnotatedSource(ws[1..]));
    }
  }

  lemma {:induction false} LexRaws(ws: seq<Annotated>)
    requires forall i :: 0 <= i < |ws| ==> Fine(ws[i])
    ensures LexAll(Raws(ws)) == Ok(LinesIn(ws))
    decreases |ws|
  {
    if ws == [] {
      LexNothing();
    } else {
      LexShown(ws[0]);
      hide Fine, LexLine, Shown, LineIn;
      LexRaws(ws[1..]);
      assert Raws(ws)[1..] == Raws(ws[1..]);
    }
  }

  lemma LexNothing()
    ensures LexAll([""]) == Ok([])
  {
    assert Find("", 0, Bare, false, Hash).None?;
    assert LexLine("") == Ok(None);
    assert [""][1..] == [];
    assert LexAll([]) == Ok([]);
    var none: seq<Line> := [];
    assert none + none == none;
    assert LexAll([""][1..]) == Ok(none);
  }

  lemma NoReturns(source: string, pieces: seq<string>)
    requires Split(source, '\n') == pieces && forall i :: 0 <= i < |pieces| ==> Quiet(pieces[i])
    ensures SplitLines(source) == pieces
  {
    hide Split;
    forall i | 0 <= i < |pieces| && pieces[i] != "" ensures pieces[i][|pieces[i]| - 1] != '\r' {
      assert Quiet(pieces[i]);
    }
  }

  /** Comments after lines or on lines of their own are as if they were not there. */
  lemma CommentsDoNotMatter(ws: seq<Annotated>)
    requires forall i :: 0 <= i < |ws| ==> Fine(ws[i])
    ensures ParseYaml(AnnotatedSource(ws)) == ParseLines(LinesIn(ws))
  {
    SplitSource(ws);
    LexRaws(ws);
    hide LexAll, Split, SplitLines, AnnotatedSource, ParseLines, Fine, Raws, LinesIn;
    NoReturns(AnnotatedSource(ws), Raws(ws));
  }

  /** Lines written out and read in again are the same lines. */
  lemma LexSource(ls: seq<Line>)
    requires AllClean(ls)
    ensures ParseYaml(SourceOf(ls)) == ParseLines(ls)
  {
    BareSource(ls);
    hide CleanText, ParseYaml, ParseLines, SourceOf, AnnotatedSource, LinesIn;
    CommentsDoNotMatter(Bares(ls));
  }

  function Bares(ls: seq<Line>): seq<Annotated> {
    seq(|ls|, i requires 0 <= i < |ls| => Code(ls[i], 0, ""))
  }

  lemma {:induction false} BareSource(ls: seq<Line>)
    ensures AnnotatedSource(Bares(ls)) == SourceOf(ls) && LinesIn(Bares(ls)) == ls
  {
    hide Raw;
    if ls != [] {
      BareSource(ls[1..]);
      assert Bares(ls)[1..] == Bares(ls[1..]);
      assert [ls[0]] + ls[1..] == ls;
    }
  }

  // ----- the round trip -----

  /** Reading what was printed is parsing the printed lines, whatever the value. */
  lemma {:induction false} PrintedLines(v: Yaml)
    requires Writable(v) && !Flat(v)
    ensures ParseYaml(StringifyYaml(v)) == ParseLines(BlockLines(v, 0))
  {
    BlockClean(v, 0);
    LexSource(BlockLines(v, 0));
  }

  /** What comes back of a printed value, whatever the value: its image. */
  lemma {:induction false} TextReads(v: Yaml)
    requires Writable(v) && !Flat(v)
    ensures ParseYaml(StringifyYaml(v)) == Image(v, false)
  {
    PrintedLines(v);
    BlockReads(v, 0, []);
    hide ParseBlock, BlockLines, Image, ParseYaml, StringifyYaml;
    var ls := BlockLines(v, 0);
    assert ls + [] == ls;
    BlockStarts(v);
  }

  lemma {:induction false} LineIsIn(ws: seq<Annotated>, i: nat)
    requires i < |ws| && ws[i].Code?
    ensures ws[i].line in LinesIn(ws)
    decreases i
  {
    if i > 0 {
      LineIsIn(ws[1..], i - 1);
    }
  }

  /** A printed value reads as its image whatever comments are added to its text. */
  lemma CommentedTextReads(v: Yaml, ws: seq<Annotated>)
    requires Writable(v) && !Flat(v) && LinesIn(ws) == BlockLines(v, 0)
    requires forall i :: 0 <= i < |ws| ==> Quiet(ws[i].note)
    ensures ParseYaml(AnnotatedSource(ws)) == Image(v, false)
  {
    TextReads(v);
    PrintedLines(v);
    BlockClean(v, 0);
    hide ParseYaml, ParseLines, AnnotatedSource, Image, BlockLines, CleanText, Quiet, LinesIn;
    forall i | 0 <= i < |ws| ensures Fine(ws[i]) {
      if ws[i].Code? {
        LineIsIn(ws, i);
      }
    }
    hide Fine, StringifyYaml;
    CommentsDoNotMatter(ws);
  }

  lemma {:induction false} NoHash(text: string, i: nat, mode: Mode, escaped: bool)
    requires i <= |text| && forall k :: 0 <= k < |text| && text[k] == '#' ==> k > 0 && !IsSpace(text[k - 1])
    ensures Find(text, i, mode, escaped, Hash).None?
    decreases |text| - i
  {
    if i < |text| {
      NoHash(text, i + 1, Bare, false);
      NoHash(text, i + 1, Single, false);
      NoHash(text, i + 1, Double, false);
      NoHash(text, i + 1, Double, true);
    }
  }

  /** Only white space before it makes a hash start a comment. */
  lemma HashInsideWord(text: string)
    requires forall k :: 0 <= k < |text| && text[k] == '#' ==> k > 0 && !IsSpace(text[k - 1])
    ensures StripComment(text) == text
  {
    NoHash(text, 0, Bare, false);
    hide Find;
  }

  /**
   `parseYaml(stringifyYaml(v)) == v` holds of a non-empty root mapping or list, of any
   depth, exactly when no number in it is printed with an exponent, no string in it is of
   number form nor, as a list item, of key form, no key but the first of a list item's mapping is one every object inherits, and
   no list item's mapping of several entries starts with a compound value.
   */
  lemma {:induction false} TextRoundTrip(v: Yaml)
    requires Writable(v) && !Flat(v)
    ensures ParseYaml(StringifyYaml(v)) == Ok(v) <==> Printable(v, false)
  {
    hide ParseYaml, StringifyYaml, Image, Printable, Writable, Flat;
    TextReads(v);
    ImageIsSame(v, false);
  }

  lemma {:induction false} BlockStarts(v: Yaml)
    requires !Flat(v)
    ensures |BlockLines(v, 0)| > 0 && BlockLines(v, 0)[0].indent == 0
  {
    CompoundLines("", v, 0);
    if v.List? {
      FirstItemDash(v.items, 0);
    } else {
      assert MapLines(v.entries, 0) == EntryLines(v.entries[0].key, v.entries[0].value, 0) + MapLines(v.entries[1..], 0);
    }
  }

  // ----- where it ends -----

  /** A string of number form comes back as the number, rounded. */
  lemma NumberFormIsLost(key: string, s: string)
    requires PlainText(key) && !IntegerKey(key) && key !in INHERITED && NumberOf(s).Some?
    ensures ParseYaml(StringifyYaml(Map([Entry(key, Str(s))]))) == Ok(Map([Entry(key, NumberOf(s).value)]))
  {
    var e := Entry(key, Str(s));
    OneWritable(e);
    TextReads(Map([e]));
    FirstImage([e]);
    NoImages();
    hide ParseYaml, StringifyYaml, NumberOf;
    assert [e][1..] == [] && [Entry(key, NumberOf(s).value)] + [] == [Entry(key, NumberOf(s).value)];
  }

  /** A number printed with an exponent comes back as that text. */
  lemma LargeNumberIsLost(key: string, n: int)
    requires PlainText(key) && !IntegerKey(key) && key !in INHERITED && IsDouble(Abs(n)) && Large(n)
    ensures ParseYaml(StringifyYaml(Map([Entry(key, Num(n))]))) == Ok(Map([Entry(key, Str(ShowInt(n)))]))
  {
    var e := Entry(key, Num(n));
    OneWritable(e);
    TextReads(Map([e]));
    FirstImage([e]);
    NoImages();
    hide ParseYaml, StringifyYaml, ShowInt, IsDouble, Large;
    assert [e][1..] == [] && [Entry(key, Str(ShowInt(n)))] + [] == [Entry(key, Str(ShowInt(n)))];
  }

  /** A plain list item ending in a colon comes back as a mapping. */
  lemma ColonItemIsLost(s: string)
    requires PlainText(s) && |s| > 1 && s[|s| - 1] == ':' && s[..|s| - 1] != "__proto__"
    ensures ParseYaml(StringifyYaml(List([Str(s)]))) == Ok(List([Map([Entry(s[..|s| - 1], Map([]))])]))
  {
    OneItemWritable(Str(s));
    TextReads(List([Str(s)]));
    ColonItem(s);
    hide ParseYaml, StringifyYaml, NumberOf;
    OneImage(Str(s));
  }

  /** A key every object inherits is refused as a duplicate. */
  lemma {:induction false} InheritedKeyIsRefused(key: string, v: Yaml)
    requires PlainText(key) && key in INHERITED && Writable(v)
    ensures ParseYaml(StringifyYaml(Map([Entry(key, v)]))) == Err(DuplicateKey)
  {
    var e := Entry(key, v);
    InheritedIsNoIndex(key);
    OneWritable(e);
    TextReads(Map([e]));
    FirstImage([e]);
    hide ParseYaml, StringifyYaml;
  }

  /** A list item's mapping of several entries whose first value spans lines is refused. */
  lemma {:induction false} CompoundFirstIsRefused(item: Yaml)
    requires item.Map? && Writable(item) && |item.entries| > 1 && !Flat(item.entries[0].value)
    ensures ParseYaml(StringifyYaml(List([item]))).Err?
    ensures Image(item.entries[0].value, false).Ok? ==> ParseYaml(StringifyYaml(List([item]))) == Err(ExpectedItem)
  {
    OneItemWritable(item);
    TextReads(List([item]));
    CompoundImage(item);
    hide ParseYaml, StringifyYaml;
    OneImage(item);
  }

  /** A list item that begins with an empty list under `__proto__` inherits an array's names, so `length` is refused. */
  lemma {:induction false} ArrayNameIsRefused(v: Yaml)
    requires Writable(v) && Image(v, false).Ok?
    ensures ParseYaml(StringifyYaml(List([Map([Entry("__proto__", List([])), Entry("length", v)])]))) == Err(DuplicateKey)
  {
    var item := Map([Entry("__proto__", List([])), Entry("length", v)]);
    ArrayNameWritable(v);
    ArrayNameClashes(v);
    hide ParseYaml, StringifyYaml, Writable, Image, Flat;
    OneItemWritable(item);
    TextReads(List([item]));
    OneImage(item);
  }

  lemma {:induction false} ArrayNameWritable(v: Yaml)
    requires Writable(v)
    ensures Writable(Map([Entry("__proto__", List([])), Entry("length", v)]))
  {
    var first, second := Entry("__proto__", List([])), Entry("length", v);
    assert [first, second][1..] == [second];
    OneWritable(second);
    assert PlainText("__proto__");
  }

  lemma {:induction false} ArrayNameClashes(v: Yaml)
    requires Image(v, false).Ok?
    ensures Image(Map([Entry("__proto__", List([])), Entry("length", v)]), true) == Err(DuplicateKey)
  {
    hide Image, ImageEntries;
    var first, second := Entry("__proto__", List([])), Entry("length", v);
    assert [first, second][1..] == [second] && [second][1..] == [];
    FirstImage([second]);
    NoImages();
    EmptyListImage();
    ListedImage(Map([first, second]));
    assert Taken("__proto__", List([]), ImageEntries([second]).value[0].key);
  }

  lemma {:induction false} EmptyListImage()
    ensures Image(List([]), false) == Ok(List([]))
  {
  }

  lemma {:induction false} OneWritable(e: Entry)
    requires PlainText(e.key) && !IntegerKey(e.key) && Writable(e.value)
    ensures Writable(Map([e])) && !Flat(Map([e]))
  {
    assert WritableEntries([e][1..]);
  }

  lemma {:induction false} OneItemWritable(item: Yaml)
    requires Writable(item)
    ensures Writable(List([item])) && !Flat(List([item]))
  {
    assert WritableItems([item][1..]);
  }

  lemma {:induction false} OneImage(item: Yaml)
    ensures Image(List([item]), false) == var image := Image(item, true); if image.Err? then Err(image.error) else Ok(List([image.value]))
  {
    assert [item][1..] == [];
    assert ImageItems([item][1..]) == Ok([]);
    assert Image(item, true).Ok? ==> [Image(item, true).value] + [] == [Image(item, true).value];
  }

  lemma InheritedIsNoIndex(key: string)
    requires key in INHERITED
    ensures !IntegerKey(key)
  {
    assert !IsDigit(key[0]);
  }
}
