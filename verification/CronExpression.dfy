/** Cron field syntax and meaning (packages/core/src/cron-expression.ts, `parseField` and `parseCronExpression`). */
module CronExpression {
  import opened Wrappers
  import opened JsText

  // ----- one part -----

  /** The captures of the part expression: range start, range end, step. */
  datatype Captures = Captures(start: Option<string>, end: Option<string>, step: Option<string>)

  predicate DigitsIn(o: Option<string>) {
    o.Some? ==> Digits(o.value)
  }

  function Prefixed(mark: char, o: Option<string>): string {
    if o.Some? then [mark] + o.value else ""
  }

  function Head(c: Captures): string {
    if c.start.None? then "*" else c.start.value + Prefixed('-', c.end)
  }

  /** `p` is `*`, `A` or `A-B`, then perhaps `/N`: what `PART_RE` accepts, with its captures. */
  predicate Reads(p: string, c: Captures) {
    && DigitsIn(c.start) && DigitsIn(c.end) && DigitsIn(c.step)
    && (c.start.None? ==> c.end.None?)
    && p == Head(c) + Prefixed('/', c.step)
  }

  /** A mark and the digits after it, if they are there. */
  function Marked(s: string, mark: char): Option<(string, string)> {
    if s == "" || s[0] != mark || LeadingDigits(s[1..]) == 0 then None
    else Some((s[1..][..LeadingDigits(s[1..])], s[1..][LeadingDigits(s[1..])..]))
  }

  /** Match one part. */
  function ReadPart(p: string): Option<Captures> {
    if p != "" && p[0] == '*' then ReadStep(None, None, p[1..])
    else
      var n := LeadingDigits(p);
      if n == 0 then None
      else if n < |p| && p[n] == '-' then
        var end := Marked(p[n..], '-');
        if end.None? then None else ReadStep(Some(p[..n]), Some(end.value.0), end.value.1)
      else ReadStep(Some(p[..n]), None, p[n..])
  }

  function ReadStep(start: Option<string>, end: Option<string>, rest: string): Option<Captures> {
    if rest == "" then Some(Captures(start, end, None))
    else
      var step := Marked(rest, '/');
      if step.Some? && step.value.1 == "" then Some(Captures(start, end, Some(step.value.0))) else None
  }

  lemma MarkedReads(s: string, mark: char)
    requires Marked(s, mark).Some?
    ensures var m := Marked(s, mark).value; Digits(m.0) && s == [mark] + m.0 + m.1
  {
  }

  /** What is matched is as the expression says. */
  lemma ReadPartSound(p: string)
    requires ReadPart(p).Some?
    ensures Reads(p, ReadPart(p).value)
  {
    hide ReadStep, Marked, Reads;
    if p[0] == '*' {
      assert p == "*" + p[1..];
      ReadStepSound(None, None, p[1..], p);
    } else {
      var n := LeadingDigits(p);
      assert p == p[..n] + p[n..];
      if n < |p| && p[n] == '-' {
        MarkedReads(p[n..], '-');
        var end := Marked(p[n..], '-').value;
        assert Head(Captures(Some(p[..n]), Some(end.0), None)) + end.1 == p;
        ReadStepSound(Some(p[..n]), Some(end.0), end.1, p);
      } else {
        assert Head(Captures(Some(p[..n]), None, None)) == p[..n];
        ReadStepSound(Some(p[..n]), None, p[n..], p);
      }
    }
  }

  lemma ReadStepSound(start: Option<string>, end: Option<string>, rest: string, p: string)
    requires DigitsIn(start) && DigitsIn(end) && (start.None? ==> end.None?)
    requires p == Head(Captures(start, end, None)) + rest && ReadStep(start, end, rest).Some?
    ensures Reads(p, ReadStep(start, end, rest).value)
  {
    if rest != "" {
      MarkedReads(rest, '/');
    }
  }

  lemma NumberThen(a: string, rest: string)
    requires Digits(a) && (rest != "" ==> !IsDigit(rest[0]))
    ensures LeadingDigits(a + rest) == |a| && (a + rest)[..|a|] == a && (a + rest)[|a|..] == rest && (a + rest)[0] != '*'
  {
    DigitsLead(a, rest);
  }

  lemma MarkThen(mark: char, a: string, rest: string)
    requires Digits(a) && (rest != "" ==> !IsDigit(rest[0]))
    ensures Marked([mark] + a + rest, mark) == Some((a, rest))
  {
    DigitsLead(a, rest);
    assert ([mark] + a + rest)[1..] == a + rest;
  }

  lemma RangeRead(a: string, b: string, tail: string)
    requires Digits(a) && Digits(b) && (tail != "" ==> tail[0] == '/')
    ensures ReadPart(a + (['-'] + b + tail)) == ReadStep(Some(a), Some(b), tail)
  {
    var rest := ['-'] + b + tail;
    NumberThen(a, rest);
    MarkThen('-', b, tail);
    hide ReadStep, Marked, LeadingDigits;
  }

  lemma ValueRead(a: string, tail: string)
    requires Digits(a) && (tail != "" ==> tail[0] == '/')
    ensures ReadPart(a + tail) == ReadStep(Some(a), None, tail)
  {
    NumberThen(a, tail);
    hide ReadStep, Marked, LeadingDigits;
  }

  /** Whatever has that form is matched, with those captures and no others. */
  lemma ReadPartComplete(p: string, c: Captures)
    requires Reads(p, c)
    ensures ReadPart(p) == Some(c)
  {
    hide ReadStep, ReadPart, LeadingDigits, Marked;
    var tail := Prefixed('/', c.step);
    ReadStepComplete(c.start, c.end, c.step);
    if c.start.None? {
      StarRead(tail);
    } else if c.end.Some? {
      RangeRead(c.start.value, c.end.value, tail);
      assert p == c.start.value + (['-'] + c.end.value + tail);
    } else {
      ValueRead(c.start.value, tail);
      assert p == c.start.value + tail;
    }
  }

  lemma StarRead(tail: string)
    ensures ReadPart("*" + tail) == ReadStep(None, None, tail)
  {
    assert ("*" + tail)[1..] == tail;
    hide ReadStep, LeadingDigits;
  }

  lemma ReadStepComplete(start: Option<string>, end: Option<string>, step: Option<string>)
    requires DigitsIn(step)
    ensures ReadStep(start, end, Prefixed('/', step)) == Some(Captures(start, end, step))
  {
    if step.Some? {
      var rest := Prefixed('/', step);
      assert rest[1..] == step.value + "";
      DigitsLead(step.value, "");
    }
  }

  // ----- what a field means -----

  datatype FieldDef = FieldDef(min: nat, max: nat)

  const MINUTE := FieldDef(0, 59)
  const HOUR := FieldDef(0, 23)
  const DAY_OF_MONTH := FieldDef(1, 31)
  const MONTH := FieldDef(1, 12)
  const DAY_OF_WEEK := FieldDef(0, 7)

  datatype FieldError = EmptyPart | BadPart | BadStep | OutOfRange

  function Start(c: Captures, def: FieldDef): nat
    requires DigitsIn(c.start)
  {
    if c.start.None? then def.min else Number(c.start.value)
  }

  /** A lone `A` ends where it starts, with a step or without. */
  function End(c: Captures, def: FieldDef): nat
    requires DigitsIn(c.start) && DigitsIn(c.end)
  {
    if c.start.None? then def.max else if c.end.Some? then Number(c.end.value) else Number(c.start.value)
  }

  function Step(c: Captures): nat
    requires DigitsIn(c.step)
  {
    if c.step.Some? then Number(c.step.value) else 1
  }

  /** What is wrong with one element of the list, in the order it is checked. */
  function Problem(part: string, def: FieldDef): Option<FieldError> {
    var p := Trim(part);
    if p == "" then Some(EmptyPart)
    else if ReadPart(p).None? then Some(BadPart)
    else
      var c := ReadPart(p).value;
      ReadPartSound(p);
      if Step(c) < 1 then Some(BadStep)
      else if !(def.min <= Start(c, def) <= def.max && def.min <= End(c, def) <= def.max) then Some(OutOfRange)
      else None
  }

  /** The i-th value of a wrap-around range: start to max, then on from min. */
  function Rotated(def: FieldDef, start: int, i: int): int {
    if start + i <= def.max then start + i else def.min + (start + i - def.max - 1)
  }

  function RotationLength(def: FieldDef, start: int, end: int): int {
    (def.max - start + 1) + (end - def.min + 1)
  }

  predicate OnStep(start: int, step: int, v: int)
    requires step >= 1
  {
    (v - start) % step == 0
  }

  /** Every `step`-th value from `start` to `end`, counted along the rotation when the range wraps. */
  ghost predicate Denotes(def: FieldDef, start: int, end: int, step: int, v: int)
    requires step >= 1
  {
    if start <= end then start <= v <= end && OnStep(start, step, v)
    else exists i | 0 <= i < RotationLength(def, start, end) :: OnStep(0, step, i) && v == Rotated(def, start, i)
  }

  ghost predicate PartDenotes(part: string, def: FieldDef, v: int) {
    Problem(part, def).None? &&
      var c := ReadPart(Trim(part)).value;
      ReadPartSound(Trim(part));
      Denotes(def, Start(c, def), End(c, def), Step(c), v)
  }

  /**
   What an element denotes, by its numbers: `*` every value, `A` itself alone, `A-B` the
   values between, or from `A` up and then on from the least to `B`; with `/N` each `N`-th
   of them counted from the first, and a lone `A` still alone.
   */
  predicate Spells(c: Captures, def: FieldDef, v: int)
    requires DigitsIn(c.start) && DigitsIn(c.end) && DigitsIn(c.step)
  {
    var n := if c.step.Some? then Number(c.step.value) else 1;
    n >= 1 &&
    if c.start.None? then def.min <= v <= def.max && (v - def.min) % n == 0
    else
      var a := Number(c.start.value);
      def.min <= a <= def.max &&
      if c.end.None? then v == a
      else
        var b := Number(c.end.value);
        def.min <= b <= def.max &&
        if a <= b then a <= v <= b && (v - a) % n == 0
        else
          || (a <= v <= def.max && (v - a) % n == 0)
          || (def.min <= v <= b && (v - def.min + (def.max + 1 - a)) % n == 0)
  }

  /** An element denotes what its text spells. */
  lemma ElementMeans(part: string, c: Captures, def: FieldDef, v: int)
    requires Reads(Trim(part), c) && def.min <= def.max
    ensures PartDenotes(part, def, v) <==> Spells(c, def, v)
  {
    ReadPartComplete(Trim(part), c);
    NotBlank(Trim(part), c);
    SpellsIs(c, def, v);
    hide ReadPart, Trim, Start, End, Step, Denotes, Spells;
  }

  lemma SpellsIs(c: Captures, def: FieldDef, v: int)
    requires DigitsIn(c.start) && DigitsIn(c.end) && DigitsIn(c.step) && (c.start.None? ==> c.end.None?) && def.min <= def.max
    ensures Spells(c, def, v) <==>
      && Step(c) >= 1 && def.min <= Start(c, def) <= def.max && def.min <= End(c, def) <= def.max
      && Denotes(def, Start(c, def), End(c, def), Step(c), v)
  {
    hide Number, Digits;
    var start, end, step := Start(c, def), End(c, def), Step(c);
    if step >= 1 && def.min <= end < start <= def.max {
      Around(def, start, end, step, v);
    } else if step >= 1 && start == end == v {
      assert OnStep(start, step, v);
    }
    hide Rotated, RotationLength;
  }

  lemma NotBlank(p: string, c: Captures)
    requires Reads(p, c)
    ensures p != ""
  {
  }

  lemma Around(def: FieldDef, start: int, end: int, step: int, v: int)
    requires step >= 1 && def.min <= end < start <= def.max
    ensures Denotes(def, start, end, step, v) <==>
      || (start <= v <= def.max && (v - start) % step == 0)
      || (def.min <= v <= end && (v - def.min + (def.max + 1 - start)) % step == 0)
  {
    var i := if v >= start then v - start else v - def.min + (def.max + 1 - start);
    if start <= v <= def.max || def.min <= v <= end {
      assert 0 <= i < RotationLength(def, start, end) && v == Rotated(def, start, i);
      assert OnStep(0, step, i) <==> i % step == 0;
    }
    if Denotes(def, start, end, step, v) {
      var k :| 0 <= k < RotationLength(def, start, end) && OnStep(0, step, k) && v == Rotated(def, start, k);
      assert k == i;
    }
  }

  /** Day-of-week 7 is Sunday. */
  function Fold(def: FieldDef, v: int): int {
    if def.max == 7 && v == 7 then 0 else v
  }

  /** Some element of the list denotes a value that folds to `w`. */
  ghost predicate FieldDenotes(parts: seq<string>, def: FieldDef, w: int) {
    exists i, v | 0 <= i < |parts| :: PartDenotes(parts[i], def, v) && Fold(def, v) == w
  }

  /** In the weekday field `7` is `0`. */
  lemma SevenIsSunday(part: string, w: int)
    requires Trim(part) == "7"
    ensures FieldDenotes([part], DAY_OF_WEEK, w) <==> w == 0
  {
    var c := Captures(Some("7"), None, None);
    assert Reads("7", c) && Spells(c, DAY_OF_WEEK, 7);
    forall v ensures PartDenotes(part, DAY_OF_WEEK, v) <==> v == 7 {
      ElementMeans(part, c, DAY_OF_WEEK, v);
    }
    hide PartDenotes;
    var parts := [part];
    assert w == 0 ==> PartDenotes(parts[0], DAY_OF_WEEK, 7) && Fold(DAY_OF_WEEK, 7) == w;
  }

  predicate Ascending(s: seq<int>) {
    forall i, j :: 0 <= i < j < |s| ==> s[i] < s[j]
  }

  // ----- parsing a field -----

  lemma StepBetween(start: int, v: int, w: int, step: int)
    requires step >= 1 && OnStep(start, step, v) && v < w < v + step
    ensures !OnStep(start, step, w)
  {
    var q := (v - start) / step;
    assert w - start == q * step + (w - v);
    RemainderIs(q, step, w - v);
  }

  lemma RemainderIs(q: int, step: int, r: int)
    requires 0 <= r < step
    ensures (q * step + r) % step == r
  {
    var x := q * step + r;
    var d := x / step;
    assert x == d * step + x % step;
    if d > q {
      MulOver(d - q, step);
    } else if d < q {
      MulOver(q - d, step);
    }
  }

  lemma MulOver(k: int, step: int)
    requires k >= 1 && step >= 1
    ensures k * step >= step
  {
  }

  lemma NextOnStep(start: int, v: int, step: int)
    requires step >= 1 && OnStep(start, step, v)
    ensures OnStep(start, step, v + step)
    ensures forall w :: v < w < v + step ==> !OnStep(start, step, w)
  {
    var q := (v - start) / step;
    assert v + step - start == (q + 1) * step + 0;
    RemainderIs(q + 1, step, 0);
    forall w | v < w < v + step ensures !OnStep(start, step, w) {
      StepBetween(start, v, w, step);
    }
  }

  /** `start`, `start + step`, ... up to `end`. */
  method CountUp(start: int, end: int, step: int) returns (values: seq<int>)
    requires step >= 1
    ensures forall w :: w in values <==> start <= w <= end && OnStep(start, step, w)
    ensures start <= end ==> start in values
  {
    assert OnStep(start, step, start);
    hide OnStep;
    values := [];
    var v := start;
    while v <= end
      invariant v >= start && OnStep(start, step, v)
      invariant forall w :: w in values <==> start <= w <= end && w < v && OnStep(start, step, w)
    {
      NextOnStep(start, v, step);
      values := values + [v];
      v := v + step;
    }
  }

  /** The rotation start..max, min..end, then every `step`-th of it. */
  method CountAround(def: FieldDef, start: int, end: int, step: int) returns (values: seq<int>)
    requires step >= 1 && def.min <= end < start <= def.max
    ensures forall w :: w in values <==> Denotes(def, start, end, step, w)
    ensures start in values
  {
    var rotation: seq<int> := [];
    var v := start;
    while v <= def.max
      invariant start <= v <= def.max + 1 && |rotation| == v - start
      invariant forall i :: 0 <= i < |rotation| ==> rotation[i] == Rotated(def, start, i)
    {
      rotation := rotation + [v];
      v := v + 1;
    }
    v := def.min;
    while v <= end
      invariant def.min <= v <= end + 1 && |rotation| == (def.max - start + 1) + (v - def.min)
      invariant forall i :: 0 <= i < |rotation| ==> rotation[i] == Rotated(def, start, i)
    {
      rotation := rotation + [v];
      v := v + 1;
    }
    values := [];
    var i := 0;
    assert OnStep(0, step, 0);
    hide OnStep;
    while i < |rotation|
      invariant 0 <= i && OnStep(0, step, i)
      invariant forall w :: w in values <==> exists j | 0 <= j < |rotation| && j < i :: OnStep(0, step, j) && w == Rotated(def, start, j)
      invariant i > 0 ==> start in values
    {
      NextOnStep(0, i, step);
      values := values + [rotation[i]];
      i := i + step;
    }
  }

  /** The distinct members in ascending order. */
  method SortDistinct(values: seq<int>) returns (sorted: seq<int>)
    ensures Ascending(sorted) && forall w :: w in sorted <==> w in values
  {
    sorted := [];
    for i := 0 to |values|
      invariant Ascending(sorted) && forall w :: w in sorted <==> w in values[..i]
    {
      sorted := Insert(sorted, values[i]);
      assert values[..i + 1] == values[..i] + [values[i]];
    }
    assert values[..|values|] == values;
  }

  method Insert(sorted: seq<int>, v: int) returns (r: seq<int>)
    requires Ascending(sorted)
    ensures Ascending(r) && forall w :: w in r <==> w in sorted || w == v
  {
    var i := 0;
    while i < |sorted| && sorted[i] < v
      invariant i <= |sorted| && forall j :: 0 <= j < i ==> sorted[j] < v
    {
      i := i + 1;
    }
    if i < |sorted| && sorted[i] == v {
      return sorted;
    }
    r := sorted[..i] + [v] + sorted[i..];
    forall w ensures w in r <==> w in sorted || w == v {
      assert sorted == sorted[..i] + sorted[i..];
    }
  }

  predicate SoundDef(def: FieldDef) {
    def.min <= def.max && (def.max == 7 ==> def.min == 0)
  }

  /** The values one element stands for, its start among them. */
  method ParsePart(part: string, def: FieldDef) returns (r: Result<seq<int>, FieldError>)
    requires SoundDef(def)
    ensures r.Err? <==> Problem(part, def).Some?
    ensures r.Err? ==> Some(r.error) == Problem(part, def)
    ensures r.Ok? ==> |r.value| > 0 && forall v :: v in r.value <==> PartDenotes(part, def, v)
  {
    var p := Trim(part);
    if p == "" {
      return Err(EmptyPart);
    }
    var m := ReadPart(p);
    if m.None? {
      return Err(BadPart);
    }
    ReadPartSound(p);
    var start, end, step := Start(m.value, def), End(m.value, def), Step(m.value);
    if step < 1 {
      return Err(BadStep);
    }
    if start < def.min || end < def.min || start > def.max || end > def.max {
      return Err(OutOfRange);
    }
    hide ReadPart, Trim, Number;
    var values;
    if start <= end {
      values := CountUp(start, end, step);
    } else {
      values := CountAround(def, start, end, step);
    }
    assert start in values;
    return Ok(values);
  }

  /** The first problem among the elements of a list. */
  function FirstProblem(parts: seq<string>, def: FieldDef): Option<FieldError> {
    if parts == [] then None
    else if Problem(parts[0], def).Some? then Problem(parts[0], def)
    else FirstProblem(parts[1..], def)
  }

  lemma {:induction false} ProblemAt(parts: seq<string>, def: FieldDef, i: nat)
    requires i < |parts| && Problem(parts[i], def).Some? && forall j :: 0 <= j < i ==> Problem(parts[j], def).None?
    ensures FirstProblem(parts, def) == Problem(parts[i], def)
  {
    hide Problem;
    if i > 0 {
      assert forall j :: 0 <= j < i - 1 ==> parts[1..][j] == parts[j + 1];
      ProblemAt(parts[1..], def, i - 1);
    }
  }

  lemma {:induction false} NoProblem(parts: seq<string>, def: FieldDef)
    requires forall j :: 0 <= j < |parts| ==> Problem(parts[j], def).None?
    ensures FirstProblem(parts, def).None?
  {
    hide Problem;
    if parts != [] {
      assert forall j :: 0 <= j < |parts[1..]| ==> parts[1..][j] == parts[j + 1];
      NoProblem(parts[1..], def);
    }
  }

  /** What some element among the first `n` denotes, before folding. */
  ghost predicate Listed(parts: seq<string>, n: nat, def: FieldDef, v: int)
    requires n <= |parts|
  {
    exists i | 0 <= i < n :: PartDenotes(parts[i], def, v)
  }

  /**
   Parse one field: a strictly ascending, non-empty list of exactly the values its
   elements denote, or the first element's problem.
   */
  method ParseField(raw: string, def: FieldDef) returns (r: Result<seq<int>, FieldError>)
    requires SoundDef(def)
    ensures r.Err? ==> FirstProblem(Split(raw, ','), def) == Some(r.error)
    ensures r.Ok? ==> FirstProblem(Split(raw, ','), def).None?
    ensures r.Ok? ==> Ascending(r.value) && |r.value| > 0
    ensures r.Ok? ==> forall w :: w in r.value <==> FieldDenotes(Split(raw, ','), def, w)
  {
    var parts := Split(raw, ',');
    var values: seq<int> := [];
    hide PartDenotes, Split;
    for i := 0 to |parts|
      invariant forall j :: 0 <= j < i ==> Problem(parts[j], def).None?
      invariant forall v :: v in values <==> Listed(parts, i, def, v)
      invariant i > 0 ==> |values| > 0
    {
      var part := ParsePart(parts[i], def);
      if part.Err? {
        ProblemAt(parts, def, i);
        return Err(part.error);
      }
      forall v ensures v in values + part.value <==> Listed(parts, i + 1, def, v) {
      }
      values := values + part.value;
    }
    NoProblem(parts, def);
    var folded := seq(|values|, i requires 0 <= i < |values| => Fold(def, values[i]));
    var sorted := SortDistinct(folded);
    assert folded[0] in folded;
    forall w ensures w in folded <==> FieldDenotes(parts, def, w) {
      FoldedAre(parts, def, values, folded, w);
    }
    return Ok(sorted);
  }

  lemma FoldedAre(parts: seq<string>, def: FieldDef, values: seq<int>, folded: seq<int>, w: int)
    requires |folded| == |values| && forall i :: 0 <= i < |values| ==> folded[i] == Fold(def, values[i])
    requires forall v :: v in values <==> Listed(parts, |parts|, def, v)
    ensures w in folded <==> FieldDenotes(parts, def, w)
  {
    hide PartDenotes;
    if w in folded {
      var i :| 0 <= i < |folded| && folded[i] == w;
      assert values[i] in values;
      var k :| 0 <= k < |parts| && PartDenotes(parts[k], def, values[i]);
    }
    if FieldDenotes(parts, def, w) {
      var k, v :| 0 <= k < |parts| && PartDenotes(parts[k], def, v) && Fold(def, v) == w;
      assert v in values;
      var i :| 0 <= i < |values| && values[i] == v;
      assert folded[i] == w;
    }
  }

  // ----- the whole expression -----

  datatype Schedule = Schedule(
    minute: seq<int>, hour: seq<int>, dayOfMonth: seq<int>, month: seq<int>, dayOfWeek: seq<int>)

  datatype ParseError = NamedMacro | FieldCount(count: nat) | BadField(index: nat, error: FieldError)

  predicate FieldWithin(values: seq<int>, min: int, max: int) {
    |values| > 0 && Ascending(values) && forall v :: v in values ==> min <= v <= max
  }

  /** Every field a non-empty ascending list in range, day-of-week with Sunday as 0. */
  predicate WellFormed(s: Schedule) {
    && FieldWithin(s.minute, 0, 59) && FieldWithin(s.hour, 0, 23) && FieldWithin(s.dayOfMonth, 1, 31)
    && FieldWithin(s.month, 1, 12) && FieldWithin(s.dayOfWeek, 0, 6)
  }

  /** Cut at every run of white space. */
  function Words(s: string): (words: seq<string>)
    ensures |words| > 0
  {
    if s == "" then [""]
    else
      var rest := Words(s[1..]);
      if !IsSpace(s[0]) then [[s[0]] + rest[0]] + rest[1..]
      else if |s| > 1 && IsSpace(s[1]) then rest
      else [""] + rest
  }

  /** Words hold no white space. */
  lemma {:induction false} WordsAreSolid(s: string)
    ensures forall w, i :: w in Words(s) && 0 <= i < |w| ==> !IsSpace(w[i])
  {
    if s != "" {
      WordsAreSolid(s[1..]);
      var rest := Words(s[1..]);
      assert rest[0] in rest;
      forall w, i | w in Words(s) && 0 <= i < |w| ensures !IsSpace(w[i]) {
        if !(w in rest) && w != "" {
          assert w == [s[0]] + rest[0];
        }
      }
    }
  }

  function FieldDefs(): seq<FieldDef> {
    [MINUTE, HOUR, DAY_OF_MONTH, MONTH, DAY_OF_WEEK]
  }

  function FieldOf(s: Schedule, i: nat): seq<int>
    requires i < 5
  {
    if i == 0 then s.minute else if i == 1 then s.hour else if i == 2 then s.dayOfMonth else if i == 3 then s.month else s.dayOfWeek
  }

  lemma DenotedInRange(parts: seq<string>, def: FieldDef, w: int)
    requires SoundDef(def) && FieldDenotes(parts, def, w)
    ensures def.min <= w <= (if def.max == 7 then 6 else def.max)
  {
    var k, v :| 0 <= k < |parts| && PartDenotes(parts[k], def, v) && Fold(def, v) == w;
    hide OnStep, ReadPart, Trim, Number;
    assert def.min <= v <= def.max;
  }

  /** What a parsed field list promises. */
  ghost predicate Parsed(raw: string, def: FieldDef, list: seq<int>) {
    && FirstProblem(Split(raw, ','), def).None?
    && FieldWithin(list, def.min, if def.max == 7 then 6 else def.max)
    && forall w :: w in list <==> FieldDenotes(Split(raw, ','), def, w)
  }

  method ParseSound(raw: string, def: FieldDef) returns (r: Result<seq<int>, FieldError>)
    requires SoundDef(def)
    ensures r.Err? ==> FirstProblem(Split(raw, ','), def) == Some(r.error)
    ensures r.Ok? ==> Parsed(raw, def, r.value)
  {
    r := ParseField(raw, def);
    hide FieldDenotes, FirstProblem, Split;
    if r.Ok? {
      forall w | w in r.value ensures def.min <= w <= (if def.max == 7 then 6 else def.max) {
        DenotedInRange(Split(raw, ','), def, w);
      }
    }
  }

  /** Field `index` has this problem and the fields before it have none. */
  predicate FirstBadField(fields: seq<string>, index: nat, error: FieldError)
    requires |fields| == 5
  {
    && index < 5 && FirstProblem(Split(fields[index], ','), FieldDefs()[index]) == Some(error)
    && forall i :: 0 <= i < index ==> FirstProblem(Split(fields[i], ','), FieldDefs()[i]).None?
  }

  lemma ParsedHasNoProblem(fields: seq<string>, lists: seq<seq<int>>)
    requires |fields| == 5 && |lists| <= 5 && forall j :: 0 <= j < |lists| ==> Parsed(fields[j], FieldDefs()[j], lists[j])
    ensures forall j :: 0 <= j < |lists| ==> FirstProblem(Split(fields[j], ','), FieldDefs()[j]).None?
  {
    hide FirstProblem, Split, FieldDenotes, FieldWithin;
  }

  lemma AllParsed(fields: seq<string>, lists: seq<seq<int>>)
    requires |fields| == |lists| == 5 && forall j :: 0 <= j < 5 ==> Parsed(fields[j], FieldDefs()[j], lists[j])
    ensures var s := Schedule(lists[0], lists[1], lists[2], lists[3], lists[4]);
      && WellFormed(s)
      && forall i, w | 0 <= i < 5 :: w in FieldOf(s, i) <==> FieldDenotes(Split(fields[i], ','), FieldDefs()[i], w)
  {
    hide FirstProblem, Split, FieldDenotes, FieldWithin;
    var s := Schedule(lists[0], lists[1], lists[2], lists[3], lists[4]);
    forall i | 0 <= i < 5 ensures forall w :: w in FieldOf(s, i) <==> FieldDenotes(Split(fields[i], ','), FieldDefs()[i], w) {
      assert Parsed(fields[i], FieldDefs()[i], lists[i]);
    }
  }

  /** Parse five fields; a macro, another field count, or a field's problem is an error. */
  method ParseCronExpression(expr: string) returns (r: Result<Schedule, ParseError>)
    ensures var trimmed := Trim(expr);
      if trimmed != "" && trimmed[0] == '@' then r == Err(NamedMacro)
      else if |Words(trimmed)| != 5 then r == Err(FieldCount(|Words(trimmed)|))
      else
        && (r.Ok? <==> forall i :: 0 <= i < 5 ==> FirstProblem(Split(Words(trimmed)[i], ','), FieldDefs()[i]).None?)
        && (r.Err? ==> r.error.BadField? && FirstBadField(Words(trimmed), r.error.index, r.error.error))
    ensures r.Ok? ==> WellFormed(r.value)
    ensures r.Ok? ==> forall i, w | 0 <= i < 5 ::
      w in FieldOf(r.value, i) <==> FieldDenotes(Split(Words(Trim(expr))[i], ','), FieldDefs()[i], w)
  {
    hide FieldDenotes, FirstProblem, Split, Words, Trim, Parsed, WellFormed;
    var trimmed := Trim(expr);
    if trimmed != "" && trimmed[0] == '@' {
      return Err(NamedMacro);
    }
    var fields := Words(trimmed);
    if |fields| != 5 {
      return Err(FieldCount(|fields|));
    }
    var defs := FieldDefs();
    var lists: seq<seq<int>> := [];
    for i := 0 to 5
      invariant |lists| == i && forall j :: 0 <= j < i ==> Parsed(fields[j], defs[j], lists[j])
    {
      var list := ParseSound(fields[i], defs[i]);
      ParsedHasNoProblem(fields, lists);
      if list.Err? {
        return Err(BadField(i, list.error));
      }
      lists := lists + [list.value];
    }
    ParsedHasNoProblem(fields, lists);
    AllParsed(fields, lists);
    return Ok(Schedule(lists[0], lists[1], lists[2], lists[3], lists[4]));
  }
}
