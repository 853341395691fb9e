/**
 Scalars and quoting of the block YAML printer and parser
 (packages/cli/src/config.ts: `formatScalar`, `parseScalar`, `unquote`,
 `splitPair`, `stripComment`). Strings are sequences of Unicode scalar values.
 */
module YamlScalars {
  import opened Wrappers
  import opened JsText
  import opened JsNumber

  datatype Entry = Entry(key: string, value: Yaml)

  /** A number is a whole number the runtime can hold; a decimal fraction is kept as its literal. */
  datatype Yaml =
    | Null
    | Bool(flag: bool)
    | Num(number: int)
    | Decimal(literal: string)
    | Str(text: string)
    | List(items: seq<Yaml>)
    | Map(entries: seq<Entry>)

  datatype YamlError =
    | Tab | RootIndent | Indentation | ExpectedPair | ExpectedItem | DuplicateKey | BadContinuation | BadQuoted
    | InlineFlow

  // ----- JSON strings -----

  function HexDigit(n: nat): char
    requires n < 16
  {
    if n < 10 then '0' + n as char else 'a' + (n - 10) as char
  }

  function HexValue(c: char): Option<nat> {
    if '0' <= c <= '9' then Some(c as nat - '0' as nat)
    else if 'a' <= c <= 'f' then Some(c as nat - 'a' as nat + 10)
    else if 'A' <= c <= 'F' then Some(c as nat - 'A' as nat + 10)
    else None
  }

  function Escape(c: char): string {
    if c == '"' then "\\\""
    else if c == '\\' then "\\\\"
    else if c == '\U{0008}' then "\\b"
    else if c == '\U{000C}' then "\\f"
    else if c == '\n' then "\\n"
    else if c == '\r' then "\\r"
    else if c == '\t' then "\\t"
    else if c < ' ' then "\\u00" + [HexDigit(c as nat / 16), HexDigit(c as nat % 16)]
    else [c]
  }

  function EscapeAll(s: string): string {
    if s == "" then "" else Escape(s[0]) + EscapeAll(s[1..])
  }

  /** `JSON.stringify` of a string. */
  function Quote(s: string): string {
    "\"" + EscapeAll(s) + "\""
  }

  /** Four hexadecimal digits as a character; surrogates are not characters here. */
  function HexChar(a: char, b: char, c: char, d: char): Option<char> {
    if HexValue(a).Some? && HexValue(b).Some? && HexValue(c).Some? && HexValue(d).Some? then
      var n := ((HexValue(a).value * 16 + HexValue(b).value) * 16 + HexValue(c).value) * 16 + HexValue(d).value;
      if n < 0xD800 || 0xE000 <= n < 0x10000 then Some(n as char) else None
    else None
  }

  function Cons(c: char, rest: Option<string>): Option<string> {
    if rest.Some? then Some([c] + rest.value) else None
  }

  /** The inside of a JSON string, or `None` where `JSON.parse` throws. */
  function Unescape(s: string): Option<string> {
    if s == "" then Some("")
    else if s[0] == '\\' then
      if |s| < 2 then None
      else if s[1] in {'"', '\\', '/'} then Cons(s[1], Unescape(s[2..]))
      else if s[1] == 'b' then Cons('\U{0008}', Unescape(s[2..]))
      else if s[1] == 'f' then Cons('\U{000C}', Unescape(s[2..]))
      else if s[1] == 'n' then Cons('\n', Unescape(s[2..]))
      else if s[1] == 'r' then Cons('\r', Unescape(s[2..]))
      else if s[1] == 't' then Cons('\t', Unescape(s[2..]))
      else if s[1] == 'u' && |s| >= 6 && HexChar(s[2], s[3], s[4], s[5]).Some? then
        Cons(HexChar(s[2], s[3], s[4], s[5]).value, Unescape(s[6..]))
      else None
    else if s[0] == '"' || s[0] < ' ' then None
    else Cons(s[0], Unescape(s[1..]))
  }

  lemma UnescapeOne(c: char, rest: string)
    ensures Unescape(Escape(c) + rest) == Cons(c, Unescape(rest))
  {
    var e := Escape(c) + rest;
    if |Escape(c)| == 1 {
      assert e[1..] == rest;
    } else if |Escape(c)| == 2 {
      assert e[2..] == rest;
    } else {
      assert e[6..] == rest;
    }
  }

  lemma {:induction false} UnescapeAll(s: string)
    ensures Unescape(EscapeAll(s)) == Some(s)
  {
    hide Unescape, Escape;
    if s == "" {
      UnescapeNothing();
    } else {
      UnescapeAll(s[1..]);
      UnescapeOne(s[0], EscapeAll(s[1..]));
      assert s == [s[0]] + s[1..];
    }
  }

  lemma UnescapeNothing()
    ensures Unescape("") == Some("")
  {
  }

  function Undouble(s: string): string {
    if s == "" then "" else if |s| >= 2 && s[0] == '\'' && s[1] == '\'' then "'" + Undouble(s[2..])
    else [s[0]] + Undouble(s[1..])
  }

  predicate Enclosed(s: string, open: char, close: char) {
    s != "" && s[0] == open && s[|s| - 1] == close
  }

  function Inside(s: string): string {
    if |s| < 2 then "" else s[1..|s| - 1]
  }

  function Unquote(s: string): Result<string, YamlError> {
    if Enclosed(s, '\'', '\'') then Ok(Undouble(Inside(s)))
    else if Enclosed(s, '"', '"') then
      if |s| < 2 || Unescape(Inside(s)).None? then Err(BadQuoted) else Ok(Unescape(Inside(s)).value)
    else Ok(s)
  }

  /** Quoting loses nothing. */
  lemma UnquoteQuote(s: string)
    ensures Unquote(Quote(s)) == Ok(s)
  {
    UnescapeAll(s);
    assert Inside(Quote(s)) == EscapeAll(s);
  }

  /** A string as single quotes hold it: a quote inside is written twice. */
  function Doubled(s: string): string {
    if s == "" then "" else (if s[0] == '\'' then "''" else [s[0]]) + Doubled(s[1..])
  }

  lemma {:induction false} UndoubleAll(s: string)
    ensures Undouble(Doubled(s)) == s
    decreases |s|
  {
    if s != "" {
      UndoubleAll(s[1..]);
      var t := Doubled(s);
      if s[0] == '\'' {
        assert t[2..] == Doubled(s[1..]);
      } else {
        assert t[1..] == Doubled(s[1..]);
      }
    }
  }

  /** Nor does quoting by hand with single quotes. */
  lemma UnquoteSingle(s: string)
    ensures Unquote("'" + Doubled(s) + "'") == Ok(s)
  {
    UndoubleAll(s);
    assert Inside("'" + Doubled(s) + "'") == Doubled(s);
  }

  // ----- scanning outside quotes -----

  datatype Mode = Bare | Single | Double

  datatype Target = Colon | Hash

  /** A separator colon, or the start of a comment. */
  predicate Hit(text: string, i: nat, target: Target)
    requires i < |text|
  {
    match target
    case Colon => text[i] == ':' && (i + 1 == |text| || IsSpace(text[i + 1]))
    case Hash => text[i] == '#' && (i == 0 || IsSpace(text[i - 1]))
  }

  /** The first hit from `i` on that no quotes enclose. */
  function Find(text: string, i: nat, mode: Mode, escaped: bool, target: Target): (at: Option<nat>)
    requires i <= |text|
    ensures at.Some? ==> i <= at.value < |text|
    decreases |text| - i
  {
    if i == |text| then None
    else
      var c := text[i];
      if mode == Double && escaped then Find(text, i + 1, mode, false, target)
      else if mode == Double && c == '\\' then Find(text, i + 1, mode, true, target)
      else if c == '\'' || c == '"' then
        var here := if c == '"' then Double else Single;
        var next := if mode == here then Bare else if mode == Bare then here else mode;
        Find(text, i + 1, next, false, target)
      else if mode == Bare && Hit(text, i, target) then Some(i)
      else Find(text, i + 1, mode, false, target)
  }

  /** Characters a scan passes over outside quotes. */
  predicate Neutral(text: string, i: nat, target: Target)
    requires i < |text|
  {
    text[i] !in {'\'', '"'} && !Hit(text, i, target)
  }

  lemma {:induction false} SkipNeutral(text: string, i: nat, j: nat, target: Target)
    requires i <= j <= |text| && forall k :: i <= k < j ==> Neutral(text, k, target)
    ensures Find(text, i, Bare, false, target) == Find(text, j, Bare, false, target)
    decreases j - i
  {
    if i < j {
      assert Neutral(text, i, target);
      SkipNeutral(text, i + 1, j, target);
    }
  }

  /** `part` stands in `text` at `i`. */
  predicate Stands(text: string, i: nat, part: string) {
    i + |part| <= |text| && text[i..i + |part|] == part
  }

  lemma StandsAt(text: string, i: nat, part: string)
    requires Stands(text, i, part)
    ensures forall k :: 0 <= k < |part| ==> text[i + k] == part[k]
  {
    forall k | 0 <= k < |part| ensures text[i + k] == part[k] {
      assert text[i..i + |part|][k] == part[k];
    }
  }

  lemma StandsSplit(text: string, i: nat, a: string, b: string)
    requires Stands(text, i, a + b)
    ensures Stands(text, i, a) && Stands(text, i + |a|, b)
  {
    var part := text[i..i + |a + b|];
    assert text[i..i + |a|] == part[..|a|];
    assert text[i + |a|..i + |a| + |b|] == part[|a|..];
  }

  lemma HexIsQuiet(n: nat)
    requires n < 16
    ensures HexDigit(n) !in {'\'', '"', '\\'}
  {
  }

  lemma SkipEscape(text: string, i: nat, c: char, target: Target)
    requires Stands(text, i, Escape(c))
    ensures Find(text, i, Double, false, target) == Find(text, i + |Escape(c)|, Double, false, target)
  {
    var e := Escape(c);
    StandsAt(text, i, e);
    if |e| == 6 {
      assert text[i + 0] == e[0] && text[i + 2] == e[2] && text[i + 3] == e[3] && text[i + 4] == e[4] && text[i + 5] == e[5];
      HexIsQuiet(c as nat / 16);
      HexIsQuiet(c as nat % 16);
      SkipPair(text, i, target);
      SkipPlain(text, i + 2, target);
      SkipPlain(text, i + 3, target);
      SkipPlain(text, i + 4, target);
      SkipPlain(text, i + 5, target);
    } else if |e| == 2 {
      assert text[i + 0] == e[0];
      SkipPair(text, i, target);
    } else {
      assert text[i + 0] == e[0];
      SkipPlain(text, i, target);
    }
  }

  lemma SkipPair(text: string, i: nat, target: Target)
    requires i + 2 <= |text| && text[i] == '\\'
    ensures Find(text, i, Double, false, target) == Find(text, i + 2, Double, false, target)
  {
  }

  lemma SkipPlain(text: string, i: nat, target: Target)
    requires i < |text| && text[i] !in {'"', '\\'}
    ensures Find(text, i, Double, false, target) == Find(text, i + 1, Double, false, target)
  {
  }

  lemma {:induction false} SkipEscaped(text: string, i: nat, s: string, target: Target)
    requires Stands(text, i, EscapeAll(s))
    ensures Find(text, i, Double, false, target) == Find(text, i + |EscapeAll(s)|, Double, false, target)
    decreases |s|
  {
    hide Find, Escape, Stands;
    if s != "" {
      StandsSplit(text, i, Escape(s[0]), EscapeAll(s[1..]));
      StandsWithin(text, i, Escape(s[0]));
      SkipEscape(text, i, s[0], target);
      SkipEscaped(text, i + |Escape(s[0])|, s[1..], target);
    }
  }

  lemma StandsWithin(text: string, i: nat, part: string)
    requires Stands(text, i, part)
    ensures i + |part| <= |text|
  {
  }

  lemma OpenQuote(text: string, i: nat, target: Target)
    requires i < |text| && text[i] == '"'
    ensures Find(text, i, Bare, false, target) == Find(text, i + 1, Double, false, target)
    ensures Find(text, i, Double, false, target) == Find(text, i + 1, Bare, false, target)
  {
  }

  /** A scan passes over a quoted string whole. */
  lemma SkipQuoted(text: string, i: nat, s: string, target: Target)
    requires Stands(text, i, Quote(s))
    ensures Find(text, i, Bare, false, target) == Find(text, i + |Quote(s)|, Bare, false, target)
  {
    hide Find, EscapeAll;
    assert Quote(s) == "\"" + (EscapeAll(s) + "\"");
    StandsSplit(text, i, "\"", EscapeAll(s) + "\"");
    StandsSplit(text, i + 1, EscapeAll(s), "\"");
    StandsAt(text, i, "\"");
    StandsAt(text, i + 1 + |EscapeAll(s)|, "\"");
    assert text[i + 0] == '"' && text[i + 1 + |EscapeAll(s)| + 0] == '"';
    OpenQuote(text, i, target);
    OpenQuote(text, i + 1 + |EscapeAll(s)|, target);
    SkipEscaped(text, i + 1, s, target);
  }

  // ----- pairs and comments -----

  /** `key: value`, or nothing when no separator colon stands outside quotes or the key is empty. */
  function SplitPair(text: string): Result<Option<(string, string)>, YamlError> {
    var at := Find(text, 0, Bare, false, Colon);
    if at.None? || Trim(text[..at.value]) == "" then Ok(None)
    else
      var key := Unquote(Trim(text[..at.value]));
      if key.Err? then Err(key.error) else Ok(Some((key.value, Trim(text[at.value + 1..]))))
  }

  function StripComment(text: string): string {
    var at := Find(text, 0, Bare, false, Hash);
    if at.Some? then text[..at.value] else text
  }

  // ----- scalars -----

  function LowerChar(c: char): char {
    if 'A' <= c <= 'Z' then 'a' + (c - 'A') else c
  }

  function Lower(s: string): string {
    seq(|s|, i requires 0 <= i < |s| => LowerChar(s[i]))
  }

  function Signed(negative: bool, text: string): string {
    (if negative then "-" else "") + text
  }

  function Whole(negative: bool, digits: string): Option<Yaml>
    requires Digits(digits)
  {
    var n: int := Rounded(Number(digits));
    if Finite(Number(digits)) then Some(Num(if negative then -n else n)) else None
  }

  /**
   The number a text of number form, `-?(0|[1-9][0-9]*)(.[0-9]+)?`, denotes: the nearest
   double, or none when that is infinite. A fraction does not change which side of the
   limit a number is on, the limit being whole.
   */
  function NumberOf(s: string): Option<Yaml> {
    var negative := s != "" && s[0] == '-';
    Magnitude(negative, if negative then s[1..] else s)
  }

  function Magnitude(negative: bool, t: string): Option<Yaml> {
    var n := LeadingDigits(t);
    if n == 0 || (n > 1 && t[0] == '0') then None
    else if n == |t| then Whole(negative, t[..n])
    else if t[n] == '.' && Digits(t[n + 1..]) && Finite(Number(t[..n])) then Some(Decimal(Signed(negative, t)))
    else None
  }

  function ParseScalar(text: string): Result<Yaml, YamlError> {
    if text == "" then Ok(Null)
    else if Enclosed(text, '[', ']') then (if text == "[]" then Ok(List([])) else Err(InlineFlow))
    else if Enclosed(text, '{', '}') then (if text == "{}" then Ok(Map([])) else Err(InlineFlow))
    else if Enclosed(text, '"', '"') || Enclosed(text, '\'', '\'') then
      var s := Unquote(text);
      if s.Err? then Err(s.error) else Ok(Str(s.value))
    else if Lower(text) in {"true", "false"} then Ok(Bool(Lower(text) == "true"))
    else if Lower(text) in {"null", "~"} then Ok(Null)
    else if NumberOf(text).Some? then Ok(NumberOf(text).value)
    else Ok(Str(text))
  }

  predicate PlainChar(c: char) {
    'A' <= c <= 'Z' || 'a' <= c <= 'z' || IsDigit(c) || c in {'_', '.', '/', ':', '@', '+', '-'}
  }

  predicate PlainText(s: string) {
    s != "" && forall i :: 0 <= i < |s| ==> PlainChar(s[i])
  }

  predicate Keyword(s: string) {
    Lower(s) in {"true", "false", "null", "~"}
  }

  predicate Scalar(v: Yaml) {
    !v.List? && !v.Map?
  }

  function FormatScalar(v: Yaml): string
    requires Scalar(v)
  {
    match v
    case Null => "null"
    case Bool(b) => if b then "true" else "false"
    case Num(n) => ShowInt(n)
    case Decimal(literal) => literal
    case Str(s) => if PlainText(s) && !Keyword(s) then s else Quote(s)
  }

  lemma DigitsOnly(s: string)
    requires Digits(s)
    ensures LeadingDigits(s) == |s|
  {
    DigitsLead(s, "");
    assert s + "" == s;
  }

  lemma SignApart(negative: bool, text: string)
    requires text != "" && text[0] != '-'
    ensures var s := Signed(negative, text);
      s != "" && (s[0] == '-' <==> negative) && (if negative then s[1..] else s) == text
  {
  }

  /** A whole number's text denotes it rounded, or nothing past the finite range. */
  lemma WholeText(negative: bool, digits: string)
    requires Digits(digits) && (digits[0] == '0' ==> |digits| == 1)
    ensures NumberOf(Signed(negative, digits)) == Whole(negative, digits)
  {
    hide Whole, Finite, Number;
    DigitsOnly(digits);
    hide LeadingDigits, Signed;
    assert digits[..|digits|] == digits && IsDigit(digits[0]);
    SignApart(negative, digits);
  }

  /** A double printed without an exponent reads as itself. */
  lemma NumberRoundTrip(n: int)
    requires IsDouble(Abs(n)) && !Large(n)
    ensures NumberOf(ShowInt(n)) == Some(Num(n))
  {
    hide Rounded, Shortest, Finite, ShowNat, NumberOf, Number;
    assert ShowInt(n) == Signed(n < 0, ShowNat(Shortest(Abs(n))));
    ShownIsFinite(Abs(n));
    ShowNatReads(Shortest(Abs(n)));
    WholeText(n < 0, ShowNat(Shortest(Abs(n))));
  }

  /** One printed with an exponent is not of number form. */
  lemma ExponentIsNoNumber(n: int)
    requires Large(n)
    ensures NumberOf(ShowInt(n)).None?
  {
    hide Shortest, ShowNat, Exponential, NumberOf;
    var digits := ShowNat(Shortest(Abs(n)));
    ExponentialShape(digits);
    ExponentText(n < 0, Exponential(digits));
  }

  lemma ExponentText(negative: bool, text: string)
    requires |text| > 1 && IsDigit(text[0]) && (text[1] == 'e' || (text[1] == '.' && 'e' in text[2..]))
    ensures NumberOf(Signed(negative, text)).None?
  {
    hide Magnitude, Signed;
    ExponentMagnitude(negative, text);
    SignApart(negative, text);
  }

  lemma ExponentMagnitude(negative: bool, text: string)
    requires |text| > 1 && IsDigit(text[0]) && (text[1] == 'e' || (text[1] == '.' && 'e' in text[2..]))
    ensures Magnitude(negative, text).None?
  {
    hide Whole, Finite, Number;
    assert text == [text[0]] + text[1..];
    DigitsLead([text[0]], text[1..]);
    hide LeadingDigits;
    assert text[1] == '.' ==> !Digits(text[2..]);
  }

  lemma LowerKeeps(s: string)
    ensures |Lower(s)| == |s|
    ensures s != "" && (IsDigit(s[0]) || s[0] in {'-', '"'}) ==> Lower(s)[0] == s[0]
  {
  }

  /** A printed number: plain, no keyword and no colon. */
  lemma ShowIntShape(n: int)
    ensures PlainText(ShowInt(n)) && !Keyword(ShowInt(n))
    ensures ShowInt(n)[|ShowInt(n)| - 1] != ':'
    ensures forall i :: 0 <= i < |ShowInt(n)| ==> ShowInt(n)[i] != ':'
  {
    var digits := ShowNat(Shortest(Abs(n)));
    ExponentialShape(digits);
    hide Shortest, ShowNat, Exponential;
    var s := if Large(n) then Exponential(digits) else digits;
    assert ShowInt(n) == (if n < 0 then "-" else "") + s;
    LowerKeeps(ShowInt(n));
    assert IsDigit(s[0]);
    assert forall i :: 0 <= i < |s| ==> IsDigit(s[i]) || s[i] in {'.', 'e', '+'};
  }

  lemma PlainScalar(s: string)
    requires PlainText(s) && !Keyword(s)
    ensures ParseScalar(s) == Ok(if NumberOf(s).Some? then NumberOf(s).value else Str(s))
  {
    assert PlainChar(s[0]);
    hide NumberOf, Unquote;
  }

  lemma QuotedScalar(s: string)
    ensures ParseScalar(Quote(s)) == Ok(Str(s))
  {
    UnquoteQuote(s);
    assert Enclosed(Quote(s), '"', '"');
    hide NumberOf, Unquote;
  }

  /**
   A scalar survives printing and parsing exactly when it is neither a string of number
   form nor a number printed with an exponent, which comes back as that text.
   */
  lemma {:induction false} ScalarRoundTrip(v: Yaml)
    requires Scalar(v) && !v.Decimal? && (v.Num? ==> IsDouble(Abs(v.number)))
    ensures ParseScalar(FormatScalar(v)) == Ok(v) <==> !(v.Str? && NumberOf(v.text).Some?) && !(v.Num? && Large(v.number))
    ensures v.Num? && Large(v.number) ==> ParseScalar(FormatScalar(v)) == Ok(Str(FormatScalar(v)))
  {
    match v
    case Null =>
      assert Lower("null") == "null";
    case Bool(b) =>
      assert Lower("true") == "true" && Lower("false") == "false";
    case Num(n) =>
      ShowIntShape(n);
      PlainScalar(ShowInt(n));
      if Large(n) {
        ExponentIsNoNumber(n);
      } else {
        NumberRoundTrip(n);
      }
      hide ShowInt, NumberOf, PlainText, Keyword, IsDouble;
    case Str(s) =>
      if PlainText(s) && !Keyword(s) {
        PlainScalar(s);
      } else {
        QuotedScalar(s);
        if NumberOf(s).Some? {
          NumberIsPlain(s);
        }
      }
  }

  /** Texts of number form are plain and no keyword, so they are printed bare. */
  lemma NumberIsPlain(s: string)
    requires NumberOf(s).Some?
    ensures PlainText(s) && !Keyword(s)
  {
    var t := if s[0] == '-' then s[1..] else s;
    var n := LeadingDigits(t);
    assert IsDigit(t[0]);
    forall i | 0 <= i < |t| ensures PlainChar(t[i]) {
      if i > n {
        assert t[i] == t[n + 1..][i - n - 1];
      }
    }
    assert forall i :: 0 <= i < |s| ==> PlainChar(s[i]) by {
      forall i | 0 <= i < |s| ensures PlainChar(s[i]) {
        if s[0] == '-' && i > 0 {
          assert s[i] == t[i - 1];
        }
      }
    }
    LowerKeeps(s);
    assert Lower(s)[0] == s[0];
  }

  // ----- printed scalars as text -----

  /** No line end, no tab, and no white space at either end. */
  predicate Solid(s: string) {
    && s != "" && !IsSpace(s[0]) && !IsSpace(s[|s| - 1])
    && forall i :: 0 <= i < |s| ==> s[i] !in {'\n', '\r', '\t'}
  }

  lemma PlainIsSolid(s: string)
    requires PlainText(s)
    ensures Solid(s)
  {
    assert PlainChar(s[0]) && PlainChar(s[|s| - 1]);
  }

  lemma {:induction false} EscapedHasNoLineEnd(s: string)
    ensures forall i :: 0 <= i < |EscapeAll(s)| ==> EscapeAll(s)[i] !in {'\n', '\r', '\t'}
  {
    if s != "" {
      EscapedHasNoLineEnd(s[1..]);
      EscapeIsQuiet(s[0]);
      hide Escape;
    }
  }

  lemma EscapeIsQuiet(c: char)
    ensures forall i :: 0 <= i < |Escape(c)| ==> Escape(c)[i] !in {'\n', '\r', '\t'}
  {
  }

  lemma QuotedIsSolid(s: string)
    ensures Solid(Quote(s))
  {
    EscapedHasNoLineEnd(s);
    hide EscapeAll;
    var q := Quote(s);
    forall i | 0 <= i < |q| ensures q[i] !in {'\n', '\r', '\t'} {
      if 0 < i < |q| - 1 {
        assert q[i] == EscapeAll(s)[i - 1];
      }
    }
  }

  lemma {:induction false} FormatIsSolid(v: Yaml)
    requires Scalar(v) && !v.Decimal?
    ensures Solid(FormatScalar(v))
  {
    match v
    case Null => PlainIsSolid("null");
    case Bool(b) => PlainIsSolid(FormatScalar(v));
    case Num(n) =>
      ShowIntShape(n);
      PlainIsSolid(ShowInt(n));
    case Str(s) =>
      if PlainText(s) && !Keyword(s) {
        PlainIsSolid(s);
      } else {
        QuotedIsSolid(s);
      }
  }

  lemma SkipPlainText(text: string, i: nat, s: string, target: Target)
    requires PlainText(s) && Stands(text, i, s)
    requires target == Colon ==> s[|s| - 1] != ':' || (i + |s| < |text| && !IsSpace(text[i + |s|]))
    ensures Find(text, i, Bare, false, target) == Find(text, i + |s|, Bare, false, target)
  {
    StandsAt(text, i, s);
    forall k | i <= k < i + |s| ensures Neutral(text, k, target) {
      assert text[i + (k - i)] == s[k - i] && PlainChar(s[k - i]);
      if k + 1 < i + |s| {
        assert text[i + (k + 1 - i)] == s[k + 1 - i] && PlainChar(s[k + 1 - i]);
      }
    }
    SkipNeutral(text, i, i + |s|, target);
  }

  /** A printed scalar hides no comment and, at the end of a line, no separator. */
  lemma {:induction false} SkipFormat(text: string, i: nat, v: Yaml, target: Target)
    requires Scalar(v) && !v.Decimal? && Stands(text, i, FormatScalar(v))
    requires target == Colon ==> i + |FormatScalar(v)| == |text| && (v.Str? && PlainText(v.text) ==> v.text[|v.text| - 1] != ':')
    ensures Find(text, i, Bare, false, target) == Find(text, i + |FormatScalar(v)|, Bare, false, target)
  {
    FormatIs(v);
    hide Find, FormatScalar, PlainText, Keyword, Quote, ShowInt, Stands;
    if v.Str? && !(PlainText(v.text) && !Keyword(v.text)) {
      SkipQuoted(text, i, v.text, target);
    } else {
      SkipPlainText(text, i, FormatScalar(v), target);
    }
  }

  lemma FormatIs(v: Yaml)
    requires Scalar(v) && !v.Decimal?
    ensures if v.Str? && !(PlainText(v.text) && !Keyword(v.text)) then FormatScalar(v) == Quote(v.text)
            else PlainText(FormatScalar(v)) && if v.Str? then FormatScalar(v) == v.text else FormatScalar(v)[|FormatScalar(v)| - 1] != ':'
  {
    if v.Num? {
      ShowIntShape(v.number);
    }
    hide ShowInt, Keyword, Quote;
  }
}
