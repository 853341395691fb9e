/** Base 64 encoding, section 4 of RFC 4648. */
module Base64 {
  import opened Wrappers

  type Byte = b: int | 0 <= b < 256

  function Digit(n: int): char
    requires 0 <= n < 64
  {
    if n < 26 then 'A' + n as char
    else if n < 52 then 'a' + (n - 26) as char
    else if n < 62 then '0' + (n - 52) as char
    else if n == 62 then '+'
    else '/'
  }

  function Value(c: char): Option<int> {
    if 'A' <= c <= 'Z' then Some(c as int - 'A' as int)
    else if 'a' <= c <= 'z' then Some(c as int - 'a' as int + 26)
    else if '0' <= c <= '9' then Some(c as int - '0' as int + 52)
    else if c == '+' then Some(62)
    else if c == '/' then Some(63)
    else None
  }

  lemma ValueOfDigit(n: int)
    requires 0 <= n < 64
    ensures Value(Digit(n)) == Some(n) && Digit(n) != '='
  {
  }

  /** Three bytes become four digits; one or two left over are padded. */
  function Encode(bytes: seq<Byte>): string {
    if bytes == [] then ""
    else if |bytes| == 1 then [Digit(bytes[0] / 4), Digit(bytes[0] % 4 * 16), '=', '=']
    else if |bytes| == 2 then
      [Digit(bytes[0] / 4), Digit(bytes[0] % 4 * 16 + bytes[1] / 16), Digit(bytes[1] % 16 * 4), '=']
    else
      [Digit(bytes[0] / 4), Digit(bytes[0] % 4 * 16 + bytes[1] / 16), Digit(bytes[1] % 16 * 4 + bytes[2] / 64), Digit(bytes[2] % 64)]
      + Encode(bytes[3..])
  }

  /** The bytes four characters stand for. */
  function Group(a: char, b: char, c: char, d: char): Option<seq<Byte>> {
    if Value(a).None? || Value(b).None? then None
    else
      var first := Value(a).value * 4 + Value(b).value / 16;
      if c == '=' && d == '=' then Some([first])
      else if Value(c).None? then None
      else
        var second := Value(b).value % 16 * 16 + Value(c).value / 4;
        if d == '=' then Some([first, second])
        else if Value(d).None? then None
        else Some([first, second, Value(c).value % 4 * 64 + Value(d).value])
  }

  function Decode(s: string): Option<seq<Byte>> {
    if s == "" then Some([])
    else if |s| < 4 || Group(s[0], s[1], s[2], s[3]).None? then None
    else
      var rest := Decode(s[4..]);
      if rest.None? then None else Some(Group(s[0], s[1], s[2], s[3]).value + rest.value)
  }

  /** Text that is exactly the encoding of its own decoding. */
  function Canonical(s: string): Option<seq<Byte>> {
    if Decode(s).Some? && Encode(Decode(s).value) == s then Decode(s) else None
  }

  lemma Sixteenths(high: int, low: int)
    requires 0 <= low < 16
    ensures (high * 16 + low) / 16 == high && (high * 16 + low) % 16 == low
  {
  }

  lemma Quarters(high: int, low: int)
    requires 0 <= low < 4
    ensures (high * 4 + low) / 4 == high && (high * 4 + low) % 4 == low
  {
  }

  lemma GroupOfThree(x: Byte, y: Byte, z: Byte)
    ensures Group(Digit(x / 4), Digit(x % 4 * 16 + y / 16), Digit(y % 16 * 4 + z / 64), Digit(z % 64)) == Some([x, y, z])
  {
    var a, b, c, d := x / 4, x % 4 * 16 + y / 16, y % 16 * 4 + z / 64, z % 64;
    ValueOfDigit(a);
    ValueOfDigit(b);
    ValueOfDigit(c);
    ValueOfDigit(d);
    Sixteenths(x % 4, y / 16);
    Quarters(y % 16, z / 64);
    hide Value, Digit;
    assert a * 4 + b / 16 == x && b % 16 * 16 + c / 4 == y && c % 4 * 64 + d == z;
  }

  lemma GroupOfTwo(x: Byte, y: Byte)
    ensures Group(Digit(x / 4), Digit(x % 4 * 16 + y / 16), Digit(y % 16 * 4), '=') == Some([x, y])
  {
    var a, b, c := x / 4, x % 4 * 16 + y / 16, y % 16 * 4;
    ValueOfDigit(a);
    ValueOfDigit(b);
    ValueOfDigit(c);
    Sixteenths(x % 4, y / 16);
    Quarters(y % 16, 0);
    hide Value, Digit;
    assert a * 4 + b / 16 == x && b % 16 * 16 + c / 4 == y;
  }

  lemma GroupOfOne(x: Byte)
    ensures Group(Digit(x / 4), Digit(x % 4 * 16), '=', '=') == Some([x])
  {
    ValueOfDigit(x / 4);
    ValueOfDigit(x % 4 * 16);
    Sixteenths(x % 4, 0);
    hide Value, Digit;
  }

  lemma DecodeGroup(s: string, first: seq<Byte>, rest: seq<Byte>)
    requires |s| >= 4 && Group(s[0], s[1], s[2], s[3]) == Some(first) && Decode(s[4..]) == Some(rest)
    ensures Decode(s) == Some(first + rest)
  {
    hide Group;
  }

  lemma {:induction false} DecodeEncode(bytes: seq<Byte>)
    ensures Decode(Encode(bytes)) == Some(bytes)
    decreases |bytes|
  {
    hide Group, Digit, Value;
    var s := Encode(bytes);
    if bytes == [] {
      assert Decode("") == Some([]);
    } else if |bytes| == 1 {
      GroupOfOne(bytes[0]);
      assert s[4..] == "";
      DecodeGroup(s, [bytes[0]], []);
      assert bytes == [bytes[0]] + [];
    } else if |bytes| == 2 {
      GroupOfTwo(bytes[0], bytes[1]);
      assert s[4..] == "";
      DecodeGroup(s, [bytes[0], bytes[1]], []);
      assert bytes == [bytes[0], bytes[1]] + [];
    } else {
      GroupOfThree(bytes[0], bytes[1], bytes[2]);
      assert s[4..] == Encode(bytes[3..]);
      DecodeEncode(bytes[3..]);
      DecodeGroup(s, [bytes[0], bytes[1], bytes[2]], bytes[3..]);
      assert bytes == [bytes[0], bytes[1], bytes[2]] + bytes[3..];
    }
  }

  /** The round-trip check accepts exactly the encodings. */
  lemma CanonicalExactly(s: string, bytes: seq<Byte>)
    ensures Canonical(s) == Some(bytes) <==> s == Encode(bytes)
  {
    DecodeEncode(bytes);
  }
}
