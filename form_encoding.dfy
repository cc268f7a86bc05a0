/**
 * The `application/x-www-form-urlencoded` serializer that `URLSearchParams.toString()` applies to
 * the search filters: every name and value is UTF-8 encoded, the space byte becomes `+`, the
 * bytes of ASCII letters, digits and `*-._` stay as they are, and every other byte becomes `%`
 * and two upper-case hex digits; pairs are written `name=value` and joined by `&`.
 * The parser beside it is the partner that shows no information is lost.
 */
module FormEncoding {

  type Byte = b: int | 0 <= b < 256

  /** The UTF-8 encoding of one Unicode scalar value. */
  function Utf8Char(c: char): (r: seq<Byte>)
    ensures 1 <= |r| <= 4
    ensures (c as int < 0x80) <==> (|r| == 1)
  {
    var n := c as int;
    if n < 0x80 then [n]
    else if n < 0x800 then [0xC0 + n / 64, 0x80 + n % 64]
    else if n < 0x10000 then [0xE0 + n / 4096, 0x80 + (n / 64) % 64, 0x80 + n % 64]
    else [0xF0 + n / 262144, 0x80 + (n / 4096) % 64, 0x80 + (n / 64) % 64, 0x80 + n % 64]
  }

  /** The UTF-8 encoding of a string. */
  function Utf8(s: string): seq<Byte> {
    if s == [] then [] else Utf8Char(s[0]) + Utf8(s[1..])
  }

  /** Bytes the serializer leaves as they are: ASCII letters, digits, `*`, `-`, `.` and `_`. */
  predicate Unreserved(b: int) {
    b == 0x2A || b == 0x2D || b == 0x2E || 0x30 <= b <= 0x39 || 0x41 <= b <= 0x5A || b == 0x5F || 0x61 <= b <= 0x7A
  }

  /** The characters a serialized component can contain. */
  predicate SafeChar(c: char) {
    Unreserved(c as int) || c == '+' || c == '%'
  }

  function HexDigit(d: int): (c: char)
    requires 0 <= d < 16
    ensures HexValue(c) == d
  {
    "0123456789ABCDEF"[d]
  }

  /** The value of a hex digit of either case, or -1 for any other character. */
  function HexValue(c: char): int {
    if '0' <= c <= '9' then c as int - '0' as int
    else if 'A' <= c <= 'F' then c as int - 'A' as int + 10
    else if 'a' <= c <= 'f' then c as int - 'a' as int + 10
    else -1
  }

  function EncodeByte(b: Byte): (r: seq<char>)
    ensures forall i :: 0 <= i < |r| ==> SafeChar(r[i])
  {
    if b == 0x20 then "+"
    else if Unreserved(b) then [b as char]
    else ['%', HexDigit(b / 16), HexDigit(b % 16)]
  }

  function PercentEncode(bs: seq<Byte>): (r: string)
    ensures forall i :: 0 <= i < |r| ==> SafeChar(r[i])
  {
    if bs == [] then [] else EncodeByte(bs[0]) + PercentEncode(bs[1..])
  }

  /** One serialized name or value. */
  function EncodeComponent(s: string): (r: string)
    ensures forall i :: 0 <= i < |r| ==> SafeChar(r[i])
    ensures '&' !in r && '=' !in r
  {
    PercentEncode(Utf8(s))
  }

  function EncodePair(p: (string, string)): string {
    EncodeComponent(p.0) + "=" + EncodeComponent(p.1)
  }

  /**
   * `URLSearchParams.toString()` of a list of name/value pairs: the encoded pairs joined by `&`.
   * Every pair contributes at least its `=`, so only the empty list serializes to the empty string.
   */
  function Serialize(ps: seq<(string, string)>): (r: string)
    ensures r == "" <==> ps == []
  {
    if ps == [] then ""
    else if |ps| == 1 then EncodePair(ps[0])
    else EncodePair(ps[0]) + "&" + Serialize(ps[1..])
  }

  // ---------------------------------------------------------------------------------------------
  // The inverse: a parser of serialized pairs.

  /** `+` becomes a space byte, `%` with two hex digits becomes that byte, any other character its code. */
  function PercentDecode(cs: string): seq<Byte> {
    if cs == [] then []
    else if cs[0] == '+' then [0x20] + PercentDecode(cs[1..])
    else if cs[0] == '%' && |cs| >= 3 && HexValue(cs[1]) >= 0 && HexValue(cs[2]) >= 0 then
      [HexValue(cs[1]) * 16 + HexValue(cs[2])] + PercentDecode(cs[3..])
    else [if cs[0] as int < 256 then cs[0] as int else 0x3F] + PercentDecode(cs[1..])
  }

  /** The character with code `n`, or U+FFFD when `n` is not a Unicode scalar value. */
  function ScalarOr(n: int): char {
    if 0 <= n < 0xD800 || 0xE000 <= n < 0x110000 then n as char else '\U{FFFD}'
  }

  /** A lenient UTF-8 decoder: the lead byte decides the length of each sequence. */
  function Utf8Decode(bs: seq<Byte>): string {
    if bs == [] then []
    else
      var b0: int := bs[0];
      if b0 < 0x80 then [b0 as char] + Utf8Decode(bs[1..])
      else if 0xC0 <= b0 < 0xE0 && |bs| >= 2 then
        [ScalarOr((b0 - 0xC0) * 64 + Cont(bs[1]))] + Utf8Decode(bs[2..])
      else if 0xE0 <= b0 < 0xF0 && |bs| >= 3 then
        [ScalarOr(((b0 - 0xE0) * 64 + Cont(bs[1])) * 64 + Cont(bs[2]))] + Utf8Decode(bs[3..])
      else if 0xF0 <= b0 && |bs| >= 4 then
        [ScalarOr((((b0 - 0xF0) * 64 + Cont(bs[1])) * 64 + Cont(bs[2])) * 64 + Cont(bs[3]))] + Utf8Decode(bs[4..])
      else ['\U{FFFD}'] + Utf8Decode(bs[1..])
  }

  /** The six payload bits of a continuation byte. */
  function Cont(b: Byte): int {
    b as int - 0x80
  }

  function DecodeComponent(cs: string): string {
    Utf8Decode(PercentDecode(cs))
  }

  /** The position of the first `c` in `s`, or `|s|` when there is none. */
  function IndexOf(s: string, c: char): (i: nat)
    ensures i <= |s|
    ensures i < |s| ==> s[i] == c
    ensures c !in s[..i]
  {
    if s == [] then 0 else if s[0] == c then 0 else 1 + IndexOf(s[1..], c)
  }

  function ParsePair(piece: string): (string, string) {
    var j := IndexOf(piece, '=');
    (DecodeComponent(piece[..j]), DecodeComponent(if j < |piece| then piece[j + 1..] else []))
  }

  /**
   * The parser that inverts the serializer: split on `&`, skip empty pieces, split each piece at
   * its first `=`, then percent-decode both halves. It is exact on the serializer's ASCII output;
   * raw non-ASCII input, which the serializer never produces, is not decoded as a browser would.
   */
  function Parse(s: string): seq<(string, string)>
    decreases |s|
  {
    if s == [] then []
    else
      var i := IndexOf(s, '&');
      var rest := if i < |s| then s[i + 1..] else [];
      if i == 0 then Parse(rest) else [ParsePair(s[..i])] + Parse(rest)
  }

  // ---------------------------------------------------------------------------------------------
  // Encoding piece by piece.

  lemma {:induction false} Utf8Append(a: string, b: string)
    ensures Utf8(a + b) == Utf8(a) + Utf8(b)
  {
    if a == [] {
      assert a + b == b;
    } else {
      assert (a + b)[0] == a[0] && (a + b)[1..] == a[1..] + b;
      Utf8Append(a[1..], b);
    }
  }

  lemma {:induction false} PercentEncodeAppend(a: seq<Byte>, b: seq<Byte>)
    ensures PercentEncode(a + b) == PercentEncode(a) + PercentEncode(b)
  {
    if a == [] {
      assert a + b == b;
    } else {
      assert (a + b)[0] == a[0] && (a + b)[1..] == a[1..] + b;
      PercentEncodeAppend(a[1..], b);
    }
  }

  /** A string is encoded character by character. */
  lemma EncodeComponentAppend(a: string, b: string)
    ensures EncodeComponent(a + b) == EncodeComponent(a) + EncodeComponent(b)
  {
    Utf8Append(a, b);
    PercentEncodeAppend(Utf8(a), Utf8(b));
  }

  /** Whether every character of `s` is an ASCII letter, digit, `*`, `-`, `.` or `_`. */
  predicate AllUnreserved(s: string) {
    s == [] || (Unreserved(s[0] as int) && AllUnreserved(s[1..]))
  }

  /** Names and values made only of ASCII letters, digits and `*-._` are sent as they are. */
  lemma {:induction false} EncodeUnreserved(s: string)
    requires AllUnreserved(s)
    ensures EncodeComponent(s) == s
  {
    if s != [] {
      EncodeUnreserved(s[1..]);
      assert s == [s[0]] + s[1..];
      EncodeComponentAppend([s[0]], s[1..]);
      assert Utf8([s[0]]) == [s[0] as int];
    }
  }

  // ---------------------------------------------------------------------------------------------
  // Round trips.

  lemma IndexOfAbsent(s: string, c: char)
    requires c !in s
    ensures IndexOf(s, c) == |s|
  {
  }

  lemma {:induction false} IndexOfAfter(a: string, c: char, b: string)
    requires c !in a
    ensures IndexOf(a + [c] + b, c) == |a|
  {
    if a != [] {
      assert (a + [c] + b)[1..] == a[1..] + [c] + b;
      IndexOfAfter(a[1..], c, b);
    }
  }

  lemma DecodeEncodedByte(b: Byte, rest: string)
    ensures PercentDecode(EncodeByte(b) + rest) == [b] + PercentDecode(rest)
  {
    var cs := EncodeByte(b) + rest;
    if b == 0x20 {
      assert cs[1..] == rest;
    } else if Unreserved(b) {
      assert cs[1..] == rest;
    } else {
      assert cs[3..] == rest;
      assert HexValue(cs[1]) * 16 + HexValue(cs[2]) == b;
    }
  }

  /** Percent-decoding undoes percent-encoding, for every byte string. */
  lemma {:induction false} PercentRoundTrip(bs: seq<Byte>)
    ensures PercentDecode(PercentEncode(bs)) == bs
  {
    if bs != [] {
      DecodeEncodedByte(bs[0], PercentEncode(bs[1..]));
      PercentRoundTrip(bs[1..]);
    }
  }

  lemma Utf8DecodeChar(c: char, rest: seq<Byte>)
    ensures Utf8Decode(Utf8Char(c) + rest) == [c] + Utf8Decode(rest)
  {
    var n := c as int;
    var bs := Utf8Char(c) + rest;
    if n < 0x80 {
      assert bs[1..] == rest;
    } else if n < 0x800 {
      assert bs[2..] == rest;
      assert (n / 64) * 64 + n % 64 == n;
    } else if n < 0x10000 {
      assert bs[3..] == rest;
      var hi, lo := n / 64, n % 64;
      assert n / 4096 == hi / 64;
      assert ((hi / 64) * 64 + hi % 64) * 64 + lo == n;
    } else {
      assert bs[4..] == rest;
      var q, lo := n / 64, n % 64;
      var q2 := q / 64;
      assert n / 4096 == q2;
      assert n / 262144 == q2 / 64;
      assert (((q2 / 64) * 64 + q2 % 64) * 64 + q % 64) * 64 + lo == n;
    }
  }

  /** UTF-8 decoding undoes UTF-8 encoding, for every string. */
  lemma {:induction false} Utf8RoundTrip(s: string)
    ensures Utf8Decode(Utf8(s)) == s
  {
    if s != [] {
      Utf8DecodeChar(s[0], Utf8(s[1..]));
      Utf8RoundTrip(s[1..]);
    }
  }

  /** Every name or value is recovered exactly from its serialized form. */
  lemma ComponentRoundTrip(s: string)
    ensures DecodeComponent(EncodeComponent(s)) == s
  {
    Utf8RoundTrip(s);
    PercentRoundTrip(Utf8(s));
  }

  lemma ParseEncodedPair(p: (string, string))
    ensures ParsePair(EncodePair(p)) == p
  {
    var k, v := EncodeComponent(p.0), EncodeComponent(p.1);
    IndexOfAfter(k, '=', v);
    var piece := EncodePair(p);
    assert piece[..|k|] == k;
    assert piece[|k| + 1..] == v;
    ComponentRoundTrip(p.0);
    ComponentRoundTrip(p.1);
  }

  /** Parsing a serialized list of pairs gives back exactly that list, in order. */
  lemma {:induction false} ParseSerialize(ps: seq<(string, string)>)
    ensures Parse(Serialize(ps)) == ps
  {
    if ps != [] {
      var head := EncodePair(ps[0]);
      assert '&' !in head;
      assert head[|EncodeComponent(ps[0].0)|] == '=';
      if |ps| == 1 {
        IndexOfAbsent(head, '&');
        assert head[..|head|] == head;
        ParseEncodedPair(ps[0]);
      } else {
        var s := head + "&" + Serialize(ps[1..]);
        IndexOfAfter(head, '&', Serialize(ps[1..]));
        assert s[..|head|] == head;
        assert s[|head| + 1..] == Serialize(ps[1..]);
        ParseEncodedPair(ps[0]);
        ParseSerialize(ps[1..]);
      }
    }
  }
}
