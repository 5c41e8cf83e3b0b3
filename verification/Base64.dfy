/** Base64 as in section 4 of RFC 4648: the text form the serializer gives to bytes. */
module Base64 {

  type Byte = b: int | 0 <= b < 256

  /** A place of the text: a six-bit value, or PAD. */
  type Symbol = n: int | 0 <= n <= 64

  const PAD: Symbol := 64

  datatype Decoded = Bytes(bytes: seq<Byte>) | Malformed

  /** Table 1 of RFC 4648. */
  function CharOf(n: Symbol): char {
    if n < 26 then ('A' as int + n) as char
    else if n < 52 then ('a' as int + n - 26) as char
    else if n < 62 then ('0' as int + n - 52) as char
    else if n == 62 then '+' else if n == 63 then '/' else '='
  }

  predicate InAlphabet(c: char) {
    'A' <= c <= 'Z' || 'a' <= c <= 'z' || '0' <= c <= '9' || c == '+' || c == '/' || c == '='
  }

  function SymbolOf(c: char): Symbol
    requires InAlphabet(c)
  {
    if 'A' <= c <= 'Z' then c as int - 'A' as int
    else if 'a' <= c <= 'z' then c as int - 'a' as int + 26
    else if '0' <= c <= '9' then c as int - '0' as int + 52
    else if c == '+' then 62 else if c == '/' then 63 else PAD
  }

  function Text(ns: seq<Symbol>): (s: string)
    ensures |s| == |ns| && forall i :: 0 <= i < |s| ==> s[i] == CharOf(ns[i])
  {
    seq(|ns|, i requires 0 <= i < |ns| => CharOf(ns[i]))
  }

  predicate AllInAlphabet(s: string) {
    forall i :: 0 <= i < |s| ==> InAlphabet(s[i])
  }

  function Symbols(s: string): (ns: seq<Symbol>)
    requires AllInAlphabet(s)
    ensures |ns| == |s| && forall i :: 0 <= i < |s| ==> ns[i] == SymbolOf(s[i])
  {
    seq(|s|, i requires 0 <= i < |s| => SymbolOf(s[i]))
  }

  /** Three bytes as four values. */
  function Group(a: Byte, b: Byte, c: Byte): seq<Symbol> {
    [a / 4, a % 4 * 16 + b / 16, b % 16 * 4 + c / 64, c % 64]
  }

  function Pack(bs: seq<Byte>): seq<Symbol> {
    if bs == [] then []
    else if |bs| == 1 then [bs[0] / 4, bs[0] % 4 * 16, PAD, PAD]
    else if |bs| == 2 then [bs[0] / 4, bs[0] % 4 * 16 + bs[1] / 16, bs[1] % 16 * 4, PAD]
    else Group(bs[0], bs[1], bs[2]) + Pack(bs[3..])
  }

  function First(w: Symbol, x: Symbol): Byte
    requires w != PAD && x != PAD
  {
    w * 4 + x / 16
  }

  function Second(x: Symbol, y: Symbol): Byte
    requires x != PAD && y != PAD
  {
    x % 16 * 16 + y / 4
  }

  function Third(y: Symbol, z: Symbol): Byte
    requires y != PAD && z != PAD
  {
    y % 4 * 64 + z
  }

  /** Groups of four, with padding at the very end and no stray bits. */
  function Unpack(ns: seq<Symbol>): Decoded {
    if ns == [] then Bytes([])
    else if |ns| < 4 || ns[0] == PAD || ns[1] == PAD then Malformed
    else if ns[2] == PAD then
      if |ns| == 4 && ns[3] == PAD && ns[1] % 16 == 0 then Bytes([First(ns[0], ns[1])]) else Malformed
    else if ns[3] == PAD then
      if |ns| == 4 && ns[2] % 4 == 0 then Bytes([First(ns[0], ns[1]), Second(ns[1], ns[2])]) else Malformed
    else match Unpack(ns[4..])
      case Malformed => Malformed
      case Bytes(rest) => Bytes([First(ns[0], ns[1]), Second(ns[1], ns[2]), Third(ns[2], ns[3])] + rest)
  }

  function Encode(bs: seq<Byte>): string {
    Text(Pack(bs))
  }

  function Decode(s: string): Decoded {
    if AllInAlphabet(s) then Unpack(Symbols(s)) else Malformed
  }

  lemma CharRoundTrip(n: Symbol)
    ensures InAlphabet(CharOf(n)) && SymbolOf(CharOf(n)) == n
  {}

  lemma TextRoundTrip(ns: seq<Symbol>)
    ensures AllInAlphabet(Text(ns)) && Symbols(Text(ns)) == ns
  {
    forall i | 0 <= i < |ns| ensures InAlphabet(Text(ns)[i]) && SymbolOf(Text(ns)[i]) == ns[i] {
      CharRoundTrip(ns[i]);
    }
  }

  /** The four values of three bytes hold all their bits. */
  lemma Repack(a: Byte, b: Byte, c: Byte)
    ensures First(a / 4, a % 4 * 16 + b / 16) == a
    ensures Second(a % 4 * 16 + b / 16, b % 16 * 4 + c / 64) == b
    ensures Third(b % 16 * 4 + c / 64, c % 64) == c
  {}

  /** A full group decodes to its three bytes, whatever follows it. */
  lemma UnpackFour(w: Symbol, x: Symbol, y: Symbol, z: Symbol, rest: seq<Symbol>, tail: seq<Byte>)
    requires w != PAD && x != PAD && y != PAD && z != PAD
    requires Unpack(rest) == Bytes(tail)
    ensures Unpack([w, x, y, z] + rest) == Bytes([First(w, x), Second(x, y), Third(y, z)] + tail)
  {
    assert ([w, x, y, z] + rest)[4..] == rest;
  }

  lemma UnpackGroup(a: Byte, b: Byte, c: Byte, rest: seq<Symbol>, tail: seq<Byte>)
    requires Unpack(rest) == Bytes(tail)
    ensures Unpack(Group(a, b, c) + rest) == Bytes([a, b, c] + tail)
  {
    UnpackFour(a / 4, a % 4 * 16 + b / 16, b % 16 * 4 + c / 64, c % 64, rest, tail);
    Repack(a, b, c);
  }

  lemma RepackTwo(a: Byte, b: Byte)
    ensures b % 16 * 4 % 4 == 0
    ensures First(a / 4, a % 4 * 16 + b / 16) == a && Second(a % 4 * 16 + b / 16, b % 16 * 4) == b
  {}

  lemma UnpackTwo(a: Byte, b: Byte, w: Symbol, x: Symbol, y: Symbol)
    requires w != PAD && x != PAD && y != PAD && y % 4 == 0 && First(w, x) == a && Second(x, y) == b
    ensures Unpack([w, x, y, PAD]) == Bytes([a, b])
  {}

  lemma RepackOne(a: Byte)
    ensures a % 4 * 16 % 16 == 0 && First(a / 4, a % 4 * 16) == a
  {}

  lemma UnpackOne(a: Byte, w: Symbol, x: Symbol)
    requires w != PAD && x != PAD && x % 16 == 0 && First(w, x) == a
    ensures Unpack([w, x, PAD, PAD]) == Bytes([a])
  {}

  lemma {:induction false} UnpackPack(bs: seq<Byte>)
    ensures Unpack(Pack(bs)) == Bytes(bs)
  {
    if |bs| >= 3 {
      UnpackPack(bs[3..]);
      UnpackGroup(bs[0], bs[1], bs[2], Pack(bs[3..]), bs[3..]);
      assert bs == [bs[0], bs[1], bs[2]] + bs[3..];
    } else if |bs| == 2 {
      RepackTwo(bs[0], bs[1]);
      UnpackTwo(bs[0], bs[1], bs[0] / 4, bs[0] % 4 * 16 + bs[1] / 16, bs[1] % 16 * 4);
      assert bs == [bs[0], bs[1]];
    } else if |bs| == 1 {
      RepackOne(bs[0]);
      UnpackOne(bs[0], bs[0] / 4, bs[0] % 4 * 16);
      assert bs == [bs[0]];
    }
  }

  /** Decoding what was encoded gives the bytes back. */
  lemma DecodeEncode(bs: seq<Byte>)
    ensures Decode(Encode(bs)) == Bytes(bs)
  {
    TextRoundTrip(Pack(bs));
    UnpackPack(bs);
  }

  /** Test vectors of section 10 of RFC 4648: "f", "fo" and "foo". */
  lemma TestVectors()
    ensures Encode([102]) == "Zg==" && Encode([102, 111]) == "Zm8=" && Encode([102, 111, 111]) == "Zm9v"
  {
    assert Pack([102]) == [25, 32, PAD, PAD];
    assert Pack([102, 111]) == [25, 38, 60, PAD];
    assert [102, 111, 111][3..] == [] && Pack([102, 111, 111]) == [25, 38, 61, 47];
  }
}
