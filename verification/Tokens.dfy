/** The spellings a cursor is made of: base64url, a JSON array of plain strings, decimals and identifiers. */
module Tokens {
  import opened Wire
  import Spelling

  // ---- base64url without padding, sections 3.5 and 5 of RFC 4648

  type Sextet = v: int | 0 <= v < 64

  function Symbol(v: Sextet): (c: byte) {
    if v < 26 then (65 + v) as byte
    else if v < 52 then (71 + v) as byte
    else if v < 62 then (v - 4) as byte
    else if v == 62 then 45
    else 95
  }

  predicate IsSymbol(c: byte) {
    65 <= c <= 90 || 97 <= c <= 122 || 48 <= c <= 57 || c == 45 || c == 95
  }

  function SymbolValue(c: byte): (v: Sextet)
    requires IsSymbol(c)
    ensures Symbol(v) == c
  {
    if 65 <= c <= 90 then (c as int) - 65
    else if 97 <= c <= 122 then (c as int) - 71
    else if 48 <= c <= 57 then (c as int) + 4
    else if c == 45 then 62
    else 63
  }

  lemma SymbolRoundTrip(v: Sextet)
    ensures IsSymbol(Symbol(v)) && SymbolValue(Symbol(v)) == v
  {
  }

  // Three octets make four sextets.
  function S0(x: byte): Sextet { x as int / 4 }
  function S1(x: byte, y: byte): Sextet { x as int % 4 * 16 + y as int / 16 }
  function S2(y: byte, z: byte): Sextet { y as int % 16 * 4 + z as int / 64 }
  function S3(z: byte): Sextet { z as int % 64 }

  // Four sextets make three octets.
  function O0(p: Sextet, q: Sextet): byte { (p * 4 + q / 16) as byte }
  function O1(q: Sextet, r: Sextet): byte { (q % 16 * 16 + r / 4) as byte }
  function O2(r: Sextet, s: Sextet): byte { (r % 4 * 64 + s) as byte }

  // Digits of a number in a fixed base.
  lemma Base4(a: nat, b: nat)
    requires b < 4
    ensures (a * 4 + b) / 4 == a && (a * 4 + b) % 4 == b
  {
  }

  lemma Base16(a: nat, b: nat)
    requires b < 16
    ensures (a * 16 + b) / 16 == a && (a * 16 + b) % 16 == b
  {
  }

  lemma Base64(a: nat, b: nat)
    requires b < 64
    ensures (a * 64 + b) / 64 == a && (a * 64 + b) % 64 == b
  {
  }

  lemma FirstOctet(x: byte, y: byte)
    ensures O0(S0(x), S1(x, y)) == x && S1(x, 0) % 16 == 0
  {
    Base16(x as int % 4, y as int / 16);
    Base16(x as int % 4, 0);
  }

  lemma SecondOctet(x: byte, y: byte, z: byte)
    ensures O1(S1(x, y), S2(y, z)) == y && S2(y, 0) % 4 == 0
  {
    Base16(x as int % 4, y as int / 16);
    Base4(y as int % 16, z as int / 64);
    Base4(y as int % 16, 0);
  }

  lemma ThirdOctet(y: byte, z: byte)
    ensures O2(S2(y, z), S3(z)) == z
  {
    Base4(y as int % 16, z as int / 64);
  }

  lemma FirstSextets(p: Sextet, q: Sextet, r: Sextet)
    ensures S0(O0(p, q)) == p && S1(O0(p, q), O1(q, r)) == q
    ensures q % 16 == 0 ==> S1(O0(p, q), 0) == q
  {
    Base4(p, q / 16);
    Base16(q % 16, r / 4);
  }

  lemma LastSextets(q: Sextet, r: Sextet, s: Sextet)
    ensures S2(O1(q, r), O2(r, s)) == r && S3(O2(r, s)) == s
    ensures r % 4 == 0 ==> S2(O1(q, r), 0) == r
  {
    Base16(q % 16, r / 4);
    Base64(r % 4, s);
  }

  /** The bits of a byte string, six at a time; the last sextet is filled with zeros. */
  function Pack(b: seq<byte>): seq<Sextet> {
    if b == [] then []
    else if |b| == 1 then [S0(b[0]), S1(b[0], 0)]
    else if |b| == 2 then [S0(b[0]), S1(b[0], b[1]), S2(b[1], 0)]
    else [S0(b[0]), S1(b[0], b[1]), S2(b[1], b[2]), S3(b[2])] + Pack(b[3..])
  }

  /** Refuses a lone last sextet, and bits set beyond the last octet. */
  function Unpack(v: seq<Sextet>): Option<seq<byte>> {
    if v == [] then Some([])
    else if |v| == 1 then None
    else if |v| == 2 then if v[1] % 16 == 0 then Some([O0(v[0], v[1])]) else None
    else if |v| == 3 then if v[2] % 4 == 0 then Some([O0(v[0], v[1]), O1(v[1], v[2])]) else None
    else
      match Unpack(v[4..])
      case None => None
      case Some(rest) => Some([O0(v[0], v[1]), O1(v[1], v[2]), O2(v[2], v[3])] + rest)
  }

  lemma UnpackShort(p: Sextet, q: Sextet, r: Sextet)
    ensures r % 4 == 0 ==> Unpack([p, q, r]) == Some([O0(p, q), O1(q, r)])
  {
  }

  lemma UnpackMore(p: Sextet, q: Sextet, r: Sextet, s: Sextet, rest: seq<Sextet>)
    requires Unpack(rest).Some?
    ensures Unpack([p, q, r, s] + rest) == Some([O0(p, q), O1(q, r), O2(r, s)] + Unpack(rest).value)
  {
    assert ([p, q, r, s] + rest)[4..] == rest;
  }

  lemma UnpackOfOne(x: byte)
    ensures Unpack([S0(x), S1(x, 0)]) == Some([x])
  {
    FirstOctet(x, 0);
    var v := [S0(x), S1(x, 0)];
    assert Unpack(v) == Some([O0(v[0], v[1])]);
  }

  lemma UnpackOfTwo(x: byte, y: byte)
    ensures Unpack([S0(x), S1(x, y), S2(y, 0)]) == Some([x, y])
  {
    FirstOctet(x, y);
    SecondOctet(x, y, 0);
    UnpackShort(S0(x), S1(x, y), S2(y, 0));
  }

  lemma UnpackOfThree(x: byte, y: byte, z: byte, rest: seq<Sextet>)
    requires Unpack(rest).Some?
    ensures Unpack([S0(x), S1(x, y), S2(y, z), S3(z)] + rest) == Some([x, y, z] + Unpack(rest).value)
  {
    FirstOctet(x, y);
    SecondOctet(x, y, z);
    ThirdOctet(y, z);
    UnpackMore(S0(x), S1(x, y), S2(y, z), S3(z), rest);
  }

  lemma {:induction false} UnpackOfPack(b: seq<byte>)
    ensures Unpack(Pack(b)) == Some(b)
  {
    if |b| == 1 {
      UnpackOfOne(b[0]);
      assert b == [b[0]];
    } else if |b| == 2 {
      UnpackOfTwo(b[0], b[1]);
      assert b == [b[0], b[1]];
    } else if |b| >= 3 {
      UnpackOfPack(b[3..]);
      UnpackOfThree(b[0], b[1], b[2], Pack(b[3..]));
      assert b == [b[0], b[1], b[2]] + b[3..];
    }
  }

  lemma PackOfTwo(p: Sextet, q: Sextet)
    requires q % 16 == 0
    ensures Pack([O0(p, q)]) == [p, q]
  {
    FirstSextets(p, q, 0);
  }

  lemma PackOfThree(p: Sextet, q: Sextet, r: Sextet)
    requires r % 4 == 0
    ensures Pack([O0(p, q), O1(q, r)]) == [p, q, r]
  {
    FirstSextets(p, q, r);
    LastSextets(q, r, 0);
  }

  lemma PackMore(x: byte, y: byte, z: byte, rest: seq<byte>)
    ensures Pack([x, y, z] + rest) == [S0(x), S1(x, y), S2(y, z), S3(z)] + Pack(rest)
  {
    assert ([x, y, z] + rest)[3..] == rest;
  }

  lemma PackOfFour(p: Sextet, q: Sextet, r: Sextet, s: Sextet, rest: seq<byte>)
    ensures Pack([O0(p, q), O1(q, r), O2(r, s)] + rest) == [p, q, r, s] + Pack(rest)
  {
    FirstSextets(p, q, r);
    LastSextets(q, r, s);
    PackMore(O0(p, q), O1(q, r), O2(r, s), rest);
  }

  lemma {:induction false} PackOfUnpack(v: seq<Sextet>)
    ensures Unpack(v).Some? ==> Pack(Unpack(v).value) == v
  {
    if Unpack(v).Some? {
      if |v| == 2 {
        PackOfTwo(v[0], v[1]);
      } else if |v| == 3 {
        PackOfThree(v[0], v[1], v[2]);
      } else if |v| >= 4 {
        PackOfUnpack(v[4..]);
        PackOfFour(v[0], v[1], v[2], v[3], Unpack(v[4..]).value);
        assert v == [v[0], v[1], v[2], v[3]] + v[4..];
      }
    }
  }

  lemma {:induction false} PackLength(b: seq<byte>)
    ensures 3 * |Pack(b)| <= 4 * |b| + 2
  {
    if |b| >= 3 { PackLength(b[3..]); }
  }

  predicate AreSymbols(t: Text) { forall i :: 0 <= i < |t| ==> IsSymbol(t[i]) }

  function Symbols(v: seq<Sextet>): Text { seq(|v|, i requires 0 <= i < |v| => Symbol(v[i])) }

  function Values(t: Text): seq<Sextet>
    requires AreSymbols(t)
  {
    seq(|t|, i requires 0 <= i < |t| => SymbolValue(t[i]))
  }

  lemma SymbolsRoundTrip(v: seq<Sextet>)
    ensures AreSymbols(Symbols(v)) && Values(Symbols(v)) == v
  {
    forall i | 0 <= i < |v| ensures IsSymbol(Symbols(v)[i]) && SymbolValue(Symbols(v)[i]) == v[i] {
      SymbolRoundTrip(v[i]);
    }
  }

  function Encode(b: seq<byte>): Text { Symbols(Pack(b)) }

  /** Refuses padding and foreign symbols. */
  function Decode(t: Text): Option<seq<byte>> { if AreSymbols(t) then Unpack(Values(t)) else None }

  lemma DecodeOfEncode(b: seq<byte>)
    ensures Decode(Encode(b)) == Some(b)
  {
    SymbolsRoundTrip(Pack(b));
    UnpackOfPack(b);
  }

  /** Each byte string has one accepted encoding. */
  lemma EncodeOfDecode(t: Text)
    ensures Decode(t).Some? ==> Encode(Decode(t).value) == t
  {
    if Decode(t).Some? {
      PackOfUnpack(Values(t));
      assert Symbols(Values(t)) == t;
    }
  }

  // ---- the JSON array [1, "...", ...]

  /** ASCII that JSON writes without an escape. */
  predicate Plain(c: byte) { 32 <= c < 127 && c != 34 && c != 92 }

  predicate PlainText(t: Text) { forall i :: 0 <= i < |t| ==> Plain(t[i]) }

  predicate PlainTexts(fields: seq<Text>) { forall i :: 0 <= i < |fields| ==> PlainText(fields[i]) }

  function Tail(fields: seq<Text>): Text {
    if fields == [] then [93] else [44, 34] + fields[0] + [34] + Tail(fields[1..])
  }

  function Written(fields: seq<Text>): Text { [91, 49] + Tail(fields) }

  /** The length of the plain text a text starts with. */
  function Run(t: Text): (n: nat)
    ensures n <= |t| && PlainText(t[..n]) && (n < |t| ==> !Plain(t[n]))
  {
    if t == [] || !Plain(t[0]) then 0 else 1 + Run(t[1..])
  }

  function ReadTail(t: Text): Option<seq<Text>> {
    if t == [93] then Some([])
    else if |t| < 2 || t[0] != 44 || t[1] != 34 then None
    else
      var n := Run(t[2..]);
      if 2 + n == |t| || t[2 + n] != 34 then None
      else
        match ReadTail(t[3 + n..])
        case None => None
        case Some(rest) => Some([t[2..2 + n]] + rest)
  }

  function Read(t: Text): Option<seq<Text>> {
    if |t| < 2 || t[0] != 91 || t[1] != 49 then None else ReadTail(t[2..])
  }

  lemma {:induction false} RunOf(a: Text, t: Text)
    requires PlainText(a) && t != [] && !Plain(t[0])
    ensures Run(a + t) == |a|
  {
    if a == [] {
      assert a + t == t;
    } else {
      assert (a + t)[1..] == a[1..] + t;
      RunOf(a[1..], t);
    }
  }

  lemma {:induction false} ReadOfTail(fields: seq<Text>)
    requires PlainTexts(fields)
    ensures ReadTail(Tail(fields)) == Some(fields)
  {
    if fields != [] {
      var f, rest := fields[0], Tail(fields[1..]);
      var t := [44, 34] + f + [34] + rest;
      assert t[2..] == f + ([34] + rest);
      RunOf(f, [34] + rest);
      assert t[3 + |f|..] == rest && t[2..2 + |f|] == f;
      ReadOfTail(fields[1..]);
      assert [f] + fields[1..] == fields;
    }
  }

  lemma TailOfMore(field: Text, rest: seq<Text>)
    ensures Tail([field] + rest) == [44, 34] + field + [34] + Tail(rest)
  {
    assert ([field] + rest)[1..] == rest;
  }

  lemma ReadStep(t: Text) returns (field: Text, rest: Text)
    requires ReadTail(t).Some? && t != [93]
    ensures PlainText(field) && |rest| < |t| && t == [44, 34] + field + [34] + rest
    ensures ReadTail(rest).Some? && ReadTail(t) == Some([field] + ReadTail(rest).value)
  {
    var n := Run(t[2..]);
    field, rest := t[2..2 + n], t[3 + n..];
    assert t[2..][..n] == field;
  }

  lemma {:induction false} TailOfRead(t: Text)
    ensures ReadTail(t).Some? ==> PlainTexts(ReadTail(t).value) && Tail(ReadTail(t).value) == t
    decreases |t|
  {
    if ReadTail(t).Some? && t != [93] {
      var field, rest := ReadStep(t);
      TailOfRead(rest);
      TailOfMore(field, ReadTail(rest).value);
    }
  }

  lemma ReadOfWritten(fields: seq<Text>)
    requires PlainTexts(fields)
    ensures Read(Written(fields)) == Some(fields)
  {
    ReadOfTail(fields);
    assert Written(fields)[2..] == Tail(fields);
  }

  lemma WrittenOfRead(t: Text)
    ensures Read(t).Some? ==> PlainTexts(Read(t).value) && Written(Read(t).value) == t
  {
    if Read(t).Some? {
      TailOfRead(t[2..]);
      assert t == [91, 49] + t[2..];
    }
  }

  lemma {:induction false} TailLength(fields: seq<Text>, width: nat)
    requires forall i :: 0 <= i < |fields| ==> |fields[i]| <= width
    ensures |Tail(fields)| <= 1 + |fields| * (width + 3)
  {
    if fields != [] {
      TailLength(fields[1..], width);
      assert |fields| * (width + 3) == (width + 3) + (|fields| - 1) * (width + 3);
    }
  }

  // ---- decimals

  predicate IsDecimal(c: byte) { 48 <= c <= 57 }

  function Decimal(v: nat): (t: Text)
    ensures t != [] && forall i :: 0 <= i < |t| ==> IsDecimal(t[i])
  {
    if v < 10 then [(48 + v) as byte] else Decimal(v / 10) + [(48 + v % 10) as byte]
  }

  function DecimalValue(t: Text): nat
    requires forall i :: 0 <= i < |t| ==> IsDecimal(t[i])
  {
    if t == [] then 0
    else
      var last := t[|t| - 1];
      assert IsDecimal(last);
      10 * DecimalValue(t[..|t| - 1]) + (last as int - 48)
  }

  /** `decimal`: digits only, no leading zero, and a value of 64 bits. */
  function ReadDecimal(t: Text): Option<u64> {
    if t == [] || (exists i :: 0 <= i < |t| && !IsDecimal(t[i])) || (|t| > 1 && t[0] == 48) then None
    else if DecimalValue(t) <= U64_MAX then Some(DecimalValue(t)) else None
  }

  lemma {:induction false} ValueOfDecimal(v: nat)
    ensures DecimalValue(Decimal(v)) == v && (v > 0 ==> Decimal(v)[0] != 48)
  {
    if v >= 10 {
      ValueOfDecimal(v / 10);
      var t := Decimal(v);
      assert t[..|t| - 1] == Decimal(v / 10);
    } else {
      assert Decimal(v)[..0] == [];
    }
  }

  lemma {:induction false} DecimalOfValue(t: Text)
    requires t != [] && (forall i :: 0 <= i < |t| ==> IsDecimal(t[i])) && (|t| > 1 ==> t[0] != 48)
    ensures Decimal(DecimalValue(t)) == t && (t[0] != 48 ==> DecimalValue(t) > 0)
  {
    var most := t[..|t| - 1];
    assert t == most + [t[|t| - 1]];
    if |t| > 1 {
      DecimalOfValue(most);
    } else {
      assert DecimalValue(most) == 0;
    }
  }

  lemma DecimalRoundTrip(v: u64)
    ensures ReadDecimal(Decimal(v)) == Some(v) && PlainText(Decimal(v))
  {
    ValueOfDecimal(v);
    if v >= 10 { assert |Decimal(v)| > 1; }
  }

  lemma DecimalIsCanonical(t: Text)
    ensures ReadDecimal(t).Some? ==> Decimal(ReadDecimal(t).value) == t
  {
    if ReadDecimal(t).Some? { DecimalOfValue(t); }
  }

  function Ten(n: nat): nat { if n == 0 then 1 else 10 * Ten(n - 1) }

  lemma {:induction false} DecimalLength(v: nat, n: nat)
    requires n > 0 && v < Ten(n)
    ensures |Decimal(v)| <= n
  {
    if v >= 10 {
      assert n > 1;
      DecimalLength(v / 10, n - 1);
    }
  }

  lemma DecimalOf64Bits(v: u64)
    ensures |Decimal(v)| <= 20
  {
    assert Ten(5) == 10_0000;
    assert Ten(10) == 100_0000_0000;
    assert Ten(15) == 1000_0000_0000_0000;
    assert Ten(20) == 1_0000_0000_0000_0000_0000;
    DecimalLength(v, 20);
  }

  // ---- identifiers

  /** A canonical hyphenated UUID that is not nil. Session and run ids are stored as this text. */
  predicate IsUuid(t: Text) {
    && |t| == 36
    && (forall i :: 0 <= i < 36 ==> if i == 8 || i == 13 || i == 18 || i == 23 then t[i] == 45 else Spelling.IsDigit(t[i]))
    && exists i :: 0 <= i < 36 && t[i] != 45 && t[i] != 48
  }

  /** `valid_field_id`. */
  predicate IsFieldId(t: Text) {
    t == Ascii("text") || (|t| == 64 && Spelling.IsHex(t))
  }
}
