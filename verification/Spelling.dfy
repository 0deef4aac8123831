/** Byte strings: their order, fixed-width hexadecimal, and splitting at a separator. */
module Spelling {
  import opened Wire

  /** The order of `str`: bytewise lexicographic. */
  predicate Less(a: Text, b: Text) {
    b != [] && (a == [] || a[0] < b[0] || (a[0] == b[0] && Less(a[1..], b[1..])))
  }

  /** The two strings differ before either ends. */
  predicate Decided(a: Text, b: Text) {
    a != [] && b != [] && (a[0] != b[0] || Decided(a[1..], b[1..]))
  }

  lemma {:induction false} LessDecided(a: Text, b: Text, x: Text, y: Text)
    requires Decided(a, b)
    ensures Decided(a + x, b + y) && (Less(a + x, b + y) <==> Less(a, b))
  {
    assert (a + x)[1..] == a[1..] + x && (b + y)[1..] == b[1..] + y;
    if a[0] == b[0] { LessDecided(a[1..], b[1..], x, y); }
  }

  lemma {:induction false} LessAfter(a: Text, x: Text, y: Text)
    ensures Less(a + x, a + y) <==> Less(x, y)
    ensures Decided(a + x, a + y) <==> Decided(x, y)
  {
    if a == [] {
      assert a + x == x && a + y == y;
    } else {
      assert (a + x)[1..] == a[1..] + x && (a + y)[1..] == a[1..] + y;
      LessAfter(a[1..], x, y);
    }
  }

  lemma {:induction false} DecidedIsStrict(a: Text, b: Text)
    requires Decided(a, b)
    ensures a != b && (Less(a, b) <==> !Less(b, a))
  {
    if a[0] == b[0] { DecidedIsStrict(a[1..], b[1..]); }
  }

  lemma {:induction false} LessIsIrreflexive(a: Text)
    ensures !Less(a, a) && !Decided(a, a)
  {
    if a != [] { LessIsIrreflexive(a[1..]); }
  }

  // ---- lowercase hexadecimal

  function Digit(d: nat): (c: byte)
    requires d < 16
    ensures c != 58
  {
    if d < 10 then (48 + d) as byte else (87 + d) as byte
  }

  predicate IsDigit(c: byte) { 48 <= c <= 57 || 97 <= c <= 102 }

  function DigitValue(c: byte): (d: nat)
    requires IsDigit(c)
    ensures d < 16 && Digit(d) == c
  {
    if c <= 57 then (c as int) - 48 else (c as int) - 87
  }

  function Power(n: nat): (p: nat)
    ensures p > 0
  {
    if n == 0 then 1 else 16 * Power(n - 1)
  }

  function Hex(value: nat, width: nat): (t: Text)
    ensures |t| == width && forall i :: 0 <= i < |t| ==> IsDigit(t[i])
    decreases width, value
  {
    if width == 0 then [] else Hex(value / 16, width - 1) + [Digit(value % 16)]
  }

  predicate IsHex(t: Text) { forall i :: 0 <= i < |t| ==> IsDigit(t[i]) }

  function HexValue(t: Text): nat
    requires IsHex(t)
  {
    if t == [] then 0 else 16 * HexValue(t[..|t| - 1]) + DigitValue(t[|t| - 1])
  }

  lemma HexMore(q: nat, d: nat, width: nat)
    requires d < 16
    ensures Hex(16 * q + d, width + 1) == Hex(q, width) + [Digit(d)]
  {
    assert (16 * q + d) / 16 == q && (16 * q + d) % 16 == d;
  }

  lemma HexValueMore(t: Text, d: nat)
    requires IsHex(t) && d < 16
    ensures IsHex(t + [Digit(d)]) && HexValue(t + [Digit(d)]) == 16 * HexValue(t) + d
  {
    assert (t + [Digit(d)])[..|t|] == t;
  }

  lemma LastDigit(value: nat, width: nat) returns (q: nat, d: nat)
    requires width > 0 && value < Power(width)
    ensures d < 16 && value == 16 * q + d && q < Power(width - 1)
  {
    q, d := value / 16, value % 16;
  }

  lemma {:induction false} HexValueOfHex(value: nat, width: nat)
    requires value < Power(width)
    ensures HexValue(Hex(value, width)) == value
  {
    if width > 0 {
      var q, d := LastDigit(value, width);
      HexValueOfHex(q, width - 1);
      HexMore(q, d, width - 1);
      HexValueMore(Hex(q, width - 1), d);
    }
  }

  lemma {:induction false} HexOfHexValue(t: Text)
    requires IsHex(t)
    ensures HexValue(t) < Power(|t|) && Hex(HexValue(t), |t|) == t
  {
    if t != [] {
      var most, d := t[..|t| - 1], DigitValue(t[|t| - 1]);
      HexOfHexValue(most);
      HexMore(HexValue(most), d, |most|);
      assert t == most + [Digit(d)];
    }
  }

  lemma {:induction false} HexOrders(v: nat, w: nat, width: nat)
    requires v < Power(width) && w < Power(width) && v != w
    ensures Decided(Hex(v, width), Hex(w, width))
    ensures Less(Hex(v, width), Hex(w, width)) <==> v < w
  {
    assert width > 0;
    var a, b := Hex(v / 16, width - 1), Hex(w / 16, width - 1);
    var c, d := [Digit(v % 16)], [Digit(w % 16)];
    if v / 16 == w / 16 {
      LessAfter(a, c, d);
    } else {
      HexOrders(v / 16, w / 16, width - 1);
      LessDecided(a, b, c, d);
    }
  }

  lemma PowerOfSixteen()
    ensures Power(16) == U64_MAX + 1
  {
    assert Power(4) == 0x1_0000;
    assert Power(8) == 0x1_0000_0000;
    assert Power(12) == 0x1_0000_0000_0000;
  }

  // ---- splitting

  function Split(t: Text, sep: byte): (parts: seq<Text>)
    ensures parts != []
  {
    if t == [] then [[]]
    else
      var rest := Split(t[1..], sep);
      if t[0] == sep then [[]] + rest else [[t[0]] + rest[0]] + rest[1..]
  }

  function Join(parts: seq<Text>, sep: byte): Text {
    if parts == [] then [] else if |parts| == 1 then parts[0] else parts[0] + [sep] + Join(parts[1..], sep)
  }

  lemma {:induction false} JoinOfSplit(t: Text, sep: byte)
    ensures Join(Split(t, sep), sep) == t
    ensures forall i :: 0 <= i < |Split(t, sep)| ==> sep !in Split(t, sep)[i]
  {
    if t != [] {
      JoinOfSplit(t[1..], sep);
      var rest := Split(t[1..], sep);
      if t[0] == sep {
        assert ([[]] + rest)[1..] == rest;
        assert Join([[]] + rest, sep) == [sep] + t[1..];
      } else {
        var parts := [[t[0]] + rest[0]] + rest[1..];
        assert parts[1..] == rest[1..];
        assert Join(parts, sep) == [t[0]] + Join(rest, sep);
      }
    }
  }

  lemma {:induction false} SplitAfter(a: Text, t: Text, sep: byte)
    requires sep !in a
    ensures Split(a + [sep] + t, sep) == [a] + Split(t, sep)
  {
    var s := a + [sep] + t;
    if a == [] {
      assert s[1..] == t;
    } else {
      assert s[1..] == a[1..] + [sep] + t;
      SplitAfter(a[1..], t, sep);
      assert [a[0]] + a[1..] == a;
    }
  }

  lemma {:induction false} SplitNothing(a: Text, sep: byte)
    requires sep !in a
    ensures Split(a, sep) == [a]
  {
    if a != [] {
      SplitNothing(a[1..], sep);
      assert [a[0]] + a[1..] == a;
    }
  }

  /** A separated head is determined by the whole. */
  lemma HeadIsDetermined(a: Text, x: Text, b: Text, y: Text, sep: byte)
    requires sep !in a && sep !in b && a + [sep] + x == b + [sep] + y
    ensures a == b && x == y
  {
    SplitAfter(a, x, sep);
    SplitAfter(b, y, sep);
    assert ([a] + Split(x, sep))[0] == ([b] + Split(y, sep))[0];
    assert x == (a + [sep] + x)[|a| + 1..] && y == (b + [sep] + y)[|b| + 1..];
  }
}
