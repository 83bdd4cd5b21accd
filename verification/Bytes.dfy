/**
  Bytes, machine words and the byte encodings the chain relies on: fixed-width
  little-endian words (signing preimages), fixed-width big-endian words (storage
  keys) and lower-case hexadecimal (account and vote keys).
 */
module Bytes {
  const TWO_64: int := 0x1_0000_0000_0000_0000

  type byte = x: int | 0 <= x < 256
  type u64 = x: int | 0 <= x < TWO_64
  type i64 = x: int | -0x8000_0000_0000_0000 <= x < 0x8000_0000_0000_0000
  type bytes = seq<byte>
  type Bytes32 = b: bytes | |b| == 32 witness Zeros(32)

  function Zeros(n: nat): (z: bytes)
    ensures |z| == n && forall i | 0 <= i < n :: z[i] == 0
  {
    seq(n, i requires 0 <= i < n => 0)
  }

  const ZERO_32: Bytes32 := Zeros(32)

  function Pow256(k: nat): (p: nat)
    ensures p > 0
  {
    if k == 0 then 1 else 256 * Pow256(k - 1)
  }

  lemma Pow256Of8()
    ensures Pow256(8) == TWO_64
  {
    assert Pow256(4) == 0x1_0000_0000;
    assert Pow256(8) == 256 * (256 * (256 * (256 * Pow256(4))));
  }

  // ---- little-endian words ----

  function LittleEndian(width: nat, value: nat): (b: bytes)
    ensures |b| == width
  {
    if width == 0 then [] else [value % 256] + LittleEndian(width - 1, value / 256)
  }

  function FromLittleEndian(b: bytes): nat {
    if b == [] then 0 else b[0] + 256 * FromLittleEndian(b[1..])
  }

  lemma {:induction false} LittleEndianRoundTrip(width: nat, value: nat)
    requires value < Pow256(width)
    ensures FromLittleEndian(LittleEndian(width, value)) == value
  {
    if width == 0 {
    } else {
      LittleEndianRoundTrip(width - 1, value / 256);
      var b := LittleEndian(width, value);
      assert b[1..] == LittleEndian(width - 1, value / 256);
    }
  }

  lemma {:induction false} FromLittleEndianRoundTrip(b: bytes)
    ensures FromLittleEndian(b) < Pow256(|b|)
    ensures LittleEndian(|b|, FromLittleEndian(b)) == b
  {
    if b == [] {
    } else {
      FromLittleEndianRoundTrip(b[1..]);
      var rest := FromLittleEndian(b[1..]);
      assert (b[0] + 256 * rest) % 256 == b[0] && (b[0] + 256 * rest) / 256 == rest;
    }
  }

  lemma FromTwoBytes(b: bytes)
    requires |b| >= 2
    ensures FromLittleEndian(b) == b[0] + 0x100 * (b[1] as int) + 0x1_0000 * FromLittleEndian(b[2..])
  {
    assert b[1..][1..] == b[2..];
  }

  /** The least significant byte of an eight-byte little-endian word comes first. */
  lemma WordOfEight(b: bytes)
    requires |b| == 8
    ensures var d: seq<int> := b;
      FromLittleEndian(b) ==
      d[0] + 0x100 * d[1] + 0x1_0000 * d[2] + 0x100_0000 * d[3] + 0x1_0000_0000 * d[4]
      + 0x100_0000_0000 * d[5] + 0x1_0000_0000_0000 * d[6] + 0x100_0000_0000_0000 * d[7]
  {
    FromTwoBytes(b);
    FromTwoBytes(b[2..]);
    FromTwoBytes(b[4..]);
    FromTwoBytes(b[6..]);
    assert b[2..][2..] == b[4..] && b[4..][2..] == b[6..] && b[6..][2..] == [];
  }

  // ---- big-endian words and their order ----

  function BigEndian(width: nat, value: nat): (b: bytes)
    ensures |b| == width
  {
    if width == 0 then [] else BigEndian(width - 1, value / 256) + [value % 256]
  }

  /** A big-endian word is the little-endian one read backwards. */
  lemma {:induction false} BigEndianMirrors(width: nat, value: nat, i: nat)
    requires i < width
    ensures BigEndian(width, value)[i] == LittleEndian(width, value)[width - 1 - i]
    decreases width
  {
    if i == width - 1 {
    } else {
      BigEndianMirrors(width - 1, value / 256, i);
    }
  }

  /** The order in which an ordered key-value store iterates its keys. */
  predicate LexLess(a: bytes, b: bytes) {
    b != [] && (a == [] || a[0] < b[0] || (a[0] == b[0] && LexLess(a[1..], b[1..])))
  }

  lemma {:induction false} LexLessSnoc(a: bytes, b: bytes, x: byte, y: byte)
    requires |a| == |b|
    ensures LexLess(a + [x], b + [y]) <==> LexLess(a, b) || (a == b && x < y)
  {
    if a == [] {
      assert a + [x] == [x] && b + [y] == [y];
    } else {
      assert (a + [x])[1..] == a[1..] + [x] && (b + [y])[1..] == b[1..] + [y];
      LexLessSnoc(a[1..], b[1..], x, y);
      assert a == b <==> a[0] == b[0] && a[1..] == b[1..] by {
        assert a == [a[0]] + a[1..] && b == [b[0]] + b[1..];
      }
    }
  }

  /** Keys are compared at the first byte in which they differ; a proper prefix comes first. */
  lemma {:induction false} LexLessAtFirstDifference(a: bytes, b: bytes, k: nat)
    requires k <= |a| && k <= |b| && a[..k] == b[..k]
    requires k == |a| || k == |b| || a[k] != b[k]
    ensures LexLess(a, b) <==> k < |b| && (k == |a| || a[k] < b[k])
    decreases k
  {
    if k == 0 {
    } else {
      assert a[0] == a[..k][0] == b[..k][0] == b[0];
      assert a[1..][..k - 1] == a[..k][1..] && b[1..][..k - 1] == b[..k][1..];
      LexLessAtFirstDifference(a[1..], b[1..], k - 1);
    }
  }

  /** Big-endian encoding is injective and turns numeric order into key order, and back. */
  lemma {:induction false} BigEndianOrder(width: nat, x: nat, y: nat)
    requires x < Pow256(width) && y < Pow256(width)
    ensures x < y <==> LexLess(BigEndian(width, x), BigEndian(width, y))
    ensures x == y <==> BigEndian(width, x) == BigEndian(width, y)
  {
    if width == 0 {
    } else {
      var p, q := BigEndian(width - 1, x / 256), BigEndian(width - 1, y / 256);
      BigEndianOrder(width - 1, x / 256, y / 256);
      LexLessSnoc(p, q, x % 256, y % 256);
      if BigEndian(width, x) == BigEndian(width, y) {
        assert (p + [x % 256])[..width - 1] == p && (q + [y % 256])[..width - 1] == q;
        assert (p + [x % 256])[width - 1] == (q + [y % 256])[width - 1];
      }
    }
  }

  lemma {:induction false} LexLessIrreflexive(a: bytes)
    ensures !LexLess(a, a)
  {
    if a == [] {
    } else {
      LexLessIrreflexive(a[1..]);
    }
  }

  lemma {:induction false} LexLessTransitive(a: bytes, b: bytes, c: bytes)
    requires LexLess(a, b) && LexLess(b, c)
    ensures LexLess(a, c)
  {
    if a == [] || a[0] < b[0] || b[0] < c[0] {
    } else {
      LexLessTransitive(a[1..], b[1..], c[1..]);
    }
  }

  lemma {:induction false} LexLessTotal(a: bytes, b: bytes)
    ensures LexLess(a, b) || a == b || LexLess(b, a)
  {
    if a == [] || b == [] || a[0] != b[0] {
    } else {
      LexLessTotal(a[1..], b[1..]);
      assert a == [a[0]] + a[1..] && b == [b[0]] + b[1..];
    }
  }

  // ---- hexadecimal keys ----

  function HexDigit(n: int): (c: char)
    requires 0 <= n < 16
  {
    if n < 10 then ('0' as int + n) as char else ('a' as int + n - 10) as char
  }

  function HexEncode(b: bytes): (s: string)
    ensures |s| == 2 * |b|
  {
    if b == [] then "" else [HexDigit(b[0] / 16), HexDigit(b[0] % 16)] + HexEncode(b[1..])
  }

  /** Two lower-case digits a byte, the high half first. */
  lemma {:induction false} HexAt(b: bytes, i: nat)
    requires i < |b|
    ensures HexEncode(b)[2 * i] == "0123456789abcdef"[b[i] / 16]
    ensures HexEncode(b)[2 * i + 1] == "0123456789abcdef"[b[i] % 16]
  {
    if i == 0 {
    } else {
      HexAt(b[1..], i - 1);
      var head := [HexDigit(b[0] / 16), HexDigit(b[0] % 16)];
      assert HexEncode(b) == head + HexEncode(b[1..]);
      assert HexEncode(b)[2 * i] == HexEncode(b[1..])[2 * (i - 1)];
      assert HexEncode(b)[2 * i + 1] == HexEncode(b[1..])[2 * (i - 1) + 1];
    }
  }

  lemma {:induction false} HexInjective(a: bytes, b: bytes)
    requires HexEncode(a) == HexEncode(b)
    ensures a == b
  {
    if a == [] || b == [] {
    } else {
      assert HexEncode(a)[0] == HexEncode(b)[0] && HexEncode(a)[1] == HexEncode(b)[1];
      assert HexEncode(a)[2..] == HexEncode(a[1..]) && HexEncode(b)[2..] == HexEncode(b[1..]);
      HexInjective(a[1..], b[1..]);
      assert a == [a[0]] + a[1..] && b == [b[0]] + b[1..];
    }
  }
}
