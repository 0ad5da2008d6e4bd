/** Bytes and the fixed-width integers of `java.io.DataInput` / `DataOutput`:
    big-endian, two's complement. */
module Bytes {

  /** An unsigned octet as it travels on the wire. */
  type byte = b: int | 0 <= b < 256

  /** Java's signed primitive integer types. */
  type i8 = v: int | -0x80 <= v < 0x80
  type i16 = v: int | -0x8000 <= v < 0x8000
  type i32 = v: int | -0x8000_0000 <= v < 0x8000_0000
  type i64 = v: int | -0x8000_0000_0000_0000 <= v < 0x8000_0000_0000_0000

  /** Bit patterns carried verbatim (the payloads of FLOAT and DOUBLE). */
  type u32 = v: int | 0 <= v < 0x1_0000_0000
  type u64 = v: int | 0 <= v < 0x1_0000_0000_0000_0000

  function Pow256(n: nat): (r: int)
    ensures r >= 1
  {
    if n == 0 then 1 else 256 * Pow256(n - 1)
  }

  /** Widths of `short`, `int` and `long` in bytes (`Short.BYTES` and so on). */
  const SHORT_BYTES: nat := 2
  const INT_BYTES: nat := 4
  const LONG_BYTES: nat := 8

  /** The powers the fixed-width reads and writes use. */
  lemma Pow256Values()
    ensures Pow256(0) == 1 && Pow256(1) == 0x100 && Pow256(2) == 0x1_0000
    ensures Pow256(3) == 0x100_0000 && Pow256(4) == 0x1_0000_0000
    ensures Pow256(7) == 0x100_0000_0000_0000 && Pow256(8) == 0x1_0000_0000_0000_0000
  {
    assert Pow256(1) == 0x100;
    assert Pow256(2) == 0x1_0000;
    assert Pow256(3) == 0x100_0000;
    assert Pow256(4) == 0x1_0000_0000;
    assert Pow256(5) == 0x1_0000_0000_00;
    assert Pow256(6) == 0x1_0000_0000_0000;
    assert Pow256(7) == 0x100_0000_0000_0000;
  }

  /** The low `n` bytes of `v`, most significant first. For a negative `v`
      this is its two's-complement pattern; for a `v` too wide for `n`
      bytes the high part is dropped, as `writeShort`/`writeInt` do. */
  function BigEndian(v: int, n: nat): (r: seq<byte>)
    ensures |r| == n
  {
    seq(n, i requires 0 <= i < n => ByteAt(v, n, i))
  }

  /** Byte `i` of the `n`-byte big-endian encoding of `v`. */
  function ByteAt(v: int, n: nat, i: nat): byte
    requires i < n
  {
    (v / Pow256(n - 1 - i)) % 256
  }

  /** A one-byte encoding of a value that fits in a byte is that byte. */
  lemma BigEndianByte(v: int)
    requires 0 <= v < 256
    ensures BigEndian(v, 1) == [v]
  {
    assert BigEndian(v, 1)[0] == (v / 1) % 256;
  }

  /** The last byte of a big-endian encoding is the low byte; the bytes
      before it encode the rest of the value. */
  lemma BigEndianSplit(v: int, n: nat)
    requires n > 0
    ensures BigEndian(v, n) == BigEndian(v / 256, n - 1) + [v % 256]
  {
    var l := BigEndian(v, n);
    var r := BigEndian(v / 256, n - 1) + [v % 256];
    forall i | 0 <= i < n ensures l[i] == r[i] {
      if i < n - 1 {
        var p := Pow256(n - 2 - i);
        assert Pow256(n - 1 - i) == 256 * p;
        DivDiv(v, 256, p);
        assert l[i] == (v / (256 * p)) % 256;
        assert r[i] == ((v / 256) / p) % 256;
      } else {
        assert Pow256(n - 1 - i) == 1;
        assert l[i] == (v / 1) % 256;
      }
    }
  }

  /** Euclidean division is determined by the quotient and remainder it
      must satisfy. */
  lemma DivUnique(v: int, d: int, q: int, r: int)
    requires d > 0 && v == d * q + r && 0 <= r < d
    ensures v / d == q && v % d == r
  {
    var k := q - v / d;
    assert d * k == v % d - r;
    if k >= 1 {
      MulMono(d, k);
    } else if k <= -1 {
      MulMono(d, -k);
    }
  }

  lemma MulMono(d: int, k: int)
    requires d > 0 && k >= 1
    ensures d * k >= d && d * -k == -(d * k)
  {
  }

  lemma DivDiv(v: int, a: int, b: int)
    requires a > 0 && b > 0
    ensures v / (a * b) == (v / a) / b
  {
    var q, r := v / a, v % a;
    var q2, r2 := q / b, q % b;
    var m := a * r2 + r;
    assert v == (a * b) * q2 + m by {
      assert v == a * q + r;
      assert q == b * q2 + r2;
      Distrib(a, b * q2, r2);
      assert a * (b * q2) == (a * b) * q2;
    }
    assert m < a * b by {
      Distrib(a, r2, b - 1 - r2);
      assert a * (b - 1) == a * b - a by { Distrib(a, b, -1); }
      assert 0 <= a * (b - 1 - r2);
    }
    assert 0 <= a * r2;
    DivUnique(v, a * b, q2, m);
  }

  lemma Distrib(a: int, x: int, y: int)
    ensures a * (x + y) == a * x + a * y
  {
  }

  /** The unsigned value of a big-endian byte sequence (`readUnsignedShort`). */
  function Unsigned(s: seq<byte>): (r: nat)
    ensures r < Pow256(|s|)
  {
    if |s| == 0 then 0 else Unsigned(s[..|s| - 1]) * 256 + s[|s| - 1]
  }

  /** The two's-complement value of a big-endian byte sequence
      (`readByte`, `readShort`, `readInt`, `readLong`). */
  function Signed(s: seq<byte>): (r: int)
    requires |s| >= 1
    ensures -128 * Pow256(|s| - 1) <= r < 128 * Pow256(|s| - 1)
  {
    var u := Unsigned(s);
    if u >= 128 * Pow256(|s| - 1) then u - Pow256(|s|) else u
  }

  /** Reading back the low `n` bytes of `v` gives `v` itself when it is in the
      unsigned range, and `v + 256^n` when it is in the negative range. */
  lemma {:induction false} UnsignedBigEndian(v: int, n: nat)
    requires -Pow256(n) <= v < Pow256(n)
    ensures Unsigned(BigEndian(v, n)) == if v >= 0 then v else v + Pow256(n)
    decreases n
  {
    if n > 0 {
      var q, r, p := v / 256, v % 256, Pow256(n - 1);
      assert v == q * 256 + r && 0 <= r < 256;
      assert Pow256(n) == 256 * p;
      assert -p <= q < p;
      UnsignedBigEndian(q, n - 1);
      BigEndianSplit(v, n);
      var s := BigEndian(v, n);
      assert s[..|s| - 1] == BigEndian(q, n - 1);
      var u := Unsigned(BigEndian(q, n - 1));
      assert Unsigned(s) == u * 256 + r;
      if v >= 0 {
        assert q >= 0 && u == q;
      } else {
        assert q < 0 && u == q + p;
        assert u * 256 + r == v + 256 * p;
      }
    }
  }

  /** Writing a value in the signed range of `n` bytes and reading it back
      signed is the identity. */
  lemma SignedBigEndian(v: int, n: nat)
    requires n >= 1
    requires -128 * Pow256(n - 1) <= v < 128 * Pow256(n - 1)
    ensures Signed(BigEndian(v, n)) == v
  {
    UnsignedBigEndian(v, n);
  }

  /** Writing a value in the unsigned range of `n` bytes and reading it
      back unsigned is the identity. */
  lemma UnsignedRoundTrip(v: int, n: nat)
    requires 0 <= v < Pow256(n)
    ensures Unsigned(BigEndian(v, n)) == v
  {
    UnsignedBigEndian(v, n);
  }

  /** Every byte sequence is the big-endian encoding of its unsigned value. */
  lemma {:induction false} BigEndianUnsigned(s: seq<byte>)
    ensures BigEndian(Unsigned(s), |s|) == s
  {
    if |s| > 0 {
      var init := s[..|s| - 1];
      BigEndianUnsigned(init);
      var u := Unsigned(s);
      DivUnique(u, 256, Unsigned(init), s[|s| - 1]);
      BigEndianSplit(u, |s|);
      assert s == init + [s[|s| - 1]];
    }
  }
}
