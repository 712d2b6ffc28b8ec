/** Fixed-width integers as bytes. */
module Bytes {

  const U32_MOD := 0x1_0000_0000
  const U64_MOD := 0x1_0000_0000_0000_0000

  type byte = b: int | 0 <= b < 256

  function Pow256(k: nat): nat {
    if k == 0 then 1 else 256 * Pow256(k - 1)
  }

  /** k bytes, most significant first: htonl and u32::from_be_bytes. */
  function ToBe(n: nat, k: nat): (b: seq<byte>)
    ensures |b| == k
  {
    if k == 0 then [] else ToBe(n / 256, k - 1) + [n % 256]
  }

  function FromBe(b: seq<byte>): nat {
    if b == [] then 0 else 256 * FromBe(b[..|b| - 1]) + b[|b| - 1] as int
  }

  /** k bytes, least significant first: the memory of a packed struct's fields. */
  function ToLe(n: nat, k: nat): (b: seq<byte>)
    ensures |b| == k
  {
    if k == 0 then [] else [n % 256] + ToLe(n / 256, k - 1)
  }

  function FromLe(b: seq<byte>): nat {
    if b == [] then 0 else b[0] as int + 256 * FromLe(b[1..])
  }

  lemma {:induction false} BeRoundTrip(n: nat, k: nat)
    requires n < Pow256(k)
    ensures FromBe(ToBe(n, k)) == n
  {
    if k > 0 {
      BeRoundTrip(n / 256, k - 1);
      assert ToBe(n, k)[..k - 1] == ToBe(n / 256, k - 1);
    }
  }

  lemma {:induction false} LeRoundTrip(n: nat, k: nat)
    requires n < Pow256(k)
    ensures FromLe(ToLe(n, k)) == n
  {
    if k > 0 {
      LeRoundTrip(n / 256, k - 1);
      assert ToLe(n, k)[1..] == ToLe(n / 256, k - 1);
    }
  }

  lemma LowHigh(b: byte, n: nat)
    ensures (b as int + 256 * n) % 256 == b && (b as int + 256 * n) / 256 == n
  {
  }

  lemma {:induction false} LeRoundTripBack(b: seq<byte>)
    ensures FromLe(b) < Pow256(|b|) && ToLe(FromLe(b), |b|) == b
  {
    if b != [] {
      LeRoundTripBack(b[1..]);
      LowHigh(b[0], FromLe(b[1..]));
      assert b == [b[0]] + b[1..];
    }
  }

  // Which byte is which.

  lemma DivTwice(n: nat, a: nat)
    requires a == 256 || a == 0x1_0000 || a == 0x100_0000
    ensures n / a / 256 == n / (256 * a)
  {
  }

  /** The four octets of a u32, from the most significant down. */
  function Octets(n: nat): (o: seq<byte>)
    ensures |o| == 4
  {
    [n / 0x100_0000 % 256, n / 0x1_0000 % 256, n / 0x100 % 256, n % 256]
  }

  /** htonl: the most significant byte comes first. */
  lemma ToBe4(n: nat)
    ensures ToBe(n, 4) == Octets(n)
  {
    var l := n / 256;
    var m := l / 256;
    DivTwice(n, 0x100);
    DivTwice(n, 0x1_0000);
    assert ToBe(n, 4) == ToBe(l, 3) + [n % 256] && ToBe(l, 3) == ToBe(m, 2) + [l % 256];
    assert ToBe(m, 2) == ToBe(m / 256, 1) + [m % 256] && ToBe(m / 256, 1) == [] + [m / 256 % 256];
  }

  /** from_be_bytes */
  lemma FromBe4(b: seq<byte>)
    requires |b| == 4
    ensures FromBe(b) == 0x100_0000 * b[0] as int + 0x1_0000 * b[1] as int + 0x100 * b[2] as int + b[3] as int
  {
    var c, d, e := b[..3], b[..2], b[..1];
    assert c[..2] == d && d[..1] == e && e[..0] == [];
    assert FromBe(e) == b[0] && FromBe(d) == 256 * FromBe(e) + b[1] as int;
    assert FromBe(c) == 256 * FromBe(d) + b[2] as int;
  }

  /** In memory the least significant byte comes first. */
  lemma ToLe4(n: nat)
    ensures var o := Octets(n); ToLe(n, 4) == [o[3], o[2], o[1], o[0]]
  {
    var l := n / 256;
    var m := l / 256;
    DivTwice(n, 0x100);
    DivTwice(n, 0x1_0000);
    assert ToLe(n, 4) == [n % 256] + ToLe(l, 3) && ToLe(l, 3) == [l % 256] + ToLe(m, 2);
    assert ToLe(m, 2) == [m % 256] + ToLe(m / 256, 1) && ToLe(m / 256, 1) == [m / 256 % 256] + [];
  }

  lemma FromLe4(b: seq<byte>)
    requires |b| == 4
    ensures FromLe(b) == b[0] as int + 0x100 * b[1] as int + 0x1_0000 * b[2] as int + 0x100_0000 * b[3] as int
  {
    var c, d, e := b[1..], b[2..], b[3..];
    assert c[1..] == d && d[1..] == e && e[1..] == [];
    assert FromLe(e) == b[3] && FromLe(d) == b[2] as int + 256 * FromLe(e);
    assert FromLe(c) == b[1] as int + 256 * FromLe(d);
  }

  /** A u64 is two such halves, the low one first. */
  lemma Le8(n: nat, b: seq<byte>)
    requires |b| == 8
    ensures ToLe(n, 8) == ToLe(n, 4) + ToLe(n / U32_MOD, 4)
    ensures FromLe(b) == FromLe(b[..4]) + U32_MOD * FromLe(b[4..])
  {
    LeHalves(n, 4);
    assert b == b[..4] + b[4..] && Pow256(4) == U32_MOD;
    LeJoin(b[..4], b[4..]);
  }

  lemma ToLe8(n: nat)
    ensures var low, high := Octets(n), Octets(n / U32_MOD);
            ToLe(n, 8) == [low[3], low[2], low[1], low[0], high[3], high[2], high[1], high[0]]
  {
    LeHalves(n, 4);
    ToLe4(n);
    ToLe4(n / U32_MOD);
  }

  lemma LeHalves(n: nat, k: nat)
    ensures ToLe(n, 4 + k) == ToLe(n, 4) + ToLe(n / U32_MOD, k)
  {
    var l := n / 256;
    var m := l / 256;
    var o := m / 256;
    DivTwice(n, 0x100);
    DivTwice(n, 0x1_0000);
    DivTwice(n, 0x100_0000);
    ToLe4(n);
    assert ToLe(n, 4 + k) == [n % 256] + ToLe(l, 3 + k) && ToLe(l, 3 + k) == [l % 256] + ToLe(m, 2 + k);
    assert ToLe(m, 2 + k) == [m % 256] + ToLe(o, 1 + k) && ToLe(o, 1 + k) == [o % 256] + ToLe(o / 256, k);
  }

  lemma {:induction false} LeJoin(a: seq<byte>, b: seq<byte>)
    ensures FromLe(a + b) == FromLe(a) + Pow256(|a|) * FromLe(b)
  {
    if a == [] {
      assert a + b == b;
    } else {
      assert (a + b)[1..] == a[1..] + b;
      LeJoin(a[1..], b);
      Scaled(a[0], FromLe(a[1..]), Pow256(|a| - 1), FromLe(b));
    }
  }

  lemma Scaled(c: nat, w: nat, x: nat, y: nat)
    ensures c + 256 * (w + x * y) == c + 256 * w + 256 * x * y
  {
  }
}
