/** The CRC-32 that gzip carries (pkg/kubelet/src/container_logs.rs, `crc32`), against
    polynomial division over GF(2) (the CRC32 field, section 2.3.1 of RFC 1952).

    A polynomial is its coefficients, highest degree first. */
module Crc32 {
  type Poly = seq<bool>

  const POLY: bv32 := 0xEDB8_8320
  const BYTE: nat := 8

  // ---------------------------------------------------------------- the loop

  /** One turn of the inner loop. */
  function Shift(c: bv32): bv32 {
    if c & 1 != 0 then (c >> 1) ^ POLY else c >> 1
  }

  function Shifts(c: bv32, n: nat): bv32
    decreases n
  {
    if n == 0 then c else Shifts(Shift(c), n - 1)
  }

  function Mix(c: bv32, b: bv8): bv32 { c ^ b as bv32 }

  /** The register after one byte. */
  function Absorb(c: bv32, b: bv8): bv32 { Shifts(Mix(c, b), BYTE) }

  /** The register after `data`. */
  function Register(c: bv32, data: seq<bv8>): bv32
    decreases data
  {
    if data == [] then c else Register(Absorb(c, data[0]), data[1..])
  }

  function Crc(data: seq<bv8>): bv32 {
    !Register(0xFFFF_FFFF, data)
  }

  method Compute(data: seq<bv8>) returns (crc: bv32)
    ensures crc == Crc(data)
  {
    var c: bv32 := 0xFFFF_FFFF;
    for i := 0 to |data|
      invariant Register(c, data[i..]) == Register(0xFFFF_FFFF, data)
    {
      assert data[i..][1..] == data[i + 1..];
      ghost var next := Absorb(c, data[i]);
      c := Mix(c, data[i]);
      for j := 0 to 8
        invariant Shifts(c, BYTE - j) == next
      {
        c := Shift(c);
      }
    }
    crc := !c;
  }

  // ---------------------------------------------------------------- polynomials

  function Zeros(n: nat): (p: Poly)
    ensures |p| == n && forall i :: 0 <= i < n ==> !p[i]
  {
    seq(n, _ => false)
  }

  function Ones(n: nat): (p: Poly)
    ensures |p| == n && forall i :: 0 <= i < n ==> p[i]
  {
    seq(n, _ => true)
  }

  /** The sum of two polynomials of the same length. */
  function Sum(a: Poly, b: Poly): (p: Poly)
    requires |a| == |b|
    ensures |p| == |a| && forall i :: 0 <= i < |a| ==> p[i] == (a[i] != b[i])
  {
    seq(|a|, i requires 0 <= i < |a| => a[i] != b[i])
  }

  /** x^32 + x^26 + x^23 + x^22 + x^16 + x^12 + x^11 + x^10 + x^8 + x^7 + x^5 + x^4 + x^2 + x + 1 */
  function Generator(): (g: Poly)
    ensures Monic(g)
  {
    [true,
     false, false, false, false, false, true, false, false,
     true, true, false, false, false, false, false, true,
     false, false, false, true, true, true, false, true,
     true, false, true, true, false, true, true, true]
  }

  /** Of degree exactly 32. */
  predicate Monic(g: Poly) {
    |g| == 33 && g[0]
  }

  /** `g` if `b`, and zero otherwise. */
  function Scaled(b: bool, g: Poly): (p: Poly)
    ensures |p| == |g| && forall i :: 0 <= i < |g| ==> p[i] == (b && g[i])
  {
    seq(|g|, i requires 0 <= i < |g| => b && g[i])
  }

  /** The product of `q` and `g`, by Horner's rule: q[..n-1] times x, plus q[n-1]. */
  function Times(q: Poly, g: Poly): (p: Poly)
    requires |g| == 33
    ensures |p| == |q| + 32
  {
    if q == [] then Zeros(32)
    else
      var n := |q| - 1;
      Sum(Times(q[..n], g) + [false], Zeros(n) + Scaled(q[n], g))
  }

  /** `t` plus `r`, whose degree is below 32. */
  function Plus(t: Poly, r: Poly): (p: Poly)
    requires |t| >= 32 == |r|
    ensures |p| == |t|
  {
    Sum(t, Zeros(|t| - 32) + r)
  }

  /** A dividend: quotient times generator plus remainder. */
  function Dividend(q: Poly, g: Poly, r: Poly): (m: Poly)
    requires |g| == 33 && |r| == 32
    ensures |m| == |q| + 32
  {
    Plus(Times(q, g), r)
  }

  /** m == q * g + r, with r of degree below 32. */
  ghost predicate Divides(m: Poly, q: Poly, g: Poly, r: Poly) {
    |g| == 33 && |r| == 32 && m == Dividend(q, g, r)
  }

  ghost predicate IsRemainder(m: Poly, g: Poly, r: Poly) {
    exists q :: Divides(m, q, g, r)
  }

  /** The 32 bits after the quotient, one Horner step earlier. */
  function Carry(b: bool, g: Poly, r: Poly): (p: Poly)
    requires Monic(g) && |r| == 32
    ensures |p| == 32 && p[0] == b && forall i :: 0 < i < 32 ==> p[i] == (r[i - 1] != (b && g[i]))
  {
    seq(32, i requires 0 <= i < 32 => if i == 0 then b else r[i - 1] != (b && g[i]))
  }

  lemma SnocAt(a: Poly, x: bool, i: nat)
    requires i <= |a|
    ensures (a + [x])[i] == if i < |a| then a[i] else x
  {
  }

  lemma ShiftedAt(n: nat, p: Poly, i: nat)
    requires i < n + |p|
    ensures (Zeros(n) + p)[i] == (n <= i && p[i - n])
  {
  }

  /** Horner's step: the last coefficient of `q` adds `g`, shifted to its place. */
  lemma TimesStep(q: Poly, g: Poly)
    requires q != [] && |g| == 33
    ensures var n := |q| - 1;
            Times(q, g) == Sum(Times(q[..n], g) + [false], Zeros(n) + Scaled(q[n], g))
  {
  }

  lemma PlusAt(t: Poly, r: Poly, i: nat)
    requires |t| >= 32 == |r| && i < |t|
    ensures Plus(t, r)[i] == (t[i] != (|t| - 32 <= i && r[i - (|t| - 32)]))
  {
    ShiftedAt(|t| - 32, r, i);
  }

  lemma CarryAt(b: bool, g: Poly, r: Poly, i: nat)
    requires Monic(g) && |r| == 32 && i < 32
    ensures Carry(b, g, r)[i] == if i == 0 then b else r[i - 1] != (b && g[i])
  {
  }

  /** `t` is `s` times x plus, if `b`, `g`: what a Horner step makes of one product. */
  ghost predicate HornerStep(t: Poly, s: Poly, b: bool, g: Poly) {
    && |g| == 33 && |s| >= 32 && |t| == |s| + 1
    && forall i :: 0 <= i < |t| ==> t[i] == ((i < |s| && s[i]) != (|s| - 32 <= i && b && g[i - (|s| - 32)]))
  }

  lemma HornerAt(s: Poly, b: bool, g: Poly, i: nat)
    requires |s| >= 32 && |g| == 33 && i <= |s|
    ensures Sum(s + [false], Zeros(|s| - 32) + Scaled(b, g))[i]
            == ((i < |s| && s[i]) != (|s| - 32 <= i && b && g[i - (|s| - 32)]))
  {
    SnocAt(s, false, i);
    ShiftedAt(|s| - 32, Scaled(b, g), i);
  }

  lemma SumIsHorner(s: Poly, b: bool, g: Poly)
    requires |s| >= 32 && |g| == 33
    ensures HornerStep(Sum(s + [false], Zeros(|s| - 32) + Scaled(b, g)), s, b, g)
  {
    var t := Sum(s + [false], Zeros(|s| - 32) + Scaled(b, g));
    forall i | 0 <= i < |t|
      ensures t[i] == ((i < |s| && s[i]) != (|s| - 32 <= i && b && g[i - (|s| - 32)]))
    {
      HornerAt(s, b, g, i);
    }
  }

  lemma TimesSteps(q: Poly, g: Poly)
    requires q != [] && |g| == 33
    ensures HornerStep(Times(q, g), Times(q[..|q| - 1], g), q[|q| - 1], g)
  {
    TimesStep(q, g);
    SumIsHorner(Times(q[..|q| - 1], g), q[|q| - 1], g);
  }

  lemma PeelAt(t: Poly, s: Poly, b: bool, g: Poly, r: Poly, i: nat)
    requires HornerStep(t, s, b, g) && Monic(g) && |r| == 32 && i < |t|
    ensures Plus(t, r)[i] == if i < |s| then Plus(s, Carry(b, g, r))[i] else (b && g[32]) != r[31]
  {
    PlusAt(t, r, i);
    if i < |s| {
      PlusAt(s, Carry(b, g, r), i);
      if |s| - 32 <= i { CarryAt(b, g, r, i - (|s| - 32)); }
    }
  }

  /** Taking a Horner step off a product carries what it added into the remainder. */
  lemma Peel(t: Poly, s: Poly, b: bool, g: Poly, r: Poly)
    requires HornerStep(t, s, b, g) && Monic(g) && |r| == 32
    ensures Plus(t, r) == Plus(s, Carry(b, g, r)) + [(b && g[32]) != r[31]]
  {
    var short, last := Plus(s, Carry(b, g, r)), (b && g[32]) != r[31];
    forall i | 0 <= i < |t| ensures Plus(t, r)[i] == (short + [last])[i] {
      PeelAt(t, s, b, g, r, i);
      SnocAt(short, last, i);
    }
  }

  lemma PeelLast(q: Poly, g: Poly, r: Poly)
    requires q != [] && Monic(g) && |r| == 32
    ensures var n := |q| - 1;
            Dividend(q, g, r) == Dividend(q[..n], g, Carry(q[n], g, r)) + [(q[n] && g[32]) != r[31]]
  {
    TimesSteps(q, g);
    Peel(Times(q, g), Times(q[..|q| - 1], g), q[|q| - 1], g, r);
  }

  lemma CarryDetermines(p: bool, q: bool, g: Poly, r: Poly, s: Poly)
    requires Monic(g) && |r| == 32 && |s| == 32
    requires Carry(p, g, r) == Carry(q, g, s)
    requires ((p && g[32]) != r[31]) == ((q && g[32]) != s[31])
    ensures p == q && r == s
  {
    assert Carry(p, g, r)[0] == Carry(q, g, s)[0];
    forall i | 0 <= i < 32 ensures r[i] == s[i] {
      if i < 31 { assert Carry(p, g, r)[i + 1] == Carry(q, g, s)[i + 1]; }
    }
  }

  /** The generator is monic, so a multiple's leading bits determine its quotient. */
  lemma {:induction false} QuotientIsUnique(p: Poly, q: Poly, g: Poly, r: Poly, s: Poly)
    requires |p| == |q| && Monic(g) && |r| == 32 && |s| == 32
    requires Dividend(p, g, r) == Dividend(q, g, s)
    ensures p == q && r == s
    decreases |p|
  {
    if p == [] {
      SumOfZeros(Times(p, g), r);
      SumOfZeros(Times(q, g), s);
    } else {
      var n := |p| - 1;
      PeelLast(p, g, r);
      PeelLast(q, g, s);
      SameSnoc(Dividend(p[..n], g, Carry(p[n], g, r)), (p[n] && g[32]) != r[31],
               Dividend(q[..n], g, Carry(q[n], g, s)), (q[n] && g[32]) != s[31]);
      QuotientIsUnique(p[..n], q[..n], g, Carry(p[n], g, r), Carry(q[n], g, s));
      CarryDetermines(p[n], q[n], g, r, s);
      assert p == p[..n] + [p[n]] && q == q[..n] + [q[n]];
    }
  }

  lemma SumOfZeros(z: Poly, r: Poly)
    requires |z| == |r| && forall i :: 0 <= i < |z| ==> !z[i]
    ensures Sum(z, Zeros(0) + r) == r
  {
  }

  lemma SameSnoc(a: Poly, x: bool, b: Poly, y: bool)
    requires a + [x] == b + [y] && |a| == |b|
    ensures a == b && x == y
  {
    assert a == (a + [x])[..|a|] && b == (b + [y])[..|b|];
    assert (a + [x])[|a|] == (b + [y])[|b|];
  }

  /** A polynomial has one remainder. */
  lemma RemainderIsUnique(m: Poly, g: Poly, r: Poly, s: Poly)
    requires Monic(g) && IsRemainder(m, g, r) && IsRemainder(m, g, s)
    ensures r == s
  {
    var p :| Divides(m, p, g, r);
    var q :| Divides(m, q, g, s);
    QuotientIsUnique(p, q, g, r, s);
  }

  // ---------------------------------------------------------------- registers as polynomials

  predicate On(c: bv32, m: bv32) {
    c & m != 0
  }

  function Mask(i: nat): bv32
    decreases i
  {
    if i == 0 then 1 else Mask(i - 1) << 1
  }

  /** A register as a polynomial: the lowest bit is the coefficient of the highest power. */
  function Bits(c: bv32): (p: Poly)
    ensures |p| == 32 && forall i :: 0 <= i < 32 ==> p[i] == On(c, Mask(i))
  {
    seq(32, i requires 0 <= i < 32 => On(c, Mask(i)))
  }

  /** A byte's bits in the order they are sent, lowest first. */
  function ByteBits(b: bv8): (p: Poly)
    ensures |p| == 8
  {
    Bits(Wide(b))[..8]
  }

  function Wide(b: bv8): bv32 { b as bv32 }

  lemma XorAt(a: bv32, b: bv32, m: bv32)
    requires m & (m - 1) == 0
    ensures ((a ^ b) & m != 0) == ((a & m != 0) != (b & m != 0))
  {
    assert a & m == 0 || a & m == m;
    assert b & m == 0 || b & m == m;
    assert (a ^ b) & m == (a & m) ^ (b & m);
  }

  lemma HalfAt(c: bv32, m: bv32)
    ensures ((c >> 1) & m != 0) == (c & (m << 1) != 0)
  {
  }

  lemma DoubleOneBit(m: bv32)
    requires m & (m - 1) == 0
    ensures (m << 1) & ((m << 1) - 1) == 0
  {
  }

  lemma {:induction false} MaskIsOneBit(i: nat)
    ensures Mask(i) & (Mask(i) - 1) == 0
    decreases i
  {
    if i > 0 {
      MaskIsOneBit(i - 1);
      DoubleOneBit(Mask(i - 1));
    }
  }

  lemma MaskStep(i: nat, m: bv32)
    requires Mask(i) == m
    ensures Mask(i + 1) == m << 1
  {
  }

  lemma MaskValues()
    ensures Mask(0) == 0x1 && Mask(1) == 0x2 && Mask(2) == 0x4 && Mask(3) == 0x8
    ensures Mask(4) == 0x10 && Mask(5) == 0x20 && Mask(6) == 0x40 && Mask(7) == 0x80
    ensures Mask(8) == 0x100 && Mask(9) == 0x200 && Mask(10) == 0x400 && Mask(11) == 0x800
    ensures Mask(12) == 0x1000 && Mask(13) == 0x2000 && Mask(14) == 0x4000 && Mask(15) == 0x8000
    ensures Mask(16) == 0x10000 && Mask(17) == 0x20000 && Mask(18) == 0x40000 && Mask(19) == 0x80000
    ensures Mask(20) == 0x100000 && Mask(21) == 0x200000 && Mask(22) == 0x400000 && Mask(23) == 0x800000
    ensures Mask(24) == 0x1000000 && Mask(25) == 0x2000000 && Mask(26) == 0x4000000 && Mask(27) == 0x8000000
    ensures Mask(28) == 0x10000000 && Mask(29) == 0x20000000 && Mask(30) == 0x40000000 && Mask(31) == 0x80000000
    ensures Mask(32) == 0
  {
    MaskStep(0, 0x1); MaskStep(1, 0x2); MaskStep(2, 0x4); MaskStep(3, 0x8);
    MaskStep(4, 0x10); MaskStep(5, 0x20); MaskStep(6, 0x40); MaskStep(7, 0x80);
    MaskStep(8, 0x100); MaskStep(9, 0x200); MaskStep(10, 0x400); MaskStep(11, 0x800);
    MaskStep(12, 0x1000); MaskStep(13, 0x2000); MaskStep(14, 0x4000); MaskStep(15, 0x8000);
    MaskStep(16, 0x10000); MaskStep(17, 0x20000); MaskStep(18, 0x40000); MaskStep(19, 0x80000);
    MaskStep(20, 0x100000); MaskStep(21, 0x200000); MaskStep(22, 0x400000); MaskStep(23, 0x800000);
    MaskStep(24, 0x1000000); MaskStep(25, 0x2000000); MaskStep(26, 0x4000000); MaskStep(27, 0x8000000);
    MaskStep(28, 0x10000000); MaskStep(29, 0x20000000); MaskStep(30, 0x40000000); MaskStep(31, 0x80000000);
  }

  lemma XorBits(a: bv32, b: bv32)
    ensures Bits(a ^ b) == Sum(Bits(a), Bits(b))
  {
    forall i | 0 <= i < 32 ensures Bits(a ^ b)[i] == Sum(Bits(a), Bits(b))[i] {
      MaskIsOneBit(i);
      XorAt(a, b, Mask(i));
    }
  }

  lemma PastTheEnd(c: bv32)
    ensures !On(c, Mask(32))
  {
    MaskValues();
  }

  lemma HalfOn(c: bv32, m: bv32)
    ensures On(c >> 1, m) == On(c, m << 1)
  {
    HalfAt(c, m);
  }

  lemma HalfBits(c: bv32, i: nat)
    requires i < 32
    ensures Bits(c >> 1)[i] == (i < 31 && Bits(c)[i + 1])
  {
    HalfOn(c, Mask(i));
    MaskStep(i, Mask(i));
    PastTheEnd(c);
  }

  lemma PolyOn()
    ensures !On(POLY, 0x1) && !On(POLY, 0x2) && !On(POLY, 0x4) && !On(POLY, 0x8)
    ensures !On(POLY, 0x10) && On(POLY, 0x20) && !On(POLY, 0x40) && !On(POLY, 0x80)
    ensures On(POLY, 0x100) && On(POLY, 0x200) && !On(POLY, 0x400) && !On(POLY, 0x800)
    ensures !On(POLY, 0x1000) && !On(POLY, 0x2000) && !On(POLY, 0x4000) && On(POLY, 0x8000)
    ensures !On(POLY, 0x10000) && !On(POLY, 0x20000) && !On(POLY, 0x40000) && On(POLY, 0x80000)
    ensures On(POLY, 0x100000) && On(POLY, 0x200000) && !On(POLY, 0x400000) && On(POLY, 0x800000)
    ensures On(POLY, 0x1000000) && !On(POLY, 0x2000000) && On(POLY, 0x4000000) && On(POLY, 0x8000000)
    ensures !On(POLY, 0x10000000) && On(POLY, 0x20000000) && On(POLY, 0x40000000) && On(POLY, 0x80000000)
  {
  }

  lemma PolyBit(i: nat)
    requires i < 32
    ensures On(POLY, Mask(i)) == Generator()[i + 1]
  {
    PolyOn();
    MaskValues();
    if i < 8 {
    } else if i < 16 {
    } else if i < 24 {
    } else {
    }
  }

  lemma PolyBits()
    ensures forall i :: 0 <= i < 32 ==> Bits(POLY)[i] == Generator()[i + 1]
  {
    forall i | 0 <= i < 32 ensures Bits(POLY)[i] == Generator()[i + 1] {
      PolyBit(i);
    }
  }

  lemma MaskIsThere(i: nat)
    requires i < 32
    ensures Mask(i) != 0
  {
    MaskValues();
  }

  lemma AllOn(m: bv32)
    requires m != 0
    ensures On(0xFFFF_FFFF, m)
  {
  }

  lemma OnesBits()
    ensures Bits(0xFFFF_FFFF) == Ones(32)
  {
    forall i | 0 <= i < 32 ensures Bits(0xFFFF_FFFF)[i] {
      MaskIsThere(i);
      AllOn(Mask(i));
    }
  }

  lemma BitsOfByte(b: bv8)
    ensures Bits(Wide(b)) == ByteBits(b) + Zeros(24)
  {
    MaskValues();
  }

  lemma ByteBitsDetermine(a: bv8, b: bv8)
    requires ByteBits(a) == ByteBits(b)
    ensures a == b
  {
    MaskValues();
    assert forall i :: 0 <= i < 8 ==> ByteBits(a)[i] == Bits(Wide(a))[i] && ByteBits(b)[i] == Bits(Wide(b))[i];
  }

  // ---------------------------------------------------------------- the loop divides

  /** Times x, reduced: one shift with feedback. */
  function Turn(r: Poly, g: Poly): (p: Poly)
    requires |r| == 32 && Monic(g)
    ensures |p| == 32 && forall i :: 0 <= i < 32 ==> p[i] == ((i < 31 && r[i + 1]) != (r[0] && g[i + 1]))
  {
    seq(32, i requires 0 <= i < 32 => (i < 31 && r[i + 1]) != (r[0] && g[i + 1]))
  }

  function Turns(r: Poly, g: Poly, n: nat): (p: Poly)
    requires |r| == 32 && Monic(g)
    ensures |p| == 32
    decreases n
  {
    if n == 0 then r else Turns(Turn(r, g), g, n - 1)
  }

  /** The register after one message bit. */
  function Feed(r: Poly, g: Poly, b: bool): (p: Poly)
    requires |r| == 32 && Monic(g)
    ensures |p| == 32
  {
    Turn(r[0 := r[0] != b], g)
  }

  function FeedAll(r: Poly, g: Poly, w: Poly): (p: Poly)
    requires |r| == 32 && Monic(g)
    ensures |p| == 32
    decreases |w|
  {
    if w == [] then r else FeedAll(Feed(r, g, w[0]), g, w[1..])
  }

  /** The bits of a message in the order they are sent. */
  function Message(data: seq<bv8>): (m: Poly)
    ensures |m| == 8 * |data|
  {
    if data == [] then [] else ByteBits(data[0]) + Message(data[1..])
  }

  /** The message times x^32, its first 32 bits complemented. */
  function Padded(m: Poly): (p: Poly)
    ensures |p| == |m| + 32
  {
    Sum(Ones(32) + Zeros(|m|), m + Zeros(32))
  }

  lemma LowBit(c: bv32)
    ensures Bits(c)[0] == (c & 1 != 0)
  {
  }

  lemma ShiftBit(c: bv32, i: nat)
    requires i < 32
    ensures Bits(Shift(c))[i] == (Bits(c >> 1)[i] != (Bits(c)[0] && Bits(POLY)[i]))
  {
    LowBit(c);
    XorBits(c >> 1, POLY);
  }

  lemma ShiftBits(c: bv32)
    ensures Bits(Shift(c)) == Turn(Bits(c), Generator())
  {
    PolyBits();
    forall i | 0 <= i < 32 ensures Bits(Shift(c))[i] == Turn(Bits(c), Generator())[i] {
      HalfBits(c, i);
      ShiftBit(c, i);
    }
  }

  lemma {:induction false} ShiftsBits(c: bv32, n: nat)
    ensures Bits(Shifts(c, n)) == Turns(Bits(c), Generator(), n)
    decreases n
  {
    if n > 0 {
      ShiftBits(c);
      ShiftsBits(Shift(c), n - 1);
    }
  }

  /** Adding up to 32 message bits at once and turning is feeding them one at a time. */
  lemma {:induction false} TurnsFeed(r: Poly, g: Poly, w: Poly)
    requires |r| == 32 && Monic(g) && |w| <= 32
    ensures Turns(Sum(r, w + Zeros(32 - |w|)), g, |w|) == FeedAll(r, g, w)
    decreases |w|
  {
    if w == [] {
      assert Sum(r, w + Zeros(32)) == r;
    } else {
      var mixed := Sum(r, w + Zeros(32 - |w|));
      var rest := w[1..];
      assert Turn(mixed, g) == Sum(Feed(r, g, w[0]), rest + Zeros(32 - |rest|));
      TurnsFeed(Feed(r, g, w[0]), g, rest);
    }
  }

  lemma AbsorbBits(c: bv32, b: bv8)
    ensures Bits(Absorb(c, b)) == FeedAll(Bits(c), Generator(), ByteBits(b))
  {
    XorBits(c, Wide(b));
    BitsOfByte(b);
    assert Mix(c, b) == c ^ Wide(b);
    ShiftsBits(Mix(c, b), BYTE);
    TurnsFeed(Bits(c), Generator(), ByteBits(b));
  }

  lemma {:induction false} FeedAppend(r: Poly, g: Poly, v: Poly, w: Poly)
    requires |r| == 32 && Monic(g)
    ensures FeedAll(r, g, v + w) == FeedAll(FeedAll(r, g, v), g, w)
    decreases |v|
  {
    if v == [] {
      assert v + w == w;
    } else {
      assert (v + w)[1..] == v[1..] + w;
      FeedAppend(Feed(r, g, v[0]), g, v[1..], w);
    }
  }

  lemma {:induction false} RegisterBits(c: bv32, data: seq<bv8>)
    ensures Bits(Register(c, data)) == FeedAll(Bits(c), Generator(), Message(data))
    decreases data
  {
    if data != [] {
      AbsorbBits(c, data[0]);
      RegisterBits(Absorb(c, data[0]), data[1..]);
      FeedAppend(Bits(c), Generator(), ByteBits(data[0]), Message(data[1..]));
    }
  }

  lemma PaddedSnoc(m: Poly, b: bool)
    ensures Padded(m + [b]) == Sum(Padded(m) + [false], Zeros(|m|) + [b] + Zeros(32))
  {
  }

  lemma PaddedAt(m: Poly, b: bool, i: nat)
    requires i < |m| + 33
    ensures Padded(m + [b])[i] == ((i < |m| + 32 && Padded(m)[i]) != (i == |m| && b))
  {
    PaddedSnoc(m, b);
    SnocAt(Padded(m), false, i);
    ShiftedAt(|m|, [b] + Zeros(32), i);
    assert Zeros(|m|) + [b] + Zeros(32) == Zeros(|m|) + ([b] + Zeros(32));
  }

  lemma FeedAt(t: Poly, s: Poly, g: Poly, r: Poly, b: bool, i: nat)
    requires Monic(g) && |r| == 32 && HornerStep(t, s, r[0] != b, g) && i < |t|
    ensures Plus(t, Feed(r, g, b))[i] == ((i < |s| && Plus(s, r)[i]) != (i == |s| - 32 && b))
  {
    PlusAt(t, Feed(r, g, b), i);
    if i < |s| {
      PlusAt(s, r, i);
    }
  }

  /** One message bit: the quotient gains the feedback bit, and the register stays the remainder. */
  lemma FeedDivides(m: Poly, q: Poly, g: Poly, r: Poly, b: bool)
    requires Monic(g) && Divides(Padded(m), q, g, r)
    ensures Divides(Padded(m + [b]), q + [r[0] != b], g, Feed(r, g, b))
  {
    var q' := q + [r[0] != b];
    assert q'[..|q|] == q;
    TimesSteps(q', g);
    FeedStep(m, Times(q', g), Times(q, g), g, r, b);
  }

  lemma FeedStep(m: Poly, t: Poly, s: Poly, g: Poly, r: Poly, b: bool)
    requires Monic(g) && |r| == 32 && HornerStep(t, s, r[0] != b, g) && Padded(m) == Plus(s, r)
    ensures Padded(m + [b]) == Plus(t, Feed(r, g, b))
  {
    forall i | 0 <= i < |t| ensures Padded(m + [b])[i] == Plus(t, Feed(r, g, b))[i] {
      PaddedAt(m, b, i);
      FeedAt(t, s, g, r, b, i);
    }
  }

  lemma {:induction false} FeedAllIsRemainder(m: Poly, g: Poly, r: Poly, w: Poly)
    requires Monic(g) && IsRemainder(Padded(m), g, r)
    ensures |r| == 32 && IsRemainder(Padded(m + w), g, FeedAll(r, g, w))
    decreases |w|
  {
    var q :| Divides(Padded(m), q, g, r);
    if w == [] {
      assert m + w == m;
    } else {
      FeedDivides(m, q, g, r, w[0]);
      FeedAllIsRemainder(m + [w[0]], g, Feed(r, g, w[0]), w[1..]);
      assert m + [w[0]] + w[1..] == m + w;
    }
  }

  lemma NotBits(c: bv32)
    ensures Bits(c) == Sum(Bits(!c), Ones(32))
  {
    assert c == !c ^ 0xFFFF_FFFF;
    XorBits(!c, 0xFFFF_FFFF);
    OnesBits();
  }

  lemma EmptyRemainder(g: Poly)
    requires Monic(g)
    ensures IsRemainder(Padded([]), g, Ones(32))
  {
    SumOfZeros(Times([], g), Ones(32));
    assert Divides(Padded([]), [], g, Ones(32));
  }

  lemma RegisterIsRemainder(data: seq<bv8>)
    ensures IsRemainder(Padded(Message(data)), Generator(), Bits(Register(0xFFFF_FFFF, data)))
  {
    RegisterBits(0xFFFF_FFFF, data);
    OnesBits();
    EmptyRemainder(Generator());
    FeedAllIsRemainder([], Generator(), Ones(32), Message(data));
    assert [] + Message(data) == Message(data);
  }

  /** The loop computes polynomial division: the complement of the CRC, lowest bit first, is
      the one remainder of the padded message by the generator. */
  lemma CrcIsRemainder(data: seq<bv8>, r: Poly)
    ensures IsRemainder(Padded(Message(data)), Generator(), r) <==> r == Sum(Bits(Crc(data)), Ones(32))
  {
    var reg := Register(0xFFFF_FFFF, data);
    RegisterIsRemainder(data);
    NotBits(reg);
    if IsRemainder(Padded(Message(data)), Generator(), r) {
      RemainderIsUnique(Padded(Message(data)), Generator(), r, Bits(reg));
    }
  }

  // ---------------------------------------------------------------- error detection

  lemma TurnDetermines(r: Poly, s: Poly, g: Poly)
    requires |r| == |s| == 32 && Monic(g) && g[32]
    requires Turn(r, g) == Turn(s, g)
    ensures r == s
  {
    assert Turn(r, g)[31] == Turn(s, g)[31];
    forall i | 0 <= i < 32 ensures r[i] == s[i] {
      if i > 0 { assert Turn(r, g)[i - 1] == Turn(s, g)[i - 1]; }
    }
  }

  lemma {:induction false} TurnsDetermine(r: Poly, s: Poly, g: Poly, n: nat)
    requires |r| == |s| == 32 && Monic(g) && g[32]
    requires Turns(r, g, n) == Turns(s, g, n)
    ensures r == s
    decreases n
  {
    if n > 0 {
      TurnsDetermine(Turn(r, g), Turn(s, g), g, n - 1);
      TurnDetermines(r, s, g);
    }
  }

  lemma {:induction false} FeedAllDetermines(r: Poly, s: Poly, g: Poly, w: Poly)
    requires |r| == |s| == 32 && Monic(g) && g[32]
    requires FeedAll(r, g, w) == FeedAll(s, g, w)
    ensures r == s
    decreases |w|
  {
    if w != [] {
      FeedAllDetermines(Feed(r, g, w[0]), Feed(s, g, w[0]), g, w[1..]);
      TurnDetermines(r[0 := r[0] != w[0]], s[0 := s[0] != w[0]], g);
      forall i | 0 <= i < 32 ensures r[i] == s[i] {
        assert r[0 := r[0] != w[0]][i] == s[0 := s[0] != w[0]][i];
      }
    }
  }

  /** From one register, two different bursts of at most 32 bits lead to two registers. */
  lemma BurstChangesRegister(r: Poly, g: Poly, v: Poly, w: Poly)
    requires |r| == 32 && Monic(g) && g[32] && |v| == |w| <= 32
    requires FeedAll(r, g, v) == FeedAll(r, g, w)
    ensures v == w
  {
    TurnsFeed(r, g, v);
    TurnsFeed(r, g, w);
    var a, b := v + Zeros(32 - |v|), w + Zeros(32 - |w|);
    TurnsDetermine(Sum(r, a), Sum(r, b), g, |v|);
    forall i | 0 <= i < |v| ensures v[i] == w[i] {
      assert Sum(r, a)[i] == Sum(r, b)[i];
      assert a[i] == v[i] && b[i] == w[i];
    }
  }

  lemma {:induction false} MessageAppend(a: seq<bv8>, b: seq<bv8>)
    ensures Message(a + b) == Message(a) + Message(b)
    decreases a
  {
    if a == [] {
      assert a + b == b;
    } else {
      assert (a + b)[1..] == a[1..] + b;
      MessageAppend(a[1..], b);
    }
  }

  lemma {:induction false} MessageDetermines(a: seq<bv8>, b: seq<bv8>)
    requires |a| == |b| && Message(a) == Message(b)
    ensures a == b
    decreases a
  {
    if a != [] {
      assert Message(a)[..8] == ByteBits(a[0]) && Message(b)[..8] == ByteBits(b[0]);
      assert Message(a)[8..] == Message(a[1..]) && Message(b)[8..] == Message(b[1..]);
      ByteBitsDetermine(a[0], b[0]);
      MessageDetermines(a[1..], b[1..]);
    }
  }

  /** Inputs that differ only within four consecutive bytes have different CRCs. */
  lemma BurstChangesCrc(pre: seq<bv8>, v: seq<bv8>, w: seq<bv8>, post: seq<bv8>)
    requires |v| == |w| <= 4 && v != w
    ensures Crc(pre + v + post) != Crc(pre + w + post)
  {
    if Crc(pre + v + post) == Crc(pre + w + post) {
      var g, start := Generator(), Bits(0xFFFF_FFFF);
      RegisterBits(0xFFFF_FFFF, pre + v + post);
      RegisterBits(0xFFFF_FFFF, pre + w + post);
      var x, y := Register(0xFFFF_FFFF, pre + v + post), Register(0xFFFF_FFFF, pre + w + post);
      assert !(!x) == x && !(!y) == y;
      MessageAppend(pre + v, post);
      MessageAppend(pre + w, post);
      MessageAppend(pre, v);
      MessageAppend(pre, w);
      FeedAppend(start, g, Message(pre) + Message(v), Message(post));
      FeedAppend(start, g, Message(pre) + Message(w), Message(post));
      FeedAppend(start, g, Message(pre), Message(v));
      FeedAppend(start, g, Message(pre), Message(w));
      var r := FeedAll(start, g, Message(pre));
      FeedAllDetermines(FeedAll(r, g, Message(v)), FeedAll(r, g, Message(w)), g, Message(post));
      BurstChangesRegister(r, g, Message(v), Message(w));
      MessageDetermines(v, w);
    }
  }

  // ---------------------------------------------------------------- the check value

  lemma EightShifts(c: bv32)
    ensures Shifts(c, BYTE) == Shift(Shift(Shift(Shift(Shift(Shift(Shift(Shift(c))))))))
  {
    var c1 := Shift(c);
    var c2 := Shift(c1);
    var c3 := Shift(c2);
    var c4 := Shift(c3);
    assert Shifts(c, 8) == Shifts(c1, 7) == Shifts(c2, 6) == Shifts(c3, 5) == Shifts(c4, 4);
    var c5 := Shift(c4);
    var c6 := Shift(c5);
    var c7 := Shift(c6);
    assert Shifts(c4, 4) == Shifts(c5, 3) == Shifts(c6, 2) == Shifts(c7, 1) == Shifts(Shift(c7), 0);
  }

  lemma OneByteMore(c: bv32, b: bv8, rest: seq<bv8>)
    ensures Register(c, [b] + rest) == Register(Absorb(c, b), rest)
  {
    assert ([b] + rest)[1..] == rest;
  }

  lemma CheckBytes()
    ensures Absorb(0xFFFFFFFF, 49) == 0x7C231048
    ensures Absorb(0x7C231048, 50) == 0xB0ACBB32
    ensures Absorb(0xB0ACBB32, 51) == 0x77B79C2D
    ensures Absorb(0x77B79C2D, 52) == 0x641C1F5C
    ensures Absorb(0x641C1F5C, 53) == 0x340AC5E3
    ensures Absorb(0x340AC5E3, 54) == 0xF68D2C9E
    ensures Absorb(0xF68D2C9E, 55) == 0xAFFC9660
    ensures Absorb(0xAFFC9660, 56) == 0x651F2550
    ensures Absorb(0x651F2550, 57) == 0x340BC6D9
  {
    EightShifts(0xFFFFFFCE);
    EightShifts(0x7C23107A);
    EightShifts(0xB0ACBB01);
    EightShifts(0x77B79C19);
    EightShifts(0x641C1F69);
    EightShifts(0x340AC5D5);
    EightShifts(0xF68D2CA9);
    EightShifts(0xAFFC9658);
    EightShifts(0x651F2569);
  }

  /** The CRC of the digits one to nine, the value by which CRC-32 is known. */
  lemma CheckValue()
    ensures Crc([49, 50, 51, 52, 53, 54, 55, 56, 57]) == 0xCBF4_3926
  {
    CheckBytes();
    OneByteMore(0xFFFFFFFF, 49, [50, 51, 52, 53, 54, 55, 56, 57]);
    OneByteMore(0x7C231048, 50, [51, 52, 53, 54, 55, 56, 57]);
    OneByteMore(0xB0ACBB32, 51, [52, 53, 54, 55, 56, 57]);
    OneByteMore(0x77B79C2D, 52, [53, 54, 55, 56, 57]);
    OneByteMore(0x641C1F5C, 53, [54, 55, 56, 57]);
    OneByteMore(0x340AC5E3, 54, [55, 56, 57]);
    OneByteMore(0xF68D2C9E, 55, [56, 57]);
    OneByteMore(0xAFFC9660, 56, [57]);
    OneByteMore(0x651F2550, 57, []);
  }
}
