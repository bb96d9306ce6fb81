/** Powers of two and the bit smearing behind `nextPowerOf2`, on 64-bit words held in naturals. */
module PowersOfTwo {
  const WORD: nat := 0x1_0000_0000_0000_0000
  const HALF: nat := 0x8000_0000_0000_0000

  /** Decrement and increment of an unsigned 64-bit word. */
  function Dec(n: nat): nat { if n == 0 then WORD - 1 else n - 1 }

  function Inc(n: nat): nat { if n == WORD - 1 then 0 else n + 1 }

  function Pow2(k: nat): (r: nat)
    ensures r > 0
  {
    if k == 0 then 1 else 2 * Pow2(k - 1)
  }

  function Shr(n: nat, k: nat): nat { if k == 0 then n else Shr(n / 2, k - 1) }

  function Or(a: nat, b: nat): nat {
    if a == 0 && b == 0 then 0
    else 2 * Or(a / 2, b / 2) + if a % 2 == 1 || b % 2 == 1 then 1 else 0
  }

  function Ones(k: nat): nat { Pow2(k) - 1 }

  /** The number of bits `n` needs. */
  function Bits(n: nat): nat { if n == 0 then 0 else 1 + Bits(n / 2) }

  /** `n` has `t` bits and its leading `s` bits, or all of them, are ones. */
  predicate Leads(n: nat, t: nat, s: nat) {
    if s <= t then Shr(n, t - s) == Ones(s) else n == Ones(t)
  }

  lemma {:induction false} Pow2Le(a: nat, b: nat)
    requires a <= b
    ensures Pow2(a) <= Pow2(b)
  {
    if a < b { Pow2Le(a, b - 1); }
  }

  lemma {:induction false} ShrShr(n: nat, a: nat, b: nat)
    ensures Shr(Shr(n, a), b) == Shr(n, a + b)
  {
    if a > 0 { ShrShr(n / 2, a - 1, b); }
  }

  lemma {:induction false} ShrOr(a: nat, b: nat, k: nat)
    ensures Shr(Or(a, b), k) == Or(Shr(a, k), Shr(b, k))
  {
    if k > 0 { ShrOr(a / 2, b / 2, k - 1); }
  }

  lemma {:induction false} ShrOnes(s: nat, k: nat)
    requires k <= s
    ensures Shr(Ones(s), k) == Ones(s - k)
  {
    if k > 0 { ShrOnes(s - 1, k - 1); }
  }

  /** Filling `w` trailing bits below `s` leading ones gives `s + w` ones. */
  lemma {:induction false} FillTail(x: nat, s: nat, w: nat)
    requires Shr(x, w) == Ones(s)
    ensures Or(x, Ones(w)) == Ones(s + w)
  {
    if w > 0 {
      FillTail(x / 2, s, w - 1);
      assert Ones(w) / 2 == Ones(w - 1);
    } else {
      OrZero(x);
    }
  }

  lemma {:induction false} OrZero(x: nat)
    ensures Or(x, 0) == x && Or(x, x) == x
  {
    if x > 0 { OrZero(x / 2); }
  }

  lemma {:induction false} ShrZero(n: nat, k: nat)
    requires n < Pow2(k)
    ensures Shr(n, k) == 0
  {
    if k > 0 { ShrZero(n / 2, k - 1); }
  }

  lemma SmearFull(n: nat, t: nat, s: nat)
    requires Leads(n, t, s) && t <= s
    ensures Or(n, Shr(n, s)) == Ones(t)
  {
    assert n == Ones(t);
    Pow2Le(t, s);
    ShrZero(n, s);
    OrZero(n);
  }

  lemma SmearPart(n: nat, t: nat, s: nat, w: nat)
    requires s < t && Shr(n, t - s) == Ones(s) && w <= s && s + w <= t
    ensures Shr(Or(n, Shr(n, s)), t - s - w) == Ones(s + w)
  {
    var d := t - s - w;
    ShrOr(n, Shr(n, s), d);
    ShrShr(n, s, d);
    ShrShr(n, d, w);
    ShrShr(n, t - s, s - w);
    ShrOnes(s, s - w);
    FillTail(Shr(n, d), s, w);
  }

  /** One smearing step doubles the run of leading ones. */
  lemma Smear(n: nat, t: nat, s: nat)
    requires Leads(n, t, s)
    ensures Leads(Or(n, Shr(n, s)), t, 2 * s)
  {
    if t <= s {
      SmearFull(n, t, s);
    } else if 2 * s <= t {
      SmearPart(n, t, s, s);
    } else {
      SmearPart(n, t, s, t - s);
    }
  }

  lemma {:induction false} LeadingBit(n: nat)
    requires n > 0
    ensures Shr(n, Bits(n) - 1) == 1
  {
    if n > 1 { LeadingBit(n / 2); }
  }

  lemma {:induction false} BitsOf(n: nat)
    ensures n < Pow2(Bits(n)) && (n > 0 ==> Pow2(Bits(n) - 1) <= n)
  {
    if n > 0 { BitsOf(n / 2); }
  }

  lemma {:induction false} BitsBound(n: nat, k: nat)
    requires n < Pow2(k)
    ensures Bits(n) <= k
  {
    if n > 0 { BitsBound(n / 2, k - 1); }
  }

  lemma WordIsPow2()
    ensures Pow2(32) == 0x1_0000_0000 && Pow2(63) == HALF && Pow2(64) == WORD
  {
    assert Pow2(8) == 256;
    assert Pow2(16) == 65536;
    assert Pow2(24) == 0x100_0000;
    assert Pow2(32) == 0x1_0000_0000;
    assert Pow2(40) == 0x100_0000_0000;
    assert Pow2(48) == 0x1_0000_0000_0000;
    assert Pow2(56) == 0x100_0000_0000_0000;
    assert Pow2(63) == 0x8000_0000_0000_0000;
  }

  /** `2^t` is the least power of two at or above `n`. */
  predicate LeastAbove(n: nat, t: nat) { n <= Pow2(t) && (t > 0 ==> Pow2(t - 1) < n) }

  lemma LeastIsLeast(n: nat, t: nat, k: nat)
    requires LeastAbove(n, t) && n <= Pow2(k)
    ensures Pow2(t) <= Pow2(k)
  {
    if k < t { Pow2Le(k, t - 1); } else { Pow2Le(t, k); }
  }

  /** One step of the smearing, which doubles the run of leading ones. */
  method SmearStep(n: nat, s: nat, ghost t: nat) returns (m: nat)
    requires Leads(n, t, s)
    ensures Leads(m, t, 2 * s)
  {
    Smear(n, t, s);
    m := Or(n, Shr(n, s));
  }

  lemma Wrapped(n0: nat, m: nat, t: nat)
    requires n0 < WORD && m == Dec(n0) && t == Bits(m)
    ensures t <= 64
    ensures 0 < n0 <= HALF ==> LeastAbove(n0, t) && Inc(Ones(t)) == Pow2(t)
    ensures n0 == 0 || n0 > HALF ==> Inc(Ones(t)) == 0
  {
    WordIsPow2();
    BitsOf(m);
    BitsBound(m, 64);
    if 0 < n0 <= HALF {
      BitsBound(m, 63);
      Pow2Le(t, 63);
    } else if t < 64 {
      Pow2Le(t, 63);
      assert false;
    }
  }

  lemma AllLead(n: nat, t: nat, s: nat)
    requires Leads(n, t, s) && t <= s
    ensures n == Ones(t)
  {
  }

  /** Every bit below the leading one is set. */
  method SmearAll(n0: nat) returns (n: nat)
    requires n0 < WORD
    ensures n == Ones(Bits(n0))
  {
    n := n0;
    ghost var t := Bits(n);
    WordIsPow2();
    BitsBound(n, 64);
    if n > 0 { LeadingBit(n); }
    n := SmearStep(n, 1, t);
    n := SmearStep(n, 2, t);
    n := SmearStep(n, 4, t);
    n := SmearStep(n, 8, t);
    n := SmearStep(n, 16, t);
    n := SmearStep(n, 32, t);
    AllLead(n, t, 64);
  }

  /** The bit-smearing computation, with the wrap-around of its 64-bit word. */
  method NextPowerOf2(n0: nat) returns (n: nat)
    requires n0 < WORD
    ensures 0 < n0 <= HALF ==> LeastAbove(n0, Bits(n0 - 1)) && n == Pow2(Bits(n0 - 1))
    ensures n0 == 0 || n0 > HALF ==> n == 0
  {
    n := Dec(n0);
    Wrapped(n0, n, Bits(n));
    n := SmearAll(n);
    n := Inc(n);
  }
}
