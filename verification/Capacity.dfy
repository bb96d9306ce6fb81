/**
 * How many slots of the direct cache one partition's pages can take. Slot numbers are page numbers modulo
 * the slot count, partitions page numbers modulo the partition count; the pages of a partition meet as many
 * slots as multiples of the partition count have residues.
 */
module Capacity {
  import opened PowersOfTwo
  import opened Partitioner

  /** `n` is the number of different slots met by the pages of one partition. */
  ghost predicate IsSpread(slots: nat, parts: nat, n: nat)
    requires slots > 0
  {
    n > 0 && Meets(slots, parts, n) && forall m | 0 < m < n :: !Meets(slots, parts, m)
  }

  predicate Meets(slots: nat, parts: nat, m: nat)
    requires slots > 0
  {
    (m * parts) % slots == 0
  }

  lemma ModMultiple(a: nat, k: nat, d: nat)
    requires d > 0
    ensures (a + k * d) % d == a % d && (k * d) % d == 0
  {
    DivModUnique(a + k * d, d, a / d + k, a % d) by { assert (a / d + k) * d == a / d * d + k * d; }
    DivModUnique(k * d, d, k, 0);
  }

  lemma {:induction false} SpreadExists(slots: nat, parts: nat, bound: nat) returns (n: nat)
    requires slots > 0 && bound > 0 && Meets(slots, parts, bound)
    ensures IsSpread(slots, parts, n) && n <= bound
  {
    if m :| 0 < m < bound && Meets(slots, parts, m) {
      n := SpreadExists(slots, parts, m);
    } else {
      n := bound;
    }
  }

  lemma Regroup(b: nat, n: nat, m: nat, q: nat, j: nat, parts: nat, slots: nat)
    requires b == q * n + m && n * parts == j * slots
    ensures b * parts == (q * j) * slots + m * parts
  {
    assert b * parts == (q * n) * parts + m * parts;
    assert (q * n) * parts == q * (n * parts);
    assert q * (j * slots) == (q * j) * slots;
  }

  /** Blocks a whole spread apart share a slot... */
  lemma SameSlot(slots: nat, parts: nat, n: nat, part: nat, b: nat)
    requires slots > 0 && IsSpread(slots, parts, n)
    ensures (b * parts + part) % slots == (b % n * parts + part) % slots
  {
    var j, q, m := n * parts / slots, b / n, b % n;
    assert n * parts == j * slots by { assert Meets(slots, parts, n); }
    Regroup(b, n, m, q, j, parts, slots);
    ModMultiple(m * parts + part, q * j, slots);
  }

  lemma SlotsAgree(slots: nat, parts: nat, b: nat, b': nat)
    requires slots > 0 && b < b' && (b * parts) % slots == (b' * parts) % slots
    ensures Meets(slots, parts, b' - b)
  {
    var q, q', r := b * parts / slots, b' * parts / slots, b * parts % slots;
    assert b * parts == q * slots + r && b' * parts == q' * slots + r;
    assert (b' - b) * parts == (q' - q) * slots;
    DivModUnique((b' - b) * parts, slots, q' - q, 0);
  }

  /** ...and closer ones do not. */
  lemma OtherSlot(slots: nat, parts: nat, n: nat, b: nat, b': nat)
    requires slots > 0 && IsSpread(slots, parts, n) && b < b' < n
    ensures (b * parts) % slots != (b' * parts) % slots
  {
    assert !Meets(slots, parts, b' - b);
    if (b * parts) % slots == (b' * parts) % slots { SlotsAgree(slots, parts, b, b'); }
  }

  // ---------------------------------------------------------------- the slot count

  const MAX_SLOTS: nat := 0x4000_0000

  /** A quarter of the next power of two, but at least one and at most 2^30. */
  function Slots(frames: nat): nat {
    var n := if 0 < frames <= HALF then Pow2(Bits(frames - 1)) / 4 else 0;
    if n < 1 then 1 else if n > MAX_SLOTS then MAX_SLOTS else n
  }

  lemma SlotLimit()
    ensures Pow2(30) == MAX_SLOTS
  {
    assert Pow2(10) == 0x400 && Pow2(20) == 0x10_0000 && Pow2(30) == MAX_SLOTS;
  }

  /** The slot count is a power of two of at most 2^30; above one it is less than half the frames; and below 2^30 at
      least a quarter of them. Beyond 2^63 frames, where the next power of two does not fit a word, it is one. */
  lemma SlotsPower(frames: nat) returns (s: nat)
    requires 0 < frames <= HALF ==> LeastAbove(frames, Bits(frames - 1))
    ensures Slots(frames) == Pow2(s)
    ensures Slots(frames) > 1 ==> 2 * Slots(frames) < frames
    ensures Slots(frames) <= 0x4000_0000
    ensures frames <= HALF ==> frames <= 4 * Slots(frames) || Slots(frames) == 0x4000_0000
    ensures frames > HALF ==> Slots(frames) == 1
  {
    SlotLimit();
    s := 0;
    if 0 < frames <= HALF && Bits(frames - 1) >= 2 {
      var t := Bits(frames - 1);
      assert Pow2(t) == 2 * Pow2(t - 1) && Pow2(t - 1) == 2 * Pow2(t - 2);
      s := if Pow2(t - 2) > MAX_SLOTS then 30 else t - 2;
    }
  }

  method SlotCount(frames: nat) returns (k: nat, ghost s: nat)
    requires frames < WORD
    ensures k == Slots(frames) == Pow2(s)
    ensures k > 1 ==> 2 * k < frames
    ensures k <= 0x4000_0000 && (frames <= HALF ==> frames <= 4 * k || k == 0x4000_0000) && (frames > HALF ==> k == 1)
  {
    var n := NextPowerOf2(frames);
    s := SlotsPower(frames);
    k := if n / 4 < 1 then 1 else n / 4;
    k := if MAX_SLOTS < k then MAX_SLOTS else k;
  }

  lemma {:induction false} Pow2Product(a: nat, b: nat)
    ensures Pow2(a) * Pow2(b) == Pow2(a + b)
  {
    if a > 0 {
      Pow2Product(a - 1, b);
      Doubled(Pow2(a - 1), Pow2(b));
    }
  }

  lemma Doubled(x: nat, y: nat)
    ensures (2 * x) * y == 2 * (x * y)
  {
  }

  lemma ProductLe(f: nat, m: nat, d: nat)
    requires f <= m
    ensures f * d <= m * d
  {
    assert m * d == f * d + (m - f) * d;
  }

  lemma LessProduct(m: nat, f: nat, d: nat)
    requires m * d < f * d
    ensures m < f
  {
    if f <= m { ProductLe(f, m, d); }
  }

  /** With a power of two of partitions, and so many slots, one partition's pages never meet more slots than
      the partition has frames. */
  lemma PowerOfTwoFits(a: nat, frames: nat, s: nat) returns (n: nat)
    requires frames > 0 && (Pow2(s) > 1 ==> 2 * Pow2(s) < frames * Pow2(a))
    ensures IsSpread(Pow2(s), Pow2(a), n) && n <= frames
  {
    if s <= a {
      Pow2Product(a - s, s);
      ModMultiple(0, Pow2(a - s), Pow2(s));
      n := SpreadExists(Pow2(s), Pow2(a), 1);
    } else {
      var m := Pow2(s - a);
      Pow2Product(s - a, a);
      ModMultiple(0, 1, Pow2(s));
      n := SpreadExists(Pow2(s), Pow2(a), m);
      assert Pow2(1) == 2;
      Pow2Le(1, s);
      LessProduct(m, frames, Pow2(a));
    }
  }

  /** Five partitions of two frames each get four slots, which one partition's pages can all meet. */
  lemma FivePartitions()
    ensures IsSpread(4, 5, 4)
  {
    assert !Meets(4, 5, 1) && !Meets(4, 5, 2) && !Meets(4, 5, 3);
  }

  // ---------------------------------------------------------------- counting

  lemma {:induction false} InjectionSize(from: set<nat>, to: set<nat>, g: map<nat, nat>)
    requires from <= g.Keys && (forall x | x in from :: g[x] in to)
    requires forall x, y | x in from && y in from && g[x] == g[y] :: x == y
    ensures |from| <= |to|
  {
    if from != {} {
      var x :| x in from;
      InjectionSize(from - {x}, to - {g[x]}, g);
    }
  }

  function UpTo(n: nat): (s: set<nat>)
    ensures forall i :: i in s <==> 0 <= i < n
    ensures |s| == n
  {
    if n == 0 then {} else UpTo(n - 1) + {n - 1}
  }
}
