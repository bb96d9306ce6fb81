/** The power-of-two block allocator: `size_to_order`, and every interleaving of allocations (among them
    failing ones, which add to `used_size` and take it back), matching deallocations and exits of any threads.
    A thread that exits takes its private free lists with it, and the blocks in them are lost. */
module Allocator {
  import opened PowersOfTwo

  const PAGE: nat := 4096
  const LARGE_ORDER: nat := 20
  const MAX_ORDER: nat := 64

  function Max(a: nat, b: nat): nat { if a < b then b else a }

  // ---------------------------------------------------------------- size_to_order

  function And(a: nat, b: nat): nat {
    if a == 0 || b == 0 then 0
    else 2 * And(a / 2, b / 2) + if a % 2 == 1 && b % 2 == 1 then 1 else 0
  }

  lemma {:induction false} AndSelf(n: nat)
    ensures And(n, n) == n
  {
    if n > 0 { AndSelf(n / 2); }
  }

  /** The test by which the source recognises a power of two. */
  lemma {:induction false} AndPredecessor(n: nat)
    requires n > 0
    ensures And(n, n - 1) == 0 <==> n == Pow2(Bits(n) - 1)
  {
    BitsOf(n);
    if n % 2 == 1 {
      AndSelf(n / 2);
      if n > 1 { assert Bits(n) == Bits(n / 2) + 1; assert Pow2(Bits(n) - 1) % 2 == 0; }
    } else {
      AndPredecessor(n / 2);
      assert (n - 1) / 2 == n / 2 - 1;
      assert Bits(n) == Bits(n / 2) + 1;
    }
  }

  /** The order of the block that serves a request. */
  function OrderOf(size: nat): nat { Bits(Max(PAGE, size) - 1) }

  lemma OrderIsLeast(size: nat)
    ensures LeastAbove(Max(PAGE, size), OrderOf(size)) && OrderOf(size) >= 12
    ensures size <= HALF ==> OrderOf(size) < MAX_ORDER
  {
    var n := Max(PAGE, size);
    BitsOf(n - 1);
    assert Pow2(11) == 2048;
    if OrderOf(size) < 12 { Pow2Le(OrderOf(size), 11); }
    if size <= HALF { WordIsPow2(); BitsBound(n - 1, 63); }
  }

  lemma LeastUnique(n: nat, s: nat, t: nat)
    requires LeastAbove(n, s) && LeastAbove(n, t)
    ensures s == t
  {
    if s < t { Pow2Le(s, t - 1); }
    if t < s { Pow2Le(t, s - 1); }
  }

  method SizeToOrder(size0: nat) returns (order: nat)
    ensures order == OrderOf(size0) && LeastAbove(Max(PAGE, size0), order)
  {
    var size := Max(PAGE, size0);
    ghost var n := size;
    AndPredecessor(n);
    BitsOf(n);
    OrderIsLeast(size0);
    order := if And(size, size - 1) != 0 then 1 else 0;
    ghost var extra := order;
    while size > 1
      invariant size > 0 && order + Bits(size) == extra + Bits(n)
    {
      order := order + 1;
      size := size / 2;
    }
    assert Bits(size) == 1;
    LeastUnique(n, order, OrderOf(size0));
  }

  // ---------------------------------------------------------------- the state

  datatype Key = Small(thread: nat, order: nat) | Large(order: nat)

  /** Free blocks below the large threshold belong to the thread that freed them. */
  function KeyOf(thread: nat, order: nat): Key {
    if order < LARGE_ORDER then Small(thread, order) else Large(order)
  }

  /** `granted` remembers every block ever cut from the address space, by offset; `live` those now in use;
      `missed` the threads that have found their free list empty and not yet added to `used`, with the size
      they want; `failing` those that have added to it in vain and have yet to take it back. */
  datatype World = World(
    total: nat, base: nat, used: int, free: map<Key, seq<nat>>, missed: map<nat, nat>, failing: map<nat, nat>,
    live: set<nat>, granted: map<nat, nat>)

  function List(w: World, k: Key): seq<nat> { if k in w.free then w.free[k] else [] }

  datatype Step =
    | Pop(thread: nat, size: nat)
    | Miss(thread: nat, size: nat)
    | Bump(thread: nat, size: nat)
    | Back(thread: nat)
    | Deallocate(thread: nat, offset: nat, size: nat)
    | Exit(thread: nat)

  /** The offset a bump hands out; `used` is never negative, being what was cut plus what is owed. */
  function Next(w: World): nat { w.base + if w.used >= 0 then w.used else 0 }

  /** The thread is not in the middle of an allocation. */
  predicate Idle(w: World, t: nat) { t !in w.missed && t !in w.failing }

  predicate Enabled(w: World, st: Step) {
    match st
    case Pop(t, size) => Idle(w, t) && List(w, KeyOf(t, OrderOf(size))) != []
    case Miss(t, size) => Idle(w, t) && List(w, KeyOf(t, OrderOf(size))) == []
    // By now another thread may have put a block into the list: the lock was given up after the look.
    case Bump(t, size) => t in w.missed && w.missed[t] == size && t !in w.failing
    case Back(t) => t in w.failing
    // A matching deallocation: a live block, and a size of the same order as the one it was allocated with.
    case Deallocate(t, offset, size) =>
      Idle(w, t) && offset in w.live && offset in w.granted && w.granted[offset] == OrderOf(size)
    case Exit(t) => Idle(w, t)
  }

  /** The list belongs to thread `t` and goes when the thread does. */
  predicate Private(k: Key, t: nat) { k.Small? && k.thread == t }

  function Apply(w: World, st: Step): World
    requires Enabled(w, st)
  {
    match st
    case Pop(t, size) =>
      var k := KeyOf(t, OrderOf(size));
      var l := List(w, k);
      w.(free := w.free[k := l[..|l| - 1]], live := w.live + {l[|l| - 1]})
    case Miss(t, size) => w.(missed := w.missed[t := size])
    case Bump(t, size) =>
      var block := Pow2(OrderOf(size));
      if w.used >= w.total then
        w.(used := w.used + block, missed := w.missed - {t}, failing := w.failing[t := block])
      else
        var offset := Next(w);
        w.(used := w.used + block, missed := w.missed - {t},
           live := w.live + {offset}, granted := w.granted[offset := OrderOf(size)])
    case Back(t) => w.(used := w.used - w.failing[t], failing := w.failing - {t})
    case Deallocate(t, offset, size) =>
      var k := KeyOf(t, OrderOf(size));
      w.(free := w.free[k := List(w, k) + [offset]], live := w.live - {offset})
    case Exit(t) => w.(free := map k | k in w.free && !Private(k, t) :: w.free[k])
  }

  function Init(total: nat, base: nat): World { World(total, base, 0, map[], map[], map[], {}, map[]) }

  ghost predicate Run(ws: seq<World>, sts: seq<Step>) {
    && |ws| == |sts| + 1 && ws[0].base % PAGE == 0 && ws[0] == Init(ws[0].total, ws[0].base)
    && forall i | 0 <= i < |sts| :: Enabled(ws[i], sts[i]) && ws[i + 1] == Apply(ws[i], sts[i])
  }

  // ---------------------------------------------------------------- the invariant

  /** What the failing threads will take back. */
  ghost function Owed(m: map<nat, nat>): nat
  {
    if m == map[] then 0 else var t :| t in m; m[t] + Owed(m - {t})
  }

  lemma {:induction false} OwedDrop(m: map<nat, nat>, t: nat)
    requires t in m
    ensures Owed(m) == m[t] + Owed(m - {t})
  {
    var u :| u in m && Owed(m) == m[u] + Owed(m - {u});
    if u != t {
      OwedDrop(m - {u}, t);
      OwedDrop(m - {t}, u);
      assert m - {u} - {t} == m - {t} - {u};
    }
  }

  lemma OwedAdd(m: map<nat, nat>, t: nat, v: nat)
    requires t !in m
    ensures Owed(m[t := v]) == Owed(m) + v
  {
    OwedDrop(m[t := v], t);
    assert m[t := v] - {t} == m;
  }

  /** What the blocks at these offsets take up. */
  ghost function SizeOf(granted: map<nat, nat>, offsets: set<nat>): nat
    requires offsets <= granted.Keys
  {
    if offsets == {} then 0 else var o :| o in offsets; Pow2(granted[o]) + SizeOf(granted, offsets - {o})
  }

  lemma {:induction false} SizeDrop(m: map<nat, nat>, offsets: set<nat>, o: nat)
    requires offsets <= m.Keys && o in offsets
    ensures SizeOf(m, offsets) == Pow2(m[o]) + SizeOf(m, offsets - {o})
    decreases offsets
  {
    var u :| u in offsets && SizeOf(m, offsets) == Pow2(m[u]) + SizeOf(m, offsets - {u});
    if u != o {
      SizeDrop(m, offsets - {u}, o);
      SizeDrop(m, offsets - {o}, u);
      assert offsets - {u} - {o} == offsets - {o} - {u};
    }
  }

  lemma {:induction false} SizeSame(m: map<nat, nat>, m': map<nat, nat>, offsets: set<nat>)
    requires offsets <= m.Keys && offsets <= m'.Keys && forall o | o in offsets :: m[o] == m'[o]
    ensures SizeOf(m, offsets) == SizeOf(m', offsets)
    decreases offsets
  {
    if offsets != {} {
      var o :| o in offsets;
      SizeDrop(m, offsets, o);
      SizeDrop(m', offsets, o);
      SizeSame(m, m', offsets - {o});
    }
  }

  /** What all the blocks cut so far take up. */
  ghost function Taken(granted: map<nat, nat>): nat { SizeOf(granted, granted.Keys) }

  lemma TakenAdd(m: map<nat, nat>, o: nat, k: nat)
    requires o !in m
    ensures Taken(m[o := k]) == Taken(m) + Pow2(k)
  {
    var m' := m[o := k];
    SizeDrop(m', m'.Keys, o);
    assert m'.Keys - {o} == m.Keys;
    SizeSame(m, m', m.Keys);
  }

  /** What `used` would be without the threads that are failing. */
  ghost function Cut(w: World): int { w.used - Owed(w.failing) }

  /** Offset `x` lies in the block at `o`. */
  predicate Inside(w: World, x: int, o: nat) { o in w.granted && o <= x < o + Pow2(w.granted[o]) }

  ghost predicate Filled(w: World, x: int) { exists o :: Inside(w, x, o) }

  predicate BlockInv(w: World, o: nat) {
    o in w.granted ==> w.granted[o] >= 12 && o % PAGE == 0 && w.base <= o
  }

  /** `used` is what the blocks take up and what the failing threads will take back. */
  ghost predicate Sums(w: World) {
    && w.base % PAGE == 0 && Cut(w) == Taken(w.granted) && Cut(w) % PAGE == 0
    && (w.failing != map[] ==> Cut(w) >= w.total)
  }

  /** The blocks lie one after the other below `end`. */
  ghost predicate Blocks(w: World, end: int) {
    && (forall o | o in w.granted :: BlockInv(w, o) && o + Pow2(w.granted[o]) <= end)
    && (forall o, o' | o in w.granted && o' in w.granted && o < o' :: o + Pow2(w.granted[o]) <= o')
  }

  /** And leave no gap. */
  ghost predicate NoGap(w: World, end: int) { forall x | w.base <= x < end :: Filled(w, x) }

  ghost predicate Space(w: World) { Sums(w) && Blocks(w, w.base + Cut(w)) && NoGap(w, w.base + Cut(w)) }

  predicate Listed(w: World, k: Key, i: int) { 0 <= i < |List(w, k)| }

  /** Block `o` is in place `i` of free list `k`. */
  predicate Holds(w: World, k: Key, i: int, o: nat) { Listed(w, k, i) && List(w, k)[i] == o }

  ghost predicate Places(w: World) {
    && w.live <= w.granted.Keys
    && (forall k, i | Listed(w, k, i) :: FreeInv(w, k, i))
    && (forall k, i, k', i', o | Holds(w, k, i, o) && Holds(w, k', i', o) :: k == k' && i == i')
  }

  predicate FreeInv(w: World, k: Key, i: int)
    requires Listed(w, k, i)
  {
    var o := List(w, k)[i];
    o in w.granted && o !in w.live && w.granted[o] == k.order && (k.Small? <==> k.order < LARGE_ORDER)
  }

  ghost predicate Inv(w: World) { Space(w) && Places(w) }

  lemma {:induction false} Pow2Pages(k: nat)
    requires k >= 12
    ensures Pow2(k) % PAGE == 0 && Pow2(k) >= PAGE
  {
    if k == 12 {
      assert Pow2(12) == 4096;
    } else {
      Pow2Pages(k - 1);
    }
  }

  lemma FailSpace(w: World, t: nat, size: nat)
    requires Space(w) && Enabled(w, Bump(t, size)) && w.used >= w.total
    ensures Space(Apply(w, Bump(t, size)))
  {
    var w' := Apply(w, Bump(t, size));
    OwedAdd(w.failing, t, Pow2(OrderOf(size)));
    SameFilled(w, w');
    forall o | o in w'.granted ensures BlockInv(w', o) { assert BlockInv(w, o); }
  }

  lemma GrantBlocks(w: World, w': World, offset: nat, k: nat)
    requires w'.granted == w.granted[offset := k] && w'.base == w.base
    requires k >= 12 && offset % PAGE == 0 && w.base <= offset
    requires Blocks(w, offset)
    ensures Blocks(w', offset + Pow2(k)) && offset !in w.granted
  {
    forall o | o in w'.granted ensures BlockInv(w', o) { assert BlockInv(w, o); }
  }

  lemma Aligned(a: nat, b: nat)
    requires a % PAGE == 0 && b % PAGE == 0
    ensures (a + b) % PAGE == 0
  {
  }

  lemma GrantSums(w: World, w': World, offset: nat, k: nat)
    requires Sums(w) && w.failing == map[] && offset !in w.granted && Pow2(k) % PAGE == 0
    requires w'.granted == w.granted[offset := k] && w'.base == w.base
    requires w'.failing == map[] && w'.used == w.used + Pow2(k)
    ensures Sums(w') && Cut(w') == Cut(w) + Pow2(k)
  {
    TakenAdd(w.granted, offset, k);
    Aligned(Taken(w.granted), Pow2(k));
  }

  lemma GrantFilled(w: World, w': World, offset: nat, k: nat)
    requires w'.granted == w.granted[offset := k] && offset !in w.granted && w'.base == w.base && NoGap(w, offset)
    ensures NoGap(w', offset + Pow2(k))
  {
    forall x | w.base <= x < offset + Pow2(k) ensures Filled(w', x) {
      if x < offset {
        assert Filled(w, x);
        var o :| Inside(w, x, o);
        assert Inside(w', x, o);
      } else {
        assert Inside(w', x, offset);
      }
    }
  }

  lemma GrantSpace(w: World, w': World, offset: nat, k: nat)
    requires Space(w) && w.failing == map[] && Next(w) == offset && k >= 12 && Pow2(k) % PAGE == 0
    requires w'.granted == w.granted[offset := k] && w'.base == w.base
    requires w'.failing == map[] && w'.used == w.used + Pow2(k)
    ensures Space(w')
  {
    assert offset == w.base + Cut(w);
    Aligned(w.base, Taken(w.granted));
    GrantBlocks(w, w', offset, k);
    GrantSums(w, w', offset, k);
    GrantFilled(w, w', offset, k);
  }

  lemma SameFilled(w: World, w': World)
    requires w'.granted == w.granted
    ensures forall x :: Filled(w, x) ==> Filled(w', x)
  {
    forall x | Filled(w, x) ensures Filled(w', x) {
      var o :| Inside(w, x, o);
      assert Inside(w', x, o);
    }
  }

  lemma BackSpace(w: World, t: nat)
    requires Space(w) && Enabled(w, Back(t))
    ensures Space(Apply(w, Back(t)))
  {
    var w' := Apply(w, Back(t));
    OwedDrop(w.failing, t);
    SameFilled(w, w');
    forall o | o in w'.granted ensures BlockInv(w', o) { assert BlockInv(w, o); }
  }

  lemma SpaceStep(w: World, st: Step)
    requires Space(w) && Enabled(w, st)
    ensures Space(Apply(w, st))
  {
    match st
    case Bump(t, size) =>
      if w.used >= w.total {
        FailSpace(w, t, size);
      } else {
        OrderIsLeast(size);
        Pow2Pages(OrderOf(size));
        GrantSpace(w, Apply(w, st), Next(w), OrderOf(size));
      }
    case Back(t) => BackSpace(w, t);
    case _ =>
      var w' := Apply(w, st);
      SameFilled(w, w');
      forall o | o in w'.granted ensures BlockInv(w', o) { assert BlockInv(w, o); }
  }

  /** The free lists hold what they held, in the same places, but for what is gone. */
  predicate Fewer(w: World, w': World, k: Key, i: int) {
    Listed(w', k, i) ==> Listed(w, k, i) && List(w, k)[i] == List(w', k)[i]
  }

  lemma FewerPlaces(w: World, w': World)
    requires Places(w) && w'.live <= w'.granted.Keys && forall k, i :: Fewer(w, w', k, i)
    requires forall o | o in w.granted :: o in w'.granted && w'.granted[o] == w.granted[o]
    requires forall k, i | Listed(w', k, i) :: List(w', k)[i] !in w'.live
    ensures Places(w')
  {
    forall k, i | Listed(w', k, i) ensures FreeInv(w', k, i) {
      assert Fewer(w, w', k, i);
      assert FreeInv(w, k, i);
    }
    forall k, i, k', i', o | Holds(w', k, i, o) && Holds(w', k', i', o) ensures k == k' && i == i' {
      assert Fewer(w, w', k, i) && Fewer(w, w', k', i');
      assert Holds(w, k, i, o) && Holds(w, k', i', o);
    }
  }

  lemma GrantPlaces(w: World, t: nat, size: nat)
    requires Inv(w) && Enabled(w, Bump(t, size)) && w.used < w.total
    ensures Places(Apply(w, Bump(t, size))) && Next(w) !in w.granted
  {
    var w' := Apply(w, Bump(t, size));
    assert w.failing == map[];
    assert Next(w) !in w.granted;
    forall k, i | Listed(w', k, i) ensures List(w', k)[i] !in w'.live { assert Listed(w, k, i) && FreeInv(w, k, i); }
    FewerPlaces(w, w');
  }

  lemma PopPlaces(w: World, t: nat, size: nat)
    requires Places(w) && Enabled(w, Pop(t, size))
    ensures Places(Apply(w, Pop(t, size)))
  {
    var w' := Apply(w, Pop(t, size));
    var k0 := KeyOf(t, OrderOf(size));
    var last := |List(w, k0)| - 1;
    assert Listed(w, k0, last) && FreeInv(w, k0, last);
    forall k, i | Listed(w', k, i) ensures List(w', k)[i] !in w'.live {
      assert Fewer(w, w', k, i) && FreeInv(w, k, i);
      assert Holds(w, k, i, List(w, k)[i]) && Holds(w, k0, last, List(w, k0)[last]);
    }
    FewerPlaces(w, w');
  }

  lemma ExitPlaces(w: World, t: nat)
    requires Places(w) && Enabled(w, Exit(t))
    ensures Places(Apply(w, Exit(t)))
  {
    var w' := Apply(w, Exit(t));
    forall k, i | Listed(w', k, i) ensures List(w', k)[i] !in w'.live {
      assert Fewer(w, w', k, i) && FreeInv(w, k, i);
    }
    FewerPlaces(w, w');
  }

  lemma DeallocatePlaces(w: World, t: nat, offset: nat, size: nat)
    requires Places(w) && Enabled(w, Deallocate(t, offset, size))
    ensures Places(Apply(w, Deallocate(t, offset, size)))
  {
    var w' := Apply(w, Deallocate(t, offset, size));
    var k0 := KeyOf(t, OrderOf(size));
    var last := |List(w, k0)|;
    forall k, i | Listed(w', k, i)
      ensures FreeInv(w', k, i)
      ensures if k == k0 && i == last then List(w', k)[i] == offset
              else Listed(w, k, i) && List(w, k)[i] == List(w', k)[i] != offset
    {
      if k != k0 || i != last { assert Listed(w, k, i) && FreeInv(w, k, i); }
    }
    forall k, i, k', i', o | Holds(w', k, i, o) && Holds(w', k', i', o) ensures k == k' && i == i' {
      if o != offset { assert Holds(w, k, i, o) && Holds(w, k', i', o); }
    }
  }

  lemma QuietPlaces(w: World, w': World)
    requires Places(w) && w'.free == w.free && w'.live == w.live && w'.granted == w.granted
    ensures Places(w')
  {
    forall k, i | Listed(w', k, i) ensures List(w', k)[i] !in w'.live { assert Listed(w, k, i) && FreeInv(w, k, i); }
    FewerPlaces(w, w');
  }

  lemma InvStep(w: World, st: Step)
    requires Inv(w) && Enabled(w, st)
    ensures Inv(Apply(w, st))
  {
    SpaceStep(w, st);
    match st
    case Pop(t, size) => PopPlaces(w, t, size);
    case Bump(t, size) => if w.used < w.total { GrantPlaces(w, t, size); } else { QuietPlaces(w, Apply(w, st)); }
    case Miss(_, _) | Back(_) => QuietPlaces(w, Apply(w, st));
    case Deallocate(t, offset, size) => DeallocatePlaces(w, t, offset, size);
    case Exit(t) => ExitPlaces(w, t);
  }

  // ---------------------------------------------------------------- lost blocks

  ghost predicate Shelved(w: World, o: nat) { exists k, i :: Holds(w, k, i, o) }

  /** Block `o` is in a private free list of thread `t`. */
  ghost predicate Carried(w: World, t: nat, o: nat) { exists k, i :: Private(k, t) && Holds(w, k, i, o) }

  /** The block was cut from the space, and can neither be used nor handed out again. */
  ghost predicate Lost(w: World, o: nat) { o in w.granted && o !in w.live && !Shelved(w, o) }

  lemma SameShelf(w: World, w': World, o: nat)
    requires forall k, i :: Holds(w, k, i, o) <==> Holds(w', k, i, o)
    ensures Shelved(w, o) <==> Shelved(w', o)
  {
    if k, i :| Holds(w, k, i, o) { assert Holds(w', k, i, o); }
  }

  lemma PopShelf(w: World, t: nat, size: nat, o: nat)
    requires Places(w) && Enabled(w, Pop(t, size))
    ensures var w' := Apply(w, Pop(t, size)); Lost(w', o) <==> Lost(w, o)
  {
    var w' := Apply(w, Pop(t, size));
    var k0 := KeyOf(t, OrderOf(size));
    var last := |List(w, k0)| - 1;
    assert Holds(w, k0, last, List(w, k0)[last]);
    if o != List(w, k0)[last] { SameShelf(w, w', o); }
  }

  lemma DeallocateShelf(w: World, t: nat, offset: nat, size: nat, o: nat)
    requires Places(w) && Enabled(w, Deallocate(t, offset, size))
    ensures var w' := Apply(w, Deallocate(t, offset, size)); Lost(w', o) <==> Lost(w, o)
  {
    var w' := Apply(w, Deallocate(t, offset, size));
    var k0 := KeyOf(t, OrderOf(size));
    if o == offset { assert Holds(w', k0, |List(w, k0)|, o); } else { SameShelf(w, w', o); }
  }

  lemma ExitShelf(w: World, t: nat, o: nat)
    requires Places(w) && Enabled(w, Exit(t))
    ensures Lost(Apply(w, Exit(t)), o) <==> Lost(w, o) || Carried(w, t, o)
  {
    var w' := Apply(w, Exit(t));
    forall k, i ensures Holds(w', k, i, o) <==> Holds(w, k, i, o) && !Private(k, t) {}
    if k, i :| Private(k, t) && Holds(w, k, i, o) {
      assert FreeInv(w, k, i);
      assert Lost(w', o);
    } else {
      SameShelf(w, w', o);
    }
  }

  /** Only an exit loses blocks, exactly those in the thread's lists; and a lost block stays lost. */
  lemma LostStep(w: World, st: Step, o: nat)
    requires Inv(w) && Enabled(w, st)
    ensures Lost(Apply(w, st), o) <==> Lost(w, o) || (st.Exit? && Carried(w, st.thread, o))
  {
    match st
    case Pop(t, size) => PopShelf(w, t, size, o);
    case Bump(t, size) =>
      if w.used < w.total { GrantPlaces(w, t, size); }
      SameShelf(w, Apply(w, st), o);
    case Miss(_, _) | Back(_) => SameShelf(w, Apply(w, st), o);
    case Deallocate(t, offset, size) => DeallocateShelf(w, t, offset, size, o);
    case Exit(t) => ExitShelf(w, t, o);
  }

  // ---------------------------------------------------------------- theorems

  lemma {:induction false} RunInv(ws: seq<World>, sts: seq<Step>, i: nat)
    requires Run(ws, sts) && i < |ws|
    ensures Inv(ws[i])
  {
    if i > 0 {
      RunInv(ws, sts, i - 1);
      InvStep(ws[i - 1], sts[i - 1]);
    }
  }

  /** Page `p` lies, in part, in the block of order `k` at `o`. */
  predicate Covers(o: int, k: nat, p: int) { o < (p + 1) * PAGE && p * PAGE < o + Pow2(k) }

  lemma NoSharedPage(o: nat, k: nat, o': nat, k': nat, p: int)
    requires o + Pow2(k) <= o' && o' % 4096 == 0
    ensures !(Covers(o, k, p) && Covers(o', k', p))
  {
    var q := o' / 4096;
    assert o' == 4096 * q;
    if p >= q { assert p * PAGE >= o'; } else { assert (p + 1) * PAGE <= o'; }
  }

  /** Live blocks start on page boundaries and share no page. */
  lemma LiveBlocksApart(ws: seq<World>, sts: seq<Step>, i: nat, o: nat, o': nat, p: int)
    requires Run(ws, sts) && i < |ws| && o in ws[i].live && o' in ws[i].live && o != o'
    ensures o in ws[i].granted && o' in ws[i].granted && o % PAGE == 0
    ensures !(Covers(o, ws[i].granted[o], p) && Covers(o', ws[i].granted[o'], p))
  {
    RunInv(ws, sts, i);
    var w := ws[i];
    assert BlockInv(w, o) && BlockInv(w, o');
    if o < o' {
      NoSharedPage(o, w.granted[o], o', w.granted[o'], p);
    } else {
      NoSharedPage(o', w.granted[o'], o, w.granted[o], p);
    }
  }

  /** What an allocation that succeeds hands out: a block no one was using, page-aligned, whose size is the
      least power of two at or above the request and the page size. */
  lemma AllocationFits(ws: seq<World>, sts: seq<Step>, i: nat)
    requires Run(ws, sts) && i < |sts| && (sts[i].Pop? || (sts[i].Bump? && ws[i].used < ws[i].total))
    ensures exists o ::
      && o in ws[i + 1].granted && o !in ws[i].live && ws[i + 1].live == ws[i].live + {o} && o % PAGE == 0
      && LeastAbove(Max(PAGE, sts[i].size), ws[i + 1].granted[o])
  {
    RunInv(ws, sts, i);
    var w, w' := ws[i], ws[i + 1];
    RunInv(ws, sts, i + 1);
    OrderIsLeast(sts[i].size);
    if sts[i].Pop? {
      var k := KeyOf(sts[i].thread, OrderOf(sts[i].size));
      var last := |List(w, k)| - 1;
      assert Listed(w, k, last) && FreeInv(w, k, last);
      assert BlockInv(w', List(w, k)[last]);
    } else {
      var o := Next(w);
      assert w.failing == map[];
      assert o !in w.granted;
      assert BlockInv(w', o);
    }
  }

  /** A thread that found its free list empty gets a block exactly when some space is not used up; it then starts where
      the used space ended. Otherwise it has taken nothing but what it will give back. */
  lemma BumpIff(ws: seq<World>, sts: seq<Step>, i: nat)
    requires Run(ws, sts) && i < |sts| && sts[i].Bump?
    ensures ws[i].used < ws[i].total ==>
      && ws[i].used >= 0 && ws[i + 1].live == ws[i].live + {(ws[i].base + ws[i].used) as nat}
      && ws[i].base + ws[i].used !in ws[i].granted && Idle(ws[i + 1], sts[i].thread)
    ensures ws[i].used >= ws[i].total ==>
      && ws[i + 1].live == ws[i].live && ws[i + 1].granted == ws[i].granted && ws[i + 1].free == ws[i].free
      && sts[i].thread in ws[i + 1].failing && ws[i + 1].used == ws[i].used + ws[i + 1].failing[sts[i].thread]
  {
    RunInv(ws, sts, i);
    if ws[i].used < ws[i].total { GrantPlaces(ws[i], sts[i].thread, sts[i].size); }
  }

  /** Every block starts within the space. */
  lemma {:induction false} BlocksStartInside(ws: seq<World>, sts: seq<Step>, i: nat, o: nat)
    requires Run(ws, sts) && i < |ws| && o in ws[i].granted
    ensures ws[i].base <= o < ws[i].base + ws[i].total && ws[i].base == ws[0].base && ws[i].total == ws[0].total
  {
    if i > 0 {
      SpaceNext(ws, sts, i - 1, o);
      SameSpace(ws, i);
      if o in ws[i - 1].granted { BlocksStartInside(ws, sts, i - 1, o); }
    } else {
      NothingGranted(ws, sts, o);
    }
  }

  lemma NothingGranted(ws: seq<World>, sts: seq<Step>, o: nat)
    requires Run(ws, sts)
    ensures o !in ws[0].granted
  {
  }

  predicate OneSpace(w: World, w': World) { w'.base == w.base && w'.total == w.total }

  lemma StartInside(w: World, st: Step, o: nat)
    requires Inv(w) && Enabled(w, st) && o in Apply(w, st).granted && o !in w.granted
    ensures w.base <= o < w.base + w.total
  {
  }

  lemma SpaceNext(ws: seq<World>, sts: seq<Step>, i: nat, o: nat)
    requires Run(ws, sts) && i < |sts|
    ensures forall x: nat | x < |sts| :: OneSpace(ws[x], ws[x + 1])
    ensures o in ws[i + 1].granted && o !in ws[i].granted ==> ws[i].base <= o < ws[i].base + ws[i].total
  {
    RunInv(ws, sts, i);
    if o in ws[i + 1].granted && o !in ws[i].granted { StartInside(ws[i], sts[i], o); }
  }

  lemma {:induction false} SameSpace(ws: seq<World>, i: nat)
    requires i < |ws| && forall x: nat | x < |ws| - 1 :: OneSpace(ws[x], ws[x + 1])
    ensures OneSpace(ws[0], ws[i])
  {
    if i > 0 {
      SameSpace(ws, i - 1);
      assert OneSpace(ws[i - 1], ws[i - 1 + 1]);
    }
  }

  /** A failing allocation leaves nothing behind: with no thread failing, and whenever a bump succeeds, `used`
      is exactly the sum of the blocks handed out by bumps, and those blocks tile the space up to it. */
  lemma FailuresLeaveNoTrace(ws: seq<World>, sts: seq<Step>, i: nat)
    requires Run(ws, sts) && i < |ws|
    ensures ws[i].failing == map[] || ws[i].used < ws[i].total ==> ws[i].used == Taken(ws[i].granted)
    ensures ws[i].used == Taken(ws[i].granted) + Owed(ws[i].failing)
    ensures forall x :: Filled(ws[i], x) <==> ws[i].base <= x < ws[i].base + Taken(ws[i].granted)
    ensures forall x, o, o' | Inside(ws[i], x, o) && Inside(ws[i], x, o') :: o == o'
  {
    RunInv(ws, sts, i);
    var w := ws[i];
    forall x | Filled(w, x) ensures w.base <= x < w.base + Taken(w.granted) {
      var o :| Inside(w, x, o);
      assert BlockInv(w, o);
    }
  }

  /** Step `j` is the exit of a thread with block `o` in a private free list. */
  ghost predicate TakenAway(ws: seq<World>, sts: seq<Step>, j: nat, o: nat)
    requires |ws| == |sts| + 1
  {
    j < |sts| && sts[j].Exit? && Carried(ws[j], sts[j].thread, o)
  }

  /** Such a step is among the first `i`. */
  ghost predicate Away(ws: seq<World>, sts: seq<Step>, i: nat, o: nat)
    requires |ws| == |sts| + 1
  {
    exists j: nat :: j < i && TakenAway(ws, sts, j, o)
  }

  lemma AwayNext(ws: seq<World>, sts: seq<Step>, i: nat, o: nat)
    requires |ws| == |sts| + 1 && i < |sts|
    ensures Away(ws, sts, i + 1, o) <==> Away(ws, sts, i, o) || TakenAway(ws, sts, i, o)
  {
    if TakenAway(ws, sts, i, o) { assert i < i + 1; }
  }

  lemma LostNext(ws: seq<World>, sts: seq<Step>, i: nat, o: nat)
    requires Run(ws, sts) && i < |sts|
    ensures Lost(ws[i + 1], o) <==> Lost(ws[i], o) || TakenAway(ws, sts, i, o)
  {
    RunInv(ws, sts, i);
    LostStep(ws[i], sts[i], o);
  }

  lemma NoneLostFirst(ws: seq<World>, sts: seq<Step>, o: nat)
    requires Run(ws, sts)
    ensures !Lost(ws[0], o) && !Away(ws, sts, 0, o)
  {
  }

  /** Exactly which blocks are lost: those in a private list of a thread when it exited. */
  lemma {:induction false} LostIff(ws: seq<World>, sts: seq<Step>, i: nat, o: nat)
    requires Run(ws, sts) && i < |ws|
    ensures Lost(ws[i], o) <==> Away(ws, sts, i, o)
  {
    if i == 0 {
      NoneLostFirst(ws, sts, o);
    } else {
      LostIff(ws, sts, i - 1, o);
      LostNext(ws, sts, i - 1, o);
      AwayNext(ws, sts, i - 1, o);
    }
  }

  /** Where a block once cut is: in use, in exactly one place of one free list, which is of its order, or lost,
      and that only with the private list of a thread that has exited. */
  lemma BlocksAccounted(ws: seq<World>, sts: seq<Step>, i: nat, o: nat)
    requires Run(ws, sts) && i < |ws| && o in ws[i].granted
    ensures o in ws[i].live ==> !Shelved(ws[i], o)
    ensures o !in ws[i].live && !Shelved(ws[i], o) <==> Away(ws, sts, i, o)
    ensures forall k, x | Holds(ws[i], k, x, o) :: k.order == ws[i].granted[o]
    ensures forall k, x, k', x' | Holds(ws[i], k, x, o) && Holds(ws[i], k', x', o) :: k == k' && x == x'
  {
    RunInv(ws, sts, i);
    LostIff(ws, sts, i, o);
    forall k, x | Holds(ws[i], k, x, o) ensures o !in ws[i].live && k.order == ws[i].granted[o] {
      assert FreeInv(ws[i], k, x);
    }
  }

  // ---------------------------------------------------------------- shared and private blocks, by size

  const HALF_MIB: nat := 524288

  lemma HalfMib()
    ensures Pow2(19) == HALF_MIB
  {
    assert Pow2(15) == 16 * Pow2(11);
    assert Pow2(19) == 16 * Pow2(15);
  }

  /** Requests of more than half a MiB, and no others, get blocks of more than half a MiB. */
  lemma LargeRequest(size: nat)
    ensures size > HALF_MIB <==> Pow2(OrderOf(size)) > HALF_MIB
    ensures size > HALF_MIB <==> OrderOf(size) > 19
  {
    OrderIsLeast(size);
    HalfMib();
    if OrderOf(size) > 19 {
      Pow2Le(20, OrderOf(size));
      Pow2Le(19, OrderOf(size) - 1);
    } else {
      Pow2Le(OrderOf(size), 19);
    }
  }

  lemma LargeBlock(k: nat)
    ensures Pow2(k) > HALF_MIB <==> k > 19
  {
    HalfMib();
    if k > 19 { Pow2Le(20, k); } else { Pow2Le(k, 19); }
  }

  lemma {:induction false} NeverAway(ws: seq<World>, sts: seq<Step>, i: nat, o: nat)
    requires Run(ws, sts) && i < |ws| && o in ws[i].granted && Pow2(ws[i].granted[o]) > HALF_MIB
    ensures !Away(ws, sts, i, o)
  {
    forall j: nat | j < i ensures !TakenAway(ws, sts, j, o) { NotCarried(ws, sts, j, i, o); }
  }

  lemma NotCarried(ws: seq<World>, sts: seq<Step>, j: nat, i: nat, o: nat)
    requires Run(ws, sts) && j < i < |ws| && o in ws[i].granted && Pow2(ws[i].granted[o]) > HALF_MIB
    ensures !TakenAway(ws, sts, j, o)
  {
    RunInv(ws, sts, j);
    LargeBlock(ws[i].granted[o]);
    forall k, x | Holds(ws[j], k, x, o) ensures !k.Small? {
      assert FreeInv(ws[j], k, x);
      StillGranted(ws, sts, j, i, o);
    }
  }

  /** A block once cut keeps its order. */
  lemma {:induction false} StillGranted(ws: seq<World>, sts: seq<Step>, j: nat, i: nat, o: nat)
    requires Run(ws, sts) && j <= i < |ws| && o in ws[j].granted
    ensures o in ws[i].granted && ws[i].granted[o] == ws[j].granted[o]
  {
    if j < i {
      StillGranted(ws, sts, j, i - 1, o);
      RunInv(ws, sts, i - 1);
      GrantedStep(ws[i - 1], sts[i - 1], o);
    }
  }

  lemma GrantedStep(w: World, st: Step, o: nat)
    requires Inv(w) && Enabled(w, st) && o in w.granted
    ensures o in Apply(w, st).granted && Apply(w, st).granted[o] == w.granted[o]
  {
    if st.Bump? && w.used < w.total { GrantPlaces(w, st.thread, st.size); }
  }

  /** A block of more than half a MiB is never lost, whichever threads come and go; when it is not in use any
      thread that asks for its size is served without more space being taken. */
  lemma LargeBlocksShared(ws: seq<World>, sts: seq<Step>, i: nat, o: nat, t: nat, size: nat)
    requires Run(ws, sts) && i < |ws| && o in ws[i].granted && Pow2(ws[i].granted[o]) > HALF_MIB
    ensures !Lost(ws[i], o)
    ensures o !in ws[i].live && Idle(ws[i], t) && OrderOf(size) == ws[i].granted[o] ==>
      Enabled(ws[i], Pop(t, size)) && !Enabled(ws[i], Miss(t, size))
  {
    NeverAway(ws, sts, i, o);
    LostIff(ws, sts, i, o);
    RunInv(ws, sts, i);
    LargeBlock(ws[i].granted[o]);
    if o !in ws[i].live {
      var k, x :| Holds(ws[i], k, x, o);
      assert FreeInv(ws[i], k, x);
    }
  }

  /** A block of more than half a MiB just freed goes to the next thread that asks for its size, whichever it is;
      a smaller one to the thread that freed it, if that is the next to ask. */
  lemma FreedBlockReused(ws: seq<World>, sts: seq<Step>, i: nat, u: nat, size: nat)
    requires Run(ws, sts) && i < |sts| && sts[i].Deallocate? && Idle(ws[i + 1], u)
    requires OrderOf(size) == OrderOf(sts[i].size) && (sts[i].size > HALF_MIB || u == sts[i].thread)
    ensures Enabled(ws[i + 1], Pop(u, size))
    ensures Apply(ws[i + 1], Pop(u, size)).live == ws[i + 1].live + {sts[i].offset}
  {
    LargeRequest(sts[i].size);
  }

  /** Block `o` was freed last by thread `t`: at step `i`, and it has not been in use since. */
  ghost predicate FreedBy(ws: seq<World>, sts: seq<Step>, i: nat, j: nat, o: nat, t: nat)
    requires |ws| == |sts| + 1
  {
    && i < j < |ws| && sts[i].Deallocate? && sts[i].offset == o && sts[i].thread == t
    && forall x | i < x <= j :: o !in ws[x].live
  }

  /** Block `o` was in this place in state `y`, if it is in the next. */
  ghost predicate PlacedBefore(ws: seq<World>, y: nat, k: Key, x: int, o: nat) {
    y + 1 < |ws| && (Holds(ws[y + 1], k, x, o) ==> Holds(ws[y], k, x, o))
  }

  lemma {:induction false} PlacedSince(ws: seq<World>, i: nat, j: nat, k: Key, x: int, o: nat)
    requires i <= j < |ws| && Holds(ws[j], k, x, o) && forall y: nat | i <= y < j :: PlacedBefore(ws, y, k, x, o)
    ensures Holds(ws[i], k, x, o)
    decreases j
  {
    if i < j {
      assert PlacedBefore(ws, j - 1, k, x, o);
      PlacedSince(ws, i, j - 1, k, x, o);
    }
  }

  /** The only list a freed small block can be in is the private one of the thread that freed it. */
  lemma SmallBlockPlace(ws: seq<World>, sts: seq<Step>, i: nat, j: nat, o: nat, t: nat, k: Key, x: int)
    requires Run(ws, sts) && FreedBy(ws, sts, i, j, o, t) && sts[i].size <= HALF_MIB && Holds(ws[j], k, x, o)
    ensures Private(k, t)
  {
    forall y: nat | i + 1 <= y < j ensures PlacedBefore(ws, y, k, x, o) { StillThere(ws, sts, y, k, x, o); }
    PlacedSince(ws, i + 1, j, k, x, o);
    FreedInto(ws, sts, i, k, x);
  }

  lemma StillThere(ws: seq<World>, sts: seq<Step>, y: nat, k: Key, x: int, o: nat)
    requires Run(ws, sts) && y < |sts| && o !in ws[y].live
    ensures PlacedBefore(ws, y, k, x, o)
  {
    if Holds(ws[y + 1], k, x, o) { PlaceStays(ws[y], sts[y], o, k, x); }
  }

  lemma FreedInto(ws: seq<World>, sts: seq<Step>, i: nat, k: Key, x: int)
    requires Run(ws, sts) && i < |sts| && sts[i].Deallocate? && sts[i].size <= HALF_MIB
    requires Holds(ws[i + 1], k, x, sts[i].offset)
    ensures Private(k, sts[i].thread)
  {
    LargeRequest(sts[i].size);
    RunInv(ws, sts, i + 1);
    var k0 := KeyOf(sts[i].thread, OrderOf(sts[i].size));
    assert Holds(ws[i + 1], k0, |List(ws[i], k0)|, sts[i].offset);
  }

  lemma PlaceStays(w: World, st: Step, o: nat, k: Key, x: int)
    requires Enabled(w, st) && o !in w.live && Holds(Apply(w, st), k, x, o)
    ensures Holds(w, k, x, o)
  {
  }

  /** A freed block of at most half a MiB can be handed out again to the thread that freed it only. */
  lemma SmallBlocksPrivate(ws: seq<World>, sts: seq<Step>, i: nat, j: nat, o: nat, t: nat)
    requires Run(ws, sts) && j < |sts| && FreedBy(ws, sts, i, j, o, t) && sts[i].size <= HALF_MIB
    requires o in ws[j + 1].live
    ensures sts[j].Pop? && sts[j].thread == t
  {
    RunInv(ws, sts, j);
    StillGranted(ws, sts, i, j, o);
    var st := sts[j];
    if st.Bump? && ws[j].used < ws[j].total { GrantPlaces(ws[j], st.thread, st.size); }
    assert st.Pop?;
    var k := KeyOf(st.thread, OrderOf(st.size));
    assert Holds(ws[j], k, |List(ws[j], k)| - 1, o);
    SmallBlockPlace(ws, sts, i, j, o, t, k, |List(ws[j], k)| - 1);
  }

  lemma OnePage()
    ensures OrderOf(4096) == 12 && Pow2(12) == 4096
  {
    OrderIsLeast(4096);
    assert Pow2(12) == 4096;
    LeastUnique(4096, 12, OrderOf(4096));
  }

  /** A thread that frees one page and exits leaves a space of one page used up with nothing in it: the next
      allocation, by any thread, fails. */
  lemma ExitLosesBlock(base: nat) returns (ws: seq<World>, sts: seq<Step>)
    requires base % PAGE == 0
    ensures Run(ws, sts) && ws[0].total == PAGE
    ensures sts == [Miss(0, PAGE), Bump(0, PAGE), Deallocate(0, base, PAGE), Exit(0), Miss(1, PAGE), Bump(1, PAGE)]
    ensures Lost(ws[6], base) && ws[6].live == {} && 1 in ws[6].failing
  {
    OnePage();
    var w0 := Init(PAGE, base);
    var w1 := Apply(w0, Miss(0, PAGE));
    var w2 := Apply(w1, Bump(0, PAGE));
    var w3 := Apply(w2, Deallocate(0, base, PAGE));
    var w4 := Apply(w3, Exit(0));
    var w5 := Apply(w4, Miss(1, PAGE));
    ws := [w0, w1, w2, w3, w4, w5, Apply(w5, Bump(1, PAGE))];
    sts := [Miss(0, PAGE), Bump(0, PAGE), Deallocate(0, base, PAGE), Exit(0), Miss(1, PAGE), Bump(1, PAGE)];
  }
}
