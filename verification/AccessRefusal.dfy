/**
 * The other half of the capacity condition: when one partition's pages can meet more slots than the
 * partition has frames, and are more than them, accessing the pages of a partition in turn ends in a refusal.
 */
module AccessRefusal {
  import opened PageCache
  import opened Partitioner
  import opened PrivateCaches
  import opened Capacity
  import opened DirectCaches
  import opened PowersOfTwo

  /** The slots hold the first `m` pages of partition 0 and nothing else. */
  ghost predicate Strided(ps: seq<nat>, parts: nat, pages: nat, m: nat)
    requires |ps| > 0
  {
    && (forall j | 0 <= j < m :: InSlot(ps, parts, pages, j))
    && (forall i | 0 <= i < |ps| && ps[i] != EMPTY :: exists j :: 0 <= j < m && ps[i] == Nth(parts, j))
  }

  function Nth(parts: nat, j: nat): nat { j * parts }

  predicate InSlot(ps: seq<nat>, parts: nat, pages: nat, j: nat)
    requires |ps| > 0
  {
    Nth(parts, j) < pages && Holds(ps, Nth(parts, j))
  }

  lemma NthAt(parts: nat, j: nat)
    requires parts > 0
    ensures Locate(parts, Nth(parts, j)) == Loc(0, j)
  {
    RoundTrip(parts, 0, Loc(0, j));
  }

  lemma FrameOf(v: Priv, ps: seq<nat>, ds: seq<bool>, touched: set<Page>, j: nat)
    requires Layered(v, ps, ds, multiset{}, touched) && InSlot(ps, v.parts, v.pages, j)
    ensures j in v.caches[0].table
    ensures var f := v.caches[0].table[j].frame;
      f in PinnedFrames(v.caches[0]) && f in v.caches[0].owner && v.caches[0].owner[f] == j
  {
    NthAt(v.parts, j);
    assert PinOk(v, ps, multiset{}, Nth(v.parts, j));
    Resident(v, Nth(v.parts, j));
    assert PageSound(v.caches[0], j);
    assert FrameSound(v.caches[0], v.caches[0].table[j].frame);
  }

  lemma PinnedAtLeast(v: Priv, ps: seq<nat>, ds: seq<bool>, touched: set<Page>, m: nat)
    requires Layered(v, ps, ds, multiset{}, touched) && Strided(ps, v.parts, v.pages, m)
    ensures v.caches[0].pinned >= m
  {
    var c := v.caches[0];
    forall j | j in UpTo(m)
      ensures j in c.table && c.table[j].frame in PinnedFrames(c)
      ensures c.table[j].frame in c.owner && c.owner[c.table[j].frame] == j
    {
      assert InSlot(ps, v.parts, v.pages, j);
      FrameOf(v, ps, ds, touched, j);
    }
    var g: map<nat, nat> := map j | j in c.table :: c.table[j].frame;
    InjectionSize(UpTo(m), PinnedFrames(c), g);
    PinnedSize(c, v.frames);
  }

  lemma PinnedAtMost(v: Priv, ps: seq<nat>, ds: seq<bool>, touched: set<Page>, m: nat)
    requires Layered(v, ps, ds, multiset{}, touched) && Strided(ps, v.parts, v.pages, m)
    ensures v.caches[0].pinned <= m
  {
    var c := v.caches[0];
    var frames, owner := PinnedFrames(c), c.owner;
    forall f | f in frames ensures f in owner && owner[f] in UpTo(m) {
      PinnedPage(v, ps, ds, touched, 0, f);
      var q := Globalize(v.parts, Loc(0, owner[f]));
      var j :| 0 <= j < m && ps[q % |ps|] == Nth(v.parts, j);
      NthAt(v.parts, j);
    }
    forall f, f' | f in frames && f' in frames && owner[f] == owner[f'] ensures f == f' {
      assert FrameSound(c, f) && FrameSound(c, f');
    }
    InjectionSize(frames, UpTo(m), owner);
    PinnedSize(c, v.frames);
  }

  /** The next page of the stride goes into an empty slot. */
  lemma NextSlotEmpty(ps: seq<nat>, parts: nat, pages: nat, m: nat, n: nat)
    requires |ps| > 0 && Strided(ps, parts, pages, m) && IsSpread(|ps|, parts, n) && m < n
    requires forall i | 0 <= i < |ps| && ps[i] != EMPTY :: ps[i] % |ps| == i
    ensures ps[Nth(parts, m) % |ps|] == EMPTY
  {
    var i := Nth(parts, m) % |ps|;
    if ps[i] != EMPTY {
      var j :| 0 <= j < m && ps[i] == Nth(parts, j);
      OtherSlot(|ps|, parts, n, j, m);
    }
  }

  lemma StridedNext(ps: seq<nat>, parts: nat, pages: nat, m: nat)
    requires |ps| > 0 && Strided(ps, parts, pages, m) && Nth(parts, m) < pages
    requires ps[Nth(parts, m) % |ps|] == EMPTY && pages <= EMPTY
    ensures Strided(ps[Nth(parts, m) % |ps| := Nth(parts, m)], parts, pages, m + 1)
  {
    var ps' := ps[Nth(parts, m) % |ps| := Nth(parts, m)];
    forall j | 0 <= j < m + 1 ensures InSlot(ps', parts, pages, j) { if j < m { assert InSlot(ps, parts, pages, j); } }
    forall i | 0 <= i < |ps'| && ps'[i] != EMPTY ensures exists j :: 0 <= j < m + 1 && ps'[i] == Nth(parts, j) {
      if i != Nth(parts, m) % |ps| {
        assert ps[i] != EMPTY;
        var j :| 0 <= j < m && ps[i] == Nth(parts, j);
      }
    }
  }

  /** With every frame pinned for the slots, a page in no slot is not resident. */
  lemma NotResident(v: Priv, ps: seq<nat>, ds: seq<bool>, touched: set<Page>, p: Page)
    requires Layered(v, ps, ds, multiset{}, touched) && Cache(v, p).pinned >= v.frames && !Holds(ps, p)
    ensures !Entry(v, p).exist
  {
    var c := Cache(v, p);
    Resident(v, p);
    PinnedSize(c, v.frames);
    assert PinOk(v, ps, multiset{}, p);
    assert PageSound(c, Locate(v.parts, p).block);
  }

  /** A configuration that is not ample has a spread wider than the frames. */
  lemma WideSpread(slots: nat, parts: nat, frames: nat, pages: nat) returns (n: nat)
    requires slots > 0 && !Ample(slots, parts, frames, pages)
    ensures IsSpread(slots, parts, n) && frames < n && Nth(parts, frames) < pages
  {
    ModMultiple(0, parts, slots);
    n := SpreadExists(slots, parts, slots);
  }

  /** A cache of this shape cannot be run out of frames by its slots. */
  ghost predicate Safe(c: DirectCache)
    requires c.store.Length > 0
  {
    Ample(c.store.Length, c.cache.parts, c.cache.frames, c.cache.pages)
  }

  /** Accessing pages `0`, `parts`, `2 * parts`, ... pins the frames of partition 0 one by one. When slots alone
      can run a cache of this shape out of frames at all this does, at the page after the last frame. */
  method Stride(c: DirectCache) returns (r: Status)
    requires c.Valid() && c.user == multiset{} && forall i | 0 <= i < c.store.Length :: c.store[i] == EMPTY
    modifies c.cache, c.store, c.dirty
    ensures r == OutOfFrames <==> !Safe(c)
    ensures r == OutOfFrames ==> forall j: nat | j <= c.cache.frames :: Holds(c.store[..], Nth(c.cache.parts, j))
  {
    var j := 0;
    r := Done;
    while j <= c.cache.frames && Nth(c.cache.parts, j) < c.cache.pages && r == Done
      invariant 0 <= j <= c.cache.frames + 1 && (r == Done ==> c.Valid())
      invariant r == Done || (r == OutOfFrames && !Safe(c))
      invariant !Safe(c) && r == Done ==> j <= c.cache.frames && Strided(c.store[..], c.cache.parts, c.cache.pages, j)
      invariant r == OutOfFrames ==> forall x: nat | x <= c.cache.frames :: Holds(c.store[..], Nth(c.cache.parts, x))
    {
      r := NextOfStride(c, j);
      j := j + 1;
    }
    if !Safe(c) && r == Done {
      var n := WideSpread(c.store.Length, c.cache.parts, c.cache.frames, c.cache.pages);
      Capacity.ProductLe(j, c.cache.frames, c.cache.parts);
    }
  }

  /** One access of the stride: the frames not yet pinned run out at the last. */
  method NextOfStride(c: DirectCache, j: nat) returns (r: Status)
    requires c.Valid() && c.user == multiset{} && j <= c.cache.frames && Nth(c.cache.parts, j) < c.cache.pages
    requires !Safe(c) ==> Strided(c.store[..], c.cache.parts, c.cache.pages, j)
    modifies c.cache, c.store, c.dirty
    ensures r == if !Safe(c) && j == c.cache.frames then OutOfFrames else Done
    ensures r == Done ==> c.Valid() && (!Safe(c) ==> Strided(c.store[..], c.cache.parts, c.cache.pages, j + 1))
    ensures r == OutOfFrames ==> forall x: nat | x <= c.cache.frames :: Holds(c.store[..], Nth(c.cache.parts, x))
  {
    ghost var ps := c.store[..];
    if !Safe(c) { Outlook(c, j); }
    r := c.Access(Nth(c.cache.parts, j), false);
    if !Safe(c) { StridedNext(ps, c.cache.parts, c.cache.pages, j); }
    if r == OutOfFrames {
      forall x: nat | x <= j ensures Holds(c.store[..], Nth(c.cache.parts, x)) {
        assert InSlot(c.store[..], c.cache.parts, c.cache.pages, x);
      }
    }
  }

  /** What the next access of the stride meets: an empty slot, and a frame unless it is the last. */
  lemma Outlook(c: DirectCache, j: nat)
    requires c.Valid() && c.user == multiset{} && j <= c.cache.frames && Nth(c.cache.parts, j) < c.cache.pages
    requires !Safe(c) && Strided(c.store[..], c.cache.parts, c.cache.pages, j)
    ensures c.store[Nth(c.cache.parts, j) % c.store.Length] == EMPTY
    ensures var v := c.cache.Value();
      Entry(v, Nth(c.cache.parts, j)).exist || !FullPin(Cache(v, Nth(c.cache.parts, j))) <==> j < c.cache.frames
  {
    var n := WideSpread(c.store.Length, c.cache.parts, c.cache.frames, c.cache.pages);
    Ready(c, j, n);
    var v, ps := c.cache.Value(), c.store[..];
    if j == c.cache.frames {
      PinnedAtLeast(v, ps, c.dirty[..], c.touched, j);
      NotResident(v, ps, c.dirty[..], c.touched, Nth(c.cache.parts, j));
    } else {
      PinnedAtMost(v, ps, c.dirty[..], c.touched, j);
    }
  }

  /** Before each access of the stride: its slot is empty and its partition the first. */
  lemma Ready(c: DirectCache, j: nat, n: nat)
    requires c.Valid() && Strided(c.store[..], c.cache.parts, c.cache.pages, j) && Nth(c.cache.parts, j) < c.cache.pages
    requires IsSpread(c.store.Length, c.cache.parts, n) && j < n
    ensures c.store[Nth(c.cache.parts, j) % c.store.Length] == EMPTY
    ensures Cache(c.cache.Value(), Nth(c.cache.parts, j)) == c.cache.caches[0]
    ensures c.cache.caches[0].capacity == c.cache.frames
  {
    var ps := c.store[..];
    forall i | 0 <= i < |ps| && ps[i] != EMPTY ensures ps[i] % |ps| == i { assert SlotOk(c.cache.Value(), ps, i); }
    NextSlotEmpty(ps, c.cache.parts, c.cache.pages, j, n);
    NthAt(c.cache.parts, j);
    Resident(c.cache.Value(), Nth(c.cache.parts, j));
  }

  lemma FourSlots()
    ensures Slots(2 * 5) == 4
  {
    assert Bits(9) == 4 && Pow2(4) == 16;
  }

  /** So a power of two of partitions is needed: five partitions of two frames are already too few for their slots. */
  lemma FiveByTwo(pages: nat)
    ensures Slots(2 * 5) == 4 && (Ample(Slots(2 * 5), 5, 2, pages) <==> pages <= 10)
  {
    FourSlots();
    FivePartitions();
    assert !Fits(4, 5, 2);
  }
}
