/**
 * The direct cache of one thread over its private cache, and the two together as the integrated cache's
 * `access`, `pin`, `unpin` and `flush` drive them.
 */
module DirectCaches {
  import opened Basics
  import opened PageCache
  import opened Partitioner
  import opened PrivateCaches
  import opened Capacity
  import opened PowersOfTwo

  const EMPTY: nat := 0xFFFF_FFFF_FFFF_FFFF

  /** The slot page `p` belongs in holds it; `p & mask` is the remainder, the slot count being a power of two. */
  predicate Holds(ps: seq<nat>, p: Page)
    requires |ps| > 0
  {
    ps[p % |ps|] == p
  }

  /** The private pins: one for each occupied slot, and those the thread has taken besides. */
  predicate PinOk(v: Priv, ps: seq<nat>, user: multiset<Page>, p: Page)
    requires Wf(v) && |ps| > 0
  {
    && Entry(v, p).refCount == (if p < v.pages && Holds(ps, p) then 1 else 0) + user[p]
    && (p in user ==> p < v.pages)
  }

  predicate SlotOk(v: Priv, ps: seq<nat>, i: int) {
    0 <= i < |ps| && ps[i] != EMPTY ==> ps[i] % |ps| == i && ps[i] < v.pages
  }

  /** A write not yet declared to the private cache is remembered by a slot's dirty bit or by the thread. */
  predicate DirtyOk(v: Priv, ps: seq<nat>, ds: seq<bool>, touched: set<Page>, p: Page)
    requires |ps| > 0 && |ds| == |ps|
  {
    p in v.owed ==> p in touched || (p < v.pages && Holds(ps, p) && ds[p % |ps|])
  }

  ghost predicate Layered(v: Priv, ps: seq<nat>, ds: seq<bool>, user: multiset<Page>, touched: set<Page>) {
    && Ok(v) && v.pages <= EMPTY && |ps| > 0 && |ds| == |ps|
    && (forall i :: SlotOk(v, ps, i))
    && (forall p: Page :: PinOk(v, ps, user, p))
    && (forall p: Page :: DirtyOk(v, ps, ds, touched, p))
    && (forall p | p in touched :: p in user)
  }

  /** The private cache after the page in slot `i`, if any, has been given back. */
  function Vacated(v: Priv, ps: seq<nat>, ds: seq<bool>, touched: set<Page>, i: nat): Priv
    requires Wf(v) && i < |ps| && |ds| == |ps|
  {
    if ps[i] == EMPTY || Entry(v, ps[i]).refCount == 0 then v else Unpinned(v, ps[i], ds[i], ps[i] in touched)
  }

  /** Once its slot is vacated page `p` is resident or can be given a frame. */
  predicate Room(v: Priv, ps: seq<nat>, ds: seq<bool>, touched: set<Page>, p: Page)
    requires Wf(v) && |ds| == |ps| > 0
  {
    var v' := Vacated(v, ps, ds, touched, p % |ps|);
    Entry(v', p).exist || !FullPin(Cache(v', p))
  }

  /** One partition's pages meet no more slots than the partition has frames. */
  ghost predicate Fits(slots: nat, parts: nat, frames: nat)
    requires slots > 0
  {
    exists n: nat :: IsSpread(slots, parts, n) && n <= frames
  }

  /** Slots alone never pin a partition full: one partition's pages meet no more slots than it has frames, or no
      partition has more pages than frames. */
  ghost predicate Ample(slots: nat, parts: nat, frames: nat, pages: nat)
    requires slots > 0
  {
    Fits(slots, parts, frames) || pages <= frames * parts
  }

  /** The private cache after an access to a page in its slot. */
  function Noted(v: Priv, p: Page, isWrite: bool): Priv { if isWrite then Written(v, p) else v }

  /** What an access does to the private cache: nothing when the page is in its slot; else it gives back the
      page in the way and pins this one. Either way a write is noted. */
  ghost predicate AccessStep(v: Priv, ps: seq<nat>, ds: seq<bool>, touched: set<Page>, p: Page, isWrite: bool, v': Priv)
    requires Wf(v) && |ds| == |ps| > 0
  {
    if Holds(ps, p) then v' == Noted(v, p, isWrite)
    else exists u :: PinStep(Vacated(v, ps, ds, touched, p % |ps|), u, p) && v' == Noted(u, p, isWrite)
  }

  /** The dirty bits after an access: a page new in its slot starts clean. */
  function DirtyAfter(ps: seq<nat>, ds: seq<bool>, p: Page, isWrite: bool): seq<bool>
    requires |ds| == |ps| > 0
  {
    ds[p % |ps| := (Holds(ps, p) && ds[p % |ps|]) || isWrite]
  }

  lemma SlotPin(v: Priv, ps: seq<nat>, ds: seq<bool>, user: multiset<Page>, touched: set<Page>, i: nat)
    requires Layered(v, ps, ds, user, touched) && i < |ps| && ps[i] != EMPTY
    ensures Holds(ps, ps[i]) && ps[i] < v.pages && Entry(v, ps[i]).exist
    ensures Entry(v, ps[i]).refCount == 1 + user[ps[i]]
    ensures ps[i] in v.owed && ps[i] !in touched ==> ds[i]
  {
    assert SlotOk(v, ps, i) && PinOk(v, ps, user, ps[i]) && DirtyOk(v, ps, ds, touched, ps[i]);
    Resident(v, ps[i]);
  }

  lemma VacatedPage(v: Priv, v': Priv, ps: seq<nat>, ds: seq<bool>, user: multiset<Page>, touched: set<Page>, i: nat,
                    p: Page)
    requires Wf(v) && Wf(v') && v'.pages == v.pages <= EMPTY && |ds| == |ps|
    requires i < |ps| && ps[i] != EMPTY && SlotOk(v, ps, i)
    requires PinOk(v, ps, user, p) && DirtyOk(v, ps, ds, touched, p)
    requires Entry(v', p).refCount == Entry(v, p).refCount - if p == ps[i] then 1 else 0
    requires p in v'.owed ==> p in v.owed && (p == ps[i] ==> p in touched)
    ensures PinOk(v', ps[i := EMPTY], user, p) && DirtyOk(v', ps[i := EMPTY], ds, touched, p)
  {
    assert |ps[i := EMPTY]| == |ps|;
  }

  /** Giving back a slot's page empties the slot. */
  lemma VacatedOk(v: Priv, v': Priv, ps: seq<nat>, ds: seq<bool>, user: multiset<Page>, touched: set<Page>, i: nat)
    requires Layered(v, ps, ds, user, touched) && i < |ps| && ps[i] != EMPTY
    requires Entry(v, ps[i]).refCount > 0 && v' == Unpinned(v, ps[i], ds[i], ps[i] in touched)
    requires Ok(v') && CountsDown(v, v', ps[i])
    ensures Layered(v', ps[i := EMPTY], ds, user, touched)
  {
    var ps' := ps[i := EMPTY];
    forall j ensures SlotOk(v', ps', j) { assert SlotOk(v, ps, j); }
    forall p: Page ensures PinOk(v', ps', user, p) && DirtyOk(v', ps', ds, touched, p) {
      assert PinOk(v, ps, user, p) && DirtyOk(v, ps, ds, touched, p) && SlotOk(v, ps, i);
      VacatedPage(v, v', ps, ds, user, touched, i, p);
    }
  }

  lemma FilledPage(v: Priv, v': Priv, ps: seq<nat>, ds: seq<bool>, user: multiset<Page>, touched: set<Page>, p: Page,
                   q: Page)
    requires Wf(v) && Wf(v') && v'.pages == v.pages <= EMPTY && |ds| == |ps| > 0 && p < v.pages && ps[p % |ps|] == EMPTY
    requires PinOk(v, ps, user, q) && DirtyOk(v, ps, ds, touched, q) && v'.owed == v.owed
    requires Entry(v', q).refCount == Entry(v, q).refCount + if q == p then 1 else 0
    ensures PinOk(v', ps[p % |ps| := p], user, q) && DirtyOk(v', ps[p % |ps| := p], ds[p % |ps| := false], touched, q)
  {
    assert |ps[p % |ps| := p]| == |ps|;
  }

  /** Taking a pin for an empty slot fills it. */
  lemma FilledOk(v: Priv, v': Priv, ps: seq<nat>, ds: seq<bool>, user: multiset<Page>, touched: set<Page>, p: Page)
    requires Layered(v, ps, ds, user, touched) && p < v.pages == v'.pages && ps[p % |ps|] == EMPTY
    requires Ok(v') && CountsUp(v, v', p) && v'.owed == v.owed
    ensures Layered(v', ps[p % |ps| := p], ds[p % |ps| := false], user, touched)
  {
    var i := p % |ps|;
    var ps', ds' := ps[i := p], ds[i := false];
    forall j ensures SlotOk(v', ps', j) { assert SlotOk(v, ps, j); }
    forall q: Page ensures PinOk(v', ps', user, q) && DirtyOk(v', ps', ds', touched, q) {
      assert PinOk(v, ps, user, q) && DirtyOk(v, ps, ds, touched, q);
      FilledPage(v, v', ps, ds, user, touched, p, q);
    }
  }

  /** A write is remembered by the dirty bit of the slot. */
  lemma MarkedOk(v: Priv, v': Priv, ps: seq<nat>, ds: seq<bool>, user: multiset<Page>, touched: set<Page>, p: Page)
    requires Layered(v, ps, ds, user, touched) && p < v.pages && Holds(ps, p) && Ok(v') && v' == Written(v, p)
    ensures Layered(v', ps, ds[p % |ps| := true], user, touched)
  {
    var ds' := ds[p % |ps| := true];
    forall j ensures SlotOk(v', ps, j) { assert SlotOk(v, ps, j); }
    forall q: Page ensures PinOk(v', ps, user, q) && DirtyOk(v', ps, ds', touched, q) {
      assert PinOk(v, ps, user, q) && DirtyOk(v, ps, ds, touched, q);
      assert Entry(v', q) == Entry(v, q);
    }
  }

  // ---------------------------------------------------------------- capacity

  /** The frames of a cache that are not up for replacement. */
  function PinnedFrames(c: Core): set<Frame> { UpTo(c.curId) - c.tracked }

  lemma PinnedSize(c: Core, frames: nat)
    requires Sound(c, frames)
    ensures |PinnedFrames(c)| == c.pinned
  {
    forall f | f in c.tracked ensures f in UpTo(c.curId) { assert FrameSound(c, f); }
    assert UpTo(c.curId) == PinnedFrames(c) + c.tracked;
  }

  /** When no one else holds pins, a pinned frame's page is in its slot. */
  lemma PinnedPage(v: Priv, ps: seq<nat>, ds: seq<bool>, touched: set<Page>, k: nat, f: Frame)
    requires Layered(v, ps, ds, multiset{}, touched) && k < v.parts
    requires f in PinnedFrames(v.caches[k]) && f in v.caches[k].owner
    ensures var q := Globalize(v.parts, Loc(k, v.caches[k].owner[f]));
      q < v.pages && Holds(ps, q) && Locate(v.parts, q) == Loc(k, v.caches[k].owner[f]) && Entry(v, q).frame == f
  {
    var c := v.caches[k];
    var l := Loc(k, c.owner[f]);
    var q := Globalize(v.parts, l);
    RoundTrip(v.parts, q, l);
    assert FrameSound(c, f) && PageSound(c, l.block);
    assert PinOk(v, ps, multiset{}, q);
  }

  /** The pinned pages of a partition meet different slots, none of them the empty one `p` is to go into. */
  lemma PinnedResidues(v: Priv, ps: seq<nat>, ds: seq<bool>, touched: set<Page>, p: Page, n: nat, f: Frame, f': Frame)
    requires Layered(v, ps, ds, multiset{}, touched) && ps[p % |ps|] == EMPTY && IsSpread(|ps|, v.parts, n)
    requires f in PinnedFrames(Cache(v, p)) && f in Cache(v, p).owner
    requires f' in PinnedFrames(Cache(v, p)) && f' in Cache(v, p).owner
    ensures Cache(v, p).owner[f] % n == Cache(v, p).owner[f'] % n ==> f == f'
    ensures Cache(v, p).owner[f] % n != Locate(v.parts, p).block % n
  {
    var l := Locate(v.parts, p);
    RoundTrip(v.parts, p, l);
    PinnedPage(v, ps, ds, touched, l.part, f);
    PinnedPage(v, ps, ds, touched, l.part, f');
    SameSlot(|ps|, v.parts, n, l.part, Cache(v, p).owner[f]);
    SameSlot(|ps|, v.parts, n, l.part, Cache(v, p).owner[f']);
    SameSlot(|ps|, v.parts, n, l.part, l.block);
  }

  lemma CountResidues(frames: set<Frame>, owner: map<Frame, Page>, n: nat, taken: nat)
    requires taken < n && frames <= owner.Keys
    requires forall f | f in frames :: owner[f] % n != taken
    requires forall f, f' | f in frames && f' in frames && owner[f] % n == owner[f'] % n :: f == f'
    ensures |frames| < n
  {
    var g := map f | f in owner :: owner[f] % n;
    InjectionSize(frames, UpTo(n) - {taken}, g);
    assert |UpTo(n) - {taken}| == n - 1;
  }

  /** So there are fewer of them than slots the partition can meet. */
  lemma RoomForOne(v: Priv, ps: seq<nat>, ds: seq<bool>, touched: set<Page>, p: Page, n: nat)
    requires Layered(v, ps, ds, multiset{}, touched) && ps[p % |ps|] == EMPTY && IsSpread(|ps|, v.parts, n)
    ensures Cache(v, p).pinned < n
  {
    var c := Cache(v, p);
    Resident(v, p);
    PinnedSize(c, v.frames);
    var frames, owner := PinnedFrames(c), c.owner;
    assert frames <= owner.Keys;
    forall f, f' | f in frames && f' in frames
      ensures owner[f] % n == owner[f'] % n ==> f == f'
      ensures owner[f] % n != Locate(v.parts, p).block % n
    {
      PinnedResidues(v, ps, ds, touched, p, n, f, f');
    }
    CountResidues(frames, owner, n, Locate(v.parts, p).block % n);
  }

  /** With no more pages in a partition than frames, one not pinned leaves a frame not pinned. */
  lemma FewPages(v: Priv, ps: seq<nat>, ds: seq<bool>, touched: set<Page>, p: Page)
    requires Layered(v, ps, ds, multiset{}, touched) && ps[p % |ps|] == EMPTY && p < v.pages <= v.frames * v.parts
    ensures Cache(v, p).pinned < v.frames
  {
    var c, l := Cache(v, p), Locate(v.parts, p);
    Resident(v, p);
    RoundTrip(v.parts, p, l);
    PinnedSize(c, v.frames);
    var frames := PinnedFrames(c);
    LessProduct(l.block, v.frames, v.parts);
    forall f | f in frames ensures f in c.owner && c.owner[f] in UpTo(v.frames) - {l.block} {
      assert FrameSound(c, f);
      PinnedPage(v, ps, ds, touched, l.part, f);
      LessProduct(c.owner[f], v.frames, v.parts);
    }
    forall f, f' | f in frames && f' in frames && c.owner[f] == c.owner[f'] ensures f == f' {
      assert FrameSound(c, f) && FrameSound(c, f');
    }
    InjectionSize(frames, UpTo(v.frames) - {l.block}, c.owner);
    assert |UpTo(v.frames) - {l.block}| == v.frames - 1;
  }

  lemma NeverFull(v: Priv, ps: seq<nat>, ds: seq<bool>, touched: set<Page>, p: Page)
    requires Layered(v, ps, ds, multiset{}, touched) && ps[p % |ps|] == EMPTY && p < v.pages
    requires Ample(|ps|, v.parts, v.frames, v.pages)
    ensures !FullPin(Cache(v, p))
  {
    Resident(v, p);
    if n: nat :| IsSpread(|ps|, v.parts, n) && n <= v.frames {
      RoomForOne(v, ps, ds, touched, p, n);
    } else {
      FewPages(v, ps, ds, touched, p);
    }
  }

  /** The entry of page `q` when the first `i` slots have been emptied: the page of such a slot has one pin less,
      and is dirty if it was or the slot says so; no other entry has changed. */
  predicate FlushedEntry(v: Priv, v': Priv, ps: seq<nat>, ds: seq<bool>, i: nat, q: Page)
    requires Wf(v) && Wf(v') && |ds| == |ps| > 0
  {
    var e, e', mine := Entry(v, q), Entry(v', q), q < v.pages && Holds(ps, q) && q % |ps| < i;
    && e'.exist == e.exist && e'.frame == e.frame && e'.refCount == e.refCount - (if mine then 1 else 0)
    && (e'.dirty <==> e.dirty || (mine && ds[q % |ps|]))
  }

  lemma FlushedSlot(v: Priv, u: Priv, u': Priv, ps: seq<nat>, ds: seq<bool>, user: multiset<Page>, touched: set<Page>,
                    i: nat, next: nat)
    requires Layered(v, ps, ds, user, touched) && i < |ps| && next == i + 1 && Ok(u) && Wf(u')
    requires forall q: Page :: FlushedEntry(v, u, ps, ds, i, q)
    requires if ps[i] == EMPTY then u' == u else Dropped(u, u', ps[i], ds[i])
    ensures forall q: Page :: FlushedEntry(v, u', ps, ds, next, q)
  {
    assert SlotOk(v, ps, i);
    if ps[i] != EMPTY { SlotPin(v, ps, ds, user, touched, i); }
    forall q: Page ensures FlushedEntry(v, u', ps, ds, next, q) { assert FlushedEntry(v, u, ps, ds, i, q); }
  }

  /** A page in its slot is pinned for it, and its partition of the shared cache holds it for the thread once. */
  lemma SlotHolds(v: Priv, ps: seq<nat>, ds: seq<bool>, user: multiset<Page>, touched: set<Page>, p: Page)
    requires Layered(v, ps, ds, user, touched) && Holds(ps, p) && p < v.pages
    ensures Entry(v, p).exist && Entry(v, p).refCount == 1 + user[p] && Held(v.log, p) == 1
  {
    assert PinOk(v, ps, user, p);
    Resident(v, p);
    assert PageOk(v, p);
  }

  /** An access that misses, put together from its parts. */
  lemma MissStep(v: Priv, ps: seq<nat>, ds: seq<bool>, touched: set<Page>, p: Page, isWrite: bool, u: Priv)
    requires Wf(v) && |ds| == |ps| > 0 && !Holds(ps, p) && PinStep(Vacated(v, ps, ds, touched, p % |ps|), u, p)
    ensures AccessStep(v, ps, ds, touched, p, isWrite, Noted(u, p, isWrite))
  {
  }

  lemma CleanThenMarked(ds: seq<bool>, i: nat, isWrite: bool)
    requires i < |ds|
    ensures var clean := ds[i := false]; clean[i := clean[i] || isWrite] == ds[i := isWrite]
  {
  }

  class DirectCache {
    const cache: PrivateCache
    const store: array<nat>
    const dirty: array<bool>
    /** The pins the thread holds of the private cache besides the slots', and what it wrote through them. */
    ghost var user: multiset<Page>
    ghost var touched: set<Page>

    ghost predicate Valid()
      reads this, cache, store, dirty
    {
      Layered(cache.Value(), store[..], dirty[..], user, touched)
    }

    constructor (cache: PrivateCache)
      requires cache.Valid() && cache.pages <= EMPTY && cache.frames * cache.parts < WORD
      requires cache.owed == {} && forall p: Page :: Entry(cache.Value(), p).refCount == 0
      ensures Valid() && this.cache == cache && fresh(store) && fresh(dirty) && user == multiset{} && touched == {}
      ensures forall i | 0 <= i < store.Length :: store[i] == EMPTY
      ensures store.Length == Slots(cache.frames * cache.parts)
      ensures store.Length > 1 ==> 2 * store.Length < cache.frames * cache.parts
      ensures cache.frames * cache.parts <= HALF ==>
        cache.frames * cache.parts <= 4 * store.Length || store.Length == 0x4000_0000
      ensures cache.frames > 0 ==>
        forall a: nat | cache.parts == Pow2(a) :: Fits(store.Length, cache.parts, cache.frames)
    {
      var k;
      ghost var s;
      k, s := SlotCount(cache.frames * cache.parts);
      this.cache := cache;
      store := new nat[k](_ => EMPTY);
      dirty := new bool[k](_ => false);
      user, touched := multiset{}, {};
      new;
      var v, ps, ds := cache.Value(), store[..], dirty[..];
      forall i ensures SlotOk(v, ps, i) {}
      forall p: Page ensures PinOk(v, ps, user, p) && DirtyOk(v, ps, ds, touched, p) {}
      forall a: nat | cache.frames > 0 && cache.parts == Pow2(a)
        ensures Fits(store.Length, cache.parts, cache.frames)
      {
        var n := PowerOfTwoFits(a, cache.frames, s);
      }
    }

    /** The thread's own pins and what it has written through them are now these. */
    ghost method Note(user: multiset<Page>, touched: set<Page>)
      requires Layered(cache.Value(), store[..], dirty[..], user, touched)
      modifies this`user, this`touched
      ensures Valid() && this.user == user && this.touched == touched
    {
      this.user, this.touched := user, touched;
    }

    /** Gives back the page in slot `i`, if any. */
    method Vacate(i: nat)
      requires Valid() && i < store.Length
      modifies cache
      ensures cache.Value() == old(Vacated(cache.Value(), store[..], dirty[..], touched, i))
      ensures cache.log == old(cache.log)
      ensures Layered(cache.Value(), store[..][i := EMPTY], dirty[..], user, touched)
      ensures if store[i] == EMPTY then cache.Value() == old(cache.Value())
              else Dropped(old(cache.Value()), cache.Value(), store[i], dirty[i])
    {
      ghost var v, ps, ds := cache.Value(), store[..], dirty[..];
      if store[i] != EMPTY {
        SlotPin(v, ps, ds, user, touched, i);
        var r := cache.Unpin(store[i], dirty[i], store[i] in touched);
        VacatedOk(v, cache.Value(), ps, ds, user, touched, i);
      } else {
        assert ps[i := EMPTY] == ps;
      }
    }

    /** Puts page `p` into its slot, which is empty. When the pin fails the slot claims a page it has not got. */
    method Fill(p: Page) returns (r: Status)
      requires store.Length > 0 && dirty.Length == store.Length
      requires Layered(cache.Value(), store[..][p % store.Length := EMPTY], dirty[..], user, touched)
      modifies cache, store, dirty
      ensures store[..] == old(store[..])[p % store.Length := p] && old(cache.log) <= cache.log
      ensures r == Done <==> p < cache.pages && old(Entry(cache.Value(), p).exist || !FullPin(Cache(cache.Value(), p)))
      ensures r != NullPointer && (r == PageIdError <==> p >= cache.pages)
      ensures r == Done ==> Valid() && dirty[..] == old(dirty[..])[p % store.Length := false]
      ensures r == Done ==> PinStep(old(cache.Value()), cache.Value(), p)
      ensures r != Done ==> dirty[..] == old(dirty[..]) && cache.Value() == old(cache.Value())
    {
      var i := p % store.Length;
      ghost var v, ps, ds := cache.Value(), store[..][i := EMPTY], dirty[..];
      store[i] := p;
      r := cache.Pin(p);
      if r != Done { return; }
      FilledOk(v, cache.Value(), ps, ds, user, touched, p);
      dirty[i] := false;
      assert store[..] == ps[i := p];
    }

    /** Notes in the slot's dirty bit whether the page is being written. */
    method Mark(p: Page, isWrite: bool)
      requires Valid() && p < cache.pages && Holds(store[..], p)
      modifies cache, dirty
      ensures Valid() && dirty[..] == old(dirty[..])[p % store.Length := old(dirty[p % store.Length]) || isWrite]
      ensures cache.Value() == Noted(old(cache.Value()), p, isWrite)
    {
      var i := p % store.Length;
      ghost var v, ps, ds := cache.Value(), store[..], dirty[..];
      dirty[i] := dirty[i] || isWrite;
      if isWrite {
        assert PinOk(v, ps, user, p);
        cache.NoteWrite(p);
        MarkedOk(v, cache.Value(), ps, ds, user, touched, p);
        assert dirty[..] == ds[i := true];
      } else {
        assert dirty[..] == ds;
      }
    }

    /** Makes way for page `p` in its slot and puts it there. */
    method Replace(p: Page) returns (r: Status)
      requires Valid() && !Holds(store[..], p)
      modifies cache, store, dirty
      ensures store[..] == old(store[..])[p % store.Length := p] && old(cache.log) <= cache.log
      ensures r != NullPointer && (r == PageIdError <==> p >= cache.pages)
      ensures r == Done <==> p < cache.pages && old(Room(cache.Value(), store[..], dirty[..], touched, p))
      ensures r == OutOfFrames ==> user != multiset{} || !Ample(store.Length, cache.parts, cache.frames, cache.pages)
      ensures r == Done ==> Valid() && dirty[..] == old(dirty[..])[p % store.Length := false]
      ensures r == Done ==>
        PinStep(old(Vacated(cache.Value(), store[..], dirty[..], touched, p % store.Length)), cache.Value(), p)
      ensures r != Done ==> Layered(cache.Value(), old(store[..])[p % store.Length := EMPTY], dirty[..], user, touched)
    {
      var i := p % store.Length;
      Vacate(i);
      ghost var v, ps, ds := cache.Value(), store[..][i := EMPTY], dirty[..];
      if user == multiset{} && p < cache.pages && Ample(store.Length, cache.parts, cache.frames, cache.pages) {
        NeverFull(v, ps, ds, touched, p);
      }
      r := Fill(p);
    }

    /** An access to a page in its slot. */
    method AccessHit(p: Page, isWrite: bool)
      requires Valid() && p != EMPTY && Holds(store[..], p)
      modifies cache, dirty
      ensures Valid() && p < cache.pages && old(cache.log) <= cache.log && (isWrite ==> Wrote(cache.log, p))
      ensures dirty[..] == DirtyAfter(store[..], old(dirty[..]), p, isWrite)
      ensures AccessStep(old(cache.Value()), store[..], old(dirty[..]), touched, p, isWrite, cache.Value())
    {
      ghost var log := cache.log;
      assert SlotOk(cache.Value(), store[..], p % store.Length);
      Mark(p, isWrite);
      Extended(log, Write(p), p);
    }

    /** An access to a page not in its slot. */
    method AccessMiss(p: Page, isWrite: bool) returns (r: Status)
      requires Valid() && !Holds(store[..], p)
      modifies cache, store, dirty
      ensures store[..] == old(store[..])[p % store.Length := p] && old(cache.log) <= cache.log
      ensures r != NullPointer && (r == PageIdError <==> p >= cache.pages)
      ensures r == Done <==> p < cache.pages && old(Room(cache.Value(), store[..], dirty[..], touched, p))
      ensures r == OutOfFrames ==> user != multiset{} || !Ample(store.Length, cache.parts, cache.frames, cache.pages)
      ensures r == Done ==> Valid() && (isWrite ==> Wrote(cache.log, p))
      ensures r == Done ==> dirty[..] == DirtyAfter(old(store[..]), old(dirty[..]), p, isWrite)
      ensures r == Done ==>
        AccessStep(old(cache.Value()), old(store[..]), old(dirty[..]), touched, p, isWrite, cache.Value())
      ensures r != Done ==> Layered(cache.Value(), old(store[..])[p % store.Length := EMPTY], dirty[..], user, touched)
    {
      ghost var v, ps, ds := cache.Value(), store[..], dirty[..];
      r := Replace(p);
      if r == Done { MarkNew(p, isWrite, v, ps, ds); }
    }

    /** Notes a write to the page just put into its slot, where it was not before. */
    method MarkNew(p: Page, isWrite: bool, ghost v: Priv, ghost ps: seq<nat>, ghost ds: seq<bool>)
      requires Valid() && p < cache.pages && Wf(v) && |ds| == |ps| == store.Length && !Holds(ps, p)
      requires Holds(store[..], p) && dirty[..] == ds[p % |ps| := false]
      requires PinStep(Vacated(v, ps, ds, touched, p % |ps|), cache.Value(), p)
      modifies cache, dirty
      ensures Valid() && old(cache.log) <= cache.log && (isWrite ==> Wrote(cache.log, p))
      ensures dirty[..] == DirtyAfter(ps, ds, p, isWrite)
      ensures AccessStep(v, ps, ds, touched, p, isWrite, cache.Value())
    {
      ghost var u := cache.Value();
      Mark(p, isWrite);
      Extended(u.log, Write(p), p);
      MissStep(v, ps, ds, touched, p, isWrite, u);
      CleanThenMarked(ds, p % |ps|, isWrite);
    }

    /** The page is in its slot afterwards, pinned, and its write noted. It is refused exactly when it lies
        outside the space, or is not resident and finds every frame of its partition pinned once the slot is
        vacated; and never for want of a frame when only slots hold pins and the slots or the pages of one
        partition are no more than its frames. The page id that marks empty slots is taken for a hit on an empty slot,
        whose pointer is null. */
    method Access(p: Page, isWrite: bool) returns (r: Status)
      requires Valid()
      modifies cache, store, dirty
      ensures store[..] == old(store[..])[p % store.Length := p] && old(cache.log) <= cache.log
      ensures r == NullPointer <==> p == EMPTY && old(Holds(store[..], p))
      ensures r == PageIdError <==> p >= cache.pages && r != NullPointer
      ensures r == Done <==>
        p != EMPTY &&
          (old(Holds(store[..], p)) || (p < cache.pages && old(Room(cache.Value(), store[..], dirty[..], touched, p))))
      ensures r == OutOfFrames ==> user != multiset{} || !Ample(store.Length, cache.parts, cache.frames, cache.pages)
      ensures r == Done ==> Valid() && (isWrite ==> Wrote(cache.log, p))
      ensures r == Done || r == NullPointer ==> dirty[..] == DirtyAfter(old(store[..]), old(dirty[..]), p, isWrite)
      ensures r == Done ==>
        AccessStep(old(cache.Value()), old(store[..]), old(dirty[..]), touched, p, isWrite, cache.Value())
      ensures r == NullPointer ==> Valid() && cache.Value() == old(cache.Value())
      ensures r != Done ==> Layered(cache.Value(), old(store[..])[p % store.Length := EMPTY], dirty[..], user, touched)
    {
      if store[p % store.Length] != p {
        r := AccessMiss(p, isWrite);
      } else if p == EMPTY {
        r := NullPointer;
        AccessEmpty(p % store.Length, isWrite);
        assert store[..][p % store.Length := p] == store[..];
      } else {
        r := Done;
        AccessHit(p, isWrite);
        assert store[..][p % store.Length := p] == store[..];
      }
    }

    /** Sets the dirty bit of an empty slot. */
    method AccessEmpty(i: nat, isWrite: bool)
      requires Valid() && i < store.Length && store[i] == EMPTY
      modifies dirty
      ensures Valid() && dirty[..] == old(dirty[..])[i := old(dirty[i]) || isWrite]
    {
      ghost var ds := dirty[..];
      dirty[i] := dirty[i] || isWrite;
      assert dirty[..] == ds[i := ds[i] || isWrite];
      Unmarked(cache.Value(), store[..], ds, user, touched, i, ds[i] || isWrite);
    }

    /** Gives back the page of every slot, with its dirty bit, and no other. */
    method Flush()
      requires Valid()
      modifies cache, store, dirty
      ensures Valid() && cache.log == old(cache.log) && forall i | 0 <= i < store.Length :: store[i] == EMPTY
      ensures forall q: Page ::
        FlushedEntry(old(cache.Value()), cache.Value(), old(store[..]), old(dirty[..]), store.Length, q)
    {
      ghost var v, ps, ds := cache.Value(), store[..], dirty[..];
      var i := 0;
      while i < store.Length
        invariant 0 <= i <= store.Length && Valid() && cache.log == old(cache.log)
        invariant forall j | 0 <= j < i :: store[j] == EMPTY
        invariant forall j | i <= j < store.Length :: store[j] == ps[j] && dirty[j] == ds[j]
        invariant forall q: Page :: FlushedEntry(v, cache.Value(), ps, ds, i, q)
      {
        ghost var u := cache.Value();
        Empty(i);
        FlushedSlot(v, u, cache.Value(), ps, ds, user, touched, i, i + 1);
        i := i + 1;
      }
    }

    /** Gives back the page in slot `i`, if any, and leaves the slot empty and clean. */
    method Empty(i: nat)
      requires Valid() && i < store.Length
      modifies cache, store, dirty
      ensures Valid() && store[..] == old(store[..])[i := EMPTY] && dirty[..] == old(dirty[..])[i := false]
      ensures cache.log == old(cache.log)
      ensures if old(store[i]) == EMPTY then cache.Value() == old(cache.Value())
              else Dropped(old(cache.Value()), cache.Value(), old(store[i]), old(dirty[i]))
    {
      Vacate(i);
      ghost var v, ps, ds := cache.Value(), store[..][i := EMPTY], dirty[..];
      store[i] := EMPTY;
      dirty[i] := false;
      assert cache.Value() == v && store[..] == ps && dirty[..] == ds[i := false];
      Unmarked(v, ps, ds, user, touched, i, false);
    }
  }

  /** The dirty bit of an empty slot means nothing. */
  lemma Unmarked(v: Priv, ps: seq<nat>, ds: seq<bool>, user: multiset<Page>, touched: set<Page>, i: nat, b: bool)
    requires Layered(v, ps, ds, user, touched) && i < |ps| && ps[i] == EMPTY
    ensures Layered(v, ps, ds[i := b], user, touched)
  {
    var ds' := ds[i := b];
    forall p: Page ensures DirtyOk(v, ps, ds', touched, p) { assert DirtyOk(v, ps, ds, touched, p); }
  }

  lemma UserPinned(v: Priv, v': Priv, ps: seq<nat>, ds: seq<bool>, user: multiset<Page>, touched: set<Page>, p: Page)
    requires Layered(v, ps, ds, user, touched) && p < v.pages == v'.pages
    requires Ok(v') && CountsUp(v, v', p) && v'.owed == v.owed
    ensures Layered(v', ps, ds, user + multiset{p}, touched)
  {
    var user' := user + multiset{p};
    forall i ensures SlotOk(v', ps, i) { assert SlotOk(v, ps, i); }
    forall q: Page ensures PinOk(v', ps, user', q) && DirtyOk(v', ps, ds, touched, q) {
      assert PinOk(v, ps, user, q) && DirtyOk(v, ps, ds, touched, q);
    }
  }

  lemma UserUnpinned(v: Priv, v': Priv, ps: seq<nat>, ds: seq<bool>, user: multiset<Page>, touched: set<Page>,
                     touched': set<Page>, p: Page)
    requires Layered(v, ps, ds, user, touched) && p in user && v'.pages == v.pages && Ok(v') && CountsDown(v, v', p)
    requires touched - {p} <= touched' <= touched && (p in touched' ==> user[p] > 1)
    requires v'.owed <= v.owed && (p in v'.owed ==> p in touched' || (Holds(ps, p) && ds[p % |ps|]))
    ensures Layered(v', ps, ds, user - multiset{p}, touched')
  {
    var user' := user - multiset{p};
    forall i ensures SlotOk(v', ps, i) { assert SlotOk(v, ps, i); }
    assert PinOk(v, ps, user, p);
    forall q: Page ensures PinOk(v', ps, user', q) && DirtyOk(v', ps, ds, touched', q) {
      assert PinOk(v, ps, user, q) && DirtyOk(v, ps, ds, touched, q);
    }
  }

  /** What an unpin by the thread relies on. */
  lemma MayGiveBack(v: Priv, ps: seq<nat>, ds: seq<bool>, user: multiset<Page>, touched: set<Page>,
                    touched': set<Page>, p: Page, isWrite: bool, still: bool)
    requires Layered(v, ps, ds, user, touched) && (p in user || !Entry(v, p).exist)
    requires p in touched && user[p] == 1 ==> isWrite
    requires touched' == if isWrite then touched - {p} else touched
    requires still == (p in v.owed && (p in touched' || (Holds(ps, p) && ds[p % |ps|])))
    ensures Entry(v, p).exist ==> Entry(v, p).refCount > 0 && p in user
    ensures (p in v.owed && !still ==> isWrite) && (still ==> Entry(v, p).refCount > 1)
    ensures p in user ==> Entry(v, p).exist && (p in touched' ==> user[p] > 1)
  {
    assert PinOk(v, ps, user, p) && DirtyOk(v, ps, ds, touched, p) && PageOk(v, p);
    Resident(v, p);
  }

  lemma GivenBackOk(v: Priv, v': Priv, ps: seq<nat>, ds: seq<bool>, user: multiset<Page>, touched: set<Page>,
                    touched': set<Page>, p: Page, isWrite: bool, still: bool)
    requires Layered(v, ps, ds, user, touched) && Ok(v')
    requires touched' == (if isWrite then touched - {p} else touched) && (p in touched' && p in user ==> user[p] > 1)
    requires still == (p in v.owed && (p in touched' || (Holds(ps, p) && ds[p % |ps|])))
    requires if p in user then Entry(v, p).refCount > 0 && v' == Unpinned(v, p, isWrite, still) && CountsDown(v, v', p)
             else v' == v
    ensures if p in user then Layered(v', ps, ds, user - multiset{p}, touched')
            else Layered(v', ps, ds, user, touched) && user - multiset{p} == user
  {
    if p in user { UserUnpinned(v, v', ps, ds, user, touched, touched', p); }
  }

  lemma UserTouched(v: Priv, v': Priv, ps: seq<nat>, ds: seq<bool>, user: multiset<Page>, touched: set<Page>, p: Page)
    requires Layered(v, ps, ds, user, touched) && p in user && Ok(v') && v' == Written(v, p)
    ensures Layered(v', ps, ds, user, touched + {p})
  {
    var touched' := touched + {p};
    forall i ensures SlotOk(v', ps, i) { assert SlotOk(v, ps, i); }
    forall q: Page ensures PinOk(v', ps, user, q) && DirtyOk(v', ps, ds, touched', q) {
      assert PinOk(v, ps, user, q) && DirtyOk(v, ps, ds, touched, q);
      assert Entry(v', q) == Entry(v, q);
    }
  }

  lemma AllEmpty(v: Priv, ps: seq<nat>, ds: seq<bool>)
    requires Ok(v) && v.pages <= EMPTY && v.owed == {} && |ds| == |ps| > 0
    requires forall p: Page :: Entry(v, p).refCount == 0
    requires forall i | 0 <= i < |ps| :: ps[i] == EMPTY
    ensures Layered(v, ps, ds, multiset{}, {})
  {
    forall i ensures SlotOk(v, ps, i) {}
    forall p: Page ensures PinOk(v, ps, multiset{}, p) && DirtyOk(v, ps, ds, {}, p) {}
  }

  lemma WriteOwed(v: Priv, ps: seq<nat>, ds: seq<bool>, touched: set<Page>, p: Page, isWrite: bool, v': Priv)
    requires Wf(v) && |ds| == |ps| > 0 && AccessStep(v, ps, ds, touched, p, isWrite, v')
    ensures isWrite ==> p in v'.owed
  {
  }

  /** The event with which a thread that flushes leaves a page: given back, as dirty exactly when the private cache
      has it dirty, or the direct cache has it in a slot marked dirty, or the thread has a pin of its own. */
  predicate LeftBy(v: Priv, ps: seq<nat>, ds: seq<bool>, user: multiset<Page>, e: Event)
    requires Wf(v) && |ds| == |ps| > 0
  {
    && e.Release?
    && (e.dirty <==>
          Entry(v, e.page).dirty || (e.page < v.pages && Holds(ps, e.page) && ds[e.page % |ps|]) || e.page in user)
  }

  lemma LeavesAs(v: Priv, u: Priv, ps: seq<nat>, ds: seq<bool>, ps': seq<nat>, ds': seq<bool>, user: multiset<Page>,
                 touched: set<Page>)
    requires Wf(v) && |ds| == |ps| > 0 && Layered(u, ps', ds', user, touched)
    requires forall i | 0 <= i < |ps'| :: ps'[i] == EMPTY
    requires forall q: Page :: FlushedEntry(v, u, ps, ds, |ps|, q)
    ensures forall e :: GivenBack(u, e) ==> LeftBy(v, ps, ds, user, e)
  {
    forall e | GivenBack(u, e) ensures LeftBy(v, ps, ds, user, e) {
      assert FlushedEntry(v, u, ps, ds, |ps|, e.page) && PinOk(u, ps', user, e.page);
    }
  }

  /** One thread's two levels. The source drops them at a flush and makes them anew at the next use; here they
      are left as new. */
  class IntegratedCache {
    const direct: DirectCache

    ghost predicate Valid()
      reads this, direct, direct.cache, direct.store, direct.dirty
    {
      direct.Valid()
    }

    constructor (parts: nat, frames: nat, pages: nat)
      requires parts > 0 && pages <= EMPTY && frames * parts < WORD
      ensures Valid() && direct.cache.log == [] && direct.user == multiset{}
      ensures frames > 0 ==>
        forall a: nat | parts == Pow2(a) :: Fits(direct.store.Length, direct.cache.parts, direct.cache.frames)
    {
      var cache := new PrivateCache(parts, frames, pages);
      direct := new DirectCache(cache);
    }

    /** The page is in its slot afterwards, with one pin for it besides the thread's own, and held once of the
        shared cache; its dirty bit is what it was there, if it was there, or the write. */
    method Access(p: Page, isWrite: bool) returns (r: Status)
      requires Valid()
      modifies direct.cache, direct.store, direct.dirty
      ensures direct.store[..] == old(direct.store[..])[p % direct.store.Length := p]
      ensures r == NullPointer <==> p == EMPTY && old(Holds(direct.store[..], p))
      ensures r == PageIdError <==> p >= direct.cache.pages && r != NullPointer
      ensures r == Done <==>
        && p < direct.cache.pages
        && old(Holds(direct.store[..], p) ||
               Room(direct.cache.Value(), direct.store[..], direct.dirty[..], direct.touched, p))
      ensures r == OutOfFrames ==>
        direct.user != multiset{} ||
          !Ample(direct.store.Length, direct.cache.parts, direct.cache.frames, direct.cache.pages)
      ensures r == Done || r == NullPointer ==>
        && Valid()
        && var i := p % direct.store.Length;
           var bit := old(direct.store[i]) == p && old(direct.dirty[i]);
           direct.dirty[..] == old(direct.dirty[..])[i := bit || isWrite]
      ensures r == Done ==> var e := Entry(direct.cache.Value(), p);
        e.exist && e.refCount == 1 + direct.user[p] && Held(direct.cache.log, p) == 1
      ensures r == Done ==> old(direct.cache.log) <= direct.cache.log
      ensures r == Done && isWrite ==> Wrote(direct.cache.log, p) && p in direct.cache.owed
      ensures r == Done ==> AccessStep(old(direct.cache.Value()), old(direct.store[..]), old(direct.dirty[..]),
        direct.touched, p, isWrite, direct.cache.Value())
      ensures r != Done ==> Layered(direct.cache.Value(), old(direct.store[..])[p % direct.store.Length := EMPTY],
        direct.dirty[..], direct.user, direct.touched)
    {
      ghost var v, ps, ds := direct.cache.Value(), direct.store[..], direct.dirty[..];
      if Holds(ps, p) && p != EMPTY { assert SlotOk(v, ps, p % |ps|); }
      r := direct.Access(p, isWrite);
      if r == Done {
        SlotHolds(direct.cache.Value(), direct.store[..], direct.dirty[..], direct.user, direct.touched, p);
        WriteOwed(v, ps, ds, direct.touched, p, isWrite, direct.cache.Value());
      }
    }

    method Pin(p: Page) returns (r: Status)
      requires Valid()
      modifies direct.cache, direct
      ensures Valid() && old(direct.cache.log) <= direct.cache.log && direct.touched == old(direct.touched)
      ensures direct.user == if r == Done then old(direct.user) + multiset{p} else old(direct.user)
      ensures r == PageIdError <==> p >= direct.cache.pages
      ensures r == OutOfFrames <==>
        p < direct.cache.pages && old(!Entry(direct.cache.Value(), p).exist && FullPin(Cache(direct.cache.Value(), p)))
      ensures r != NullPointer && (r != Done ==> direct.cache.Value() == old(direct.cache.Value()))
      ensures r == Done ==> Brought(old(direct.cache.Value()), direct.cache.Value(), p)
    {
      ghost var v := direct.cache.Value();
      r := direct.cache.Pin(p);
      if r == Done {
        UserPinned(v, direct.cache.Value(), direct.store[..], direct.dirty[..], direct.user, direct.touched, p);
        direct.Note(direct.user + multiset{p}, direct.touched);
      }
    }

    /** A caller that has written the page says so no later than with its last pin. */
    method Unpin(p: Page, isWrite: bool) returns (r: Status)
      requires Valid() && (p in direct.user || !Entry(direct.cache.Value(), p).exist)
      requires p in direct.touched && direct.user[p] == 1 ==> isWrite
      modifies direct.cache, direct
      ensures Valid() && direct.cache.log == old(direct.cache.log)
      ensures direct.user == old(direct.user) - multiset{p}
      ensures r == if p >= direct.cache.pages then PageIdError else Done
      ensures if old(Entry(direct.cache.Value(), p).exist)
              then Dropped(old(direct.cache.Value()), direct.cache.Value(), p, isWrite)
              else direct.cache.Value() == old(direct.cache.Value())
    {
      ghost var v, ps, ds := direct.cache.Value(), direct.store[..], direct.dirty[..];
      ghost var user, touched := direct.user, direct.touched;
      ghost var touched' := if isWrite then touched - {p} else touched;
      ghost var still := p in v.owed && (p in touched' || (Holds(ps, p) && ds[p % |ps|]));
      MayGiveBack(v, ps, ds, user, touched, touched', p, isWrite, still);
      r := direct.cache.Unpin(p, isWrite, still);
      GivenBackOk(v, direct.cache.Value(), ps, ds, user, touched, touched', p, isWrite, still);
      direct.Note(user - multiset{p}, if p in user then touched' else touched);
    }

    /** The thread writes a page through a pin it took. */
    ghost method Touch(p: Page)
      requires Valid() && p in direct.user
      modifies direct.cache, direct
      ensures Valid() && direct.cache.log == old(direct.cache.log) + [Write(p)] && direct.user == old(direct.user)
      ensures direct.touched == old(direct.touched) + {p} && p in direct.cache.owed
    {
      var v := direct.cache.Value();
      assert PinOk(v, direct.store[..], direct.user, p);
      direct.cache.NoteWrite(p);
      UserTouched(v, direct.cache.Value(), direct.store[..], direct.dirty[..], direct.user, direct.touched, p);
      direct.touched := direct.touched + {p};
    }

    /** The direct cache first, then the private one; the thread is left without shared pins, whatever pins
        it still held of its own. */
    method Flush()
      requires Valid()
      modifies direct.cache, direct, direct.store, direct.dirty
      ensures Valid() && old(direct.cache.log) <= direct.cache.log && direct.user == multiset{}
      ensures forall p: Page :: Held(direct.cache.log, p) == 0 && Entry(direct.cache.Value(), p) == EMPTY_PTE
      ensures forall i | 0 <= i < direct.store.Length :: direct.store[i] == EMPTY
      ensures forall i | |old(direct.cache.log)| <= i < |direct.cache.log| :: LeftBy(old(direct.cache.Value()),
        old(direct.store[..]), old(direct.dirty[..]), old(direct.user), direct.cache.log[i])
    {
      ghost var v, ps, ds, user := direct.cache.Value(), direct.store[..], direct.dirty[..], direct.user;
      direct.Flush();
      ghost var u := direct.cache.Value();
      LeavesAs(v, u, ps, ds, direct.store[..], direct.dirty[..], user, direct.touched);
      direct.cache.Flush();
      direct.user, direct.touched := multiset{}, {};
      AllEmpty(direct.cache.Value(), direct.store[..], direct.dirty[..]);
    }
  }
}
