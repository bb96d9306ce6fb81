/** The turns that take, hand over and release page locks: a miss with a free frame, a miss with a
    victim, the end of the eviction, the end of the load. */
module CacheTurns {
  import opened Basics
  import opened PageCache
  import opened CacheSystem
  import opened CacheInvariant
  import opened CacheQuiet

  /** Every lock but `id`'s is held on by an untouched context. */
  lemma LockStays(w: World, w': World, id: nat, p: Page)
    requires PageInv(w, p) && At(w, p).busy
    requires forall i | i in w.tokens && i != id :: i in w'.tokens && w'.tokens[i] == w.tokens[i]
    requires (id in w.tokens && Locks(w.tokens[id], p)) ==> (id in w'.tokens && Locks(w'.tokens[id], p))
    ensures PageLock(w', p)
  {
    var i :| i in w.tokens && Locks(w.tokens[i], p);
    assert i in w'.tokens && Locks(w'.tokens[i], p);
  }

  /** Contexts come and go without making or unmaking a writer. */
  lemma WritersStay(w: World, w': World, id: nat, t: Token, p: Page)
    requires id in w.tokens && w.tokens[id].InFlight?
    requires w'.tokens == w.tokens[id := t] && (t.Held? ==> !t.wrote)
    ensures NoWriter(w', p) <==> NoWriter(w, p)
  {
    if NoWriter(w', p) {
      forall i | i in w.tokens && w.tokens[i].Held? && w.tokens[i].page == p ensures !w.tokens[i].wrote {
        assert i in w'.tokens;
      }
    }
  }

  // A miss with a free frame.

  ghost predicate FreeCase(w: World, id: nat, c: Context) {
    Working(w, id, c) && c.phase.Initing? && c.kind.Pin? && !c.seen.exist && !Full(w.core)
  }

  lemma FreeShape(w: World, id: nat, c: Context, torn: Contents, p: Page)
    requires FreeCase(w, id, c) && Globals(w) && TokenInv(w, id) && PageInv(w, p)
    ensures PageShape(Served(w, FreeTurn(w.core, c), torn), p)
    ensures PageKept(Served(w, FreeTurn(w.core, c), torn), p)
  {
    var w' := Served(w, FreeTurn(w.core, c), torn);
    HoldersSet(w, w', id, w'.tokens[id], p);
  }

  lemma FreeData(w: World, id: nat, c: Context, torn: Contents, p: Page)
    requires FreeCase(w, id, c) && Globals(w) && TokenInv(w, id) && PageInv(w, p)
    ensures PageLock(Served(w, FreeTurn(w.core, c), torn), p)
    ensures PageData(Served(w, FreeTurn(w.core, c), torn), p)
  {
    var w' := Served(w, FreeTurn(w.core, c), torn);
    WritersStay(w, w', id, w'.tokens[id], p);
    if p == c.page { assert Locks(w'.tokens[id], p); }
    else if At(w', p).busy { LockStays(w, w', id, p); }
  }

  lemma FreeToken(w: World, id: nat, c: Context, torn: Contents, i: nat)
    requires Inv(w) && FreeCase(w, id, c)
    ensures TokenInv(Served(w, FreeTurn(w.core, c), torn), i)
  {
    assert TokenInv(w, i) && TokenInv(w, id) && PageInv(w, c.page);
  }

  lemma FreeGlobals(w: World, id: nat, c: Context, torn: Contents)
    requires Inv(w) && FreeCase(w, id, c)
    ensures Globals(Served(w, FreeTurn(w.core, c), torn))
  {
    var w' := Served(w, FreeTurn(w.core, c), torn);
    assert TokenInv(w, id) && PageInv(w, c.page);
    assert Existing(w'.core) == Existing(w.core) + {c.page};
    assert PinnedPages(w'.core) == PinnedPages(w.core) + {c.page};
  }

  lemma FreePairs(w: World, id: nat, c: Context, torn: Contents)
    requires Inv(w) && FreeCase(w, id, c) && TokenInv(w, id)
    ensures var w' := Served(w, FreeTurn(w.core, c), torn);
      && (forall f :: FrameInv(w', f)) && (forall p, q :: Apart(w', p, q)) && (forall i, j :: Exclusive(w', i, j))
  {
    var w' := Served(w, FreeTurn(w.core, c), torn);
    forall f ensures FrameInv(w', f) { assert FrameInv(w, f); }
    forall p, q ensures Apart(w', p, q) { assert Apart(w, p, q) && PageInv(w, p) && PageInv(w, q); }
    forall i, j ensures Exclusive(w', i, j) {
      assert Exclusive(w, i, j) && TokenInv(w, i) && TokenInv(w, j);
    }
  }

  lemma FreeKeeps(w: World, id: nat, c: Context, torn: Contents)
    requires Inv(w) && FreeCase(w, id, c)
    ensures Inv(Served(w, FreeTurn(w.core, c), torn))
  {
    var w' := Served(w, FreeTurn(w.core, c), torn);
    assert TokenInv(w, id);
    FreeGlobals(w, id, c, torn);
    forall p ensures PageInv(w', p) {
      assert PageInv(w, p);
      FreeShape(w, id, c, torn, p);
      FreeData(w, id, c, torn, p);
    }
    forall i ensures TokenInv(w', i) { FreeToken(w, id, c, torn, i); }
    FreePairs(w, id, c, torn);
  }

  // A miss with a victim.

  ghost predicate VictimCase(w: World, id: nat, c: Context, rejected: set<Frame>, f: Frame) {
    && Working(w, id, c) && c.phase.Initing? && c.kind.Pin? && !c.seen.exist && Full(w.core)
    && Selects(w.core, rejected, f)
  }

  function VictimWorld(w: World, id: nat, c: Context, rejected: set<Frame>, f: Frame, torn: Contents): World
    requires VictimCase(w, id, c, rejected, f)
  {
    Served(w, VictimTurn(w.core, c, rejected, f), torn)
  }

  /** What the invariant says about the victim's frame. */
  ghost predicate VictimFacts(w: World, id: nat, c: Context, f: Frame) {
    && Globals(w) && TokenInv(w, id) && f in w.core.owner
    && PageInv(w, w.core.owner[f]) && PageInv(w, c.page)
    && var e := At(w, w.core.owner[f]); e.exist && !e.busy && e.frame == f
  }

  lemma VictimKept(w: World, id: nat, c: Context, rejected: set<Frame>, f: Frame, torn: Contents, p: Page)
    requires VictimCase(w, id, c, rejected, f) && VictimFacts(w, id, c, f) && PageInv(w, p)
    requires Apart(w, p, w.core.owner[f])
    ensures PageKept(VictimWorld(w, id, c, rejected, f, torn), p)
  {
  }

  lemma VictimShape(w: World, id: nat, c: Context, rejected: set<Frame>, f: Frame, torn: Contents, p: Page)
    requires VictimCase(w, id, c, rejected, f) && VictimFacts(w, id, c, f) && PageInv(w, p)
    ensures PageShape(VictimWorld(w, id, c, rejected, f, torn), p)
  {
    var w' := VictimWorld(w, id, c, rejected, f, torn);
    HoldersSet(w, w', id, w'.tokens[id], p);
  }

  lemma VictimData(w: World, id: nat, c: Context, rejected: set<Frame>, f: Frame, torn: Contents, p: Page)
    requires VictimCase(w, id, c, rejected, f) && VictimFacts(w, id, c, f) && PageInv(w, p)
    ensures PageLock(VictimWorld(w, id, c, rejected, f, torn), p)
    ensures PageData(VictimWorld(w, id, c, rejected, f, torn), p)
  {
    var w' := VictimWorld(w, id, c, rejected, f, torn);
    WritersStay(w, w', id, w'.tokens[id], p);
    if p == c.page || p == w.core.owner[f] { assert Locks(w'.tokens[id], p); }
    else if At(w', p).busy { LockStays(w, w', id, p); }
  }

  lemma Unheld(w: World, p: Page)
    requires PageInv(w, p) && At(w, p).refCount == 0
    ensures forall i | i in w.tokens :: !Holds(w.tokens[i], p)
    ensures NoWriter(w, p)
  {
    forall i | i in w.tokens ensures !Holds(w.tokens[i], p) {
      assert i !in Holders(w, p);
    }
  }

  lemma VictimOwnToken(w: World, id: nat, c: Context, rejected: set<Frame>, f: Frame, torn: Contents)
    requires VictimCase(w, id, c, rejected, f) && VictimFacts(w, id, c, f)
    ensures TokenInv(VictimWorld(w, id, c, rejected, f, torn), id)
  {
    Unheld(w, w.core.owner[f]);
    Unheld(w, c.page);
  }

  lemma VictimToken(w: World, id: nat, c: Context, rejected: set<Frame>, f: Frame, torn: Contents, i: nat)
    requires VictimCase(w, id, c, rejected, f) && VictimFacts(w, id, c, f) && TokenInv(w, i) && i != id
    ensures TokenInv(VictimWorld(w, id, c, rejected, f, torn), i)
  {
    Unheld(w, w.core.owner[f]);
  }

  lemma VictimSets(w: World, id: nat, c: Context, rejected: set<Frame>, f: Frame, torn: Contents)
    requires VictimCase(w, id, c, rejected, f) && VictimFacts(w, id, c, f)
    ensures var w' := VictimWorld(w, id, c, rejected, f, torn);
      && |Existing(w'.core)| == |Existing(w.core)| && c.page !in PinnedPages(w.core) && c.page in PinnedPages(w'.core)
      && forall p | p != c.page :: p in PinnedPages(w.core) <==> p in PinnedPages(w'.core)
  {
    var w' := VictimWorld(w, id, c, rejected, f, torn);
    assert Existing(w'.core) == Existing(w.core) - {w.core.owner[f]} + {c.page};
  }

  lemma VictimGlobals(w: World, id: nat, c: Context, rejected: set<Frame>, f: Frame, torn: Contents)
    requires VictimCase(w, id, c, rejected, f) && VictimFacts(w, id, c, f)
    ensures Globals(VictimWorld(w, id, c, rejected, f, torn))
  {
    var w' := VictimWorld(w, id, c, rejected, f, torn);
    VictimSets(w, id, c, rejected, f, torn);
    OneMember(PinnedPages(w.core), PinnedPages(w'.core), c.page);
  }

  lemma VictimPairs(w: World, id: nat, c: Context, rejected: set<Frame>, f: Frame, torn: Contents)
    requires Inv(w) && VictimCase(w, id, c, rejected, f) && VictimFacts(w, id, c, f)
    ensures var w' := VictimWorld(w, id, c, rejected, f, torn);
      && (forall g :: FrameInv(w', g)) && (forall p, q :: Apart(w', p, q)) && (forall i, j :: Exclusive(w', i, j))
  {
    var w' := VictimWorld(w, id, c, rejected, f, torn);
    var v := w.core.owner[f];
    forall g ensures FrameInv(w', g) { assert FrameInv(w, g); }
    forall p, q ensures Apart(w', p, q) { assert Apart(w, p, q) && Apart(w, p, v) && Apart(w, q, v); }
    forall i, j ensures Exclusive(w', i, j) {
      assert Exclusive(w, i, j) && TokenInv(w, i) && TokenInv(w, j);
    }
  }

  lemma VictimKeeps(w: World, id: nat, c: Context, rejected: set<Frame>, f: Frame, torn: Contents)
    requires Inv(w) && VictimCase(w, id, c, rejected, f)
    ensures Inv(VictimWorld(w, id, c, rejected, f, torn))
  {
    var w' := VictimWorld(w, id, c, rejected, f, torn);
    var v := w.core.owner[f];
    assert TokenInv(w, id) && FrameInv(w, f) && PageInv(w, v) && PageInv(w, c.page);
    VictimGlobals(w, id, c, rejected, f, torn);
    forall p ensures PageInv(w', p) {
      assert PageInv(w, p) && Apart(w, p, v);
      VictimKept(w, id, c, rejected, f, torn, p);
      VictimShape(w, id, c, rejected, f, torn, p);
      VictimData(w, id, c, rejected, f, torn, p);
    }
    VictimOwnToken(w, id, c, rejected, f, torn);
    forall i ensures TokenInv(w', i) {
      assert TokenInv(w, i);
      if i != id { VictimToken(w, id, c, rejected, f, torn, i); }
    }
    VictimPairs(w, id, c, rejected, f, torn);
  }

  // The end of the eviction: the victim's lock is released and the load begins.

  ghost predicate EvictedCase(w: World, id: nat, c: Context) {
    Working(w, id, c) && c.phase.Evicting? && !c.processing && TokenInv(w, id) && Globals(w) && PageInv(w, c.page)
  }

  lemma EvictedShape(w: World, id: nat, c: Context, torn: Contents, p: Page)
    requires EvictedCase(w, id, c) && PageInv(w, p) && Apart(w, p, c.page)
    ensures PageShape(Served(w, EvictDone(w.core, c), torn), p)
    ensures PageKept(Served(w, EvictDone(w.core, c), torn), p)
  {
    var w' := Served(w, EvictDone(w.core, c), torn);
    HoldersSet(w, w', id, w'.tokens[id], p);
  }

  lemma EvictedData(w: World, id: nat, c: Context, torn: Contents, p: Page)
    requires EvictedCase(w, id, c) && PageInv(w, p)
    ensures PageLock(Served(w, EvictDone(w.core, c), torn), p)
    ensures PageData(Served(w, EvictDone(w.core, c), torn), p)
  {
    var w' := Served(w, EvictDone(w.core, c), torn);
    WritersStay(w, w', id, w'.tokens[id], p);
    if At(w', p).busy { LockStays(w, w', id, p); }
  }

  lemma EvictedOwnToken(w: World, id: nat, c: Context, torn: Contents)
    requires EvictedCase(w, id, c)
    ensures TokenInv(Served(w, EvictDone(w.core, c), torn), id)
  {
  }

  lemma EvictedToken(w: World, id: nat, c: Context, torn: Contents, i: nat)
    requires EvictedCase(w, id, c) && TokenInv(w, i) && Exclusive(w, i, id) && i != id
    requires IsContext(w, i) ==> Apart(w, w.tokens[i].ctx.page, c.page)
    ensures TokenInv(Served(w, EvictDone(w.core, c), torn), i)
  {
    if IsContext(w, i) {
      var d := w.tokens[i].ctx;
      assert Holds(w.tokens[i], d.page) ==> !Locks(w.tokens[id], d.page);
      if d.victim.Some? && d.phase.Evicting? { assert Locks(w.tokens[i], d.victim.value); }
    }
  }

  lemma EvictedGlobals(w: World, id: nat, c: Context, torn: Contents)
    requires EvictedCase(w, id, c)
    ensures Globals(Served(w, EvictDone(w.core, c), torn))
  {
    var w' := Served(w, EvictDone(w.core, c), torn);
    assert Existing(w'.core) == Existing(w.core);
    assert PinnedPages(w'.core) == PinnedPages(w.core);
  }

  lemma EvictedPairs(w: World, id: nat, c: Context, torn: Contents)
    requires Inv(w) && EvictedCase(w, id, c)
    ensures var w' := Served(w, EvictDone(w.core, c), torn);
      && (forall f :: FrameInv(w', f)) && (forall p, q :: Apart(w', p, q)) && (forall i, j :: Exclusive(w', i, j))
  {
    var w' := Served(w, EvictDone(w.core, c), torn);
    forall f ensures FrameInv(w', f) {
      assert FrameInv(w, f);
      if f in w.core.tracked { assert Apart(w, w.core.owner[f], c.page); }
    }
    forall p, q ensures Apart(w', p, q) { assert Apart(w, p, q); }
    forall i, j ensures Exclusive(w', i, j) { assert Exclusive(w, i, j); }
  }

  lemma EvictedKeeps(w: World, id: nat, c: Context, torn: Contents)
    requires Inv(w) && Working(w, id, c) && c.phase.Evicting? && !c.processing
    ensures Inv(Served(w, EvictDone(w.core, c), torn))
  {
    var w' := Served(w, EvictDone(w.core, c), torn);
    assert TokenInv(w, id) && PageInv(w, c.page);
    EvictedGlobals(w, id, c, torn);
    EvictedPairs(w, id, c, torn);
    forall p ensures PageInv(w', p) {
      assert PageInv(w, p) && Apart(w, p, c.page);
      EvictedShape(w, id, c, torn, p);
      EvictedData(w, id, c, torn, p);
    }
    forall i ensures TokenInv(w', i) {
      assert TokenInv(w, i) && Exclusive(w, i, id);
      assert IsContext(w, i) ==> Apart(w, w.tokens[i].ctx.page, c.page);
      if i != id { EvictedToken(w, id, c, torn, i); } else { EvictedOwnToken(w, id, c, torn); }
    }
  }

  // The end of the load: the page's lock is released and the pin is answered.

  ghost predicate LoadedCase(w: World, id: nat, c: Context) {
    Working(w, id, c) && c.phase.Loading? && !c.processing && TokenInv(w, id) && Globals(w) && PageInv(w, c.page)
  }

  lemma LoadedShape(w: World, id: nat, c: Context, torn: Contents, p: Page)
    requires LoadedCase(w, id, c) && PageInv(w, p)
    ensures PageShape(Served(w, LoadDone(w.core, c), torn), p)
    ensures PageKept(Served(w, LoadDone(w.core, c), torn), p)
  {
    var w' := Served(w, LoadDone(w.core, c), torn);
    HoldersSet(w, w', id, w'.tokens[id], p);
  }

  lemma LoadedData(w: World, id: nat, c: Context, torn: Contents, p: Page)
    requires LoadedCase(w, id, c) && PageInv(w, p)
    ensures PageLock(Served(w, LoadDone(w.core, c), torn), p)
    ensures PageData(Served(w, LoadDone(w.core, c), torn), p)
  {
    var w' := Served(w, LoadDone(w.core, c), torn);
    WritersStay(w, w', id, w'.tokens[id], p);
    if At(w', p).busy { LockStays(w, w', id, p); }
  }

  lemma LoadedToken(w: World, id: nat, c: Context, torn: Contents, i: nat)
    requires LoadedCase(w, id, c) && TokenInv(w, i) && Exclusive(w, i, id)
    ensures TokenInv(Served(w, LoadDone(w.core, c), torn), i)
  {
    if i != id && IsContext(w, i) {
      var d := w.tokens[i].ctx;
      assert Holds(w.tokens[i], d.page) ==> !Locks(w.tokens[id], d.page);
      if d.victim.Some? && d.phase.Evicting? { assert Locks(w.tokens[i], d.victim.value); }
    }
  }

  lemma LoadedPairs(w: World, id: nat, c: Context, torn: Contents)
    requires Inv(w) && LoadedCase(w, id, c)
    ensures var w' := Served(w, LoadDone(w.core, c), torn);
      && (forall f :: FrameInv(w', f)) && (forall p, q :: Apart(w', p, q)) && (forall i, j :: Exclusive(w', i, j))
  {
    var w' := Served(w, LoadDone(w.core, c), torn);
    forall f ensures FrameInv(w', f) { assert FrameInv(w, f); }
    forall p, q ensures Apart(w', p, q) { assert Apart(w, p, q); }
    forall i, j ensures Exclusive(w', i, j) { assert Exclusive(w, i, j); }
  }

  lemma LoadedKeeps(w: World, id: nat, c: Context, torn: Contents)
    requires Inv(w) && Working(w, id, c) && c.phase.Loading? && !c.processing
    ensures Inv(Served(w, LoadDone(w.core, c), torn))
  {
    var w' := Served(w, LoadDone(w.core, c), torn);
    assert TokenInv(w, id) && PageInv(w, c.page);
    assert Existing(w'.core) == Existing(w.core) && PinnedPages(w'.core) == PinnedPages(w.core);
    LoadedPairs(w, id, c, torn);
    forall p ensures PageInv(w', p) {
      assert PageInv(w, p);
      LoadedShape(w, id, c, torn, p);
      LoadedData(w, id, c, torn, p);
    }
    forall i ensures TokenInv(w', i) {
      assert TokenInv(w, i) && Exclusive(w, i, id);
      LoadedToken(w, id, c, torn, i);
    }
  }
}
