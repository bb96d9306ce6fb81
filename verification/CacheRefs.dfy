/** Steps that move one reference to a resident page: pins that hit, at the server or by a client's
    own compare-and-swap, and unpins of either kind. */
module CacheRefs {
  import opened Basics
  import opened PageCache
  import opened CacheSystem
  import opened CacheInvariant
  import opened CacheQuiet

  /** What pins and unpins of a resident page `p` share: only its reference count and dirty bit, its
      place in the replacement set and the notifications about it change. */
  ghost predicate OneEntry(w: World, w': World, p: Page) {
    var e, e' := At(w, p), At(w', p);
    && e.exist && !e.busy && e'.exist && !e'.busy && e'.frame == e.frame
    && w'.core == w.core.(table := w.core.table[p := e'], tracked := w'.core.tracked, pinned := w'.core.pinned)
    && (forall f | f != e.frame :: f in w'.core.tracked <==> f in w.core.tracked)
    && (forall q | q != p :: w'.unpinNotes[q] == w.unpinNotes[q])
    && (e'.refCount == 0 ==> e.frame in w'.core.tracked || w'.unpinNotes[p] > 0)
    && w'.mem == w.mem && w'.disk == w.disk && w'.evictions == w.evictions
    && (w.server == w'.server || (w.server.Some? && w.server.value in w.tokens && w'.server == None))
  }

  /** The balance that the counter of pinned pages keeps. */
  function Balance(w: World): int { w.core.pinned + |w.pinNotes| - |w.unpinNotes| }

  function One(b: bool): int { if b then 1 else 0 }

  ghost predicate Counted(w: World, w': World, p: Page) {
    Balance(w') - Balance(w) == One(At(w', p).refCount > 0) - One(At(w, p).refCount > 0)
  }

  ghost predicate Gains(w: World, w': World, id: nat, p: Page) {
    && OneEntry(w, w', p) && Counted(w, w', p)
    && At(w', p) == IncRef(At(w, p))
    && (id in w.tokens ==>
         w.server == Some(id) && w.tokens[id].InFlight? && w.tokens[id].ctx.phase.Initing? && w'.server == None)
    && (id !in w.tokens ==> w'.server == w.server)
    && w'.tokens == w.tokens[id := Held(p, At(w, p).frame, false)]
    && w'.logical == w.logical && w'.sealed == w.sealed
  }

  ghost predicate Gives(w: World, w': World, id: nat, p: Page, isWrite: bool) {
    && OneEntry(w, w', p) && Counted(w, w', p)
    && At(w, p).refCount > 0 && At(w', p) == DecRef(At(w, p), isWrite)
    && w'.server == w.server
    && IsHeld(w, id) && w.tokens[id].page == p && w.tokens[id].frame < |w.mem| && (w.tokens[id].wrote ==> isWrite)
    && w'.tokens == w.tokens - {id}
    && w'.logical == GivenBack(w, id, isWrite).logical && w'.sealed == GivenBack(w, id, isWrite).sealed
  }

  /** One entry's count may start or stop being zero; the other pages stay pinned or not. */
  lemma OneEntryPinned(s: Core, s': Core, p: Page)
    requires forall q: Page | q != p :: Lookup(s'.table, q) == Lookup(s.table, q)
    ensures |PinnedPages(s')| ==
      |PinnedPages(s)| - One(Lookup(s.table, p).refCount > 0) + One(Lookup(s'.table, p).refCount > 0)
  {
    forall q: Page ensures q in PinnedPages(s) <==> Lookup(s.table, q).refCount > 0 {}
    forall q: Page ensures q in PinnedPages(s') <==> Lookup(s'.table, q).refCount > 0 {}
    OneMember(PinnedPages(s), PinnedPages(s'), p);
  }

  lemma OneEntryExisting(s: Core, s': Core, p: Page)
    requires forall q: Page | q != p :: Lookup(s'.table, q) == Lookup(s.table, q)
    requires Lookup(s'.table, p).exist == Lookup(s.table, p).exist
    ensures Existing(s') == Existing(s)
  {
    forall q: Page ensures q in Existing(s) <==> Lookup(s.table, q).exist {}
    forall q: Page ensures q in Existing(s') <==> Lookup(s'.table, q).exist {}
    forall q: Page ensures q in Existing(s') <==> q in Existing(s) {}
  }

  lemma OneEntryGlobals(w: World, w': World, p: Page)
    requires Globals(w) && OneEntry(w, w', p) && Counted(w, w', p)
    requires w'.server.Some? ==> IsContext(w', w'.server.value)
    ensures Globals(w')
  {
    forall q: Page | q != p ensures Lookup(w'.core.table, q) == Lookup(w.core.table, q) {
      assert At(w', q) == At(w, q);
    }
    OneEntryPinned(w.core, w'.core, p);
    OneEntryExisting(w.core, w'.core, p);
  }

  lemma OneEntryFrames(w: World, w': World, p: Page)
    requires Inv(w) && OneEntry(w, w', p)
    ensures forall f :: FrameInv(w', f)
    ensures forall q, r :: Apart(w', q, r)
  {
    assert PageInv(w, p);
    forall f ensures FrameInv(w', f) { assert FrameInv(w, f); }
    forall q, r ensures Apart(w', q, r) { assert Apart(w, q, r); }
  }

  lemma OneEntryKept(w: World, w': World, p: Page, q: Page)
    requires PageInv(w, q) && Apart(w, p, q) && OneEntry(w, w', p)
    ensures PageKept(w', q)
  {
  }

  /** The contexts that hold locks are untouched. */
  lemma OneEntryLock(w: World, w': World, p: Page, q: Page)
    requires PageInv(w, q) && OneEntry(w, w', p)
    requires forall i | i in w.tokens && Locks(w.tokens[i], q) :: i in w'.tokens && w'.tokens[i] == w.tokens[i]
    ensures PageLock(w', q)
  {
  }

  lemma GainsShape(w: World, w': World, id: nat, p: Page, q: Page)
    requires PageInv(w, q) && Gains(w, w', id, p)
    ensures PageShape(w', q)
  {
    HoldersSet(w, w', id, Held(p, At(w, p).frame, false), q);
  }

  lemma GainsData(w: World, w': World, id: nat, p: Page, q: Page)
    requires PageInv(w, q) && Gains(w, w', id, p)
    ensures PageData(w', q)
  {
    assert NoWriter(w', q) ==> NoWriter(w, q) by {
      if NoWriter(w', q) {
        forall i | i in w.tokens && w.tokens[i].Held? && w.tokens[i].page == q ensures !w.tokens[i].wrote {
          assert i in w'.tokens;
        }
      }
    }
  }

  lemma GainsToken(w: World, w': World, id: nat, p: Page, i: nat)
    requires TokenInv(w, i) && Gains(w, w', id, p)
    ensures TokenInv(w', i)
  {
  }

  lemma GainsKeeps(w: World, w': World, id: nat, p: Page)
    requires Inv(w) && Gains(w, w', id, p)
    ensures Inv(w')
  {
    OneEntryGlobals(w, w', p);
    OneEntryFrames(w, w', p);
    forall q ensures PageInv(w', q) {
      assert PageInv(w, q) && Apart(w, p, q);
      OneEntryKept(w, w', p, q);
      OneEntryLock(w, w', p, q);
      GainsShape(w, w', id, p, q);
      GainsData(w, w', id, p, q);
    }
    forall i ensures TokenInv(w', i) {
      assert TokenInv(w, i);
      GainsToken(w, w', id, p, i);
    }
    forall i, j ensures Exclusive(w', i, j) { assert Exclusive(w, i, j); }
  }

  lemma GivesShape(w: World, w': World, id: nat, p: Page, isWrite: bool, q: Page)
    requires PageInv(w, q) && Gives(w, w', id, p, isWrite)
    ensures PageShape(w', q)
  {
    HoldersDrop(w, w', id, q);
  }

  lemma GivesData(w: World, w': World, id: nat, p: Page, isWrite: bool, q: Page)
    requires PageInv(w, q) && TokenInv(w, id) && Gives(w, w', id, p, isWrite)
    ensures PageData(w', q)
  {
    if NoWriter(w', q) && !(q == p && isWrite) {
      assert NoWriter(w, q) by {
        forall i | i in w.tokens && w.tokens[i].Held? && w.tokens[i].page == q ensures !w.tokens[i].wrote {
          assert i == id || i in w'.tokens;
        }
      }
    }
  }

  lemma GivesToken(w: World, w': World, id: nat, p: Page, isWrite: bool, i: nat)
    requires TokenInv(w, i) && TokenInv(w, id) && PageInv(w, p) && Gives(w, w', id, p, isWrite)
    ensures TokenInv(w', i)
  {
  }

  lemma GivesKeeps(w: World, w': World, id: nat, p: Page, isWrite: bool)
    requires Inv(w) && Gives(w, w', id, p, isWrite)
    ensures Inv(w')
  {
    OneEntryGlobals(w, w', p);
    OneEntryFrames(w, w', p);
    assert TokenInv(w, id);
    forall q ensures PageInv(w', q) {
      assert PageInv(w, q) && Apart(w, p, q);
      OneEntryKept(w, w', p, q);
      OneEntryLock(w, w', p, q);
      GivesShape(w, w', id, p, isWrite, q);
      GivesData(w, w', id, p, isWrite, q);
    }
    forall i ensures TokenInv(w', i) {
      assert TokenInv(w, i) && PageInv(w, p);
      GivesToken(w, w', id, p, isWrite, i);
    }
    forall i, j ensures Exclusive(w', i, j) { assert Exclusive(w, i, j); }
  }

  lemma DirectPinKeeps(w: World, id: nat, p: Page)
    requires Inv(w) && Enabled(w, DirectPin(id, p))
    ensures Inv(Apply(w, DirectPin(id, p)))
  {
    assert PageInv(w, p);
    GainsKeeps(w, Apply(w, DirectPin(id, p)), id, p);
  }

  lemma HitKeeps(w: World, id: nat, c: Context, torn: Contents)
    requires Inv(w) && Working(w, id, c) && c.phase.Initing? && c.seen.exist
    ensures Inv(Served(w, HitTurn(w.core, c), torn))
  {
    assert PageInv(w, c.page) && TokenInv(w, id);
    GainsKeeps(w, Served(w, HitTurn(w.core, c), torn), id, c.page);
  }

  lemma DirectUnpinKeeps(w: World, id: nat, isWrite: bool)
    requires Inv(w) && Enabled(w, DirectUnpin(id, isWrite))
    ensures Inv(Apply(w, DirectUnpin(id, isWrite)))
  {
    assert PageInv(w, w.tokens[id].page) && TokenInv(w, id);
    GivesKeeps(w, Apply(w, DirectUnpin(id, isWrite)), id, w.tokens[id].page, isWrite);
  }

  lemma ServerUnpinKeeps(w: World, id: nat, isWrite: bool)
    requires Inv(w) && Enabled(w, ServerUnpin(id, isWrite))
    ensures Inv(Apply(w, ServerUnpin(id, isWrite)))
  {
    assert PageInv(w, w.tokens[id].page) && TokenInv(w, id);
    GivesKeeps(w, Apply(w, ServerUnpin(id, isWrite)), id, w.tokens[id].page, isWrite);
  }
}
