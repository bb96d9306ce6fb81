/** Delivery of the notifications that direct pins and unpins send, and stores through pinned
    pointers. */
module CacheNotes {
  import opened Basics
  import opened PageCache
  import opened CacheSystem
  import opened CacheInvariant

  /** Only the replacement set, the counter of pinned pages and the notifications changed. */
  ghost predicate Delivers(w: World, w': World) {
    && w'.core == w.core.(tracked := w'.core.tracked, pinned := w'.core.pinned)
    && w' == w.(core := w'.core, pinNotes := w'.pinNotes, unpinNotes := w'.unpinNotes)
    && w'.core.pinned + |w'.pinNotes| - |w'.unpinNotes| == w.core.pinned + |w.pinNotes| - |w.unpinNotes|
  }

  lemma DeliversPage(w: World, w': World, p: Page)
    requires Delivers(w, w') && PageInv(w, p) && PageKept(w', p)
    ensures PageInv(w', p)
  {
    assert Holders(w', p) == Holders(w, p);
    assert NoWriter(w', p) <==> NoWriter(w, p);
  }

  lemma DeliversKeeps(w: World, w': World)
    requires Inv(w) && Delivers(w, w')
    requires (forall p :: PageKept(w', p)) && (forall f :: FrameInv(w', f))
    ensures Inv(w')
  {
    assert PinnedPages(w'.core) == PinnedPages(w.core) && Existing(w'.core) == Existing(w.core);
    forall p ensures PageInv(w', p) {
      assert PageInv(w, p) && PageKept(w', p);
      DeliversPage(w, w', p);
    }
    forall i ensures TokenInv(w', i) { assert TokenInv(w, i); }
    forall p, q ensures Apart(w', p, q) { assert Apart(w, p, q); }
    forall i, j ensures Exclusive(w', i, j) { assert Exclusive(w, i, j); }
  }

  lemma DeliverPinKeeps(w: World, p: Page)
    requires Inv(w) && Enabled(w, DeliverPin(p))
    ensures Inv(Apply(w, DeliverPin(p)))
  {
    var w' := Apply(w, DeliverPin(p));
    assert PageInv(w, p);
    forall q ensures PageKept(w', q) { assert PageInv(w, q) && Apart(w, p, q); }
    forall f ensures FrameInv(w', f) { assert FrameInv(w, f); }
    DeliversKeeps(w, w');
  }

  lemma DeliverUnpinKeeps(w: World, p: Page)
    requires Inv(w) && Enabled(w, DeliverUnpin(p))
    ensures Inv(Apply(w, DeliverUnpin(p)))
  {
    var w' := Apply(w, DeliverUnpin(p));
    assert PageInv(w, p);
    if At(w, p).busy {
      var i :| i in w.tokens && Locks(w.tokens[i], p);
      assert TokenInv(w, i);
    }
    forall q ensures PageKept(w', q) { assert PageInv(w, q); }
    forall f ensures FrameInv(w', f) { assert FrameInv(w, f); }
    DeliversKeeps(w, w');
  }

  lemma StorePage(w: World, id: nat, v: Contents, p: Page)
    requires Enabled(w, Store(id, v)) && PageInv(w, p) && TokenInv(w, id) && Apart(w, p, w.tokens[id].page)
    ensures PageInv(Apply(w, Store(id, v)), p)
  {
    var w' := Apply(w, Store(id, v));
    HoldersSet(w, w', id, w'.tokens[id], p);
    assert PageLock(w', p) by {
      if At(w', p).busy {
        var i :| i in w.tokens && Locks(w.tokens[i], p);
        assert i in w'.tokens && Locks(w'.tokens[i], p);
      }
    }
    if p == w.tokens[id].page {
      assert w'.tokens[id].wrote;
      assert !NoWriter(w', p);
    } else if NoWriter(w', p) {
      forall i | i in w.tokens && w.tokens[i].Held? && w.tokens[i].page == p ensures !w.tokens[i].wrote {
        assert i in w'.tokens;
      }
      assert NoWriter(w, p);
    }
  }

  lemma StoreToken(w: World, id: nat, v: Contents, i: nat)
    requires Inv(w) && Enabled(w, Store(id, v))
    ensures TokenInv(Apply(w, Store(id, v)), i)
  {
    assert TokenInv(w, i) && TokenInv(w, id);
    if i in w.tokens && w.tokens[i].InFlight? {
      assert Apart(w, w.tokens[i].ctx.page, w.tokens[id].page);
    }
  }

  lemma StoreKeeps(w: World, id: nat, v: Contents)
    requires Inv(w) && Enabled(w, Store(id, v))
    ensures Inv(Apply(w, Store(id, v)))
  {
    var w' := Apply(w, Store(id, v));
    forall p ensures PageInv(w', p) {
      assert PageInv(w, p) && TokenInv(w, id) && Apart(w, p, w.tokens[id].page);
      StorePage(w, id, v, p);
    }
    forall i ensures TokenInv(w', i) { StoreToken(w, id, v, i); }
    forall f ensures FrameInv(w', f) { assert FrameInv(w, f); }
    forall p, q ensures Apart(w', p, q) { assert Apart(w, p, q); }
    forall i, j ensures Exclusive(w', i, j) { assert Exclusive(w, i, j); }
  }
}
