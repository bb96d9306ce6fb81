/** Steps that leave the page table alone: a context is created, resumed, polled or refused, or its
    transfer completes. */
module CacheQuiet {
  import opened Basics
  import opened PageCache
  import opened CacheSystem
  import opened CacheInvariant

  /** Only token `id` changed; it was and is a context or absent, and holds and locks the same pages. */
  ghost predicate SameTokens(w: World, w': World, id: nat) {
    && (forall i | i != id :: (i in w.tokens <==> i in w'.tokens) && (i in w.tokens ==> w'.tokens[i] == w.tokens[i]))
    && (id in w.tokens ==> w.tokens[id].InFlight?)
    && (id in w'.tokens ==> w'.tokens[id].InFlight?)
    && (forall p :: (id in w.tokens && Holds(w.tokens[id], p)) <==> (id in w'.tokens && Holds(w'.tokens[id], p)))
    && (forall p :: (id in w.tokens && Locks(w.tokens[id], p)) <==> (id in w'.tokens && Locks(w'.tokens[id], p)))
  }

  predicate LoadsInto(w: World, id: nat, f: Frame) {
    IsContext(w, id) && w.tokens[id].ctx.phase.Loading? && w.tokens[id].ctx.frame == f
  }

  ghost predicate Quiet(w: World, w': World, id: nat) {
    && w'.core == w.core && w'.pinNotes == w.pinNotes && w'.unpinNotes == w.unpinNotes
    && w'.logical == w.logical && w'.sealed == w.sealed && w'.evictions == w.evictions
    && SameTokens(w, w', id)
    && (w.server == None || w.server == Some(id) || w.server == w'.server)
    && (w'.server.Some? ==> IsContext(w', w'.server.value))
    && (forall p :: DiskAt(w', p) == DiskAt(w, p) || (id in w.tokens && Locks(w.tokens[id], p)))
    && |w'.mem| == |w.mem|
    && (forall f | 0 <= f < |w.mem| :: w'.mem[f] == w.mem[f] || LoadsInto(w, id, f))
  }

  lemma QuietPage(w: World, w': World, id: nat, p: Page)
    requires Inv(w) && Quiet(w, w', id)
    ensures PageInv(w', p)
  {
    assert PageInv(w, p) && TokenInv(w, id);
    assert Holders(w', p) == Holders(w, p);
    assert PageLock(w', p) by {
      if At(w', p).busy {
        var i :| i in w.tokens && Locks(w.tokens[i], p);
        assert i in w'.tokens && Locks(w'.tokens[i], p);
      }
    }
    assert NoWriter(w', p) <==> NoWriter(w, p);
    if At(w, p).exist && !At(w, p).busy && LoadsInto(w, id, At(w, p).frame) {
      assert Apart(w, p, w.tokens[id].ctx.page);
    }
  }

  lemma QuietToken(w: World, w': World, id: nat, i: nat)
    requires Inv(w) && Quiet(w, w', id) && i != id
    ensures TokenInv(w', i)
  {
    assert TokenInv(w, i) && TokenInv(w, id);
    if i in w.tokens && w.tokens[i].InFlight? && id in w.tokens {
      var c := w.tokens[i].ctx;
      assert Exclusive(w, i, id);
      assert Holds(w.tokens[i], c.page) ==> !Locks(w.tokens[id], c.page);
      if c.phase.Evicting? && c.victim.Some? { assert Locks(w.tokens[i], c.victim.value); }
      assert Apart(w, c.page, w.tokens[id].ctx.page);
    }
  }

  lemma QuietKeeps(w: World, w': World, id: nat)
    requires Inv(w) && Quiet(w, w', id) && TokenInv(w', id)
    ensures Inv(w')
  {
    forall p ensures PageInv(w', p) { QuietPage(w, w', id, p); }
    forall i ensures TokenInv(w', i) { if i != id { QuietToken(w, w', id, i); } }
    forall f ensures FrameInv(w', f) { assert FrameInv(w, f); }
    forall p, q ensures Apart(w', p, q) { assert Apart(w, p, q); }
    forall i, j ensures Exclusive(w', i, j) { assert Exclusive(w, i, j); }
  }

  lemma SubmitKeeps(w: World, id: nat, p: Page)
    requires Inv(w) && Enabled(w, Submit(id, p))
    ensures Inv(Apply(w, Submit(id, p)))
  {
    QuietKeeps(w, Apply(w, Submit(id, p)), id);
  }

  lemma CallKeeps(w: World, id: nat)
    requires Inv(w) && Enabled(w, Call(id))
    ensures Inv(Apply(w, Call(id)))
  {
    assert TokenInv(w, id);
    QuietKeeps(w, Apply(w, Call(id)), id);
  }

  /** The server is working on context `c` of token `id`. */
  predicate Working(w: World, id: nat, c: Context) {
    w.server == Some(id) && id in w.tokens && w.tokens[id] == InFlight(c)
  }

  lemma BeginKeeps(w: World, id: nat, c: Context, torn: Contents)
    requires Inv(w) && Working(w, id, c) && c.phase.Begin?
    ensures Inv(Served(w, BeginTurn(w.core, c), torn))
  {
    assert TokenInv(w, id);
    QuietKeeps(w, Served(w, BeginTurn(w.core, c), torn), id);
  }

  lemma RefuseKeeps(w: World, id: nat, c: Context, torn: Contents)
    requires Inv(w) && Working(w, id, c) && c.phase.Initing?
    ensures Inv(Served(w, RefuseTurn(w.core, c), torn))
  {
    assert TokenInv(w, id);
    QuietKeeps(w, Served(w, RefuseTurn(w.core, c), torn), id);
  }

  lemma EvictPollKeeps(w: World, id: nat, c: Context, torn: Contents)
    requires Inv(w) && Working(w, id, c) && c.phase.Evicting? && c.processing
    ensures Inv(Served(w, EvictPoll(w.core, c), torn))
  {
    assert TokenInv(w, id);
    QuietKeeps(w, Served(w, EvictPoll(w.core, c), torn), id);
  }

  lemma LoadPollKeeps(w: World, id: nat, c: Context, torn: Contents)
    requires Inv(w) && Working(w, id, c) && c.phase.Loading? && c.processing
    ensures Inv(Served(w, LoadPoll(w.core, c), torn))
  {
    assert TokenInv(w, id);
    assert LoadPoll(w.core, c).core == w.core;
    QuietKeeps(w, Served(w, LoadPoll(w.core, c), torn), id);
  }

  lemma DeviceWriteKeeps(w: World, id: nat)
    requires Inv(w) && Enabled(w, DeviceWrite(id))
    ensures Inv(Apply(w, DeviceWrite(id)))
  {
    assert TokenInv(w, id);
    QuietKeeps(w, Apply(w, DeviceWrite(id)), id);
  }

  lemma DeviceReadKeeps(w: World, id: nat)
    requires Inv(w) && Enabled(w, DeviceRead(id))
    ensures Inv(Apply(w, DeviceRead(id)))
  {
    assert TokenInv(w, id);
    QuietKeeps(w, Apply(w, DeviceRead(id)), id);
  }
}
