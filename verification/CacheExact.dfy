/**
 * What is exact about a partition beyond its invariant: when a page is dirty, when the device is asked for a
 * transfer, and which frames may be up for replacement though their pages are pinned.
 */
module CacheExact {
  import opened Basics
  import opened PageCache
  import opened CacheSystem
  import opened CacheInvariant
  import opened CacheTheorems

  // ---------------------------------------------------------------- dirty pages

  /** The step gives back a pin of page `p` with is_write. */
  predicate WriteUnpin(w: World, st: Step, p: Page) {
    (st.DirectUnpin? || st.ServerUnpin?) && st.isWrite && IsHeld(w, st.id) && w.tokens[st.id].page == p
  }

  /** Page `p` keeps its dirty bit, or is gone. */
  predicate SameBit(s: Core, s': Core, p: Page) {
    Lookup(s'.table, p).dirty == Lookup(s.table, p).dirty || (!Lookup(s'.table, p).exist && !Lookup(s'.table, p).dirty)
  }

  lemma DirtyTurn(s: Core, c: Context, o: Outcome, p: Page)
    requires Iter(s, c, o) && c.kind.Pin? && (c.phase.Initing? ==> Lookup(s.table, c.page).exist == c.seen.exist)
    requires c.phase.Initing? && !c.seen.exist ==> !Lookup(s.table, c.page).dirty
    ensures SameBit(s, o.core, p)
  {
  }

  lemma DirtyServed(w: World, o: Outcome, torn: Contents, p: Page)
    requires Inv(w) && Enabled(w, Serve(o, torn))
    ensures SameBit(w.core, o.core, p)
  {
    var c := w.tokens[w.server.value].ctx;
    assert TokenInv(w, w.server.value) && PageInv(w, c.page);
    DirtyTurn(w.core, c, o, p);
  }

  lemma DirtyUnpinned(w: World, st: Step, p: Page)
    requires Inv(w) && Enabled(w, st) && (st.DirectUnpin? || st.ServerUnpin?)
    ensures At(Apply(w, st), p).dirty <==> At(w, p).dirty || WriteUnpin(w, st, p)
  {
    assert TokenInv(w, st.id) && PageInv(w, w.tokens[st.id].page);
  }

  lemma DirtyQuiet(w: World, st: Step, p: Page)
    requires Enabled(w, st) && !st.Serve? && !st.DirectUnpin? && !st.ServerUnpin?
    ensures At(Apply(w, st), p).dirty == At(w, p).dirty
  {
  }

  /** A page becomes dirty by such a step only, and stays so as long as it is resident. */
  lemma DirtyStep(w: World, st: Step, p: Page)
    requires Inv(w) && Enabled(w, st) && Inv(Apply(w, st))
    ensures var e, e' := At(w, p), At(Apply(w, st), p); e'.dirty <==> e'.exist && (e.dirty || WriteUnpin(w, st, p))
  {
    assert PageInv(Apply(w, st), p);
    if st.Serve? {
      DirtyServed(w, st.o, st.torn, p);
    } else if st.DirectUnpin? || st.ServerUnpin? {
      DirtyUnpinned(w, st, p);
      assert TokenInv(w, st.id) && PageInv(w, p);
    } else {
      DirtyQuiet(w, st, p);
      assert PageInv(w, p);
    }
  }

  /** Page `p` was given back with is_write at step `j`, and has been resident since. */
  ghost predicate WrittenAt(ws: seq<World>, sts: seq<Step>, j: nat, k: nat, p: Page)
    requires |ws| == |sts| + 1
  {
    j < k < |ws| && WriteUnpin(ws[j], sts[j], p) && ResidentSince(ws, j + 1, k, p)
  }

  ghost predicate ResidentSince(ws: seq<World>, j: nat, k: nat, p: Page) {
    forall x | j <= x <= k && 0 <= x < |ws| :: At(ws[x], p).exist
  }

  ghost predicate Written(ws: seq<World>, sts: seq<Step>, k: nat, p: Page)
    requires |ws| == |sts| + 1
  {
    exists j: nat :: WrittenAt(ws, sts, j, k, p)
  }

  lemma WrittenNext(ws: seq<World>, sts: seq<Step>, k: nat, next: nat, p: Page)
    requires |ws| == |sts| + 1 && k < |sts| && next == k + 1
    ensures Written(ws, sts, next, p) <==>
      At(ws[next], p).exist && (WriteUnpin(ws[k], sts[k], p) || Written(ws, sts, k, p))
  {
    if j: nat :| WrittenAt(ws, sts, j, next, p) {
      if j < k { assert WrittenAt(ws, sts, j, k, p); }
    }
    if At(ws[next], p).exist {
      if WriteUnpin(ws[k], sts[k], p) { assert WrittenAt(ws, sts, k, next, p); }
      if j: nat :| WrittenAt(ws, sts, j, k, p) { assert WrittenAt(ws, sts, j, next, p); }
    }
  }

  lemma DirtyNext(ws: seq<World>, sts: seq<Step>, k: nat, p: Page)
    requires Run(ws, sts) && k < |sts|
    ensures var e, e' := At(ws[k], p), At(ws[k + 1], p);
      e'.dirty <==> e'.exist && (e.dirty || WriteUnpin(ws[k], sts[k], p))
  {
    RunInv(ws, sts, k);
    RunInv(ws, sts, k + 1);
    DirtyStep(ws[k], sts[k], p);
  }

  lemma CleanFirst(ws: seq<World>, sts: seq<Step>, p: Page)
    requires Run(ws, sts)
    ensures !At(ws[0], p).dirty && !Written(ws, sts, 0, p)
  {
  }

  /** A page is dirty exactly when a pin of it was given back with is_write since it was last brought in. */
  lemma {:induction false} DirtyIff(ws: seq<World>, sts: seq<Step>, k: nat, p: Page)
    requires Run(ws, sts) && k < |ws|
    ensures At(ws[k], p).dirty <==> Written(ws, sts, k, p)
  {
    if k == 0 {
      CleanFirst(ws, sts, p);
    } else {
      DirtyIff(ws, sts, k - 1, p);
      DirtyNext(ws, sts, k - 1, p);
      WrittenNext(ws, sts, k - 1, k, p);
    }
  }

  // ---------------------------------------------------------------- traffic

  /** The victim is written back exactly when it is dirty: the device is asked for nothing else. */
  lemma WriteBackIff(ws: seq<World>, sts: seq<Step>, k: nat)
    requires Run(ws, sts) && k < |sts| && sts[k].Serve? && ws[k].server.Some?
    requires IsContext(ws[k], ws[k].server.value)
    requires var c := ws[k].tokens[ws[k].server.value].ctx; c.phase.Initing? && sts[k].o.ctx.victim.Some?
    ensures var c' := sts[k].o.ctx; c'.processing <==> At(ws[k], c'.victim.value).dirty
    ensures !At(ws[k], sts[k].o.ctx.victim.value).dirty <==> !sts[k].o.stop
  {
    RunInv(ws, sts, k);
    assert TokenInv(ws[k], ws[k].server.value);
  }

  /** The page is read from the device exactly when it takes the place of another. */
  lemma ReadIff(ws: seq<World>, sts: seq<Step>, k: nat)
    requires Run(ws, sts) && k < |sts| && sts[k].Serve? && ws[k].server.Some?
    requires IsContext(ws[k], ws[k].server.value)
    requires var c := ws[k].tokens[ws[k].server.value].ctx; c.phase.Evicting? && !c.processing
    ensures sts[k].o.ctx.processing <==> ws[k].tokens[ws[k].server.value].ctx.victim.Some?
    ensures sts[k].o.stop <==> ws[k].tokens[ws[k].server.value].ctx.victim.Some?
  {
    RunInv(ws, sts, k);
    assert TokenInv(ws[k], ws[k].server.value);
  }

  // ---------------------------------------------------------------- pinned pages up for replacement

  /** A pinned page's frame is in the replacement set only while the news of a pin is on its way. */
  predicate Announced(w: World, f: Frame) {
    f in w.core.tracked && f in w.core.owner && At(w, w.core.owner[f]).refCount > 0 ==> w.pinNotes[w.core.owner[f]] > 0
  }

  /** The frame of the context in hand is not up for replacement. */
  lemma OwnFrame(w: World, id: nat)
    requires Inv(w) && IsContext(w, id) && (w.tokens[id].ctx.phase.Evicting? || w.tokens[id].ctx.phase.Loading?)
    ensures w.tokens[id].ctx.frame !in w.core.tracked
  {
    var c := w.tokens[id].ctx;
    assert TokenInv(w, id) && PageInv(w, c.page) && FrameInv(w, c.frame);
    assert c.frame in w.core.owner ==> Apart(w, c.page, w.core.owner[c.frame]);
  }

  lemma AnnouncedLate(w: World, o: Outcome, torn: Contents, f: Frame)
    requires Inv(w) && Enabled(w, Serve(o, torn)) && Announced(w, f)
    requires var c := w.tokens[w.server.value].ctx; c.phase.Evicting? || c.phase.Loading?
    ensures Announced(Apply(w, Serve(o, torn)), f)
  {
    OwnFrame(w, w.server.value);
    assert TokenInv(w, w.server.value) && FrameInv(w, f);
  }

  lemma AnnouncedEarly(w: World, o: Outcome, torn: Contents, f: Frame)
    requires Inv(w) && Enabled(w, Serve(o, torn)) && Announced(w, f)
    requires var c := w.tokens[w.server.value].ctx; c.phase.Begin? || c.phase.Initing?
    ensures Announced(Apply(w, Serve(o, torn)), f)
  {
    var c := w.tokens[w.server.value].ctx;
    assert TokenInv(w, w.server.value) && PageInv(w, c.page) && FrameInv(w, f);
  }

  lemma AnnouncedUnpin(w: World, st: Step, f: Frame)
    requires Inv(w) && Enabled(w, st) && Announced(w, f) && (st.DirectUnpin? || st.ServerUnpin?)
    ensures Announced(Apply(w, st), f)
  {
    assert FrameInv(w, f) && TokenInv(w, st.id) && PageInv(w, w.tokens[st.id].page);
  }

  lemma AnnouncedDelivery(w: World, p: Page, f: Frame)
    requires Inv(w) && Enabled(w, DeliverUnpin(p)) && Announced(w, f)
    ensures Announced(Apply(w, DeliverUnpin(p)), f)
  {
    assert FrameInv(w, f) && PageInv(w, p);
    if At(w, p).busy {
      var id :| id in w.tokens && Locks(w.tokens[id], p);
      assert TokenInv(w, id);
    }
  }

  lemma AnnouncedPin(w: World, st: Step, f: Frame)
    requires Inv(w) && Enabled(w, st) && Announced(w, f) && (st.DirectPin? || st.DeliverPin?)
    ensures Announced(Apply(w, st), f)
  {
    assert FrameInv(w, f) && PageInv(w, st.page);
  }

  lemma AnnouncedStep(w: World, st: Step, f: Frame)
    requires Inv(w) && Enabled(w, st) && Announced(w, f)
    ensures Announced(Apply(w, st), f)
  {
    match st
    case Serve(o, torn) =>
      assert TokenInv(w, w.server.value);
      var phase := w.tokens[w.server.value].ctx.phase;
      if phase.Evicting? || phase.Loading? { AnnouncedLate(w, o, torn, f); } else { AnnouncedEarly(w, o, torn, f); }
    case DirectUnpin(_, _) => AnnouncedUnpin(w, st, f);
    case ServerUnpin(_, _) => AnnouncedUnpin(w, st, f);
    case DeliverUnpin(p) => AnnouncedDelivery(w, p, f);
    case DirectPin(_, _) => AnnouncedPin(w, st, f);
    case DeliverPin(_) => AnnouncedPin(w, st, f);
    case _ =>
  }

  /** So once no news is on its way only frames of unpinned pages are up for replacement. */
  lemma {:induction false} PinnedAnnounced(ws: seq<World>, sts: seq<Step>, k: nat, f: Frame)
    requires Run(ws, sts) && k < |ws|
    ensures Announced(ws[k], f)
  {
    if k > 0 {
      PinnedAnnounced(ws, sts, k - 1, f);
      RunInv(ws, sts, k - 1);
      AnnouncedStep(ws[k - 1], sts[k - 1], f);
    }
  }
}
