/** What every run of a partition guarantees. */
module CacheTheorems {
  import opened Basics
  import opened PageCache
  import opened CacheSystem
  import opened CacheInvariant
  import opened CacheQuiet
  import opened CacheRefs
  import opened CacheNotes
  import opened CacheTurns

  lemma ServeKeeps(w: World, o: Outcome, torn: Contents)
    requires Inv(w) && Enabled(w, Serve(o, torn))
    ensures Inv(Served(w, o, torn))
  {
    var id := w.server.value;
    var c := w.tokens[id].ctx;
    assert TokenInv(w, id);
    match c.phase {
      case Begin => BeginKeeps(w, id, c, torn);
      case Initing =>
        if c.seen.exist { HitKeeps(w, id, c, torn); }
        else if FullPin(w.core) { RefuseKeeps(w, id, c, torn); }
        else if !Full(w.core) { FreeKeeps(w, id, c, torn); }
        else {
          var rejected, f :| Selects(w.core, rejected, f) && o == VictimTurn(w.core, c, rejected, f);
          VictimKeeps(w, id, c, rejected, f, torn);
        }
      case Evicting =>
        if c.processing { EvictPollKeeps(w, id, c, torn); } else { EvictedKeeps(w, id, c, torn); }
      case Loading =>
        if c.processing { LoadPollKeeps(w, id, c, torn); } else { LoadedKeeps(w, id, c, torn); }
    }
  }

  /** Every step keeps the invariant. */
  lemma StepKeeps(w: World, st: Step)
    requires Inv(w) && Enabled(w, st)
    ensures Inv(Apply(w, st))
  {
    match st
    case Submit(id, p) => SubmitKeeps(w, id, p);
    case Call(id) => CallKeeps(w, id);
    case Serve(o, torn) => ServeKeeps(w, o, torn);
    case DeviceWrite(id) => DeviceWriteKeeps(w, id);
    case DeviceRead(id) => DeviceReadKeeps(w, id);
    case DirectPin(id, p) => DirectPinKeeps(w, id, p);
    case DirectUnpin(id, isWrite) => DirectUnpinKeeps(w, id, isWrite);
    case ServerUnpin(id, isWrite) => ServerUnpinKeeps(w, id, isWrite);
    case DeliverPin(p) => DeliverPinKeeps(w, p);
    case DeliverUnpin(p) => DeliverUnpinKeeps(w, p);
    case Store(id, v) => StoreKeeps(w, id, v);
  }

  lemma {:induction false} RunInv(ws: seq<World>, sts: seq<Step>, i: nat)
    requires Run(ws, sts) && i < |ws|
    ensures Inv(ws[i])
  {
    if i == 0 {
      InitInv(ws[0]);
    } else {
      RunInv(ws, sts, i - 1);
      StepKeeps(ws[i - 1], sts[i - 1]);
    }
  }

  // Coherence.

  /** The step gives page `p` contents: a store through a pin, or an unpin with is_write. */
  predicate GivesContents(w: World, st: Step, p: Page) {
    match st
    case Store(id, _) => IsHeld(w, id) && w.tokens[id].page == p
    case DirectUnpin(id, isWrite) => isWrite && IsHeld(w, id) && w.tokens[id].page == p
    case ServerUnpin(id, isWrite) => isWrite && IsHeld(w, id) && w.tokens[id].page == p
    case _ => false
  }

  /** The contents it gives: what the caller's pointer shows once the step is taken. */
  function Given(w: World, st: Step): Contents
    requires Enabled(w, st) && (st.Store? || st.DirectUnpin? || st.ServerUnpin?)
  {
    if st.Store? then st.value else w.mem[w.tokens[st.id].frame]
  }

  lemma LogicalStays(w: World, st: Step, p: Page)
    requires Enabled(w, st) && !GivesContents(w, st, p) && p in w.logical
    ensures p in Apply(w, st).logical && Apply(w, st).logical[p] == w.logical[p]
  {
  }

  lemma {:induction false} LogicalAfter(ws: seq<World>, sts: seq<Step>, i: nat, j: nat, p: Page)
    requires Run(ws, sts) && i < j <= |sts|
    requires GivesContents(ws[i], sts[i], p)
    requires forall k | i < k < j :: !GivesContents(ws[k], sts[k], p)
    ensures p in ws[j].logical && ws[j].logical[p] == Given(ws[i], sts[i])
  {
    if j > i + 1 {
      LogicalAfter(ws, sts, i, j - 1, p);
      LogicalStays(ws[j - 1], sts[j - 1], p);
    }
  }

  /** Coherence: whoever holds a pin sees exactly the contents the page was last given, whether it
      stayed resident or was written back and reloaded any number of times in between. */
  lemma Coherence(ws: seq<World>, sts: seq<Step>, i: nat, j: nat, p: Page, id: nat)
    requires Run(ws, sts) && i < j <= |sts|
    requires GivesContents(ws[i], sts[i], p)
    requires forall k | i < k < j :: !GivesContents(ws[k], sts[k], p)
    requires IsHeld(ws[j], id) && ws[j].tokens[id].page == p
    ensures ws[j].tokens[id].frame < |ws[j].mem|
    ensures ws[j].mem[ws[j].tokens[id].frame] == Given(ws[i], sts[i])
  {
    LogicalAfter(ws, sts, i, j, p);
    RunInv(ws, sts, j);
    assert TokenInv(ws[j], id) && PageInv(ws[j], p);
  }

  /** While nobody who stored still holds the page, that is what the last unpin with is_write left. */
  lemma SealedSeen(ws: seq<World>, sts: seq<Step>, j: nat, id: nat)
    requires Run(ws, sts) && j < |ws|
    requires IsHeld(ws[j], id) && ws[j].tokens[id].page in ws[j].logical && NoWriter(ws[j], ws[j].tokens[id].page)
    ensures var w := ws[j]; var t := w.tokens[id];
      t.page in w.sealed && t.frame < |w.mem| && w.mem[t.frame] == w.sealed[t.page]
  {
    RunInv(ws, sts, j);
    assert TokenInv(ws[j], id) && PageInv(ws[j], ws[j].tokens[id].page);
  }

  // I/O exclusion.

  /** A page is locked by exactly one context when busy, by none otherwise. */
  lemma LockExclusion(ws: seq<World>, sts: seq<Step>, k: nat, p: Page)
    requires Run(ws, sts) && k < |ws|
    ensures At(ws[k], p).busy <==> exists i :: i in ws[k].tokens && Locks(ws[k].tokens[i], p)
    ensures forall i, j | i in ws[k].tokens && j in ws[k].tokens ::
      Locks(ws[k].tokens[i], p) && Locks(ws[k].tokens[j], p) ==> i == j
  {
    RunInv(ws, sts, k);
    var w := ws[k];
    assert PageInv(w, p);
    forall i | i in w.tokens && Locks(w.tokens[i], p) ensures At(w, p).busy { assert TokenInv(w, i); }
    forall i, j | i in w.tokens && j in w.tokens && Locks(w.tokens[i], p) && Locks(w.tokens[j], p) ensures i == j {
      assert Exclusive(w, i, j);
    }
  }

  /** The block a context's outstanding transfer touches. */
  function Block(c: Context): Page {
    if c.phase.Evicting? && c.victim.Some? then c.victim.value else c.page
  }

  predicate Outstanding(w: World, id: nat) {
    Transferring(w, id, Evicting) || Transferring(w, id, Loading)
  }

  /** Outstanding transfers touch pairwise different blocks and different frames. */
  lemma TransfersApart(ws: seq<World>, sts: seq<Step>, k: nat, i: nat, j: nat)
    requires Run(ws, sts) && k < |ws| && i != j && Outstanding(ws[k], i) && Outstanding(ws[k], j)
    ensures Block(ws[k].tokens[i].ctx) != Block(ws[k].tokens[j].ctx)
    ensures ws[k].tokens[i].ctx.frame != ws[k].tokens[j].ctx.frame
  {
    RunInv(ws, sts, k);
    var w := ws[k];
    var c, d := w.tokens[i].ctx, w.tokens[j].ctx;
    assert TokenInv(w, i) && TokenInv(w, j) && Exclusive(w, i, j);
    assert Locks(w.tokens[i], Block(c)) && Locks(w.tokens[j], Block(d));
    assert Locks(w.tokens[i], c.page) && Locks(w.tokens[j], d.page);
    assert Apart(w, c.page, d.page);
  }

  /** While a page is being loaded no write-back of it is outstanding and the device has its contents. */
  lemma ReloadAfterWriteBack(ws: seq<World>, sts: seq<Step>, k: nat, i: nat, j: nat)
    requires Run(ws, sts) && k < |ws| && IsContext(ws[k], i) && ws[k].tokens[i].ctx.phase.Loading?
    requires IsContext(ws[k], j) && ws[k].tokens[j].ctx.phase.Evicting?
    ensures ws[k].tokens[j].ctx.victim != Some(ws[k].tokens[i].ctx.page)
    ensures var p := ws[k].tokens[i].ctx.page; p in ws[k].logical ==> DiskAt(ws[k], p) == ws[k].logical[p]
  {
    RunInv(ws, sts, k);
    var w := ws[k];
    assert TokenInv(w, i) && Exclusive(w, i, j);
    assert Locks(w.tokens[i], w.tokens[i].ctx.page);
  }

  // Counting.

  /** The reference count is the number of pins held and loads in flight, and a locked page has none
      but its loader's. */
  lemma ReferencesCounted(ws: seq<World>, sts: seq<Step>, k: nat, p: Page)
    requires Run(ws, sts) && k < |ws|
    ensures At(ws[k], p).refCount == |Holders(ws[k], p)|
    ensures At(ws[k], p).busy ==> forall id | id in ws[k].tokens && ws[k].tokens[id].Held? :: ws[k].tokens[id].page != p
  {
    RunInv(ws, sts, k);
    assert PageInv(ws[k], p);
    forall id | id in ws[k].tokens && ws[k].tokens[id].Held? && At(ws[k], p).busy ensures ws[k].tokens[id].page != p {
      assert TokenInv(ws[k], id);
    }
  }

  /** An unpinned resident page is never lost to replacement. */
  lemma NoFrameLost(ws: seq<World>, sts: seq<Step>, k: nat, p: Page)
    requires Run(ws, sts) && k < |ws|
    requires At(ws[k], p).exist && !At(ws[k], p).busy && At(ws[k], p).refCount == 0
    ensures At(ws[k], p).frame in ws[k].core.tracked || ws[k].unpinNotes[p] > 0
  {
    RunInv(ws, sts, k);
    assert PageInv(ws[k], p);
  }

  /** The counter of pinned pages is exact up to the notifications in flight. */
  lemma PinConservation(ws: seq<World>, sts: seq<Step>, k: nat)
    requires Run(ws, sts) && k < |ws|
    ensures ws[k].core.pinned == |PinnedPages(ws[k].core)| - |ws[k].pinNotes| + |ws[k].unpinNotes|
    ensures |Existing(ws[k].core)| == ws[k].core.curId - |ws[k].core.recycled|
    ensures forall p, q | p != q && At(ws[k], p).exist && At(ws[k], q).exist :: At(ws[k], p).frame != At(ws[k], q).frame
  {
    RunInv(ws, sts, k);
    forall p, q | p != q && At(ws[k], p).exist && At(ws[k], q).exist ensures At(ws[k], p).frame != At(ws[k], q).frame {
      assert Apart(ws[k], p, q);
    }
  }

  lemma {:induction false} Pigeonhole(s: set<Page>, m: multiset<Page>)
    requires forall p | p in s :: m[p] > 0
    ensures |s| <= |m|
  {
    if s != {} {
      var p :| p in s;
      Pigeonhole(s - {p}, m - multiset{p});
    }
  }

  lemma LoadingIsPinned(w: World, p: Page)
    requires Inv(w) && At(w, p).exist && At(w, p).refCount == 0
    ensures !At(w, p).busy
  {
    assert PageInv(w, p);
    forall i | i in w.tokens ensures !Locks(w.tokens[i], p) { assert TokenInv(w, i); }
  }

  /** A pin that needs a victim finds one whenever the pins the server knows of and those it is about
      to hear of leave room. Without direct pins that is exactly `full() && !full_pin()`. */
  lemma VictimExists(w: World)
    requires Inv(w) && Full(w.core) && w.core.pinned + |w.pinNotes| < w.core.capacity
    ensures exists f :: Selects(w.core, {}, f)
  {
    var idle := Existing(w.core) - PinnedPages(w.core);
    forall p | p in PinnedPages(w.core) ensures p in Existing(w.core) { assert PageInv(w, p); }
    assert Existing(w.core) == idle + PinnedPages(w.core);
    if forall p | p in idle :: w.unpinNotes[p] > 0 {
      Pigeonhole(idle, w.unpinNotes);
      assert false;
    }
    var p :| p in idle && w.unpinNotes[p] == 0;
    assert PageInv(w, p);
    LoadingIsPinned(w, p);
    assert Selects(w.core, {}, At(w, p).frame);
  }

  /** The disk read is skipped only for a frame never loaded before, only before the partition's first
      eviction, and so never for a page that was given contents. */
  lemma SkippedReadHidesNothing(ws: seq<World>, sts: seq<Step>, k: nat, id: nat)
    requires Run(ws, sts) && k < |ws| && ws[k].server == Some(id) && IsContext(ws[k], id)
    requires var c := ws[k].tokens[id].ctx; c.phase.Evicting? && !c.processing && c.frame !in ws[k].core.loaded
    ensures ws[k].evictions == 0 && ws[k].tokens[id].ctx.victim == None
    ensures ws[k].tokens[id].ctx.page !in ws[k].logical
  {
    RunInv(ws, sts, k);
    assert TokenInv(ws[k], id);
  }

  /** The side conditions of the client steps hold of every token a client can have. */
  lemma HeldPinsAreBacked(ws: seq<World>, sts: seq<Step>, k: nat, id: nat)
    requires Run(ws, sts) && k < |ws| && IsHeld(ws[k], id)
    ensures var t := ws[k].tokens[id];
      && At(ws[k], t.page).refCount > 0 && At(ws[k], t.page).frame == t.frame < |ws[k].mem|
      && At(ws[k], t.page).exist && !At(ws[k], t.page).busy
  {
    RunInv(ws, sts, k);
    var t := ws[k].tokens[id];
    assert TokenInv(ws[k], id) && PageInv(ws[k], t.page);
    assert id in Holders(ws[k], t.page);
  }
}
