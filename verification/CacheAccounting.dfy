/** Exact frame accounting in runs whose pins and unpins all go through the server, and a run with
    direct pins that shows why that restriction is needed. */
module CacheAccounting {
  import opened Basics
  import opened PageCache
  import opened CacheSystem
  import opened CacheInvariant
  import opened CacheTheorems

  predicate Direct(st: Step) { st.DirectPin? || st.DirectUnpin? }

  /** No notification is in flight and exactly the unpinned pages' frames can be replaced. */
  ghost predicate Exact(w: World) {
    && w.pinNotes == multiset{} && w.unpinNotes == multiset{}
    && forall f | f in w.core.tracked :: f in w.core.owner && At(w, w.core.owner[f]).refCount == 0
  }

  lemma ExactStep(w: World, st: Step)
    requires Inv(w) && Exact(w) && Enabled(w, st) && !Direct(st)
    ensures Exact(Apply(w, st))
  {
    var w' := Apply(w, st);
    StepKeeps(w, st);
    forall f | f in w'.core.tracked ensures f in w'.core.owner && At(w', w'.core.owner[f]).refCount == 0 {
      assert FrameInv(w', f) && FrameInv(w, f);
      match st {
        case Serve(o, torn) => ExactServe(w, o, torn, f);
        case ServerUnpin(id, isWrite) => assert PageInv(w, w.tokens[id].page) && TokenInv(w, id);
        case _ =>
      }
    }
  }

  lemma ExactServe(w: World, o: Outcome, torn: Contents, f: Frame)
    requires Inv(w) && Exact(w) && Enabled(w, Serve(o, torn)) && f in o.core.tracked
    ensures f in o.core.owner && Lookup(o.core.table, o.core.owner[f]).refCount == 0
  {
    var id := w.server.value;
    var c := w.tokens[id].ctx;
    assert TokenInv(w, id) && PageInv(w, c.page) && FrameInv(w, f);
    if c.phase.Evicting? && f in w.core.tracked { assert Apart(w, w.core.owner[f], c.page); }
  }

  lemma {:induction false} RunExact(ws: seq<World>, sts: seq<Step>, k: nat)
    requires Run(ws, sts) && k < |ws| && forall st | st in sts :: !Direct(st)
    ensures Exact(ws[k])
  {
    if k > 0 {
      RunExact(ws, sts, k - 1);
      RunInv(ws, sts, k - 1);
      assert sts[k - 1] in sts;
      ExactStep(ws[k - 1], sts[k - 1]);
    }
  }

  /** Pages and frames matched one to one by the owner map are equally many. */
  lemma {:induction false} SameSize(w: World, pages: set<Page>, frames: set<Frame>)
    requires forall p | p in pages ::
      At(w, p).frame in frames && At(w, p).frame in w.core.owner && w.core.owner[At(w, p).frame] == p
    requires forall f | f in frames ::
      f in w.core.owner && w.core.owner[f] in pages && At(w, w.core.owner[f]).frame == f
    ensures |pages| == |frames|
  {
    if pages != {} {
      var p :| p in pages;
      SameSize(w, pages - {p}, frames - {At(w, p).frame});
    } else {
      assert frames == {};
    }
  }

  /** Frame accounting: the frames in use are those in the replacement set plus the pinned ones, every
      frame in the replacement set can be evicted at the first try, and so a full cache that is not
      full of pins always has a victim. */
  lemma FrameAccounting(ws: seq<World>, sts: seq<Step>, k: nat)
    requires Run(ws, sts) && k < |ws| && forall st | st in sts :: !Direct(st)
    ensures var s := ws[k].core;
      && s.curId - |s.recycled| == |s.tracked| + s.pinned
      && (forall f | f in s.tracked :: Selects(s, {}, f))
      && (Full(s) && !FullPin(s) ==> s.tracked != {})
  {
    RunInv(ws, sts, k);
    RunExact(ws, sts, k);
    var w := ws[k];
    var idle := Existing(w.core) - PinnedPages(w.core);
    forall p | p in PinnedPages(w.core) ensures p in Existing(w.core) { assert PageInv(w, p); }
    assert Existing(w.core) == idle + PinnedPages(w.core);
    forall p | p in idle
      ensures At(w, p).frame in w.core.tracked && At(w, p).frame in w.core.owner && w.core.owner[At(w, p).frame] == p
    {
      assert PageInv(w, p);
      LoadingIsPinned(w, p);
    }
    forall f | f in w.core.tracked
      ensures w.core.owner[f] in idle && At(w, w.core.owner[f]).frame == f && Selects(w.core, {}, f)
    {
      assert FrameInv(w, f);
    }
    SameSize(w, idle, w.core.tracked);
  }

  /** The server is inside `process`, needs a victim it is entitled to, and has no turn to take. */
  ghost predicate Stuck(w: World) {
    && w.server.Some? && IsContext(w, w.server.value) && w.tokens[w.server.value].ctx.phase.Initing?
    && Full(w.core) && !FullPin(w.core)
    && forall o, torn :: !Enabled(w, Serve(o, torn))
  }

  /** The context of the token the server is working on. */
  function Current(w: World): Context
    requires w.server.Some? && IsContext(w, w.server.value)
  {
    w.tokens[w.server.value].ctx
  }

  /** The server has a turn for a miss in a full cache exactly when some frame in the replacement set
      can be evicted. */
  lemma VictimTurnIff(s: Core, c: Context)
    requires c.phase.Initing? && c.kind.Pin? && !c.seen.exist && Full(s) && !FullPin(s)
    ensures (exists o :: Iter(s, c, o)) <==> (exists f :: f in s.tracked && Evictable(s, f))
  {
    if f :| f in s.tracked && Evictable(s, f) {
      assert Selects(s, {}, f);
      assert Iter(s, c, VictimTurn(s, c, {}, f));
    }
  }

  lemma Extend(ws: seq<World>, sts: seq<Step>, st: Step)
    requires Run(ws, sts) && Enabled(ws[|sts|], st)
    ensures Run(ws + [Apply(ws[|sts|], st)], sts + [st])
  {
  }

  /** One frame, page 0 resident in it and unpinned. */
  const IDLE := World(
    Core(1, map[0 := Pte(true, false, false, 0, 0)], map[0 := 0], {0}, 0, 1, [], {0}),
    None, map[], multiset{}, multiset{}, [[]], map[], map[], map[], 0)

  /** One frame, page 0 about to be loaded into it. */
  const CLAIMED := World(
    Core(1, map[0 := Created(0)], map[], {}, 1, 1, [], {}),
    Some(0), map[0 := InFlight(Context(Pin, Evicting, 0, EMPTY_PTE, 0, None, false, false, NEW_IO))],
    multiset{}, multiset{}, [[]], map[], map[], map[], 0)

  lemma ClaimedReachable() returns (ws: seq<World>, sts: seq<Step>)
    ensures Run(ws, sts) && ws[|sts|] == CLAIMED
  {
    var w0 := World(Fresh(1), None, map[], multiset{}, multiset{}, [[]], map[], map[], map[], 0);
    var w1 := Apply(w0, Submit(0, 0));
    var w2 := Apply(w1, Call(0));
    var s3 := Serve(BeginTurn(w2.core, Current(w2)), []);
    var w3 := Apply(w2, s3);
    var s4 := Serve(FreeTurn(w3.core, Current(w3)), []);
    assert Apply(w3, s4) == CLAIMED;
    ws := [w0, w1, w2, w3, CLAIMED];
    sts := [Submit(0, 0), Call(0), s3, s4];
  }

  /** One frame, page 0 loaded into it and pinned. */
  const PINNED := World(
    Core(1, map[0 := Pte(true, false, false, 1, 0)], map[0 := 0], {}, 1, 1, [], {0}),
    None, map[0 := Held(0, 0, false)], multiset{}, multiset{}, [[]], map[], map[], map[], 0)

  lemma PinnedReachable() returns (ws: seq<World>, sts: seq<Step>)
    ensures Run(ws, sts) && ws[|sts|] == PINNED
  {
    ws, sts := ClaimedReachable();
    var s5 := Serve(EvictDone(CLAIMED.core, Current(CLAIMED)), []);
    var w5 := Apply(CLAIMED, s5);
    Extend(ws, sts, s5);
    ws, sts := ws + [w5], sts + [s5];
    var s6 := Serve(LoadDone(w5.core, Current(w5)), []);
    assert Apply(w5, s6) == PINNED;
    Extend(ws, sts, s6);
    ws, sts := ws + [PINNED], sts + [s6];
  }

  lemma IdleReachable() returns (ws: seq<World>, sts: seq<Step>)
    ensures Run(ws, sts) && ws[|sts|] == IDLE
  {
    ws, sts := PinnedReachable();
    assert Apply(PINNED, ServerUnpin(0, false)) == IDLE;
    Extend(ws, sts, ServerUnpin(0, false));
    ws, sts := ws + [IDLE], sts + [ServerUnpin(0, false)];
  }

  /** With direct pins a full cache that is not full of pins may have no victim: the one frame in the
      replacement set was pinned directly and the server has not been told yet. */
  lemma DirectPinStarvesServer() returns (ws: seq<World>, sts: seq<Step>)
    ensures Run(ws, sts) && Stuck(ws[|sts|])
  {
    ws, sts := IdleReachable();
    var w8 := Apply(IDLE, DirectPin(1, 0));
    Extend(ws, sts, DirectPin(1, 0));
    ws, sts := ws + [w8], sts + [DirectPin(1, 0)];
    var w9 := Apply(w8, Submit(2, 1));
    Extend(ws, sts, Submit(2, 1));
    ws, sts := ws + [w9], sts + [Submit(2, 1)];
    var w10 := Apply(w9, Call(2));
    Extend(ws, sts, Call(2));
    ws, sts := ws + [w10], sts + [Call(2)];
    var s11 := Serve(BeginTurn(w10.core, Current(w10)), []);
    Extend(ws, sts, s11);
    ws, sts := ws + [Apply(w10, s11)], sts + [s11];
    VictimTurnIff(w10.core, Current(ws[|sts|]));
  }
}
