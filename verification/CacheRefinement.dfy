/** The cache object and the transition system: a call of `process` made in a reachable state finds what it
    relies on, room in the page table only where contexts are served one at a time and none is refused; and
    the call is a stretch of a run, for a pin its turns, for an unpin one step. */
module CacheRefinement {
  import opened Basics
  import opened PageCache
  import opened CacheSystem
  import opened CacheInvariant
  import opened CacheTheorems
  import opened CacheAccounting
  import opened CompactPageTable
  import opened SingleThreadCache
  import opened Replacement
  import opened OneAtATime
  import opened CacheLines

  /** Every page id in play is below the reserved tag. */
  ghost predicate SmallPages(w: World) {
    && (forall p | p in w.core.table :: Small(p)) && (forall f | f in w.core.owner :: Small(w.core.owner[f]))
    && (forall id | IsContext(w, id) :: Small(w.tokens[id].ctx.page))
  }

  /** A context at rest meets the demands of `process`, given a victim for a miss that will need one. */
  lemma ReachableIsReady(w: World, id: nat)
    requires Inv(w) && SmallPages(w) && w.server == None && IsContext(w, id)
    ensures Ready(w.core, w.tokens[id].ctx)
    ensures w.core.pinned + |w.pinNotes| < w.core.capacity ==> HasVictim(w.core, w.tokens[id].ctx)
  {
    var c := w.tokens[id].ctx;
    assert TokenInv(w, id) && PageInv(w, c.page);
    forall f | f in w.core.tracked
      ensures f in w.core.owner && At(w, w.core.owner[f]).exist && At(w, w.core.owner[f]).frame == f
    {
      assert FrameInv(w, f);
    }
    forall p | p in w.core.table && w.core.table[p].exist ensures w.core.table[p].frame < w.core.capacity {
      assert PageInv(w, p);
    }
    if c.phase.Evicting? && c.victim.Some? {
      assert At(w, c.victim.value) == DELETED;
      assert c.victim.value in w.core.table;
    }
    if Full(w.core) && w.core.pinned + |w.pinNotes| < w.core.capacity {
      VictimExists(w);
      var f :| Selects(w.core, {}, f);
      assert f in w.core.tracked && Evictable(w.core, f);
    }
  }

  /** The world after the turns `tr[..i + 1]` of a call on token `id`. */
  ghost predicate Reached(w: World, w': World, id: nat, tr: seq<Outcome>, i: nat)
    requires i < |tr|
  {
    && w'.core == tr[i].core && w'.server == (if tr[i].stop then None else Some(id))
    && w'.tokens == Settle(w.tokens, id, tr[i].ctx)
  }

  /** Every run has its tags. */
  lemma {:induction false} RunHasTags(ws: seq<World>, sts: seq<Step>) returns (tags: seq<set<nat>>)
    requires Run(ws, sts)
    ensures TaggedRun(ws, sts, tags)
    decreases |sts|
  {
    if sts == [] {
      tags := [{}];
    } else {
      var n := |sts| - 1;
      tags := RunHasTags(ws[..n + 1], sts[..n]);
      tags := tags + [StepTags(ws[n], sts[n], tags[n])];
    }
  }

  lemma TurnReached(w: World, last: World, id: nat, tr: seq<Outcome>, i: nat)
    requires Turns(tr) && i + 1 < |tr| && Reached(w, last, id, tr, i) && !tr[i].ctx.phase.End?
    ensures Enabled(last, Serve(tr[i + 1], [])) && Reached(w, Apply(last, Serve(tr[i + 1], [])), id, tr, i + 1)
    ensures last.server == Some(id) && last.tokens[id].ctx == tr[i].ctx
  {
    assert Follows(tr, i);
    assert Settle(Settle(w.tokens, id, tr[i].ctx), id, tr[i + 1].ctx) == Settle(w.tokens, id, tr[i + 1].ctx);
  }

  /** One server turn. */
  lemma ServeTurn(ws: seq<World>, sts: seq<Step>, tags: seq<set<nat>>, w: World, id: nat,
                  tr: seq<Outcome>, i: nat, first: set<nat>)
      returns (ws': seq<World>, sts': seq<Step>, tags': seq<set<nat>>)
    requires TaggedRun(ws, sts, tags) && Turns(tr) && i + 1 < |tr| && Reached(w, ws[|sts|], id, tr, i)
    requires !tr[i].ctx.phase.End? && tags[|sts|] == TagsAlong(tr[..i + 1], first)
    ensures TaggedRun(ws', sts', tags') && ws <= ws' && Reached(w, ws'[|sts'|], id, tr, i + 1)
    ensures tags'[|sts'|] == TagsAlong(tr[..i + 2], first)
  {
    TurnReached(w, ws[|sts|], id, tr, i);
    ws', sts', tags' := ExtendTagged(ws, sts, tags, Serve(tr[i + 1], []));
    assert tr[..i + 2] == tr[..i + 1] + [tr[i + 1]];
    TagsNext(tr[..i + 1], tr[i + 1], first);
  }

  /** Server turns played one after the other. */
  lemma {:induction false} ServeTurns(ws: seq<World>, sts: seq<Step>, tags: seq<set<nat>>, w: World, id: nat,
                                      tr: seq<Outcome>, i: nat, first: set<nat>)
      returns (ws': seq<World>, sts': seq<Step>, tags': seq<set<nat>>)
    requires TaggedRun(ws, sts, tags) && Turns(tr) && i < |tr| && Reached(w, ws[|sts|], id, tr, i)
    requires (forall k | 0 <= k < |tr| - 1 :: !tr[k].ctx.phase.End?) && tags[|sts|] == TagsAlong(tr[..i + 1], first)
    ensures TaggedRun(ws', sts', tags') && ws <= ws' && Reached(w, ws'[|sts'|], id, tr, |tr| - 1)
    ensures tags'[|sts'|] == TagsAlong(tr, first)
    decreases |tr| - i
  {
    if i == |tr| - 1 {
      assert tr[..i + 1] == tr;
      return ws, sts, tags;
    }
    var ws1, sts1, tags1 := ServeTurn(ws, sts, tags, w, id, tr, i, first);
    ws', sts', tags' := ServeTurns(ws1, sts1, tags1, w, id, tr, i + 1, first);
  }

  /** A turn that does not return leaves the context in progress. */
  lemma InProgress(tr: seq<Outcome>, k: nat)
    requires Turns(tr) && k < |tr| - 1
    ensures !tr[k].ctx.phase.End?
  {
    assert Follows(tr, k);
  }

  /** A call of `process` on a context at rest extends the run, ends with the context settled, and leaves the
      lines that the object's contract says it leaves. */
  lemma ProcessExtendsRun(ws: seq<World>, sts: seq<Step>, tags: seq<set<nat>>, id: nat, tr: seq<Outcome>)
      returns (ws': seq<World>, sts': seq<Step>, tags': seq<set<nat>>)
    requires TaggedRun(ws, sts, tags) && ws[|sts|].server == None && IsContext(ws[|sts|], id)
    requires Turns(tr) && tr[0] == Outcome(ws[|sts|].core, ws[|sts|].tokens[id].ctx, false) && tr[|tr| - 1].stop
    ensures TaggedRun(ws', sts', tags') && ws <= ws' && tags'[|sts'|] == TagsAlong(tr, tags[|sts|])
    ensures var w' := ws'[|sts'|];
      && w'.core == tr[|tr| - 1].core && w'.server == None
      && w'.tokens == Settle(ws[|sts|].tokens, id, tr[|tr| - 1].ctx)
  {
    var w := ws[|sts|];
    forall k | 0 <= k < |tr| - 1 ensures !tr[k].ctx.phase.End? { InProgress(tr, k); }
    var ws1, sts1, tags1 := ExtendTagged(ws, sts, tags, Call(id));
    assert Settle(w.tokens, id, tr[0].ctx) == w.tokens;
    ws', sts', tags' := ServeTurns(ws1, sts1, tags1, w, id, tr, 0, tags[|sts|]);
  }

  lemma {:induction false} ClockRests(tr: seq<Outcome>, ms: seq<Mark>, i: nat)
    requires Turns(tr) && Ticks(tr, ms) && 2 <= i < |tr| && tr[2].ctx.phase.Evicting?
    ensures ms[i] == ms[2] && (tr[i].ctx.phase.Evicting? || tr[i].ctx.phase.Loading? || tr[i].ctx.phase.End?)
  {
    if i > 2 {
      ClockRests(tr, ms, i - 1);
      assert Follows(tr, i - 1) && TicksAt(tr, ms, i - 1);
    }
  }

  /** Without direct pins a call of `process` that evicts takes the frame the second-chance rule names, and leaves the
      frames' states as that rule leaves them. */
  lemma EvictsFirstChoice(ws: seq<World>, sts: seq<Step>, k: nat, p: Page, tr: seq<Outcome>, ms: seq<Mark>)
    requires Run(ws, sts) && k < |ws| && (forall st | st in sts :: !Direct(st))
    requires Turns(tr) && Ticks(tr, ms) && |tr| > 2 && tr[0].core == ws[k].core && tr[0].ctx == NewContext(Pin, p)
    requires forall g | 0 <= g < |ms[0].states| && ms[0].states[g] != 0 :: g in tr[0].core.tracked
    requires tr[2].ctx.phase.Evicting? && tr[2].ctx.victim.Some?
    ensures var m, m', f := ms[0], ms[|ms| - 1], tr[2].ctx.frame;
      && m.hand < |m.states| && FirstChoice(m.states, m.hand, f) && m'.states == AfterPop(m.states, m.hand, f)
      && f in tr[0].core.owner && tr[2].ctx.victim == Some(tr[0].core.owner[f])
  {
    assert Follows(tr, 0) && Follows(tr, 1) && TicksAt(tr, ms, 0) && TicksAt(tr, ms, 1);
    FrameAccounting(ws, sts, k);
    var s := tr[0].core;
    forall g | 0 <= g < |ms[0].states| && ms[0].states[g] != 0 ensures Evictable(s, g) { assert Selects(s, {}, g); }
    FirstChosen(s, tr[2].ctx.frame, ms[0], ms[2]);
    ClockRests(tr, ms, |tr| - 1);
  }

  /** The turns of a call that gives back a pin of a page not locked. */
  lemma UnpinTurns(tr: seq<Outcome>, p: Page, isWrite: bool)
    requires Turns(tr) && tr[0].ctx == NewContext(Unpin(isWrite), p) && !tr[0].stop && tr[|tr| - 1].stop
    requires var e := Lookup(tr[0].core.table, p); e.exist && !e.busy && e.refCount > 0
    ensures |tr| == 3 && tr[2].core == UnpinResident(tr[0].core, p, isWrite) && tr[2].ctx.phase.End?
    ensures forall tags :: TagsAlong(tr, tags) == tags + {TagOf(p)}
  {
    assert Follows(tr, 0);
    assert Follows(tr, 1);
    assert |tr| > 3 ==> Follows(tr, 2);
    forall tags ensures TagsAlong(tr, tags) == tags + {TagOf(p)} {
      TagsNext(tr[..1], tr[1], tags);
      TagsNext(tr[..2], tr[2], tags);
      assert tr[..1] + [tr[1]] == tr[..2] && tr[..2] + [tr[2]] == tr;
    }
  }

  /** What a call for an unpin relies on. */
  lemma UnpinIsReady(w: World, id: nat, isWrite: bool)
    requires Inv(w) && SmallPages(w) && IsHeld(w, id) && MayUnpin(w, id, isWrite)
    ensures var c := NewContext(Unpin(isWrite), w.tokens[id].page); Ready(w.core, c) && HasVictim(w.core, c)
  {
    assert TokenInv(w, id);
    forall f | f in w.core.tracked
      ensures f in w.core.owner && At(w, w.core.owner[f]).exist && At(w, w.core.owner[f]).frame == f
    {
      assert FrameInv(w, f);
    }
    forall p | p in w.core.table && w.core.table[p].exist ensures w.core.table[p].frame < w.core.capacity {
      assert PageInv(w, p);
    }
  }

  /** A call of `process` for an unpin is the transition system's step, and leaves the lines that step leaves. */
  lemma UnpinExtendsRun(ws: seq<World>, sts: seq<Step>, tags: seq<set<nat>>, id: nat, isWrite: bool, tr: seq<Outcome>)
      returns (ws': seq<World>, sts': seq<Step>, tags': seq<set<nat>>)
    requires TaggedRun(ws, sts, tags) && ws[|sts|].server == None && MayUnpin(ws[|sts|], id, isWrite)
    requires Turns(tr) && tr[|tr| - 1].stop
    requires tr[0] == Outcome(ws[|sts|].core, NewContext(Unpin(isWrite), ws[|sts|].tokens[id].page), false)
    ensures TaggedRun(ws', sts', tags') && ws <= ws' && sts' == sts + [ServerUnpin(id, isWrite)]
    ensures ws'[|sts'|].core == tr[|tr| - 1].core && ws'[|sts'|].tokens == ws[|sts|].tokens - {id}
    ensures tags'[|sts'|] == TagsAlong(tr, tags[|sts|])
  {
    var w := ws[|sts|];
    RunInv(ws, sts, |sts|);
    assert TokenInv(w, id) && PageInv(w, w.tokens[id].page);
    UnpinTurns(tr, w.tokens[id].page, isWrite);
    ws', sts', tags' := ExtendTagged(ws, sts, tags, ServerUnpin(id, isWrite));
  }

  /** Everything `process` relies on, in a run that serves contexts one at a time and refuses none: the object
      in that state is prepared for the context at rest, room for its line included. */
  lemma ReachableIsPrepared(cache: SharedSingleThreadCache, ws: seq<World>, sts: seq<Step>, tags: seq<set<nat>>, k: nat,
                            id: nat)
    requires TaggedRun(ws, sts, tags) && k < |ws| && (forall i | 0 <= i <= k :: Alone(ws[i]))
    requires forall i | 0 <= i < k :: Accepted(ws[i], sts[i])
    requires cache.Valid() && cache.State() == ws[k].core && cache.Tags() == tags[k]
    requires SmallPages(ws[k]) && ws[k].server == None && IsContext(ws[k], id)
    requires HasVictim(ws[k].core, ws[k].tokens[id].ctx)
    ensures cache.Prepared(ws[k].tokens[id].ctx)
  {
    var w := ws[k];
    RunInv(ws, sts, k);
    ReachableIsReady(w, id);
    assert TokenInv(w, id);
    LinesSuffice(ws, sts, tags, k, cache.pageTable.Value(), w.tokens[id].ctx.page);
  }
}
