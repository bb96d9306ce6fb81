/** Contexts served one at a time: while none is refused, and only resident pages are unpinned, every line of
    the page table is in use, and so the overflow lines suffice, however the tags collide. */
module OneAtATime {
  import opened Basics
  import opened PageCache
  import opened CompactPageTable
  import opened SingleThreadCache

  /** The context will not end refused, or unpinning a page that is not there; either leaves a line behind
      that nothing uses. */
  predicate Unrefused(s: Core, c: Context) {
    c.phase.Begin? || c.phase.Initing? ==> Lookup(s.table, c.page).exist || (c.kind.Pin? && !FullPin(s))
  }

  /** What the table holds for the pages of a context. */
  predicate Placed(s: Core, c: Context) {
    match c.phase
    case Initing => Lookup(s.table, c.page).exist == c.seen.exist
    case Evicting => Lookup(s.table, c.page) == Created(c.frame) && c.victim != Some(c.page)
    case Loading => Lookup(s.table, c.page) == Created(c.frame)
    case _ => true
  }

  /** Every line is used, but for the one a context in phase Initing is about to use. */
  ghost predicate LinesUsed(table: Table, tags: set<nat>, c: Context) {
    forall tag | tag in tags :: Inhabited(table, tag) || (c.phase.Initing? && tag == TagOf(c.page))
  }

  lemma {:induction false} StillInhabited(table: Table, table': Table, tag: nat)
    requires Inhabited(table, tag) && forall p | p in table && TagOf(p) == tag :: p in table'
    ensures Inhabited(table', tag)
  {
    var p :| p in table && TagOf(p) == tag;
    assert p in table';
  }

  /** A turn that is not refused keeps every line used. */
  lemma TurnLines(s: Core, tags: set<nat>, c: Context, o: Outcome)
    requires Placed(s, c) && Iter(s, c, o) && Unrefused(s, c) && LinesUsed(s.table, tags, c)
    ensures LinesUsed(o.core.table, TurnTags(tags, c, o.core.table), o.ctx)
  {
    forall tag | tag in TurnTags(tags, c, o.core.table)
      ensures Inhabited(o.core.table, tag) || (o.ctx.phase.Initing? && tag == TagOf(o.ctx.page))
    {
      TurnLine(s, tags, c, o, tag);
    }
  }

  lemma TurnLine(s: Core, tags: set<nat>, c: Context, o: Outcome, tag: nat)
    requires Placed(s, c) && Iter(s, c, o) && Unrefused(s, c) && LinesUsed(s.table, tags, c)
    requires tag in TurnTags(tags, c, o.core.table)
    ensures Inhabited(o.core.table, tag) || (o.ctx.phase.Initing? && tag == TagOf(o.ctx.page))
  {
    if tag == TagOf(c.page) {
      if !o.ctx.phase.Initing? { assert c.page in o.core.table; }
    } else if c.phase.Evicting? && !c.processing && c.victim.Some? && tag == TagOf(c.victim.value) {
    } else {
      StillInhabited(s.table, o.core.table, tag);
    }
  }

  /** An entry while `c` is the only context in flight: locked only for the page it maps or evicts. */
  predicate EntryOk(s: Core, c: Context, p: Page) {
    p in s.table ==>
      if (c.phase.Evicting? || c.phase.Loading?) && p == c.page then s.table[p] == Created(c.frame)
      else if c.phase.Evicting? && c.victim == Some(p) then s.table[p] == DELETED
      else s.table[p].exist && !s.table[p].busy
  }

  ghost predicate FramesApart(s: Core, p: Page, q: Page) {
    p in s.table && q in s.table && s.table[p].exist && s.table[q].exist && p != q ==>
      s.table[p].frame != s.table[q].frame
  }

  /** The state while `c` is the only context in flight, the lines carrying `tags`. */
  ghost predicate Sole(s: Core, tags: set<nat>, c: Context) {
    && FramesOk(s) && LinesUsed(s.table, tags, c)
    && (forall p :: EntryOk(s, c, p))
    && (forall p, q :: FramesApart(s, p, q))
  }

  lemma SoleFree(s: Core, tags: set<nat>, c: Context)
    requires Sole(s, tags, c) && Ready(s, c) && c.phase.Initing? && !c.seen.exist && !Full(s)
    ensures var o := FreeTurn(s, c);
      FramesOk(o.core) && (forall p :: EntryOk(o.core, o.ctx, p)) && (forall p, q :: FramesApart(o.core, p, q))
  {
    var o := FreeTurn(s, c);
    NextFrameFree(s);
    forall p ensures EntryOk(o.core, o.ctx, p) { assert EntryOk(s, c, p); }
    forall p, q ensures FramesApart(o.core, p, q) { assert FramesApart(s, p, q); }
  }

  lemma SoleVictim(s: Core, tags: set<nat>, c: Context, rejected: set<Frame>, f: Frame)
    requires Sole(s, tags, c) && Ready(s, c) && c.phase.Initing? && !c.seen.exist && Selects(s, rejected, f)
    ensures var o := VictimTurn(s, c, rejected, f);
      FramesOk(o.core) && (forall p :: EntryOk(o.core, o.ctx, p)) && (forall p, q :: FramesApart(o.core, p, q))
  {
    var o := VictimTurn(s, c, rejected, f);
    assert EntryOk(s, c, c.page);
    forall p ensures EntryOk(o.core, o.ctx, p) { assert EntryOk(s, c, p); }
    forall p, q ensures FramesApart(o.core, p, q) {
      assert FramesApart(s, p, q) && FramesApart(s, s.owner[f], p) && FramesApart(s, s.owner[f], q);
    }
  }

  /** Turns that select no frame. */
  lemma SoleOther(s: Core, tags: set<nat>, c: Context, o: Outcome)
    requires Sole(s, tags, c) && Ready(s, c) && Iter(s, c, o) && Unrefused(s, c)
    requires !(c.phase.Initing? && o.ctx.phase.Evicting?)
    ensures FramesOk(o.core) && (forall p :: EntryOk(o.core, o.ctx, p)) && (forall p, q :: FramesApart(o.core, p, q))
  {
    assert EntryOk(s, c, c.page);
    forall p ensures EntryOk(o.core, o.ctx, p) { assert EntryOk(s, c, p); }
    forall p, q ensures FramesApart(o.core, p, q) { assert FramesApart(s, p, q); }
  }

  /** A turn of the only context in flight leaves it the only one, every line used. */
  lemma SoleTurn(s: Core, tags: set<nat>, c: Context, o: Outcome)
    requires Sole(s, tags, c) && Ready(s, c) && Iter(s, c, o) && Unrefused(s, c)
    ensures Sole(o.core, TurnTags(tags, c, o.core.table), o.ctx) && Unrefused(o.core, o.ctx)
  {
    TurnLines(s, tags, c, o);
    if c.phase.Initing? && o.ctx.phase.Evicting? {
      if !Full(s) {
        SoleFree(s, tags, c);
      } else {
        var rejected, f :| Selects(s, rejected, f) && o == VictimTurn(s, c, rejected, f);
        SoleVictim(s, tags, c, rejected, f);
      }
    } else {
      SoleOther(s, tags, c, o);
    }
  }

  lemma {:induction false} SoleAlong(tr: seq<Outcome>, tags: set<nat>, k: nat)
    requires Turns(tr) && k < |tr| && Ready(tr[0].core, tr[0].ctx)
    requires Sole(tr[0].core, tags, tr[0].ctx) && Unrefused(tr[0].core, tr[0].ctx)
    ensures Sole(tr[k].core, TagsAlong(tr[..k + 1], tags), tr[k].ctx) && Unrefused(tr[k].core, tr[k].ctx)
    ensures !tr[k].ctx.phase.End? ==> Ready(tr[k].core, tr[k].ctx)
  {
    if k > 0 {
      SoleAlong(tr, tags, k - 1);
      assert Follows(tr, k - 1);
      assert tr[..k + 1] == tr[..k] + [tr[k]];
      TagsNext(tr[..k], tr[k], tags);
      SoleTurn(tr[k - 1].core, TagsAlong(tr[..k], tags), tr[k - 1].ctx, tr[k]);
      ReadyNext(tr[k - 1].core, tr[k - 1].ctx, tr[k]);
    }
  }

  // ---------------------------------------------------------------- how many lines

  /** Before a context has begun, and after it has ended, the table is settled. */
  lemma SoleSettled(s: Core, c: Context, t: Shape)
    requires t.view == s.table && t.capacity == s.capacity && (c.phase.Begin? || c.phase.End?)
    ensures Sole(s, t.lineOf.Keys, c) ==> Settled(t)
    ensures Settled(t) && FramesOk(s) ==> Sole(s, t.lineOf.Keys, c)
  {
    if Sole(s, t.lineOf.Keys, c) {
      forall p | p in t.view ensures t.view[p].exist && !t.view[p].busy && t.view[p].frame < t.capacity {
        assert EntryOk(s, c, p);
      }
      forall p, q | p in t.view && q in t.view && p != q ensures t.view[p].frame != t.view[q].frame {
        assert EntryOk(s, c, p) && EntryOk(s, c, q) && FramesApart(s, p, q);
      }
    }
  }

  /** At most one tag more than frames has a line at any time, and no more than frames when no context is
      between its beginning and the start of its load. */
  lemma SoleTags(s: Core, tags: set<nat>, c: Context)
    requires Sole(s, tags, c)
    ensures |tags| <= s.capacity + 1
    ensures !c.phase.Initing? && !(c.phase.Evicting? && c.victim.Some?) ==> |tags| <= s.capacity
  {
    var own := if c.phase.Initing? then tags - {TagOf(c.page)} else tags;
    TagsBound(own, s.table);
    var view := if c.phase.Evicting? && c.victim.Some? then s.table - {c.victim.value} else s.table;
    assert view.Keys == if c.phase.Evicting? && c.victim.Some? then s.table.Keys - {c.victim.value} else s.table.Keys;
    forall p | p in view ensures view[p].exist && view[p].frame in Range(0, s.capacity) { assert EntryOk(s, c, p); }
    forall p, q | p in view && q in view && p != q ensures view[p].frame != view[q].frame {
      assert FramesApart(s, p, q);
    }
    FramesBound(view, Range(0, s.capacity));
  }

  // ---------------------------------------------------------------- from beginning to end

  /** A turn never sets a context back. */
  lemma RankFalls(s: Core, c: Context, o: Outcome)
    requires Iter(s, c, o) && Ready(s, c)
    ensures Rank(o.ctx) <= Rank(c)
    ensures c.phase.Begin? && !Lookup(s.table, c.page).busy ==> o.ctx.phase.Initing? && !o.stop
    ensures c.phase.Initing? ==> Rank(o.ctx) < Rank(c) && !o.ctx.phase.Initing?
    ensures (c.phase.Evicting? || c.phase.Loading?) && (c.io.processing ==> c.io.finish) ==>
      Rank(o.ctx) < Rank(c) || IoLeft(o.ctx.io) < IoLeft(c.io)
    ensures c.phase.Evicting? || c.phase.Loading? ==> o.ctx.phase.Evicting? || o.ctx.phase.Loading? || o.ctx.phase.End?
  {
  }

  /** How far a call of `process` takes the only context in flight, whose finished transfer has been flagged. */
  lemma CallProgress(tr: seq<Outcome>, tags: set<nat>)
    requires Turns(tr) && |tr| > 1 && Ready(tr[0].core, tr[0].ctx) && tr[|tr| - 1].stop
    requires Sole(tr[0].core, tags, tr[0].ctx) && Unrefused(tr[0].core, tr[0].ctx)
    requires tr[0].ctx.io.processing ==> tr[0].ctx.io.finish
    ensures var c, c' := tr[0].ctx, tr[|tr| - 1].ctx;
      && (c'.phase.Evicting? || c'.phase.Loading? || c'.phase.End?)
      && (Rank(c') < Rank(c) || (Rank(c') == Rank(c) && IoLeft(c'.io) < IoLeft(c.io)))
  {
    var n := |tr| - 1;
    var c := tr[0].ctx;
    SoleAlong(tr, tags, n - 1);
    RanksAlong(tr, tags, n - 1);
    assert Follows(tr, n - 1);
    var s, d := tr[n - 1].core, tr[n - 1].ctx;
    assert EntryOk(s, d, d.page);
    RankFalls(s, d, tr[n]);
  }

  lemma {:induction false} RanksAlong(tr: seq<Outcome>, tags: set<nat>, k: nat)
    requires Turns(tr) && k < |tr| && Ready(tr[0].core, tr[0].ctx)
    requires Sole(tr[0].core, tags, tr[0].ctx) && Unrefused(tr[0].core, tr[0].ctx)
    ensures k > 0 ==> Rank(tr[k].ctx) < Rank(tr[0].ctx) || tr[k].stop
    ensures k == 0 ==> tr[k].ctx == tr[0].ctx
  {
    if k > 0 {
      RanksAlong(tr, tags, k - 1);
      SoleAlong(tr, tags, k - 1);
      assert Follows(tr, k - 1);
      ReadyNext(tr[k - 1].core, tr[k - 1].ctx, tr[k]);
    }
  }

  // ---------------------------------------------------------------- what becomes of the pages

  /** Page `v` could be evicted for page `p`: it is another one, not pinned, and no frame is free. */
  predicate Expendable(s: Core, p: Page, v: Page) {
    && v != p && Full(s) && !Lookup(s.table, p).exist
    && Lookup(s.table, v).exist && !Lookup(s.table, v).busy && Lookup(s.table, v).refCount == 0
  }

  /** The entry of page `q` in state `s`, which the turns of context `c` have made of `s0`. */
  predicate CameEntry(s0: Core, s: Core, c: Context, q: Page) {
    var e0, e := Lookup(s0.table, q), Lookup(s.table, q);
    if q == c.page then
      match c.phase
      case Begin => e == e0
      case Initing => e == e0
      case Evicting => e0 == EMPTY_PTE && e == Created(c.frame)
      case Loading => e0 == EMPTY_PTE && e == Created(c.frame)
      case End =>
        && e.exist && !e.busy && (e0.exist ==> e.frame == e0.frame)
        && (c.kind.Pin? ==> e.refCount == e0.refCount + 1 && e.frame == c.frame && (e.dirty <==> e0.dirty))
        && (c.kind.Unpin? ==> e.refCount == e0.refCount - 1 && (e.dirty <==> e0.dirty || c.kind.isWrite))
    else if c.victim == Some(q) then
      && Expendable(s0, c.page, q) && e0.frame == c.frame && e == if c.phase.Evicting? then DELETED else EMPTY_PTE
    else e == e0
  }

  ghost predicate Came(s0: Core, s: Core, c: Context) {
    && (forall q :: CameEntry(s0, s, c, q)) && s.capacity == s0.capacity && c.victim != Some(c.page)
    && (c.kind.Unpin? ==> c.victim == None)
    && (c.phase.Begin? || c.phase.Initing? ==> c.victim == None && s == s0)
    && (c.phase.Evicting? || c.phase.Loading? ==>
          c.kind.Pin? && !Lookup(s0.table, c.page).exist && (c.victim == None ==> !Full(s0)))
    && (c.phase.End? && c.kind.Pin? && !Lookup(s0.table, c.page).exist && c.victim == None ==> !Full(s0))
  }

  lemma CameVictim(s0: Core, c: Context, rejected: set<Frame>, f: Frame)
    requires Came(s0, s0, c) && Ready(s0, c) && c.phase.Initing? && c.kind.Pin? && !c.seen.exist
    requires Full(s0) && Selects(s0, rejected, f) && c.page !in s0.table
    ensures var o := VictimTurn(s0, c, rejected, f); Came(s0, o.core, o.ctx)
  {
    var o := VictimTurn(s0, c, rejected, f);
    forall q ensures CameEntry(s0, o.core, o.ctx, q) { assert CameEntry(s0, s0, c, q); }
  }

  /** A turn that begins, hits, or takes a free frame. */
  lemma CameEarly(s: Core, tags: set<nat>, c: Context, o: Outcome)
    requires Came(s, s, c) && Sole(s, tags, c) && Ready(s, c) && Iter(s, c, o) && Unrefused(s, c)
    requires (c.phase.Begin? || c.phase.Initing?) && !(o.ctx.phase.Evicting? && Full(s))
    ensures Came(s, o.core, o.ctx)
  {
    assert EntryOk(s, c, c.page);
    forall q ensures CameEntry(s, o.core, o.ctx, q) { assert CameEntry(s, s, c, q); }
  }

  /** A turn of a page being brought in. */
  lemma CameLate(s0: Core, s: Core, c: Context, o: Outcome)
    requires Came(s0, s, c) && Iter(s, c, o) && (c.phase.Evicting? || c.phase.Loading?)
    ensures Came(s0, o.core, o.ctx)
  {
    assert CameEntry(s0, s, c, c.page);
    forall q ensures CameEntry(s0, o.core, o.ctx, q) { assert CameEntry(s0, s, c, q); }
  }

  lemma CameTurn(s0: Core, s: Core, tags: set<nat>, c: Context, o: Outcome)
    requires Came(s0, s, c) && Sole(s, tags, c) && Ready(s, c) && Iter(s, c, o) && Unrefused(s, c)
    ensures Came(s0, o.core, o.ctx) && o.ctx.kind == c.kind && o.ctx.page == c.page
  {
    if c.phase.Evicting? || c.phase.Loading? {
      CameLate(s0, s, c, o);
    } else if o.ctx.phase.Evicting? && Full(s) {
      var rejected, f :| Selects(s, rejected, f) && o == VictimTurn(s, c, rejected, f);
      assert EntryOk(s, c, c.page);
      CameVictim(s, c, rejected, f);
    } else {
      CameEarly(s, tags, c, o);
    }
  }

  lemma {:induction false} CameAlong(s0: Core, tr: seq<Outcome>, tags: set<nat>, k: nat)
    requires Turns(tr) && k < |tr| && Ready(tr[0].core, tr[0].ctx) && Came(s0, tr[0].core, tr[0].ctx)
    requires Sole(tr[0].core, tags, tr[0].ctx) && Unrefused(tr[0].core, tr[0].ctx)
    ensures Came(s0, tr[k].core, tr[k].ctx) && tr[k].ctx.kind == tr[0].ctx.kind && tr[k].ctx.page == tr[0].ctx.page
  {
    if k > 0 {
      CameAlong(s0, tr, tags, k - 1);
      SoleAlong(tr, tags, k - 1);
      assert Follows(tr, k - 1);
      CameTurn(s0, tr[k - 1].core, TagsAlong(tr[..k], tags), tr[k - 1].ctx, tr[k]);
    }
  }

  /** What a pin of page `p` has made of the pages: it is resident, unlocked and has one pin more, in frame `f`, its
      own if it had one; every other page is as before, but for one that was not pinned, in frame `f`, which is gone
      if `p` was not resident and no frame was free. */
  ghost predicate PinnedIn(s: Core, s': Core, p: Page, f: Frame) {
    var e, e' := Lookup(s.table, p), Lookup(s'.table, p);
    && e'.exist && !e'.busy && e'.frame == f < s.capacity && e'.refCount == e.refCount + 1 && e'.dirty == e.dirty
    && (e.exist ==> e.frame == f)
    && if e.exist || !Full(s) then forall q | q != p :: Lookup(s'.table, q) == Lookup(s.table, q)
       else exists v :: Evicted(s, s', p, v) && Lookup(s.table, v).frame == f
  }

  /** Page `v` is gone, for page `p`. */
  ghost predicate Evicted(s: Core, s': Core, p: Page, v: Page) {
    && Expendable(s, p, v) && v !in s'.table
    && forall q | q != p && q != v :: Lookup(s'.table, q) == Lookup(s.table, q)
  }

  /** What an unpin has made of them: the page has one pin less, and is dirty if it was or the caller says so. */
  ghost predicate UnpinnedIn(s: Core, s': Core, p: Page, isWrite: bool) {
    var e, e' := Lookup(s.table, p), Lookup(s'.table, p);
    && e'.exist && !e'.busy && e'.frame == e.frame && e'.refCount == e.refCount - 1
    && (e'.dirty <==> e.dirty || isWrite) && forall q | q != p :: Lookup(s'.table, q) == Lookup(s.table, q)
  }

  lemma CameToEnd(s0: Core, s: Core, tags: set<nat>, c: Context)
    requires Came(s0, s, c) && c.phase.End? && Sole(s, tags, c)
    requires c.kind.Unpin? ==> Lookup(s0.table, c.page).exist
    ensures c.kind.Pin? ==> PinnedIn(s0, s, c.page, c.frame)
    ensures c.kind.Unpin? ==> UnpinnedIn(s0, s, c.page, c.kind.isWrite)
  {
    assert CameEntry(s0, s, c, c.page) && EntryOk(s, c, c.page);
    forall q | q != c.page && c.victim != Some(q) ensures Lookup(s.table, q) == Lookup(s0.table, q) {
      assert CameEntry(s0, s, c, q);
    }
    if c.victim.Some? && c.victim.value != c.page {
      var v := c.victim.value;
      assert CameEntry(s0, s, c, v) && EntryOk(s, c, v);
      assert Evicted(s0, s, c.page, v) || c.kind.Unpin?;
    }
  }

  /** `c` is the only context in flight and what the device was handed for it is done. */
  ghost predicate InFlight(cache: SharedSingleThreadCache, c: Context)
    reads cache, cache.pageTable, cache.pageTable.store, cache.replacement, cache.replacement.states, cache.states,
      cache.firstLoaded
  {
    && cache.Valid() && Sole(cache.State(), cache.Tags(), c) && Unrefused(cache.State(), c)
    && (!c.phase.End? ==> cache.Prepared(c)) && (c.io.processing ==> c.io.finish)
  }

  function Flagged(c: Context): Context { if c.io.processing then c.(io := c.io.(finish := true)) else c }

  /** What a call leaves once the device has done its part. */
  lemma CallLeaves(tr: seq<Outcome>, tags: set<nat>)
    requires Turns(tr) && |tr| > 1 && Ready(tr[0].core, tr[0].ctx) && tr[|tr| - 1].stop
    requires Sole(tr[0].core, tags, tr[0].ctx) && Unrefused(tr[0].core, tr[0].ctx)
    requires tr[0].ctx.io.processing ==> tr[0].ctx.io.finish
    ensures var s, c, c' := tr[|tr| - 1].core, tr[0].ctx, Flagged(tr[|tr| - 1].ctx);
      && Sole(s, TagsAlong(tr, tags), c') && Unrefused(s, c')
      && (!c'.phase.End? ==> Ready(s, c') && !c'.phase.Begin? && !c'.phase.Initing?)
      && (Rank(c') < Rank(c) || (Rank(c') == Rank(c) && IoLeft(c'.io) < IoLeft(c.io)))
  {
    SoleAlong(tr, tags, |tr| - 1);
    assert tr[..|tr|] == tr;
    CallProgress(tr, tags);
    var s, c := tr[|tr| - 1].core, tr[|tr| - 1].ctx;
    forall p ensures EntryOk(s, Flagged(c), p) { assert EntryOk(s, c, p); }
  }

  lemma CallCame(s0: Core, tr: seq<Outcome>, tags: set<nat>)
    requires Turns(tr) && Ready(tr[0].core, tr[0].ctx) && Came(s0, tr[0].core, tr[0].ctx)
    requires Sole(tr[0].core, tags, tr[0].ctx) && Unrefused(tr[0].core, tr[0].ctx)
    ensures var s, c, c' := tr[|tr| - 1].core, tr[0].ctx, Flagged(tr[|tr| - 1].ctx);
      Came(s0, s, c') && c'.kind == c.kind && c'.page == c.page
  {
    CameAlong(s0, tr, tags, |tr| - 1);
    var s, c := tr[|tr| - 1].core, tr[|tr| - 1].ctx;
    forall q ensures CameEntry(s0, s, Flagged(c), q) { assert CameEntry(s0, s, c, q); }
  }

  /** One call of `process`, and the device's part; `s0` is the state when the context was made. */
  method Advance(cache: SharedSingleThreadCache, c: Context, ghost s0: Core) returns (c': Context)
    requires InFlight(cache, c) && !c.phase.End? && Came(s0, cache.State(), c)
    modifies cache, cache.pageTable, cache.pageTable.store, cache.replacement, cache.replacement.states, cache.states,
      cache.firstLoaded
    ensures InFlight(cache, c') && (Rank(c') < Rank(c) || (Rank(c') == Rank(c) && IoLeft(c'.io) < IoLeft(c.io)))
    ensures Came(s0, cache.State(), c') && c'.kind == c.kind && c'.page == c.page
  {
    ghost var tags := cache.Tags();
    ghost var tr, ms;
    c', tr, ms := cache.Process(c);
    CallLeaves(tr, tags);
    CallCame(s0, tr, tags);
    c' := Flagged(c');
  }

  /** A pin or unpin driven to its end with no other in flight, the device completing whatever it is handed: a pin ends
      with its page resident and pinned once more in the frame it reports, an unpin with one pin less, and the other
      pages as they were but for the one evicted; from a settled table to a settled table, which never lacks a line on
      the way. */
  method Drive(cache: SharedSingleThreadCache, kind: Kind, p: Page) returns (c: Context)
    requires cache.Valid() && FramesOk(cache.State()) && Settled(cache.pageTable.Value())
    requires Ready(cache.State(), NewContext(kind, p)) && Unrefused(cache.State(), NewContext(kind, p))
    requires HasVictim(cache.State(), NewContext(kind, p))
    modifies cache, cache.pageTable, cache.pageTable.store, cache.replacement, cache.replacement.states, cache.states,
      cache.firstLoaded
    ensures cache.Valid() && FramesOk(cache.State()) && Settled(cache.pageTable.Value())
    ensures c.phase.End? && |cache.Tags()| <= cache.capacity
    ensures kind.Pin? ==> PinnedIn(old(cache.State()), cache.State(), p, c.frame)
    ensures kind.Unpin? ==> UnpinnedIn(old(cache.State()), cache.State(), p, kind.isWrite)
  {
    c := NewContext(kind, p);
    ghost var s0 := cache.State();
    SoleSettled(cache.State(), c, cache.pageTable.Value());
    RoomWhenSettled(cache.pageTable.Value(), TagOf(p));
    forall q ensures CameEntry(s0, s0, c, q) {}
    while !c.phase.End?
      invariant InFlight(cache, c) && Came(s0, cache.State(), c) && c.kind == kind && c.page == p
      decreases Rank(c), IoLeft(c.io)
    {
      c := Advance(cache, c, s0);
    }
    SoleSettled(cache.State(), c, cache.pageTable.Value());
    SoleTags(cache.State(), cache.Tags(), c);
    CameToEnd(s0, cache.State(), cache.Tags(), c);
  }
}
