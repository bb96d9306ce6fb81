/** The inductive invariant of CacheSystem, stated per page, per token, per frame and per pair. That every
    step keeps it is shown in CacheQuiet, CacheRefs, CacheNotes and CacheTurns. */
module CacheInvariant {
  import opened Basics
  import opened PageCache
  import opened CacheSystem

  /** The token accounts for one reference to page `p`. */
  predicate Holds(t: Token, p: Page) {
    match t
    case Held(q, _, _) => q == p
    case InFlight(c) => (c.phase.Evicting? || c.phase.Loading?) && c.page == p
  }

  /** The token's context holds the lock of page `p`. */
  predicate Locks(t: Token, p: Page) {
    t.InFlight? && ((Holds(t, p)) || (t.ctx.phase.Evicting? && t.ctx.victim == Some(p)))
  }

  function Holders(w: World, p: Page): set<nat> {
    set id | id in w.tokens && Holds(w.tokens[id], p)
  }

  ghost predicate NoWriter(w: World, p: Page) {
    forall id | id in w.tokens :: w.tokens[id].Held? && w.tokens[id].page == p ==> !w.tokens[id].wrote
  }

  function Existing(s: Core): set<Page> {
    set p | p in s.table && s.table[p].exist
  }

  function PinnedPages(s: Core): set<Page> {
    set p | p in s.table && s.table[p].refCount > 0
  }

  ghost predicate Globals(w: World) {
    var s := w.core;
    && s.capacity == |w.mem| < EMPTY_FRAME && s.curId <= s.capacity && s.recycled == []
    && s.pinned == |PinnedPages(s)| - |w.pinNotes| + |w.unpinNotes|
    && |Existing(s)| == s.curId
    && (forall f | f in s.loaded :: f < s.curId) && (forall f | f in s.owner :: f < s.curId)
    && (w.evictions > 0 ==> s.curId == s.capacity)
    && (w.server.Some? ==> IsContext(w, w.server.value))
  }

  ghost predicate PageShape(w: World, p: Page) {
    var e := At(w, p);
    && (!e.exist ==> !e.dirty && e.refCount == 0 && e.frame == EMPTY_FRAME)
    && (e.exist ==> e.frame < w.core.curId)
    && (e.exist && !e.busy ==> e.frame in w.core.loaded && e.frame in w.core.owner && w.core.owner[e.frame] == p)
    && e.refCount == |Holders(w, p)|
  }

  ghost predicate PageLock(w: World, p: Page) {
    At(w, p).busy ==> exists id :: id in w.tokens && Locks(w.tokens[id], p)
  }

  /** An unpinned resident page is in the replacement set or will be put there. */
  ghost predicate PageKept(w: World, p: Page) {
    var e := At(w, p);
    e.exist && !e.busy && e.refCount == 0 ==> e.frame in w.core.tracked || w.unpinNotes[p] > 0
  }

  ghost predicate PageData(w: World, p: Page) {
    var e := At(w, p);
    && (p !in w.logical ==> p !in w.sealed && NoWriter(w, p))
    && (p in w.logical ==>
          && (NoWriter(w, p) ==> p in w.sealed && w.sealed[p] == w.logical[p])
          && (!e.exist ==> w.core.curId == w.core.capacity)
          && (!e.busy ==>
                && (e.exist && e.frame < |w.mem| ==> w.mem[e.frame] == w.logical[p])
                && (!e.dirty && NoWriter(w, p) ==> DiskAt(w, p) == w.logical[p])))
  }

  ghost predicate PageInv(w: World, p: Page) {
    PageShape(w, p) && PageLock(w, p) && PageKept(w, p) && PageData(w, p)
  }

  ghost predicate EvictingInv(w: World, id: nat, c: Context) {
    && At(w, c.page) == Created(c.frame)
    && (c.page in w.logical ==> DiskAt(w, c.page) == w.logical[c.page])
    && (c.processing ==> c.victim.Some? && c.dirty)
    && (c.io.finish ==> c.io.processing)
    && (!c.processing ==> w.server == Some(id) && (c.victim.Some? && c.dirty ==> c.io.finish))
    && match c.victim
       case None =>
         c.page !in w.logical && c.frame !in w.core.loaded && w.evictions == 0
       case Some(v) =>
         && v != c.page && At(w, v) == DELETED
         && c.frame in w.core.owner && w.core.owner[c.frame] == v
         && c.frame in w.core.loaded && w.core.curId == w.core.capacity
         && (v in w.logical && c.frame < |w.mem| ==>
               && w.mem[c.frame] == w.logical[v]
               && (!c.dirty || c.io.finish ==> DiskAt(w, v) == w.logical[v]))
  }

  ghost predicate LoadingInv(w: World, id: nat, c: Context) {
    && At(w, c.page) == Created(c.frame)
    && c.frame in w.core.owner && w.core.owner[c.frame] == c.page && c.frame in w.core.loaded
    && (c.page in w.logical ==> DiskAt(w, c.page) == w.logical[c.page])
    && (c.io.finish ==> c.io.processing)
    && (!c.processing ==> w.server == Some(id))
    && (c.page in w.logical && c.frame < |w.mem| && (!c.processing || c.io.finish) ==>
          w.mem[c.frame] == w.logical[c.page])
  }

  ghost predicate TokenInv(w: World, id: nat) {
    id in w.tokens ==>
      match w.tokens[id]
      case Held(p, f, wrote) => At(w, p).exist && !At(w, p).busy && At(w, p).frame == f && (wrote ==> p in w.logical)
      case InFlight(c) =>
        && c.kind.Pin?
        && match c.phase
           case Begin => c.victim == None && c.io == NEW_IO
           case Initing =>
             && w.server == Some(id) && c.victim == None && c.io == NEW_IO && !At(w, c.page).busy
             && At(w, c.page).exist == c.seen.exist
           case Evicting => EvictingInv(w, id, c)
           case Loading => LoadingInv(w, id, c)
           case End => false
  }

  ghost predicate FrameInv(w: World, f: Frame) {
    f in w.core.tracked ==>
      f in w.core.owner && var e := At(w, w.core.owner[f]); e.exist && !e.busy && e.frame == f
  }

  /** Different resident pages have different frames. */
  ghost predicate Apart(w: World, p: Page, q: Page) {
    p != q && At(w, p).exist && At(w, q).exist ==> At(w, p).frame != At(w, q).frame
  }

  /** Two contexts never hold the same page's lock. */
  ghost predicate Exclusive(w: World, i: nat, j: nat) {
    i in w.tokens && j in w.tokens && i != j ==>
      forall p :: Locks(w.tokens[i], p) ==> !Locks(w.tokens[j], p)
  }

  ghost predicate Inv(w: World) {
    && Globals(w)
    && (forall p :: PageInv(w, p))
    && (forall id :: TokenInv(w, id))
    && (forall f :: FrameInv(w, f))
    && (forall p, q :: Apart(w, p, q))
    && (forall i, j :: Exclusive(w, i, j))
  }

  lemma InitInv(w: World)
    requires Init(w)
    ensures Inv(w)
  {
    assert PinnedPages(w.core) == {};
    assert Existing(w.core) == {};
    forall p ensures PageInv(w, p) { assert Holders(w, p) == {}; }
  }

  lemma OneMember(s: set<nat>, s': set<nat>, id: nat)
    requires forall x | x != id :: x in s <==> x in s'
    ensures |s'| == |s| - (if id in s then 1 else 0) + if id in s' then 1 else 0
  {
    var rest := s - {id};
    assert rest == s' - {id};
    assert |s| == |rest| + if id in s then 1 else 0;
    assert |s'| == |rest| + if id in s' then 1 else 0;
  }

  lemma HoldersSet(w: World, w': World, id: nat, t: Token, p: Page)
    requires w'.tokens == w.tokens[id := t]
    ensures |Holders(w', p)| == |Holders(w, p)| - (if id in Holders(w, p) then 1 else 0) + if Holds(t, p) then 1 else 0
  {
    OneMember(Holders(w, p), Holders(w', p), id);
  }

  lemma HoldersDrop(w: World, w': World, id: nat, p: Page)
    requires w'.tokens == w.tokens - {id}
    ensures |Holders(w', p)| == |Holders(w, p)| - if id in Holders(w, p) then 1 else 0
  {
    OneMember(Holders(w, p), Holders(w', p), id);
  }
}
