/**
 * The private cache of one thread: one single-thread cache per partition, whose load callback takes a
 * shared pin and whose evict callback gives it back. Both finish at once, so a whole pin is one step.
 *
 * `log` records what the thread does at the shared cache, and its writes; its three readings say what is
 * promised: how many shared pins the thread holds of a page, whether it has written the page since it
 * last gave one back, and whether every shared pin of a written page was given back as dirty.
 */
module PrivateCaches {
  import opened Basics
  import opened PageCache
  import opened Partitioner

  datatype Event = Acquire(page: Page) | Release(page: Page, dirty: bool) | Write(page: Page)

  function Held(log: seq<Event>, p: Page): int {
    if log == [] then 0 else
      var e := log[|log| - 1];
      Held(log[..|log| - 1], p) + if e == Acquire(p) then 1 else if e.Release? && e.page == p then -1 else 0
  }

  predicate Wrote(log: seq<Event>, p: Page) {
    log != [] &&
    var e := log[|log| - 1];
    e == Write(p) || (Wrote(log[..|log| - 1], p) && !(e.Release? && e.page == p))
  }

  predicate Faithful(log: seq<Event>) {
    log == [] ||
    var e := log[|log| - 1];
    Faithful(log[..|log| - 1]) && (e.Release? && Wrote(log[..|log| - 1], e.page) ==> e.dirty)
  }

  /** No page is acquired while it is held. */
  predicate Modest(log: seq<Event>) {
    log == [] ||
    var e := log[|log| - 1];
    Modest(log[..|log| - 1]) && (e.Acquire? ==> Held(log[..|log| - 1], e.page) == 0)
  }

  lemma Extended(log: seq<Event>, e: Event, p: Page)
    ensures Held(log + [e], p) ==
      Held(log, p) + if e == Acquire(p) then 1 else if e.Release? && e.page == p then -1 else 0
    ensures Wrote(log + [e], p) <==> e == Write(p) || (Wrote(log, p) && !(e.Release? && e.page == p))
    ensures Faithful(log + [e]) <==> Faithful(log) && (e.Release? && Wrote(log, e.page) ==> e.dirty)
    ensures Modest(log + [e]) <==> Modest(log) && (e.Acquire? ==> Held(log, e.page) == 0)
  {
    assert (log + [e])[..|log|] == log;
  }

  /** A modest history never holds a page twice. */
  lemma {:induction false} HeldOnce(log: seq<Event>, p: Page)
    requires Modest(log)
    ensures Held(log, p) <= 1
  {
    if log != [] { HeldOnce(log[..|log| - 1], p); }
  }

  lemma {:induction false} PrefixGood(log: seq<Event>, n: nat)
    requires n <= |log|
    ensures Modest(log) ==> Modest(log[..n])
    ensures Faithful(log) ==> Faithful(log[..n])
  {
    if n == |log| {
      assert log[..n] == log;
    } else {
      PrefixGood(log[..|log| - 1], n);
      assert log[..|log| - 1][..n] == log[..n];
    }
  }

  /** What faithfulness means: a page written and then released for the first time is released as dirty. */
  lemma {:induction false} WritesReachShared(log: seq<Event>, p: Page, i: nat, j: nat)
    requires Faithful(log) && i < j < |log| && log[i] == Write(p) && log[j].Release? && log[j].page == p
    requires forall k | i < k < j :: !(log[k].Release? && log[k].page == p)
    ensures log[j].dirty
  {
    var front := log[..|log| - 1];
    if j < |log| - 1 {
      WritesReachShared(front, p, i, j);
    } else {
      StillWritten(front, p, i);
    }
  }

  lemma {:induction false} StillWritten(log: seq<Event>, p: Page, i: nat)
    requires i < |log| && log[i] == Write(p)
    requires forall k | i < k < |log| :: !(log[k].Release? && log[k].page == p)
    ensures Wrote(log, p)
  {
    if i < |log| - 1 { StillWritten(log[..|log| - 1], p, i); }
  }

  // ---------------------------------------------------------------- one partition

  /** A single-thread cache between calls: nothing locked, every frame handed out holds one resident page,
      the replacement set is the frames of the unpinned ones, and the pin counter counts the others. */
  ghost predicate Sound(c: Core, frames: nat) {
    && c.capacity == frames && c.recycled == [] && c.curId <= frames
    && c.pinned == c.curId - |c.tracked|
    && (forall b | b in c.table :: PageSound(c, b))
    && (forall f | f in c.owner :: FrameSound(c, f))
    && (forall f | 0 <= f < c.curId :: f in c.owner)
    && (forall f | f in c.tracked :: f in c.owner)
  }

  predicate PageSound(c: Core, b: Page) {
    b in c.table ==>
      var e := c.table[b];
      e.exist && !e.busy && e.frame in c.owner && c.owner[e.frame] == b && (e.refCount == 0 <==> e.frame in c.tracked)
  }

  predicate FrameSound(c: Core, f: Frame) {
    f in c.owner ==> f < c.curId && c.owner[f] in c.table && c.table[c.owner[f]].frame == f
  }

  /** The rest of a missed pin, once the page is mapped: claim the frame, load at once, release the lock. */
  function Claimed(c: Core, b: Page, f: Frame, victim: Option<Page>): Core {
    var ctx := NewContext(Pin, b).(frame := f, victim := victim);
    LoadDone(EvictDone(c, ctx).core, ctx).core
  }

  function PinFree(c: Core, b: Page): Core { Claimed(MapFree(c, b), b, NextFrame(c), None) }

  function PinEvicting(c: Core, b: Page, f: Frame): Core
    requires f in c.owner
  {
    Claimed(MapEvicting(c, b, {}, f), b, f, Some(c.owner[f]))
  }

  function NewPage(f: Frame): Pte { Pte(true, false, false, 1, f) }

  lemma HitSound(c: Core, frames: nat, b: Page)
    requires Sound(c, frames) && b in c.table
    ensures Sound(PinResident(c, b), frames)
    ensures PinResident(c, b).table == c.table[b := IncRef(c.table[b])]
    ensures PinResident(c, b).pinned == c.pinned + if c.table[b].refCount == 0 then 1 else 0
  {
    var c' := PinResident(c, b);
    assert PageSound(c, b);
    forall x | x in c'.table ensures PageSound(c', x) { assert PageSound(c, x); }
    forall f | f in c'.owner ensures FrameSound(c', f) { assert FrameSound(c, f); }
  }

  lemma FreeSound(c: Core, frames: nat, b: Page)
    requires Sound(c, frames) && b !in c.table && !Full(c)
    ensures Sound(PinFree(c, b), frames)
    ensures PinFree(c, b).table == c.table[b := NewPage(c.curId)] && PinFree(c, b).pinned == c.pinned + 1
  {
    var c' := PinFree(c, b);
    assert c'.table == c.table[b := NewPage(c.curId)];
    forall x | x in c'.table ensures PageSound(c', x) {
      if x != b { assert PageSound(c, x) && FrameSound(c, c.table[x].frame); }
    }
    forall f | f in c'.owner ensures FrameSound(c', f) { if f != c.curId { assert FrameSound(c, f); } }
    assert c.curId !in c.owner;
  }

  lemma EvictSound(c: Core, frames: nat, b: Page, f: Frame)
    requires Sound(c, frames) && b !in c.table && f in c.tracked && f in c.owner
    ensures Sound(PinEvicting(c, b, f), frames)
    ensures PinEvicting(c, b, f).table == (c.table - {c.owner[f]})[b := NewPage(f)]
    ensures PinEvicting(c, b, f).pinned == c.pinned + 1
  {
    var c' := PinEvicting(c, b, f);
    var v := c.owner[f];
    assert FrameSound(c, f) && PageSound(c, v);
    assert c'.table == (c.table - {v})[b := NewPage(f)];
    forall x | x in c'.table ensures PageSound(c', x) {
      if x != b { assert PageSound(c, x); }
    }
    forall g | g in c'.owner ensures FrameSound(c', g) {
      if g != f { assert FrameSound(c, g) && PageSound(c, c.owner[g]); }
    }
  }

  lemma UnpinSound(c: Core, frames: nat, b: Page, isWrite: bool)
    requires Sound(c, frames) && b in c.table && c.table[b].refCount > 0
    ensures Sound(UnpinResident(c, b, isWrite), frames)
    ensures UnpinResident(c, b, isWrite).table == c.table[b := DecRef(c.table[b], isWrite)]
    ensures UnpinResident(c, b, isWrite).pinned == c.pinned - if c.table[b].refCount == 1 then 1 else 0
  {
    var c' := UnpinResident(c, b, isWrite);
    assert PageSound(c, b);
    forall x | x in c'.table ensures PageSound(c', x) { assert PageSound(c, x); }
    forall f | f in c'.owner ensures FrameSound(c', f) { assert FrameSound(c, f); }
  }

  /** While some frame is unpinned a full cache has a victim, and the first one popped will do. */
  lemma VictimAtHand(c: Core, frames: nat)
    requires Sound(c, frames) && Full(c) && !FullPin(c)
    ensures c.tracked != {}
    ensures forall f | f in c.tracked :: f in c.owner && Selects(c, {}, f)
  {
    forall f | f in c.tracked ensures f in c.owner && Selects(c, {}, f) {
      assert FrameSound(c, f) && PageSound(c, c.owner[f]);
    }
  }

  // ---------------------------------------------------------------- all partitions

  /** `frames` per partition; `owed` are the pages written through a pin that has yet to be given back as dirty. */
  datatype Priv = Priv(parts: nat, frames: nat, pages: nat, caches: seq<Core>, log: seq<Event>, owed: set<Page>)

  predicate Wf(v: Priv) { v.parts > 0 && |v.caches| == v.parts }

  function Cache(v: Priv, p: Page): Core
    requires Wf(v)
  {
    v.caches[Locate(v.parts, p).part]
  }

  function Entry(v: Priv, p: Page): Pte
    requires Wf(v)
  {
    Lookup(Cache(v, p).table, Locate(v.parts, p).block)
  }

  /** One shared pin per resident page, none otherwise; and no write forgotten. */
  predicate PageOk(v: Priv, p: Page)
    requires Wf(v)
  {
    var e := Entry(v, p);
    && Held(v.log, p) == (if e.exist then 1 else 0)
    && (e.exist ==> p < v.pages)
    && (Wrote(v.log, p) ==> e.exist && (e.dirty || p in v.owed))
    && (p in v.owed ==> e.refCount > 0)
  }

  ghost predicate Ok(v: Priv) {
    && Wf(v) && Faithful(v.log) && Modest(v.log)
    && (forall k | 0 <= k < v.parts :: Sound(v.caches[k], v.frames))
    && forall p: Page :: PageOk(v, p)
  }

  function With(v: Priv, p: Page, c: Core): Priv
    requires Wf(v)
  {
    v.(caches := v.caches[Locate(v.parts, p).part := c])
  }

  function PinnedHit(v: Priv, p: Page): Priv
    requires Wf(v)
  {
    With(v, p, PinResident(Cache(v, p), Locate(v.parts, p).block))
  }

  function PinnedFree(v: Priv, p: Page): Priv
    requires Wf(v)
  {
    With(v, p, PinFree(Cache(v, p), Locate(v.parts, p).block)).(log := v.log + [Acquire(p)])
  }

  /** The page that frame `f` of `p`'s partition holds. */
  function Victim(v: Priv, p: Page, f: Frame): Page
    requires Wf(v) && f in Cache(v, p).owner
  {
    Globalize(v.parts, Loc(Locate(v.parts, p).part, Cache(v, p).owner[f]))
  }

  function PinnedEvicting(v: Priv, p: Page, f: Frame): Priv
    requires Wf(v) && f in Cache(v, p).owner
  {
    var u := Victim(v, p, f);
    var v' := With(v, p, PinEvicting(Cache(v, p), Locate(v.parts, p).block, f));
    v'.(log := v.log + [Release(u, Entry(v, u).dirty)] + [Acquire(p)])
  }

  function Unpinned(v: Priv, p: Page, isWrite: bool, still: bool): Priv
    requires Wf(v) && Entry(v, p).refCount > 0
  {
    var v' := With(v, p, UnpinResident(Cache(v, p), Locate(v.parts, p).block, isWrite));
    v'.(owed := if still then v.owed else v.owed - {p})
  }

  function Written(v: Priv, p: Page): Priv { v.(log := v.log + [Write(p)], owed := v.owed + {p}) }

  /** Entries of other pages do not notice a change to one entry. */
  lemma OtherEntries(v: Priv, p: Page, c: Core, q: Page)
    requires Wf(v)
    ensures Wf(With(v, p, c))
    ensures Entry(With(v, p, c), p) == Lookup(c.table, Locate(v.parts, p).block)
    ensures Locate(v.parts, q).part == Locate(v.parts, p).part ==>
      Entry(With(v, p, c), q) == Lookup(c.table, Locate(v.parts, q).block)
    ensures Locate(v.parts, q).part != Locate(v.parts, p).part ==> Entry(With(v, p, c), q) == Entry(v, q)
    ensures q != p ==> Locate(v.parts, q) != Locate(v.parts, p)
  {
    RoundTrip(v.parts, p, Loc(0, 0));
    RoundTrip(v.parts, q, Loc(0, 0));
  }

  lemma Resident(v: Priv, p: Page)
    requires Ok(v)
    ensures Entry(v, p).exist <==> Locate(v.parts, p).block in Cache(v, p).table
    ensures Entry(v, p).refCount > 0 ==> Entry(v, p).exist
    ensures Sound(Cache(v, p), v.frames)
  {
    if Locate(v.parts, p).block in Cache(v, p).table { assert PageSound(Cache(v, p), Locate(v.parts, p).block); }
  }

  /** What a pin does to the reference counts. */
  ghost predicate CountsUp(v: Priv, v': Priv, p: Page)
    requires Wf(v) && Wf(v')
  {
    forall q: Page :: Entry(v', q).refCount == Entry(v, q).refCount + if q == p then 1 else 0
  }

  lemma PinnedHitOk(v: Priv, p: Page)
    requires Ok(v) && Entry(v, p).exist
    ensures Ok(PinnedHit(v, p)) && CountsUp(v, PinnedHit(v, p), p)
  {
    Resident(v, p);
    var c := PinResident(Cache(v, p), Locate(v.parts, p).block);
    HitSound(Cache(v, p), v.frames, Locate(v.parts, p).block);
    forall q: Page
      ensures PageOk(PinnedHit(v, p), q) &&
        Entry(PinnedHit(v, p), q).refCount == Entry(v, q).refCount + if q == p then 1 else 0
    {
      OtherEntries(v, p, c, q);
      assert PageOk(v, q);
    }
  }

  lemma PinnedFreeOk(v: Priv, p: Page)
    requires Ok(v) && !Entry(v, p).exist && p < v.pages && !Full(Cache(v, p))
    ensures Ok(PinnedFree(v, p)) && CountsUp(v, PinnedFree(v, p), p)
  {
    Resident(v, p);
    var c, v' := PinFree(Cache(v, p), Locate(v.parts, p).block), PinnedFree(v, p);
    FreeSound(Cache(v, p), v.frames, Locate(v.parts, p).block);
    Extended(v.log, Acquire(p), p);
    forall q: Page ensures PageOk(v', q) && Entry(v', q).refCount == Entry(v, q).refCount + if q == p then 1 else 0 {
      OtherEntries(v, p, c, q);
      Extended(v.log, Acquire(p), q);
      assert PageOk(v, q);
    }
  }

  /** The victim is resident, unpinned and another page. */
  lemma VictimFacts(v: Priv, p: Page, f: Frame)
    requires Ok(v) && !Entry(v, p).exist && f in Cache(v, p).tracked && f in Cache(v, p).owner
    ensures var u := Victim(v, p, f);
      && u != p && Locate(v.parts, u) == Loc(Locate(v.parts, p).part, Cache(v, p).owner[f])
      && Entry(v, u).exist && Entry(v, u).refCount == 0
  {
    var c := Cache(v, p);
    RoundTrip(v.parts, p, Loc(Locate(v.parts, p).part, c.owner[f]));
    Resident(v, p);
    assert FrameSound(c, f) && PageSound(c, c.owner[f]);
  }

  lemma EvictEntry(v: Priv, p: Page, f: Frame, q: Page)
    requires Ok(v) && !Entry(v, p).exist && f in Cache(v, p).tracked && f in Cache(v, p).owner
    ensures Wf(PinnedEvicting(v, p, f))
    ensures Entry(PinnedEvicting(v, p, f), q) ==
      if q == p then NewPage(f) else if q == Victim(v, p, f) then EMPTY_PTE else Entry(v, q)
  {
    VictimFacts(v, p, f);
    Resident(v, p);
    EvictSound(Cache(v, p), v.frames, Locate(v.parts, p).block, f);
    OtherEntries(v, p, PinEvicting(Cache(v, p), Locate(v.parts, p).block, f), q);
    OtherEntries(v, Victim(v, p, f), Cache(v, p), q);
  }

  lemma EvictPage(v: Priv, p: Page, f: Frame, q: Page)
    requires Ok(v) && !Entry(v, p).exist && p < v.pages && f in Cache(v, p).tracked && f in Cache(v, p).owner
    ensures var v' := PinnedEvicting(v, p, f);
      Wf(v') && PageOk(v', q) && Entry(v', q).refCount == Entry(v, q).refCount + if q == p then 1 else 0
  {
    var u := Victim(v, p, f);
    VictimFacts(v, p, f);
    EvictEntry(v, p, f, q);
    var log := v.log + [Release(u, Entry(v, u).dirty)];
    Extended(v.log, Release(u, Entry(v, u).dirty), q);
    Extended(log, Acquire(p), q);
    assert PageOk(v, q);
    Resident(v, p);
  }

  lemma PinnedEvictingOk(v: Priv, p: Page, f: Frame)
    requires Ok(v) && !Entry(v, p).exist && p < v.pages && f in Cache(v, p).tracked && f in Cache(v, p).owner
    ensures Ok(PinnedEvicting(v, p, f)) && CountsUp(v, PinnedEvicting(v, p, f), p)
  {
    var u, v' := Victim(v, p, f), PinnedEvicting(v, p, f);
    VictimFacts(v, p, f);
    Resident(v, p);
    EvictSound(Cache(v, p), v.frames, Locate(v.parts, p).block, f);
    assert PageOk(v, u);
    Extended(v.log, Release(u, Entry(v, u).dirty), u);
    Extended(v.log + [Release(u, Entry(v, u).dirty)], Acquire(p), p);
    forall q: Page ensures PageOk(v', q) && Entry(v', q).refCount == Entry(v, q).refCount + if q == p then 1 else 0 {
      EvictPage(v, p, f, q);
    }
  }

  /** What giving a pin back does to the reference counts. */
  ghost predicate CountsDown(v: Priv, v': Priv, p: Page)
    requires Wf(v) && Wf(v')
  {
    forall q: Page :: Entry(v', q).refCount == Entry(v, q).refCount - if q == p then 1 else 0
  }

  /** `still` says the page is owed on account of another pin. */
  lemma UnpinnedOk(v: Priv, p: Page, isWrite: bool, still: bool)
    requires Ok(v) && Entry(v, p).refCount > 0
    requires p in v.owed && !still ==> isWrite
    requires still ==> Entry(v, p).refCount > 1
    ensures Ok(Unpinned(v, p, isWrite, still)) && CountsDown(v, Unpinned(v, p, isWrite, still), p)
  {
    Resident(v, p);
    var c, v' := UnpinResident(Cache(v, p), Locate(v.parts, p).block, isWrite), Unpinned(v, p, isWrite, still);
    UnpinSound(Cache(v, p), v.frames, Locate(v.parts, p).block, isWrite);
    forall q: Page ensures PageOk(v', q) && Entry(v', q).refCount == Entry(v, q).refCount - if q == p then 1 else 0 {
      OtherEntries(v, p, c, q);
      assert PageOk(v, q);
    }
  }

  lemma WrittenOk(v: Priv, p: Page)
    requires Ok(v) && Entry(v, p).refCount > 0
    ensures Ok(Written(v, p))
  {
    Resident(v, p);
    Extended(v.log, Write(p), p);
    forall q: Page ensures PageOk(Written(v, p), q) {
      Extended(v.log, Write(p), q);
      assert PageOk(v, q);
    }
  }

  /** A pin that succeeds is a hit, takes a free frame, or evicts one unpinned page; nothing else changes. */
  ghost predicate PinStep(v: Priv, v': Priv, p: Page)
    requires Wf(v)
  {
    if Entry(v, p).exist then v' == PinnedHit(v, p)
    else if !Full(Cache(v, p)) then v' == PinnedFree(v, p)
    else exists f :: f in Cache(v, p).tracked && f in Cache(v, p).owner && v' == PinnedEvicting(v, p, f)
  }

  /** The same in terms of the entries and the shared cache: a page that was resident counts one pin more; one that
      was not is acquired, mapped clean with one pin to a frame of its partition, and if that had none to spare
      an unpinned page of the partition has been given back first, as dirty exactly when it was. */
  ghost predicate Brought(v: Priv, v': Priv, p: Page)
    requires Wf(v) && Wf(v')
  {
    if Entry(v, p).exist then
      && v'.log == v.log && Entry(v', p) == Entry(v, p).(refCount := Entry(v, p).refCount + 1)
      && forall q: Page | q != p :: Entry(v', q) == Entry(v, q)
    else
      && Entry(v', p) == Pte(true, false, false, 1, Entry(v', p).frame) && Entry(v', p).frame < v.frames
      && if Full(Cache(v, p)) then exists u: Page :: Displaced(v, v', p, u)
         else v'.log == v.log + [Acquire(p)] && forall q: Page | q != p :: Entry(v', q) == Entry(v, q)
  }

  ghost predicate Displaced(v: Priv, v': Priv, p: Page, u: Page)
    requires Wf(v) && Wf(v')
  {
    && u != p && Locate(v.parts, u).part == Locate(v.parts, p).part
    && Entry(v, u).exist && Entry(v, u).refCount == 0 && Entry(v, u).frame == Entry(v', p).frame
    && v'.log == v.log + [Release(u, Entry(v, u).dirty), Acquire(p)]
    && Entry(v', u) == EMPTY_PTE && forall q: Page | q != p && q != u :: Entry(v', q) == Entry(v, q)
  }

  lemma EvictingBrings(v: Priv, p: Page, f: Frame)
    requires Ok(v) && !Entry(v, p).exist && f in Cache(v, p).tracked && f in Cache(v, p).owner
    ensures var v' := PinnedEvicting(v, p, f);
      Wf(v') && Entry(v', p) == NewPage(f) && f < v.frames && Displaced(v, v', p, Victim(v, p, f))
  {
    var u, v' := Victim(v, p, f), PinnedEvicting(v, p, f);
    VictimFacts(v, p, f);
    Resident(v, p);
    assert FrameSound(Cache(v, p), f);
    forall q: Page ensures Entry(v', q) == if q == p then NewPage(f) else if q == u then EMPTY_PTE else Entry(v, q) {
      EvictEntry(v, p, f, q);
    }
    var e := Release(u, Entry(v, u).dirty);
    assert v.log + [e] + [Acquire(p)] == v.log + [e, Acquire(p)];
  }

  lemma PinBrings(v: Priv, v': Priv, p: Page)
    requires Ok(v) && Wf(v') && PinStep(v, v', p)
    ensures Brought(v, v', p)
  {
    Resident(v, p);
    var c, b := Cache(v, p), Locate(v.parts, p).block;
    if Entry(v, p).exist {
      HitSound(c, v.frames, b);
      forall q: Page ensures Entry(v', q) == if q == p then IncRef(Entry(v, p)) else Entry(v, q) {
        OtherEntries(v, p, PinResident(c, b), q);
      }
    } else if !Full(c) {
      FreeSound(c, v.frames, b);
      forall q: Page ensures Entry(v', q) == if q == p then NewPage(c.curId) else Entry(v, q) {
        OtherEntries(v, p, PinFree(c, b), q);
      }
    } else {
      var f :| f in c.tracked && f in c.owner && v' == PinnedEvicting(v, p, f);
      EvictingBrings(v, p, f);
    }
  }

  /** What giving a pin back does to the entries. */
  ghost predicate Dropped(v: Priv, v': Priv, p: Page, isWrite: bool)
    requires Wf(v) && Wf(v')
  {
    && v'.log == v.log && Entry(v', p).refCount == Entry(v, p).refCount - 1 && Entry(v', p).frame == Entry(v, p).frame
    && Entry(v', p).exist && !Entry(v', p).busy && (Entry(v', p).dirty <==> Entry(v, p).dirty || isWrite)
    && forall q: Page | q != p :: Entry(v', q) == Entry(v, q)
  }

  lemma UnpinDrops(v: Priv, p: Page, isWrite: bool, still: bool)
    requires Ok(v) && Entry(v, p).refCount > 0
    ensures Wf(Unpinned(v, p, isWrite, still)) && Dropped(v, Unpinned(v, p, isWrite, still), p, isWrite)
  {
    var v' := Unpinned(v, p, isWrite, still);
    Resident(v, p);
    assert PageSound(Cache(v, p), Locate(v.parts, p).block);
    UnpinSound(Cache(v, p), v.frames, Locate(v.parts, p).block, isWrite);
    forall q: Page ensures Entry(v', q) == if q == p then DecRef(Entry(v, p), isWrite) else Entry(v, q) {
      OtherEntries(v, p, UnpinResident(Cache(v, p), Locate(v.parts, p).block, isWrite), q);
    }
  }

  // ---------------------------------------------------------------- flush

  /** Page `p` comes before frame `f` of partition `k` in the order in which flush visits frames. */
  predicate Before(v: Priv, p: Page, k: nat, f: nat)
    requires Wf(v)
  {
    var l := Locate(v.parts, p);
    l.part < k || (l.part == k && Entry(v, p).frame < f)
  }

  /** The log while flush is under way: the pages before this point have been given back. */
  predicate FlushedPage(v: Priv, log: seq<Event>, k: nat, f: nat, p: Page)
    requires Wf(v)
  {
    && Held(log, p) == (if Entry(v, p).exist && !Before(v, p, k, f) then 1 else 0)
    && (Wrote(log, p) ==> Wrote(v.log, p) && !Before(v, p, k, f))
  }

  ghost predicate Flushed(v: Priv, log: seq<Event>, k: nat, f: nat)
    requires Wf(v)
  {
    && Faithful(log) && Modest(log) && v.log <= log && (forall p: Page :: FlushedPage(v, log, k, f, p))
    && forall i | |v.log| <= i < |log| :: GivenBack(v, log[i])
  }

  lemma NoneFlushed(v: Priv)
    requires Ok(v)
    ensures Flushed(v, v.log, 0, 0)
  {
    forall p: Page ensures FlushedPage(v, v.log, 0, 0, p) { assert PageOk(v, p); }
  }

  /** The event gives a page back, as dirty exactly when it is dirty or still pinned. */
  predicate GivenBack(v: Priv, e: Event)
    requires Wf(v)
  {
    e.Release? && (e.dirty <==> Entry(v, e.page).dirty || Entry(v, e.page).refCount > 0)
  }

  /** The dirty bit flush passes: a page still pinned counts as written. */
  function FlushBit(e: Pte): bool { e.refCount > 0 || e.dirty }

  lemma FlushFrame(v: Priv, log: seq<Event>, k: nat, f: nat)
    requires Ok(v) && k < v.parts && f < v.caches[k].curId && f in v.caches[k].owner && Flushed(v, log, k, f)
    ensures var u := Globalize(v.parts, Loc(k, v.caches[k].owner[f]));
      Flushed(v, log + [Release(u, FlushBit(Entry(v, u)))], k, f + 1)
  {
    var c := v.caches[k];
    var l := Loc(k, c.owner[f]);
    var u := Globalize(v.parts, l);
    RoundTrip(v.parts, u, l);
    assert FrameSound(c, f) && PageSound(c, l.block);
    var e := Release(u, FlushBit(Entry(v, u)));
    assert PageOk(v, u) && FlushedPage(v, log, k, f, u);
    Extended(log, e, u);
    var log', g := log + [e], f + 1;
    forall p: Page ensures FlushedPage(v, log', k, g, p) {
      assert PageOk(v, p) && FlushedPage(v, log, k, f, p);
      Extended(log, e, p);
      if Entry(v, p).exist { FlushOrder(v, k, f, u, p); }
    }
  }

  lemma FlushOrder(v: Priv, k: nat, f: nat, u: Page, p: Page)
    requires Ok(v) && k < v.parts && f < v.caches[k].curId && f in v.caches[k].owner
    requires Locate(v.parts, u) == Loc(k, v.caches[k].owner[f])
    requires Entry(v, p).exist
    ensures Before(v, p, k, f + 1) <==> Before(v, p, k, f) || p == u
    ensures !Before(v, u, k, f)
  {
    RoundTrip(v.parts, p, Loc(0, 0));
    RoundTrip(v.parts, u, Loc(0, 0));
    var c := v.caches[k];
    assert FrameSound(c, f) && PageSound(c, c.owner[f]);
    if Locate(v.parts, p).part == k { Resident(v, p); assert PageSound(c, Locate(v.parts, p).block); }
  }

  /** Past the last frame of a partition comes the first of the next. */
  lemma FlushPartition(v: Priv, log: seq<Event>, k: nat)
    requires Ok(v) && k < v.parts && Flushed(v, log, k, v.caches[k].curId)
    ensures Flushed(v, log, k + 1, 0)
  {
    var next := k + 1;
    forall p: Page ensures FlushedPage(v, log, next, 0, p) {
      assert FlushedPage(v, log, k, v.caches[k].curId, p) && PageOk(v, p);
      if Entry(v, p).exist && Locate(v.parts, p).part == k {
        Resident(v, p);
        assert PageSound(v.caches[k], Locate(v.parts, p).block);
        assert FrameSound(v.caches[k], Entry(v, p).frame);
      }
    }
  }

  /** The state once the caches have been made anew. */
  function Renewed(v: Priv, log: seq<Event>): Priv {
    v.(caches := seq(v.parts, _ => Fresh(v.frames)), log := log, owed := {})
  }

  lemma RenewedOk(v: Priv, log: seq<Event>)
    requires Ok(v) && Flushed(v, log, v.parts, 0)
    ensures Ok(Renewed(v, log)) && forall p: Page :: Held(log, p) == 0 && Entry(Renewed(v, log), p) == EMPTY_PTE
  {
    var v' := Renewed(v, log);
    forall p: Page ensures PageOk(v', p) && Held(log, p) == 0 && Entry(v', p) == EMPTY_PTE {
      assert FlushedPage(v, log, v.parts, 0, p);
      RoundTrip(v.parts, p, Loc(0, 0));
    }
  }

  /** How a call ends; only an access of the direct cache can end with a null pointer. */
  datatype Status = Done | PageIdError | OutOfFrames | NullPointer

  const RETRIES: nat := 0x4000_0000

  class PrivateCache {
    const parts: nat
    const frames: nat
    const pages: nat
    var caches: seq<Core>
    ghost var log: seq<Event>
    ghost var owed: set<Page>

    ghost function Value(): Priv
      reads this
    {
      Priv(parts, frames, pages, caches, log, owed)
    }

    ghost predicate Valid()
      reads this
    {
      Ok(Value())
    }

    constructor (parts: nat, frames: nat, pages: nat)
      requires parts > 0
      ensures Valid() && this.parts == parts && this.frames == frames && this.pages == pages
      ensures log == [] && owed == {} && forall p: Page :: Entry(Value(), p) == EMPTY_PTE
    {
      this.parts, this.frames, this.pages := parts, frames, pages;
      caches := seq(parts, _ => Fresh(frames));
      log, owed := [], {};
      new;
      forall p: Page ensures PageOk(Value(), p) && Entry(Value(), p) == EMPTY_PTE { RoundTrip(parts, p, Loc(0, 0)); }
    }

    /** One attempt; it fails, changing nothing, when the page is not resident and every frame is pinned. */
    method TryPin(p: Page) returns (ok: bool)
      requires Valid() && p < pages
      modifies this
      ensures Valid() && owed == old(owed) && old(log) <= log
      ensures ok <==> old(Entry(Value(), p).exist || !FullPin(Cache(Value(), p)))
      ensures ok ==> CountsUp(old(Value()), Value(), p) && PinStep(old(Value()), Value(), p)
      ensures !ok ==> Value() == old(Value())
    {
      ghost var v := Value();
      RoundTrip(parts, p, Loc(0, 0));
      Resident(v, p);
      var l := Locate(parts, p);
      var c := caches[l.part];
      ok := true;
      if l.block in c.table {
        PinnedHitOk(v, p);
        caches := caches[l.part := PinResident(c, l.block)];
        assert Value() == PinnedHit(v, p);
      } else if c.pinned >= c.capacity {
        ok := false;
      } else if c.curId >= c.capacity && c.recycled == [] {
        VictimAtHand(c, frames);
        var f :| f in c.tracked;
        PinnedEvictingOk(v, p, f);
        ghost var u := Victim(v, p, f);
        log := log + [Release(u, Entry(v, u).dirty)] + [Acquire(p)];
        caches := caches[l.part := PinEvicting(c, l.block, f)];
        assert Value() == PinnedEvicting(v, p, f);
      } else {
        PinnedFreeOk(v, p);
        log := log + [Acquire(p)];
        caches := caches[l.part := PinFree(c, l.block)];
        assert Value() == PinnedFree(v, p);
      }
    }

    method Pin(p: Page) returns (r: Status)
      requires Valid()
      modifies this
      ensures Valid() && owed == old(owed) && old(log) <= log
      ensures r != NullPointer && (r == PageIdError <==> p >= pages)
      ensures r == OutOfFrames <==> p < pages && old(!Entry(Value(), p).exist && FullPin(Cache(Value(), p)))
      ensures r == Done ==> CountsUp(old(Value()), Value(), p) && PinStep(old(Value()), Value(), p)
      ensures r == Done ==> Brought(old(Value()), Value(), p)
      ensures r != Done ==> Value() == old(Value())
    {
      if p >= pages { return PageIdError; }
      var loops := 0;
      while true
        invariant 0 <= loops <= RETRIES && Valid() && Value() == old(Value()) && old(log) <= log
        invariant loops > 0 ==> old(!Entry(Value(), p).exist && FullPin(Cache(Value(), p)))
        decreases RETRIES - loops
      {
        var ok := TryPin(p);
        loops := loops + 1;
        if loops > RETRIES { return OutOfFrames; }
        if ok {
          PinBrings(old(Value()), Value(), p);
          return Done;
        }
      }
    }

    /** Giving back a pin of a page that is not resident does nothing. */
    method Unpin(p: Page, isWrite: bool, ghost still: bool) returns (r: Status)
      requires Valid()
      requires Entry(Value(), p).exist ==> Entry(Value(), p).refCount > 0
      requires p in owed && !still ==> isWrite
      requires still ==> Entry(Value(), p).refCount > 1
      modifies this
      ensures Valid() && log == old(log)
      ensures r == if p >= pages then PageIdError else Done
      ensures old(Entry(Value(), p).exist) ==>
        Value() == Unpinned(old(Value()), p, isWrite, still) && CountsDown(old(Value()), Value(), p)
      ensures old(Entry(Value(), p).exist) ==> Dropped(old(Value()), Value(), p, isWrite)
      ensures !old(Entry(Value(), p).exist) ==> Value() == old(Value())
    {
      ghost var v := Value();
      assert PageOk(v, p);
      if p >= pages { return PageIdError; }
      RoundTrip(parts, p, Loc(0, 0));
      Resident(v, p);
      var l := Locate(parts, p);
      var c := caches[l.part];
      if l.block in c.table {
        UnpinnedOk(v, p, isWrite, still);
        UnpinDrops(v, p, isWrite, still);
        caches := caches[l.part := UnpinResident(c, l.block, isWrite)];
        if !still { owed := owed - {p}; }
        assert Value() == Unpinned(v, p, isWrite, still);
      }
      return Done;
    }

    /** The thread writes the page through a pin it holds. */
    ghost method NoteWrite(p: Page)
      requires Valid() && Entry(Value(), p).refCount > 0
      modifies this`log, this`owed
      ensures Valid() && log == old(log) + [Write(p)] && owed == old(owed) + {p}
    {
      WrittenOk(Value(), p);
      log := log + [Write(p)];
      owed := owed + {p};
    }

    /** Gives back every shared pin, then starts over with empty caches. */
    method Flush()
      requires Valid()
      modifies this
      ensures Valid() && old(log) <= log && owed == {}
      ensures forall p: Page :: Held(log, p) == 0 && Entry(Value(), p) == EMPTY_PTE
      ensures forall i | |old(log)| <= i < |log| :: GivenBack(old(Value()), log[i])
    {
      ghost var v := Value();
      FlushEach();
      RenewedOk(v, log);
      caches := seq(parts, _ => Fresh(frames));
      owed := {};
      assert Value() == Renewed(v, log);
    }

    /** Calls the evict callback on each frame of each cache. */
    method FlushEach()
      requires Valid()
      modifies this`log
      ensures Flushed(old(Value()), log, parts, 0)
    {
      ghost var v := Value();
      var k := 0;
      NoneFlushed(v);
      while k < parts
        invariant 0 <= k <= parts && Flushed(v, log, k, 0)
      {
        FlushOne(k, v);
        FlushPartition(v, log, k);
        k := k + 1;
      }
    }

    /** Calls the evict callback on each frame of one cache. */
    method FlushOne(k: nat, ghost v: Priv)
      requires Ok(v) && v.parts == parts && v.caches == caches && k < parts && Flushed(v, log, k, 0)
      modifies this`log
      ensures Flushed(v, log, k, caches[k].curId)
    {
      var f := 0;
      while f < caches[k].curId
        invariant 0 <= f <= caches[k].curId && Flushed(v, log, k, f)
      {
        FlushFrame(v, log, k, f);
        var u := Globalize(parts, Loc(k, caches[k].owner[f]));
        RoundTrip(parts, u, Loc(k, caches[k].owner[f]));
        log := log + [Release(u, FlushBit(Entry(v, u)))];
        f := f + 1;
      }
    }
  }
}
