/** The server's cache object: the chained page table, the clock, the frame owners and the counters,
    updated in place. Each turn of `Process` is proved to be a turn of PageCache, so a whole call is a
    stretch of a run of the transition system. */
module SingleThreadCache {
  import opened Basics
  import opened PageCache
  import opened CompactPageTable
  import opened Replacement

  /** Page ids stay below the reserved tag. */
  predicate Small(p: Page) { TagOf(p) < EMPTY_TAG }

  /** What every turn finds: frames in the replacement set back resident pages. */
  ghost predicate Ordered(s: Core) {
    && (forall f | f in s.tracked ::
         f in s.owner && Lookup(s.table, s.owner[f]).exist && Lookup(s.table, s.owner[f]).frame == f)
    && (forall f | f in s.owner :: Small(s.owner[f]) && f < s.capacity)
    && (forall p | p in s.table && s.table[p].exist :: s.table[p].frame < s.capacity)
    && (forall f | f in s.recycled :: f < s.capacity)
  }

  /** What the turn of a context finds. */
  ghost predicate Ready(s: Core, c: Context) {
    && Ordered(s) && Small(c.page)
    && match c.phase
       case Begin =>
         && c.victim == None
         && (c.kind.Unpin? && Lookup(s.table, c.page).exist && !Lookup(s.table, c.page).busy ==>
               Lookup(s.table, c.page).refCount > 0)
       case Initing =>
         && c.victim == None && !Lookup(s.table, c.page).busy && c.seen == Lookup(s.table, c.page)
         && (c.kind.Unpin? && c.seen.exist ==> c.seen.refCount > 0)
       case Evicting =>
         && c.frame < s.capacity && Lookup(s.table, c.page) == Created(c.frame)
         && (c.victim.Some? ==>
              Small(c.victim.value) && c.victim.value != c.page && Lookup(s.table, c.victim.value) == DELETED)
       case Loading => c.frame < s.capacity && Lookup(s.table, c.page) == Created(c.frame)
       case End => false
  }

  /** A miss that needs a victim has one. */
  ghost predicate HasVictim(s: Core, c: Context) {
    c.kind.Pin? && !Lookup(s.table, c.page).exist && Full(s) && !FullPin(s) ==>
      exists f :: f in s.tracked && Evictable(s, f)
  }

  /** Victim selection has popped `rejected`, none of them evictable, and an evictable frame is left. */
  ghost predicate Rejecting(s: Core, rejected: set<Frame>) {
    && rejected <= s.tracked && (forall g | g in rejected :: !Evictable(s, g))
    && exists g :: g in s.tracked - rejected && Evictable(s, g)
  }

  function Without(s: Core, rejected: set<Frame>): Core { s.(tracked := s.tracked - rejected) }

  lemma RejectOne(s: Core, rejected: set<Frame>, f: Frame)
    requires Rejecting(s, rejected) && f in s.tracked - rejected && !Evictable(s, f)
    ensures Rejecting(s, rejected + {f}) && Without(s, rejected + {f}) == Without(Without(s, rejected), {f})
  {
    var g :| g in s.tracked - rejected && Evictable(s, g);
    assert g in s.tracked - (rejected + {f});
    assert s.tracked - (rejected + {f}) == s.tracked - rejected - {f};
  }

  lemma OrderedWithout(s: Core, rejected: set<Frame>)
    requires Ordered(s)
    ensures Ordered(Without(s, rejected))
    ensures forall f :: Evictable(Without(s, rejected), f) == Evictable(s, f)
  {
  }

  /** Turns left before `process` must return. */
  function Rank(c: Context): nat {
    match c.phase
    case Begin => 6
    case Initing => 5
    case Evicting => if c.processing then 4 else 3
    case Loading => if c.processing then 2 else 1
    case End => 0
  }

  lemma ReadyFree(s: Core, c: Context)
    requires Ready(s, c) && c.phase.Initing? && !c.seen.exist && !Full(s)
    ensures Ready(FreeTurn(s, c).core, FreeTurn(s, c).ctx) && NextFrame(s) < s.capacity
  {
    var s' := MapFree(s, c.page);
    if s.recycled != [] {
      assert NextFrame(s) in s.recycled;
      forall f | f in s'.recycled ensures f < s.capacity { assert f in s.recycled; }
    }
  }

  lemma ReadyVictim(s: Core, c: Context, rejected: set<Frame>, f: Frame)
    requires Ready(s, c) && c.phase.Initing? && !c.seen.exist && Selects(s, rejected, f)
    ensures var o := VictimTurn(s, c, rejected, f); Ready(o.core, o.ctx)
  {
  }

  /** Polls an unfinished transfer still needs when the device has completed what it was handed. */
  function IoLeft(io: Io): nat { if io.first then 2 else if !io.processing then 1 else 0 }

  lemma ReadyNext(s: Core, c: Context, o: Outcome)
    requires Ready(s, c) && Iter(s, c, o)
    ensures !o.ctx.phase.End? ==> Ready(o.core, o.ctx)
    ensures !o.stop ==> !o.ctx.phase.End? && Rank(o.ctx) < Rank(c)
  {
    if c.phase.Initing? && !o.ctx.phase.End? {
      if !Full(s) {
        ReadyFree(s, c);
      } else {
        var rejected, f :| Selects(s, rejected, f) && o == VictimTurn(s, c, rejected, f);
        ReadyVictim(s, c, rejected, f);
      }
    }
  }

  lemma TurnsNext(tr: seq<Outcome>, o: Outcome)
    requires Turns(tr) && !tr[|tr| - 1].stop && Iter(tr[|tr| - 1].core, tr[|tr| - 1].ctx, o)
    ensures Turns(tr + [o])
  {
    forall i | 0 <= i < |tr + [o]| - 1 ensures Follows(tr + [o], i) {
      if i < |tr| - 1 { assert Follows(tr, i); }
    }
  }

  // ---------------------------------------------------------------- the clock

  /** From mark `m` on the clock pops frames that cannot be evicted and then `f`, which leaves it at `m'`. */
  ghost predicate Chosen(s: Core, f: Frame, m: Mark, m': Mark) { forall x: Seal :: ChosenUnder(x, s, f, m, m') }

  /** A statement made under a seal is opened by naming the seal. */
  datatype Seal = Seal

  ghost predicate ChosenUnder(x: Seal, s: Core, f: Frame, m: Mark, m': Mark) {
    exists ms, fs :: ChosenBy(s, f, m, m', ms, fs)
  }

  ghost predicate ChosenBy(s: Core, f: Frame, m: Mark, m': Mark, ms: seq<Mark>, fs: seq<Frame>) {
    && Pops(ms, fs) && ms[0] == m && (forall g | g in fs :: !Evictable(s, g))
    && PopStep(ms[|fs|], f, m')
  }

  lemma HeadTracked(ms: seq<Mark>, fs: seq<Frame>)
    requires Pops(ms, fs) && fs != []
    ensures fs[0] in fs && fs[0] < |ms[0].states| && ms[0].states[fs[0]] != 0
  {
    assert PopsAt(ms, fs, 0);
  }

  /** When every tracked frame can be evicted the victim is the clock's first choice. */
  lemma FirstChosen(s: Core, f: Frame, m: Mark, m': Mark)
    requires Chosen(s, f, m, m') && forall g | 0 <= g < |m.states| && m.states[g] != 0 :: Evictable(s, g)
    ensures PopStep(m, f, m') && FirstChoice(m.states, m.hand, f) && m'.states == AfterPop(m.states, m.hand, f)
  {
    assert ChosenUnder(Seal, s, f, m, m');
    var ms, fs :| ChosenBy(s, f, m, m', ms, fs);
    if fs != [] { HeadTracked(ms, fs); }
  }

  function Marked(m: Mark, f: Frame, state: nat): Mark {
    if f < |m.states| then m.(states := m.states[f := state]) else m
  }

  /** What a turn that takes context `c` to `c'` does to the clock: an unpin to zero makes the frame recently used, a
      pin from zero takes it out, a victim is chosen; nothing else touches any frame's state or the hand. */
  ghost predicate ClockMoves(s: Core, c: Context, c': Context, m: Mark, m': Mark) {
    var e := Lookup(s.table, c.page);
    if !c.phase.Initing? then m' == m
    else if c.kind.Unpin? then m' == if e.exist && e.refCount == 1 then Marked(m, e.frame, 2) else m
    else if e.exist then m' == if e.refCount == 0 then Marked(m, e.frame, 0) else m
    else if c'.phase.Evicting? && c'.victim.Some? then Chosen(s, c'.frame, m, m')
    else m' == m
  }

  /** The marks of the clock along the turns of a call. */
  ghost predicate Ticks(tr: seq<Outcome>, ms: seq<Mark>) {
    |ms| == |tr| && forall i | 0 <= i < |tr| - 1 :: TicksAt(tr, ms, i)
  }

  ghost predicate TicksAt(tr: seq<Outcome>, ms: seq<Mark>, i: nat)
    requires i + 1 < |tr| == |ms|
  {
    ClockMoves(tr[i].core, tr[i].ctx, tr[i + 1].ctx, ms[i], ms[i + 1])
  }

  lemma TicksNext(tr: seq<Outcome>, ms: seq<Mark>, o: Outcome, m: Mark)
    requires tr != [] && Ticks(tr, ms) && ClockMoves(tr[|tr| - 1].core, tr[|tr| - 1].ctx, o.ctx, ms[|ms| - 1], m)
    ensures Ticks(tr + [o], ms + [m])
  {
    forall i | 0 <= i < |tr + [o]| - 1 ensures TicksAt(tr + [o], ms + [m], i) {
      if i < |tr| - 1 { assert TicksAt(tr, ms, i); }
    }
  }

  /** Turns and marks from `o` and `m` to `o'` and `m'`. */
  ghost predicate Trail(tr: seq<Outcome>, ms: seq<Mark>, o: Outcome, m: Mark, o': Outcome, m': Mark) {
    && Turns(tr) && Ticks(tr, ms)
    && tr[0] == o && tr[|tr| - 1] == o' && ms[0] == m && ms[|ms| - 1] == m'
  }

  lemma TrailNext(tr: seq<Outcome>, ms: seq<Mark>, o: Outcome, m: Mark, o': Outcome, m': Mark)
    requires tr != [] && ms != [] && Trail(tr, ms, o, m, tr[|tr| - 1], ms[|ms| - 1]) && !tr[|tr| - 1].stop
    requires Iter(tr[|tr| - 1].core, tr[|tr| - 1].ctx, o')
    requires ClockMoves(tr[|tr| - 1].core, tr[|tr| - 1].ctx, o'.ctx, ms[|ms| - 1], m')
    ensures Trail(tr + [o'], ms + [m'], o, m, o', m')
  {
    TurnsNext(tr, o');
    TicksNext(tr, ms, o', m');
  }

  // ---------------------------------------------------------------- frames

  /** Frames are handed out once: those in use are below `curId`, and a recycled frame backs no page. */
  ghost predicate FramesOk(s: Core) {
    && s.curId <= s.capacity
    && (forall i, j | 0 <= i < j < |s.recycled| :: s.recycled[i] != s.recycled[j])
    && (forall f | f in s.recycled :: f < s.curId)
    && (forall p | p in s.table && s.table[p].exist :: s.table[p].frame < s.curId && s.table[p].frame !in s.recycled)
  }

  /** A page is mapped to the frame. */
  ghost predicate Backs(s: Core, f: Frame) { exists p :: p in s.table && s.table[p].exist && s.table[p].frame == f }

  function Size(s: Core): int { s.curId - |s.recycled| }

  lemma NextFrameFree(s: Core)
    requires FramesOk(s) && !Full(s)
    ensures NextFrame(s) < s.capacity && !Backs(s, NextFrame(s))
    ensures FramesOk(Allocated(s)) && NextFrame(s) < Allocated(s).curId && NextFrame(s) !in Allocated(s).recycled
    ensures Size(Allocated(s)) == Size(s) + 1
  {
    if s.recycled != [] {
      assert NextFrame(s) in s.recycled;
      forall f | f in Allocated(s).recycled ensures f in s.recycled && f != NextFrame(s) {
        var i :| 0 <= i < |Allocated(s).recycled| && Allocated(s).recycled[i] == f;
        assert s.recycled[i] == f;
      }
    }
  }

  // ---------------------------------------------------------------- lines

  /** The tags that keep a line when the lock of a page with this tag is released. */
  ghost function Kept(tags: set<nat>, table: Table, tag: nat): set<nat> {
    if Inhabited(table, tag) then tags else tags - {tag}
  }

  /** The tags that have lines after a turn of context `c` that leaves the table `table`. */
  ghost function TurnTags(tags: set<nat>, c: Context, table: Table): set<nat> {
    match c.phase
    case Begin => tags + {TagOf(c.page)}
    case Evicting => if !c.processing && c.victim.Some? then Kept(tags, table, TagOf(c.victim.value)) else tags
    case Loading => if !c.processing then Kept(tags, table, TagOf(c.page)) else tags
    case _ => tags
  }

  /** And after a stretch of turns. */
  ghost function TagsAlong(tr: seq<Outcome>, tags: set<nat>): set<nat> {
    if |tr| <= 1 then tags
    else TurnTags(TagsAlong(tr[..|tr| - 1], tags), tr[|tr| - 2].ctx, tr[|tr| - 1].core.table)
  }

  lemma TagsNext(tr: seq<Outcome>, o: Outcome, tags: set<nat>)
    requires |tr| > 0
    ensures TagsAlong(tr + [o], tags) == TurnTags(TagsAlong(tr, tags), tr[|tr| - 1].ctx, o.core.table)
  {
    assert (tr + [o])[..|tr|] == tr;
  }

  class SharedSingleThreadCache {
    const capacity: nat
    const pageTable: CompactHashPageTable
    const replacement: Clock
    const states: array<Option<Page>>
    const firstLoaded: array<bool>
    var pinnedSize: int
    var curId: nat
    var recyclePool: seq<Frame>

    ghost function Owner(): map<Frame, Page>
      reads states
    {
      map f | 0 <= f < states.Length && states[f].Some? :: states[f].value
    }

    ghost function Loaded(): set<Frame>
      reads firstLoaded
    {
      set f | 0 <= f < firstLoaded.Length && firstLoaded[f]
    }

    ghost function State(): Core
      reads this, pageTable`view, replacement.states, states, firstLoaded
    {
      Core(capacity, pageTable.view, Owner(), replacement.Tracked(), pinnedSize, curId, recyclePool, Loaded())
    }

    /** The tags that have a line in the page table. */
    ghost function Tags(): set<nat>
      reads pageTable`lineOf
    {
      pageTable.lineOf.Keys
    }

    ghost predicate Valid()
      reads this, pageTable, pageTable.store, replacement, replacement.states, states, firstLoaded
    {
      && pageTable.Valid() && replacement.Valid()
      && 0 < capacity < EMPTY_FRAME && pageTable.capacity == capacity
      && replacement.states.Length == capacity && states.Length == capacity && firstLoaded.Length == capacity
    }

    constructor (n: nat)
      requires 0 < n < EMPTY_FRAME
      ensures Valid() && State() == Fresh(n) && Tags() == {}
    {
      capacity := n;
      pageTable := new CompactHashPageTable(n);
      replacement := new Clock(n);
      states := new Option<Page>[n](_ => None);
      firstLoaded := new bool[n](_ => false);
      pinnedSize, curId, recyclePool := 0, 0, [];
    }

    method NotifyPin(p: Page)
      requires Valid() && Small(p) && Ordered(State())
      modifies this`pinnedSize, replacement, replacement.states
      ensures Valid() && State() == PageCache.NotifyPin(old(State()), p)
      ensures var e := Lookup(State().table, p);
        replacement.Now() ==
          if e.refCount > 0 then Marked(old(replacement.Now()), e.frame, 0) else old(replacement.Now())
    {
      pinnedSize := pinnedSize + 1;
      var e := pageTable.GetPte(p);
      EntrySealed(pageTable.Value(), p);
      if e.refCount > 0 {
        Forget(e.frame);
      }
    }

    /** Takes a frame out of replacement. */
    method Forget(f: Frame)
      requires Valid() && f < capacity
      modifies replacement, replacement.states
      ensures Valid() && State() == old(State()).(tracked := old(State()).tracked - {f})
      ensures replacement.Now() == Marked(old(replacement.Now()), f, 0)
    {
      replacement.Erase(f);
    }

    method NotifyUnpin(p: Page)
      requires Valid() && Small(p) && Ordered(State())
      modifies this`pinnedSize, replacement, replacement.states
      ensures Valid() && State() == PageCache.NotifyUnpin(old(State()), p)
      ensures var e := Lookup(State().table, p);
        replacement.Now() ==
          if e.exist && e.refCount == 0 then Marked(old(replacement.Now()), e.frame, 2) else old(replacement.Now())
    {
      pinnedSize := pinnedSize - 1;
      var e := pageTable.GetPte(p);
      if e.exist && e.refCount == 0 {
        replacement.Push(e.frame);
      }
    }
  
    /** Phase Begin: a locked page makes the caller come back later. */
    method BeginPhase(c: Context) returns (c': Context, stop: bool)
      requires Valid() && Ready(State(), c) && c.phase.Begin? && pageTable.HasRoom(c.page)
      modifies pageTable, pageTable.store
      ensures Valid() && Outcome(State(), c', stop) == BeginTurn(old(State()), c)
      ensures Tags() == old(Tags()) + {TagOf(c.page)}
    {
      var _ := pageTable.FindOrCreateHint(c.page);
      var e := pageTable.GetPte(c.page);
      if e.busy {
        return c.(seen := e), true;
      }
      return c.(seen := e, phase := Initing), false;
    }

    /** Counts a reference in the page table. */
    method Reference(p: Page) returns (frame: Frame, before: nat)
      requires Valid() && Small(p) && Lookup(pageTable.view, p).exist && !Lookup(pageTable.view, p).busy
      modifies pageTable`view, pageTable.store
      ensures Valid()
      ensures State() == old(State()).(table := Put(old(State()).table, p, IncRef(Lookup(old(State()).table, p))))
      ensures frame == Lookup(old(State()).table, p).frame && before == Lookup(old(State()).table, p).refCount
    {
      var success;
      success, frame, before := pageTable.Pin(p);
    }

    /** Gives one back. */
    method Dereference(p: Page, isWrite: bool) returns (before: nat)
      requires Valid() && Small(p) && Lookup(pageTable.view, p).refCount > 0
      modifies pageTable`view, pageTable.store
      ensures Valid()
      ensures State() ==
        old(State()).(table := Put(old(State()).table, p, DecRef(Lookup(old(State()).table, p), isWrite)))
      ensures before == Lookup(old(State()).table, p).refCount
    {
      before := pageTable.Unpin(p, isWrite);
    }

    /** Takes a frame out of replacement and counts a pinned page. */
    method Retain(f: Frame)
      requires Valid() && f < capacity
      modifies this`pinnedSize, replacement, replacement.states
      ensures Valid()
      ensures State() == old(State()).(tracked := old(State()).tracked - {f}, pinned := old(State()).pinned + 1)
      ensures replacement.Now() == Marked(old(replacement.Now()), f, 0)
    {
      Forget(f);
      pinnedSize := pinnedSize + 1;
    }

    /** Puts a frame up for replacement and counts a pinned page less. */
    method Relinquish(f: Frame)
      requires Valid() && f < capacity
      modifies this`pinnedSize, replacement, replacement.states
      ensures Valid()
      ensures State() == old(State()).(tracked := old(State()).tracked + {f}, pinned := old(State()).pinned - 1)
      ensures replacement.Now() == Marked(old(replacement.Now()), f, 2)
    {
      pinnedSize := pinnedSize - 1;
      replacement.Push(f);
    }

    /** Phase Initing of an unpin. */
    method UnpinPhase(c: Context) returns (c': Context)
      requires Valid() && Ready(State(), c) && c.phase.Initing? && c.kind.Unpin?
      modifies this`pinnedSize, pageTable`view, pageTable.store, replacement, replacement.states
      ensures Valid() && Outcome(State(), c', true) == UnpinTurn(old(State()), c)
      ensures ClockMoves(old(State()), c, c', old(replacement.Now()), replacement.Now())
    {
      if c.seen.exist {
        UnpinPage(c.page, c.kind.isWrite, c.seen.frame);
      }
      return c.(phase := End);
    }

    /** Gives back a pin of the page in frame `f`, which is put up for replacement with the last one. */
    method UnpinPage(p: Page, isWrite: bool, f: Frame)
      requires Valid() && Small(p) && f < capacity
      requires var e := Lookup(State().table, p); e.refCount > 0 && e.frame == f
      modifies this`pinnedSize, pageTable`view, pageTable.store, replacement, replacement.states
      ensures Valid() && State() == UnpinResident(old(State()), p, isWrite)
      ensures var e, m := Lookup(old(State()).table, p), old(replacement.Now());
        replacement.Now() == if e.refCount == 1 then Marked(m, f, 2) else m
    {
      ghost var m := replacement.Now();
      var before := Dereference(p, isWrite);
      assert replacement.Now() == m;
      if before == 1 {
        Relinquish(f);
      }
    }

    /** Phase Initing of a pin of a resident page. */
    method HitPhase(c: Context) returns (c': Context)
      requires Valid() && Ready(State(), c) && c.phase.Initing? && c.kind.Pin? && c.seen.exist
      modifies this`pinnedSize, pageTable`view, pageTable.store, replacement, replacement.states
      ensures Valid() && Outcome(State(), c', true) == HitTurn(old(State()), c)
      ensures ClockMoves(old(State()), c, c', old(replacement.Now()), replacement.Now())
    {
      var frame := PinPage(c.page, c.seen.frame);
      return c.(frame := frame, victim := None, phase := End);
    }

    /** Counts a pin of the page in frame `f`, which is taken out of replacement with the first one. */
    method PinPage(p: Page, f: Frame) returns (frame: Frame)
      requires Valid() && Small(p) && f < capacity
      requires var e := Lookup(State().table, p); e.exist && !e.busy && e.frame == f
      modifies this`pinnedSize, pageTable`view, pageTable.store, replacement, replacement.states
      ensures Valid() && State() == PinResident(old(State()), p) && frame == f
      ensures var e, m := Lookup(old(State()).table, p), old(replacement.Now());
        replacement.Now() == if e.refCount == 0 then Marked(m, f, 0) else m
    {
      ghost var m := replacement.Now();
      var before;
      frame, before := Reference(p);
      assert replacement.Now() == m;
      if before == 0 {
        Retain(f);
      }
    }

    method Alloc() returns (f: Frame)
      requires Valid() && !Full(State())
      modifies this`curId, this`recyclePool
      ensures Valid() && f == NextFrame(old(State())) && State() == Allocated(old(State()))
      ensures FramesOk(old(State())) ==>
        f < capacity && !Backs(State(), f) && FramesOk(State()) && f !in recyclePool &&
          Size(State()) == Size(old(State())) + 1
    {
      if FramesOk(State()) { NextFrameFree(State()); }
      if recyclePool != [] {
        f := recyclePool[|recyclePool| - 1];
        recyclePool := recyclePool[..|recyclePool| - 1];
      } else {
        f := curId;
        curId := curId + 1;
      }
    }

    /** Counts the pin and maps the page, locked, to the frame. */
    method MapPage(p: Page, f: Frame)
      requires Valid() && Small(p) && TagOf(p) in pageTable.lineOf && Lookup(pageTable.view, p) == EMPTY_PTE
      modifies this`pinnedSize, pageTable`view, pageTable.store
      ensures Valid()
      ensures State() ==
        old(State()).(pinned := old(State()).pinned + 1, table := Put(old(State()).table, p, Created(f)))
    {
      pinnedSize := pinnedSize + 1;
      var _ := pageTable.CreateMapping(p, f, 1);
    }

    /** Phase Initing of a pin that misses while a frame is free. */
    method FreePhase(c: Context) returns (c': Context)
      requires Valid() && Ready(State(), c) && c.phase.Initing? && c.kind.Pin? && !c.seen.exist
      requires !FullPin(State()) && !Full(State()) && TagOf(c.page) in pageTable.lineOf
      modifies this, pageTable`view, pageTable.store
      ensures Valid() && Outcome(State(), c', false) == FreeTurn(old(State()), c)
    {
      EntrySealed(pageTable.Value(), c.page);
      var f := Alloc();
      MapPage(c.page, f);
      return c.(frame := f, phase := Evicting, processing := false);
    }

    /** Pops one frame and unmaps its page if that is neither pinned nor locked. */
    method TryVictim() returns (f: Frame, v: Page, dirty: bool, ok: bool)
      requires Valid() && Ordered(State()) && State().tracked != {}
      modifies pageTable`view, pageTable.store, replacement, replacement.states
      ensures Valid() && f in old(State()).tracked && f in old(State()).owner && v == old(State()).owner[f]
      ensures ok == Evictable(old(State()), f) && dirty == Lookup(old(State()).table, v).dirty
      ensures PopStep(old(replacement.Now()), f, replacement.Now())
      ensures State() == old(State()).(
        tracked := old(State()).tracked - {f},
        table := if ok then Put(old(State()).table, v, DELETED) else old(State()).table)
    {
      f := PopFrame();
      ghost var m := replacement.Now();
      v := states[f].value;
      dirty, ok := Unmap(v);
      assert replacement.Now() == m;
    }

    /** Unmaps the page, leaving it locked, if it is neither pinned nor locked; tells whether it was dirty. */
    method Unmap(v: Page) returns (dirty: bool, ok: bool)
      requires Valid() && Small(v) && Lookup(State().table, v).exist
      modifies pageTable`view, pageTable.store
      ensures Valid() && var e := Lookup(old(State()).table, v); dirty == e.dirty && ok == (e.refCount == 0 && !e.busy)
      ensures State() == if ok then old(State()).(table := Put(old(State()).table, v, DELETED)) else old(State())
    {
      var e := pageTable.GetPte(v);
      dirty := e.dirty;
      ok := e.refCount == 0 && !e.busy;
      if ok {
        ok := pageTable.DeleteMapping(v);
      }
    }

    /** Pops the frame the clock must take. */
    method PopFrame() returns (f: Frame)
      requires Valid() && Ordered(State()) && State().tracked != {}
      modifies replacement, replacement.states
      ensures Valid() && f in old(State()).tracked && f in old(State()).owner && f < capacity && states[f].Some?
      ensures State() == old(State()).(tracked := old(State()).tracked - {f})
      ensures PopStep(old(replacement.Now()), f, replacement.Now())
    {
      ghost var s := State();
      var next;
      f, next := replacement.Pop();
      assert f in s.tracked && f in s.owner;
    }

    /** Pops frames until one can be evicted. */
    method SelectVictim() returns (f: Frame, v: Page, dirty: bool, ghost rejected: set<Frame>)
      requires Valid() && Ordered(State()) && exists f :: f in State().tracked && Evictable(State(), f)
      modifies pageTable`view, pageTable.store, replacement, replacement.states
      ensures Valid() && Selects(old(State()), rejected, f) && v == old(State()).owner[f]
      ensures dirty == Lookup(old(State()).table, v).dirty
      ensures State() ==
        old(State()).(tracked := old(State()).tracked - rejected - {f}, table := Put(old(State()).table, v, DELETED))
      ensures Chosen(old(State()), f, old(replacement.Now()), replacement.Now())
    {
      ghost var s, m := State(), replacement.Now();
      ghost var ms, fs := [m], [];
      rejected := {};
      assert Rejecting(s, {}) && Without(s, {}) == s;
      while true
        invariant Valid() && Rejecting(s, rejected) && State() == Without(s, rejected)
        invariant Pops(ms, fs) && ms[0] == m && ms[|fs|] == replacement.Now() && forall g | g in fs :: !Evictable(s, g)
        decreases s.tracked - rejected
      {
        OrderedWithout(s, rejected);
        var ok;
        f, v, dirty, ok := TryVictim();
        if ok {
          assert ChosenBy(s, f, m, replacement.Now(), ms, fs);
          return;
        }
        RejectOne(s, rejected, f);
        rejected := rejected + {f};
        PopsNext(ms, fs, f, replacement.Now());
        ms, fs := ms + [replacement.Now()], fs + [f];
      }
    }
  
    /** Phase Initing of a pin that misses while no frame is free. */
    method VictimPhase(c: Context) returns (c': Context, stop: bool, ghost rejected: set<Frame>)
      requires Valid() && Ready(State(), c) && c.phase.Initing? && c.kind.Pin? && !c.seen.exist
      requires Full(State()) && TagOf(c.page) in pageTable.lineOf
      requires exists f :: f in State().tracked && Evictable(State(), f)
      modifies this`pinnedSize, pageTable`view, pageTable.store, replacement, replacement.states
      ensures Valid()
      ensures Selects(old(State()), rejected, c'.frame)
      ensures Outcome(State(), c', stop) == VictimTurn(old(State()), c, rejected, c'.frame)
      ensures Chosen(old(State()), c'.frame, old(replacement.Now()), replacement.Now())
    {
      ghost var s := State();
      EntrySealed(pageTable.Value(), c.page);
      var f, v, dirty;
      f, v, dirty, rejected := SelectVictim();
      ghost var m := replacement.Now();
      c', stop := Occupy(c, f, v, dirty, s, rejected);
      assert replacement.Now() == m;
    }

    /** Maps the page to the frame of the victim, which is unmapped, and starts the write-back. */
    method Occupy(c: Context, f: Frame, v: Page, dirty: bool, ghost s: Core, ghost rejected: set<Frame>)
        returns (c': Context, stop: bool)
      requires Valid() && Small(c.page) && TagOf(c.page) in pageTable.lineOf
      requires Selects(s, rejected, f) && v == s.owner[f] && dirty == Lookup(s.table, v).dirty
      requires Lookup(s.table, c.page) == EMPTY_PTE && v != c.page
      requires State() == s.(tracked := s.tracked - rejected - {f}, table := Put(s.table, v, DELETED))
      modifies this`pinnedSize, pageTable`view, pageTable.store
      ensures Valid() && Outcome(State(), c', stop) == VictimTurn(s, c, rejected, f) && c'.frame == f
    {
      MapPage(c.page, f);
      var (done, io) := EvictFunc(NEW_IO, dirty);
      c' := c.(frame := f, victim := Some(v), dirty := dirty, phase := Evicting, processing := !done, io := io);
      stop := !done;
      assert State() == MapEvicting(s, c.page, rejected, f);
    }

    /** Makes the page the owner of the frame; tells whether the frame was ever loaded before. */
    method ClaimFrame(f: Frame, p: Page) returns (before: bool)
      requires Valid() && f < capacity
      modifies states, firstLoaded
      ensures Valid() && before == (f in old(State()).loaded)
      ensures State() == old(State()).(owner := old(State()).owner[f := p], loaded := old(State()).loaded + {f})
    {
      ghost var s := State();
      states[f] := Some(p);
      assert Owner() == s.owner[f := p];
      before := firstLoaded[f];
      firstLoaded[f] := true;
      assert Loaded() == s.loaded + {f};
    }

    method ReleaseLock(p: Page)
      requires Valid() && Small(p) && Lookup(pageTable.view, p).busy
      modifies pageTable, pageTable.store
      ensures Valid()
      ensures State() == old(State()).(table := Put(old(State()).table, p, Released(Lookup(old(State()).table, p))))
      ensures Tags() == Kept(old(Tags()), pageTable.view, TagOf(p))
    {
      EntrySealed(pageTable.Value(), p);
      var _ := pageTable.ReleaseMappingLock(p);
    }

    /** Phase Evicting once the write-back is complete: the frame changes hands and the load starts. */
    method EvictedPhase(c: Context) returns (c': Context, stop: bool)
      requires Valid() && Ready(State(), c) && c.phase.Evicting? && !c.processing
      modifies pageTable, pageTable.store, states, firstLoaded
      ensures Valid() && Outcome(State(), c', stop) == EvictDone(old(State()), c)
      ensures Tags() == TurnTags(old(Tags()), c, State().table)
    {
      if c.victim.Some? {
        ReleaseLock(c.victim.value);
      }
      var before := ClaimFrame(c.frame, c.page);
      var (done, io) := LoadFunc(NEW_IO, before);
      c' := c.(phase := Loading, processing := !done, io := io);
      stop := !done;
    }

    /** Phase Evicting, polling the device or finished. */
    method EvictingPhase(c: Context) returns (c': Context, stop: bool)
      requires Valid() && Ready(State(), c) && c.phase.Evicting?
      modifies pageTable, pageTable.store, states, firstLoaded
      ensures Valid() && Iter(old(State()), c, Outcome(State(), c', stop))
      ensures Tags() == TurnTags(old(Tags()), c, State().table)
    {
      if c.processing {
        var (done, io) := EvictFunc(c.io, c.dirty);
        return c.(processing := !done, io := io), !done;
      }
      c', stop := EvictedPhase(c);
    }

    /** Phase Loading, polling the device or finished. */
    method LoadingPhase(c: Context) returns (c': Context, stop: bool)
      requires Valid() && Ready(State(), c) && c.phase.Loading?
      modifies pageTable, pageTable.store, firstLoaded
      ensures Valid()
      ensures Outcome(State(), c', stop) ==
        if c.processing then LoadPoll(old(State()), c) else LoadDone(old(State()), c)
      ensures Tags() == TurnTags(old(Tags()), c, State().table)
    {
      if c.processing {
        ghost var s := State();
        var before := firstLoaded[c.frame];
        firstLoaded[c.frame] := true;
        assert Loaded() == s.loaded + {c.frame};
        var (done, io) := LoadFunc(c.io, before);
        return c.(processing := !done, io := io), !done;
      }
      ReleaseLock(c.page);
      return c.(phase := End), true;
    }
  
    /** One turn in phase Initing. */
    method InitingPhase(c: Context) returns (c': Context, stop: bool)
      requires Valid() && Ready(State(), c) && c.phase.Initing?
      requires TagOf(c.page) in pageTable.lineOf && HasVictim(State(), c)
      modifies this, pageTable`view, pageTable.store, replacement, replacement.states
      ensures Valid() && InitingTurn(old(State()), c, Outcome(State(), c', stop))
      ensures ClockMoves(old(State()), c, c', old(replacement.Now()), replacement.Now())
    {
      stop := true;
      if c.kind.Unpin? {
        c' := UnpinPhase(c);
      } else if c.seen.exist {
        c' := HitPhase(c);
      } else if pinnedSize >= capacity {
        c' := c.(frame := EMPTY_FRAME, phase := End);
      } else if curId >= capacity && recyclePool == [] {
        ghost var rejected;
        c', stop, rejected := VictimPhase(c);
      } else {
        c' := FreePhase(c);
        stop := false;
      }
    }

    /** What `process` relies on: a consistent state, room for the page's line, and a victim if it will
        need one. */
    ghost predicate Prepared(c: Context)
      reads this, pageTable, pageTable.store, replacement, replacement.states, states, firstLoaded
    {
      && Valid() && Ready(State(), c)
      && (c.phase.Begin? ==> pageTable.HasRoom(c.page) && HasVictim(State(), c))
      && (c.phase.Initing? ==> TagOf(c.page) in pageTable.lineOf && HasVictim(State(), c))
    }

    /** The branch of the loop's switch for the context's phase. */
    method Branch(c: Context) returns (c': Context, stop: bool)
      requires Prepared(c)
      modifies this, pageTable, pageTable.store, replacement, replacement.states, states, firstLoaded
      ensures Valid() && Iter(old(State()), c, Outcome(State(), c', stop))
      ensures Tags() == TurnTags(old(Tags()), c, State().table)
      ensures ClockMoves(old(State()), c, c', old(replacement.Now()), replacement.Now())
    {
      match c.phase {
        case Begin => c', stop := BeginPhase(c);
        case Initing => c', stop := InitingPhase(c);
        case Evicting => c', stop := EvictingPhase(c);
        case Loading => c', stop := LoadingPhase(c);
      }
    }

    /** One turn of the loop in `process`. */
    method Turn(c: Context) returns (c': Context, stop: bool)
      requires Prepared(c)
      modifies this, pageTable, pageTable.store, replacement, replacement.states, states, firstLoaded
      ensures Valid() && Iter(old(State()), c, Outcome(State(), c', stop))
      ensures Tags() == TurnTags(old(Tags()), c, State().table)
      ensures !stop ==> Prepared(c') && Rank(c') < Rank(c)
      ensures !c'.phase.End? ==> Ready(State(), c')
      ensures ClockMoves(old(State()), c, c', old(replacement.Now()), replacement.Now())
    {
      ghost var s := State();
      c', stop := Branch(c);
      ReadyNext(s, c, Outcome(State(), c', stop));
    }

    /** A whole call of `process` is a stretch of turns of the transition system, `tr`, that ends in the
        first one that returns; `ms` are the clock's marks along it. */
    method Process(c: Context) returns (c': Context, ghost tr: seq<Outcome>, ghost ms: seq<Mark>)
      requires Prepared(c)
      modifies this, pageTable, pageTable.store, replacement, replacement.states, states, firstLoaded
      ensures Valid() && Turns(tr)
      ensures tr[0] == Outcome(old(State()), c, false) && tr[|tr| - 1] == Outcome(State(), c', true)
      ensures Tags() == TagsAlong(tr, old(Tags())) && (!c'.phase.End? ==> Ready(State(), c'))
      ensures Ticks(tr, ms) && ms[0] == old(replacement.Now()) && ms[|ms| - 1] == replacement.Now()
    {
      c', tr, ms := c, [Outcome(State(), c, false)], [replacement.Now()];
      ghost var o, m, tags := tr[0], ms[0], Tags();
      while true
        invariant Prepared(c') && Trail(tr, ms, o, m, Outcome(State(), c', false), replacement.Now())
        invariant Tags() == TagsAlong(tr, tags)
        decreases Rank(c')
      {
        var stop;
        c', stop, tr, ms := TurnOn(c', tr, ms, o, m, tags);
        if stop { return; }
      }
    }

    /** One more turn of a call that has come as far as `tr`. */
    method TurnOn(c: Context, ghost tr: seq<Outcome>, ghost ms: seq<Mark>, ghost o: Outcome, ghost m: Mark,
                  ghost tags: set<nat>)
        returns (c': Context, stop: bool, ghost tr': seq<Outcome>, ghost ms': seq<Mark>)
      requires Prepared(c) && Trail(tr, ms, o, m, Outcome(State(), c, false), replacement.Now())
      requires Tags() == TagsAlong(tr, tags)
      modifies this, pageTable, pageTable.store, replacement, replacement.states, states, firstLoaded
      ensures Valid() && Trail(tr', ms', o, m, Outcome(State(), c', stop), replacement.Now())
      ensures Tags() == TagsAlong(tr', tags) && (!c'.phase.End? ==> Ready(State(), c'))
      ensures !stop ==> Prepared(c') && Rank(c') < Rank(c)
    {
      c', stop := Turn(c);
      TrailNext(tr, ms, o, m, Outcome(State(), c', stop), replacement.Now());
      TagsNext(tr, Outcome(State(), c', stop), tags);
      tr', ms' := tr + [Outcome(State(), c', stop)], ms + [replacement.Now()];
    }
  }
}
