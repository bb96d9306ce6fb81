/** One partition of the page cache, as the server thread sees it: the page table (as a plain
    map, which module CompactPageTable proves the chained table refines), the frame owners, the
    replacement set, and the counters. `Iter` is one turn of the `switch` inside `process`. */
module PageCache {
  import opened Basics

  type Page = nat
  type Frame = nat

  const EMPTY_FRAME: nat := 0xFFFF_FFFF

  datatype Pte = Pte(exist: bool, busy: bool, dirty: bool, refCount: nat, frame: Frame)

  const EMPTY_PTE := Pte(false, false, false, 0, EMPTY_FRAME)

  type Table = map<Page, Pte>

  function Lookup(t: Table, p: Page): Pte {
    if p in t then t[p] else EMPTY_PTE
  }

  /** Tables never store the empty entry, so equal tables are equal maps. */
  function Put(t: Table, p: Page, e: Pte): Table {
    if e == EMPTY_PTE then t - {p} else t[p := e]
  }

  /** `recycled` is the recycle pool, `loaded` the frames whose first_loaded flag is set. */
  datatype Core = Core(
    capacity: nat,
    table: Table,
    owner: map<Frame, Page>,
    tracked: set<Frame>,
    pinned: int,
    curId: nat,
    recycled: seq<Frame>,
    loaded: set<Frame>)

  function Fresh(capacity: nat): Core {
    Core(capacity, map[], map[], {}, 0, 0, [], {})
  }

  predicate Full(s: Core) { s.curId >= s.capacity && s.recycled == [] }

  predicate FullPin(s: Core) { s.pinned >= s.capacity }

  /** The progress of one asynchronous transfer. */
  datatype Io = Io(first: bool, processing: bool, finish: bool)

  const NEW_IO := Io(true, false, false)

  datatype Kind = Pin | Unpin(isWrite: bool)

  datatype Phase = Begin | Initing | Evicting | Loading | End

  /** `victim` is the page being evicted, if any; `seen` the entry read in phase Begin. */
  datatype Context = Context(
    kind: Kind,
    phase: Phase,
    page: Page,
    seen: Pte,
    frame: Frame,
    victim: Option<Page>,
    dirty: bool,
    processing: bool,
    io: Io)

  function NewContext(kind: Kind, page: Page): Context {
    Context(kind, Begin, page, EMPTY_PTE, EMPTY_FRAME, None, false, false, NEW_IO)
  }

  // Page-table operations on one entry.

  function IncRef(e: Pte): Pte { e.(refCount := e.refCount + 1) }

  function DecRef(e: Pte, isWrite: bool): Pte
    requires e.refCount > 0
  {
    e.(refCount := e.refCount - 1, dirty := e.dirty || isWrite)
  }

  /** create_mapping with reference count 1, taken with the lock held. */
  function Created(f: Frame): Pte { Pte(true, true, false, 1, f) }

  /** What delete_mapping leaves: nothing but the lock. */
  const DELETED := Pte(false, true, false, 0, EMPTY_FRAME)

  function Released(e: Pte): Pte { e.(busy := false) }

  // Server-side operations.

  function PinResident(s: Core, p: Page): Core {
    var e := Lookup(s.table, p);
    var t := Put(s.table, p, IncRef(e));
    if e.refCount == 0
    then s.(table := t, tracked := s.tracked - {e.frame}, pinned := s.pinned + 1)
    else s.(table := t)
  }

  function UnpinResident(s: Core, p: Page, isWrite: bool): Core
    requires Lookup(s.table, p).refCount > 0
  {
    var e := Lookup(s.table, p);
    var t := Put(s.table, p, DecRef(e, isWrite));
    if e.refCount == 1
    then s.(table := t, tracked := s.tracked + {e.frame}, pinned := s.pinned - 1)
    else s.(table := t)
  }

  function NotifyPin(s: Core, p: Page): Core {
    var e := Lookup(s.table, p);
    s.(pinned := s.pinned + 1, tracked := if e.refCount > 0 then s.tracked - {e.frame} else s.tracked)
  }

  function NotifyUnpin(s: Core, p: Page): Core {
    var e := Lookup(s.table, p);
    s.(pinned := s.pinned - 1,
       tracked := if e.exist && e.refCount == 0 then s.tracked + {e.frame} else s.tracked)
  }

  /** The frame `alloc` hands out next. */
  function NextFrame(s: Core): Frame {
    if s.recycled != [] then s.recycled[|s.recycled| - 1] else s.curId
  }

  function Allocated(s: Core): Core {
    if s.recycled != [] then s.(recycled := s.recycled[..|s.recycled| - 1]) else s.(curId := s.curId + 1)
  }

  /** A pin that misses while a frame is free. */
  function MapFree(s: Core, p: Page): Core {
    var s1 := Allocated(s);
    s1.(pinned := s.pinned + 1, table := Put(s.table, p, Created(NextFrame(s))))
  }

  /** The frame's owner can be evicted: it is not pinned and not locked. */
  predicate Evictable(s: Core, f: Frame) {
    f in s.owner && var e := Lookup(s.table, s.owner[f]); e.refCount == 0 && !e.busy
  }

  /** Victim selection pops `rejected` in some order, none evictable, and then `f`. */
  ghost predicate Selects(s: Core, rejected: set<Frame>, f: Frame) {
    && rejected <= s.tracked
    && (forall g | g in rejected :: !Evictable(s, g))
    && f in s.tracked - rejected
    && Evictable(s, f)
  }

  /** A pin that misses while no frame is free. */
  function MapEvicting(s: Core, p: Page, rejected: set<Frame>, f: Frame): Core
    requires f in s.owner
  {
    s.(pinned := s.pinned + 1,
       tracked := s.tracked - rejected - {f},
       table := Put(Put(s.table, s.owner[f], DELETED), p, Created(f)))
  }

  // The I/O callbacks of the shared cache; the result says whether the transfer is complete.

  function EvictFunc(io: Io, dirty: bool): (bool, Io) {
    if !dirty then (true, io)
    else Transfer(io)
  }

  function LoadFunc(io: Io, loadedBefore: bool): (bool, Io) {
    if !loadedBefore then (true, io)
    else Transfer(io)
  }

  function Transfer(io: Io): (bool, Io) {
    if io.first then (false, io.(first := false))
    else if !io.processing then (false, io.(processing := true))
    else (io.finish, io)
  }

  /** The state after one turn; `stop` says that `process` returns. */
  datatype Outcome = Outcome(core: Core, ctx: Context, stop: bool)

  function BeginTurn(s: Core, c: Context): Outcome {
    var e := Lookup(s.table, c.page);
    if e.busy then Outcome(s, c.(seen := e), true)
    else Outcome(s, c.(seen := e, phase := Initing), false)
  }

  function UnpinTurn(s: Core, c: Context): Outcome
    requires c.kind.Unpin? && (c.seen.exist ==> Lookup(s.table, c.page).refCount > 0)
  {
    var s' := if c.seen.exist then UnpinResident(s, c.page, c.kind.isWrite) else s;
    Outcome(s', c.(phase := End), true)
  }

  function HitTurn(s: Core, c: Context): Outcome {
    Outcome(PinResident(s, c.page), c.(frame := Lookup(s.table, c.page).frame, victim := None, phase := End), true)
  }

  function RefuseTurn(s: Core, c: Context): Outcome {
    Outcome(s, c.(frame := EMPTY_FRAME, phase := End), true)
  }

  function FreeTurn(s: Core, c: Context): Outcome {
    Outcome(MapFree(s, c.page), c.(frame := NextFrame(s), phase := Evicting, processing := false), false)
  }

  function VictimTurn(s: Core, c: Context, rejected: set<Frame>, f: Frame): Outcome
    requires f in s.owner
  {
    var v := s.owner[f];
    var dirty := Lookup(s.table, v).dirty;
    var (done, io) := EvictFunc(NEW_IO, dirty);
    Outcome(MapEvicting(s, c.page, rejected, f),
            c.(frame := f, victim := Some(v), dirty := dirty, phase := Evicting, processing := !done, io := io),
            !done)
  }

  ghost predicate InitingTurn(s: Core, c: Context, o: Outcome) {
    if c.kind.Unpin? then
      (c.seen.exist ==> Lookup(s.table, c.page).refCount > 0) && o == UnpinTurn(s, c)
    else if c.seen.exist then o == HitTurn(s, c)
    else if FullPin(s) then o == RefuseTurn(s, c)
    else if !Full(s) then o == FreeTurn(s, c)
    else exists rejected, f :: Selects(s, rejected, f) && o == VictimTurn(s, c, rejected, f)
  }

  /** Another poll of the eviction callback. */
  function EvictPoll(s: Core, c: Context): Outcome {
    var (done, io) := EvictFunc(c.io, c.dirty);
    Outcome(s, c.(processing := !done, io := io), !done)
  }

  /** The victim is written back: release it, claim the frame, and start the load. */
  function EvictDone(s: Core, c: Context): Outcome {
    var t := if c.victim.Some?
             then Put(s.table, c.victim.value, Released(Lookup(s.table, c.victim.value)))
             else s.table;
    var (done, io) := LoadFunc(NEW_IO, c.frame in s.loaded);
    Outcome(s.(table := t, owner := s.owner[c.frame := c.page], loaded := s.loaded + {c.frame}),
            c.(phase := Loading, processing := !done, io := io),
            !done)
  }

  function LoadPoll(s: Core, c: Context): Outcome {
    var (done, io) := LoadFunc(c.io, c.frame in s.loaded);
    Outcome(s.(loaded := s.loaded + {c.frame}), c.(processing := !done, io := io), !done)
  }

  function LoadDone(s: Core, c: Context): Outcome {
    Outcome(s.(table := Put(s.table, c.page, Released(Lookup(s.table, c.page)))), c.(phase := End), true)
  }

  /** One turn of the loop in `process`. */
  ghost predicate Iter(s: Core, c: Context, o: Outcome) {
    match c.phase
    case Begin => o == BeginTurn(s, c)
    case Initing => InitingTurn(s, c, o)
    case Evicting => o == if c.processing then EvictPoll(s, c) else EvictDone(s, c)
    case Loading => o == if c.processing then LoadPoll(s, c) else LoadDone(s, c)
    case End => false
  }

  /** Turn `i + 1` follows turn `i`, which does not return. */
  ghost predicate Follows(tr: seq<Outcome>, i: nat)
    requires i + 1 < |tr|
  {
    !tr[i].stop && Iter(tr[i].core, tr[i].ctx, tr[i + 1])
  }

  /** Consecutive turns of one call of `process`: only the last may return. */
  ghost predicate Turns(tr: seq<Outcome>) {
    |tr| > 0 && forall i | 0 <= i < |tr| - 1 :: Follows(tr, i)
  }
}
