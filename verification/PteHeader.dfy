/**
 * One page-table entry header under compare-and-swap by any number of threads.
 *
 * A thread loads the packed header, computes a new one from what it loaded, and swaps it in if the header
 * still reads the same; otherwise, or when the swap fails spuriously, it starts over from the current
 * header. The thread that has locked the entry maps or unmaps the page with plain writes. The reference
 * count is a 13-bit field.
 */
module PteHeader {
  import opened Basics

  const REF_LIMIT: nat := 8192
  const MAX_THREADS: nat := 2048

  datatype Header = Header(exist: bool, busy: bool, dirty: bool, ref: nat)

  datatype Op = Inc | Dec(isWrite: bool) | Lock | Unlock

  /** An operation under way, and the header it last loaded. */
  datatype Try = Try(op: Op, seen: Header)

  /** `pins` are the pins held, by thread; `promised` is the thread a new mapping is pinned for, which learns
      of it when the lock is released; `written` says a pin was given back as dirty since the page was mapped. */
  datatype World = World(
    header: Header, tries: map<nat, Try>, pins: multiset<nat>, holder: Option<nat>, promised: Option<nat>,
      written: bool)

  const INIT: World := World(Header(false, false, false, 0), map[], multiset{}, None, None, false)

  /** The test on the loaded header; where it fails the operation returns false, or for Dec trips an assertion. */
  predicate Passes(op: Op, h: Header) {
    match op
    case Inc => h.exist && !h.busy
    case Dec(_) => h.exist && !h.busy && h.ref > 0
    case Lock => h.ref == 0 && !h.busy
    case Unlock => h.busy
  }

  function New(op: Op, h: Header): Header {
    match op
    case Inc => h.(ref := (h.ref + 1) % REF_LIMIT)
    case Dec(isWrite) => h.(ref := (h.ref + REF_LIMIT - 1) % REF_LIMIT, dirty := h.dirty || isWrite)
    case Lock => h.(busy := true)
    case Unlock => h.(busy := false)
  }

  datatype Step =
    | Load(t: nat, op: Op)
    | GiveUp(t: nat)
    | Swap(t: nat)
    | Fail(t: nat)
    | MapExist(t: nat)
    | MapRef(t: nat, owner: nat)
    | Unmap(t: nat)

  predicate Enabled(w: World, st: Step) {
    match st
    // Only a holder of a pin gives one back; only the holder of the lock releases it.
    case Load(t, op) => t !in w.tries && (op.Dec? ==> t in w.pins) && (op.Unlock? ==> w.holder == Some(t))
    case GiveUp(t) => t in w.tries && !w.tries[t].op.Dec? && !Passes(w.tries[t].op, w.tries[t].seen)
    case Swap(t) => t in w.tries && Passes(w.tries[t].op, w.tries[t].seen) && w.header == w.tries[t].seen
    case Fail(t) => t in w.tries && Passes(w.tries[t].op, w.tries[t].seen)
    case MapExist(t) => w.holder == Some(t) && t !in w.tries && !w.header.exist
    case MapRef(t, owner) => w.holder == Some(t) && t !in w.tries && w.header.exist && w.promised.None?
    case Unmap(t) => w.holder == Some(t) && t !in w.tries && w.promised.None?
  }

  function Swapped(w: World, t: nat, op: Op): World {
    var w' := w.(header := New(op, w.header), tries := w.tries - {t});
    match op
    case Inc => w'.(pins := w.pins + multiset{t})
    case Dec(isWrite) => w'.(pins := w.pins - multiset{t}, written := w.written || isWrite)
    case Lock => w'.(holder := Some(t))
    case Unlock =>
      w'.(holder := None, promised := None,
          pins := if w.promised.Some? then w.pins + multiset{w.promised.value} else w.pins)
  }

  function Apply(w: World, st: Step): World
    requires Enabled(w, st)
  {
    match st
    case Load(t, op) => w.(tries := w.tries[t := Try(op, w.header)])
    case GiveUp(t) => w.(tries := w.tries - {t})
    case Swap(t) => Swapped(w, t, w.tries[t].op)
    case Fail(t) => w.(tries := w.tries[t := Try(w.tries[t].op, w.header)])
    case MapExist(t) => w.(header := w.header.(exist := true))
    case MapRef(t, owner) => w.(header := w.header.(ref := 1), promised := Some(owner))
    case Unmap(t) => w.(header := w.header.(exist := false, dirty := false), written := false)
  }

  ghost predicate Run(ws: seq<World>, sts: seq<Step>) {
    && |ws| == |sts| + 1 && ws[0] == INIT
    && forall i | 0 <= i < |sts| :: Enabled(ws[i], sts[i]) && ws[i + 1] == Apply(ws[i], sts[i])
  }

  function Owners(w: World): nat { |w.pins| + if w.promised.Some? then 1 else 0 }

  // ---------------------------------------------------------------- what holds in every run

  predicate TryInv(w: World, t: nat) {
    t in w.tries ==>
      && (w.tries[t].op.Dec? ==> t in w.pins)
      && (w.tries[t].op.Unlock? ==> w.holder == Some(t))
  }

  ghost predicate Inv(w: World) {
    && (w.header.busy <==> w.holder.Some?)
    && (w.promised.Some? ==> w.holder.Some?)
    && w.header.ref == Owners(w) % REF_LIMIT
    && (w.header.busy && w.promised.None? ==> w.header.ref == 0)
    && (w.written <==> w.header.dirty)
    && forall t: nat :: TryInv(w, t)
  }

  lemma CountWraps(n: nat)
    ensures (n % REF_LIMIT + 1) % REF_LIMIT == (n + 1) % REF_LIMIT
    ensures ((n + 1) % REF_LIMIT + REF_LIMIT - 1) % REF_LIMIT == n % REF_LIMIT
  {
    assert (n % 8192 + 1) % 8192 == (n + 1) % 8192;
  }

  lemma SwapCount(w: World, t: nat)
    requires Inv(w) && Enabled(w, Swap(t)) && (w.tries[t].op.Dec? ==> t in w.pins)
    ensures Apply(w, Swap(t)).header.ref == Owners(Apply(w, Swap(t))) % REF_LIMIT
  {
    match w.tries[t].op
    case Inc => CountWraps(Owners(w));
    case Dec(_) => CountWraps(Owners(w) - 1);
    case _ =>
  }

  lemma SwapInv(w: World, t: nat)
    requires Inv(w) && Enabled(w, Swap(t))
    ensures Inv(Apply(w, Swap(t)))
  {
    assert TryInv(w, t);
    SwapCount(w, t);
    var w' := Apply(w, Swap(t));
    forall u: nat ensures TryInv(w', u) { assert TryInv(w, u); }
  }

  lemma InvStep(w: World, st: Step)
    requires Inv(w) && Enabled(w, st)
    ensures Inv(Apply(w, st))
  {
    if st.Swap? {
      SwapInv(w, st.t);
    } else {
      var w' := Apply(w, st);
      forall u: nat ensures TryInv(w', u) { assert TryInv(w, u); }
    }
  }

  lemma {:induction false} RunInv(ws: seq<World>, sts: seq<Step>, i: nat)
    requires Run(ws, sts) && i < |ws|
    ensures Inv(ws[i])
  {
    if i > 0 {
      RunInv(ws, sts, i - 1);
      InvStep(ws[i - 1], sts[i - 1]);
    } else {
      forall t: nat ensures TryInv(INIT, t) {}
    }
  }

  /** The count is the number of pins up to the width of the field; a lock is granted exactly when that
      reads zero and no one has it; and the page is dirty exactly when a pin was given back as dirty since it was
      mapped. */
  lemma RefCountIsPins(ws: seq<World>, sts: seq<Step>, i: nat)
    requires Run(ws, sts) && i < |ws|
    ensures ws[i].header.ref == Owners(ws[i]) % REF_LIMIT
    ensures Passes(Lock, ws[i].header) <==> ws[i].holder.None? && Owners(ws[i]) % REF_LIMIT == 0
    ensures ws[i].header.busy <==> ws[i].holder.Some?
    ensures ws[i].written <==> ws[i].header.dirty
  {
    RunInv(ws, sts, i);
  }

  /** While the entry is locked no other thread's swap goes through, so the holder's plain writes race with none. */
  lemma LockedAgainstSwaps(ws: seq<World>, sts: seq<Step>, i: nat)
    requires Run(ws, sts) && i < |sts| && ws[i].header.busy && sts[i].Swap?
    ensures ws[i].holder == Some(sts[i].t) && ws[i].tries[sts[i].t].op.Unlock?
  {
    RunInv(ws, sts, i);
    assert TryInv(ws[i], sts[i].t);
  }

  // ---------------------------------------------------------------- when every client holds at most one pin

  /** The private caches' discipline: a client pins a page at most once, and client ids are limited. */
  predicate OneEach(w: World) {
    && (forall t | t in w.pins :: t < 2048 && w.pins[t] == 1)
    && (w.promised.Some? ==> w.promised.value < 2048 && w.promised.value !in w.pins)
  }

  lemma {:induction false} BoundedSize(pins: multiset<nat>, n: nat)
    requires forall t | t in pins :: t < n && pins[t] == 1
    ensures |pins| <= n
  {
    if n == 0 {
      assert pins == multiset{};
    } else {
      var rest := pins[n - 1 := 0];
      forall t | t in rest ensures t < n - 1 && rest[t] == 1 { assert t in pins; }
      BoundedSize(rest, n - 1);
      if n - 1 in pins { assert pins == rest + multiset{n - 1}; } else { assert pins == rest; }
    }
  }

  lemma OwnersBound(w: World)
    requires OneEach(w)
    ensures Owners(w) <= MAX_THREADS
  {
    if w.promised.Some? {
      var pins := w.pins + multiset{w.promised.value};
      forall t | t in pins ensures t < MAX_THREADS && pins[t] == 1 { if t != w.promised.value { assert t in w.pins; } }
      BoundedSize(pins, MAX_THREADS);
    } else {
      BoundedSize(w.pins, MAX_THREADS);
    }
  }

  predicate DecReady(w: World, t: nat) {
    t in w.tries && w.tries[t].op.Dec? ==> Passes(w.tries[t].op, w.tries[t].seen)
  }

  ghost predicate Exclusive(w: World) {
    && (w.pins != multiset{} ==> w.header.exist && !w.header.busy)
    && (w.promised.Some? ==> w.header.exist)
    && forall t: nat :: DecReady(w, t)
  }

  lemma ExclusiveStep(w: World, st: Step)
    requires Inv(w) && Exclusive(w) && OneEach(w) && Enabled(w, st)
    ensures Exclusive(Apply(w, st))
  {
    OwnersBound(w);
    var w' := Apply(w, st);
    PinsMapped(w, st);
    forall t: nat ensures DecReady(w', t) { assert DecReady(w, t) && TryInv(w, t); }
  }

  /** With a count that has not wrapped, pins are only held of a mapped, unlocked page. */
  lemma PinsMapped(w: World, st: Step)
    requires Inv(w) && Exclusive(w) && Owners(w) <= 2048 && Enabled(w, st)
    ensures var w' := Apply(w, st);
      (w'.pins != multiset{} ==> w'.header.exist && !w'.header.busy) && (w'.promised.Some? ==> w'.header.exist)
  {
    if st.Swap? { assert TryInv(w, st.t); }
  }

  lemma {:induction false} RunExclusive(ws: seq<World>, sts: seq<Step>, i: nat)
    requires Run(ws, sts) && i < |ws| && forall j | 0 <= j <= i :: OneEach(ws[j])
    ensures Exclusive(ws[i])
  {
    if i > 0 {
      RunExclusive(ws, sts, i - 1);
      RunInv(ws, sts, i - 1);
      ExclusiveStep(ws[i - 1], sts[i - 1]);
    } else {
      forall t: nat ensures DecReady(INIT, t) {}
    }
  }

  /** With at most 2048 clients and one pin each the 13-bit count never wraps: it is the number of pins, a
      locked entry has none handed out, a pinned page stays mapped, and the assertions of dec_ref_count hold. */
  lemma CountNeverWraps(ws: seq<World>, sts: seq<Step>, i: nat)
    requires Run(ws, sts) && i < |ws| && forall j | 0 <= j <= i :: OneEach(ws[j])
    ensures var w := ws[i];
      && w.header.ref == Owners(w) <= 2048
      && (w.header.busy ==> w.pins == multiset{})
      && (w.pins != multiset{} ==> w.header.exist)
      && (forall t | t in w.tries && w.tries[t].op.Dec? ::
           w.tries[t].seen.exist && !w.tries[t].seen.busy && w.tries[t].seen.ref > 0)
  {
    RunInv(ws, sts, i);
    RunExclusive(ws, sts, i);
    OwnersBound(ws[i]);
    forall t | t in ws[i].tries && ws[i].tries[t].op.Dec? ensures Passes(ws[i].tries[t].op, ws[i].tries[t].seen) {
      assert DecReady(ws[i], t);
    }
  }

  // ---------------------------------------------------------------- without that discipline

  /** A mapped, unlocked entry with `n` pins of thread 0, at the end of the run `ws`. */
  ghost predicate Reaches(ws: seq<World>, sts: seq<Step>, n: nat) {
    && Run(ws, sts)
    && ws[|sts|] == World(Header(true, false, false, n % REF_LIMIT), map[], multiset{}[0 := n], None, None, false)
  }

  lemma Extend(ws: seq<World>, sts: seq<Step>, st: Step) returns (ws': seq<World>)
    requires Run(ws, sts) && Enabled(ws[|sts|], st)
    ensures Run(ws', sts + [st]) && ws'[|sts| + 1] == Apply(ws[|sts|], st)
  {
    ws' := ws + [Apply(ws[|sts|], st)];
  }

  lemma MapFirst() returns (ws: seq<World>, sts: seq<Step>)
    ensures Reaches(ws, sts, 0)
  {
    ws, sts := [INIT], [];
    ws := Extend(ws, sts, Load(0, Lock)); sts := sts + [Load(0, Lock)];
    ws := Extend(ws, sts, Swap(0)); sts := sts + [Swap(0)];
    ws := Extend(ws, sts, MapExist(0)); sts := sts + [MapExist(0)];
    ws := Extend(ws, sts, Load(0, Unlock)); sts := sts + [Load(0, Unlock)];
    ws := Extend(ws, sts, Swap(0)); sts := sts + [Swap(0)];
  }

  lemma {:induction false} PinMany(n: nat) returns (ws: seq<World>, sts: seq<Step>)
    ensures Reaches(ws, sts, n)
  {
    if n == 0 {
      ws, sts := MapFirst();
    } else {
      ws, sts := PinMany(n - 1);
      ws := Extend(ws, sts, Load(0, Inc)); sts := sts + [Load(0, Inc)];
      ws := Extend(ws, sts, Swap(0)); sts := sts + [Swap(0)];
    }
  }

  /** Without it, 8192 pins read as none, and the page can be locked under them. */
  lemma UnlimitedPinsWrap() returns (ws: seq<World>, sts: seq<Step>)
    ensures Run(ws, sts) && |ws[|sts|].pins| == 8192 && ws[|sts|].header.ref == 0
    ensures Passes(Lock, ws[|sts|].header)
  {
    ws, sts := PinMany(REF_LIMIT);
  }
}
