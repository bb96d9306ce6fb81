/**
 * The levels joined. A partition's coherence rests on clients that give back as dirty what they have stored
 * through a pin; the private caches' histories are faithful. Here the two meet: a run in which nothing is
 * asked of the clients, but whose threads' histories are those of private caches, is a run of the partition,
 * and so every store of a thread is seen by whoever pins the page next, after the thread's flush included.
 */
module Visibility {
  import opened Basics
  import opened PageCache
  import opened CacheSystem
  import opened CacheInvariant
  import opened CacheTheorems
  import P = PrivateCaches
  import Partitioner

  // ---------------------------------------------------------------- runs without discipline

  /** As Enabled, but a client may give back as clean a pin it has stored through. */
  ghost predicate LooseEnabled(w: World, st: Step) {
    match st
    case DirectUnpin(id, _) => MayUnpin(w, id, true) && w.tokens[id].frame < |w.mem|
    case ServerUnpin(id, _) => w.server == None && MayUnpin(w, id, true) && w.tokens[id].frame < |w.mem|
    case _ => Enabled(w, st)
  }

  /** A run of clients that may do so; what follows when one does is left open. */
  ghost predicate LooseRun(ws: seq<World>, sts: seq<Step>) {
    && |ws| == |sts| + 1 && Init(ws[0])
    && forall i | 0 <= i < |sts| ::
         LooseEnabled(ws[i], sts[i]) && (Enabled(ws[i], sts[i]) ==> ws[i + 1] == Apply(ws[i], sts[i]))
  }

  /** What the step is in the history of the thread that owns the token, if anything. */
  function EventOf(w: World, st: Step): Option<(nat, P.Event)> {
    match st
    case DirectPin(id, p) => Some((id, P.Acquire(p)))
    case Serve(o, _) =>
      if w.server.Some? && o.ctx.phase.End? && o.ctx.frame != EMPTY_FRAME
      then Some((w.server.value, P.Acquire(o.ctx.page)))
      else None
    case DirectUnpin(id, isWrite) => if IsHeld(w, id) then Some((id, P.Release(w.tokens[id].page, isWrite))) else None
    case ServerUnpin(id, isWrite) => if IsHeld(w, id) then Some((id, P.Release(w.tokens[id].page, isWrite))) else None
    case Store(id, _) => if IsHeld(w, id) then Some((id, P.Write(w.tokens[id].page))) else None
    case _ => None
  }

  /** The history of thread `t` after `k` steps; `who` says whose each token is. */
  function LogOf(ws: seq<World>, sts: seq<Step>, who: nat -> nat, t: nat, k: nat): seq<P.Event>
    requires k <= |sts| && |ws| == |sts| + 1
  {
    if k == 0 then [] else
      var e := EventOf(ws[k - 1], sts[k - 1]);
      LogOf(ws, sts, who, t, k - 1) + if e.Some? && who(e.value.0) == t then [e.value.1] else []
  }

  /** The thread's pins of page `p`. */
  function Mine(w: World, who: nat -> nat, t: nat, p: Page): set<nat> {
    set id | id in w.tokens && w.tokens[id].Held? && who(id) == t && w.tokens[id].page == p
  }

  /** The history counts the thread's pins, and remembers what it stored. */
  ghost predicate Tallies(w: World, who: nat -> nat, t: nat, log: seq<P.Event>) {
    && (forall p :: P.Held(log, p) == |Mine(w, who, t, p)|)
    && (forall id | IsHeld(w, id) && who(id) == t && w.tokens[id].wrote :: P.Wrote(log, w.tokens[id].page))
  }

  lemma {:induction false} LogGrows(ws: seq<World>, sts: seq<Step>, who: nat -> nat, t: nat, j: nat, k: nat)
    requires j <= k <= |sts| && |ws| == |sts| + 1
    ensures LogOf(ws, sts, who, t, j) <= LogOf(ws, sts, who, t, k)
  {
    if j < k { LogGrows(ws, sts, who, t, j, k - 1); }
  }

  /** The tokens of the others are the same pins as before. */
  ghost predicate OthersStay(w: World, w': World, who: nat -> nat, t: nat, id: nat) {
    forall x | who(x) == t && x != id :: IsHeld(w', x) == IsHeld(w, x) && (IsHeld(w, x) ==> w'.tokens[x] == w.tokens[x])
  }

  lemma AcquireTally(w: World, w': World, who: nat -> nat, t: nat, log: seq<P.Event>, id: nat, p: Page)
    requires Tallies(w, who, t, log) && OthersStay(w, w', who, t, id) && who(id) == t
    requires !IsHeld(w, id) && IsHeld(w', id) && w'.tokens[id].page == p && !w'.tokens[id].wrote
    ensures Tallies(w', who, t, log + [P.Acquire(p)])
  {
    forall q ensures P.Held(log + [P.Acquire(p)], q) == |Mine(w', who, t, q)| {
      P.Extended(log, P.Acquire(p), q);
      OneMember(Mine(w, who, t, q), Mine(w', who, t, q), id);
    }
    forall x | IsHeld(w', x) && who(x) == t && w'.tokens[x].wrote
      ensures P.Wrote(log + [P.Acquire(p)], w'.tokens[x].page)
    {
      P.Extended(log, P.Acquire(p), w'.tokens[x].page);
    }
  }

  lemma ReleaseTally(w: World, w': World, who: nat -> nat, t: nat, log: seq<P.Event>, id: nat, dirty: bool)
    requires Tallies(w, who, t, log) && OthersStay(w, w', who, t, id) && who(id) == t && P.Modest(log)
    requires IsHeld(w, id) && !IsHeld(w', id)
    ensures Tallies(w', who, t, log + [P.Release(w.tokens[id].page, dirty)])
  {
    var p := w.tokens[id].page;
    var e := P.Release(p, dirty);
    forall q ensures P.Held(log + [e], q) == |Mine(w', who, t, q)| {
      P.Extended(log, e, q);
      OneMember(Mine(w, who, t, q), Mine(w', who, t, q), id);
    }
    forall x | IsHeld(w', x) && who(x) == t && w'.tokens[x].wrote ensures P.Wrote(log + [e], w'.tokens[x].page) {
      ReleaseWrote(w, who, t, log, id, x, e);
    }
  }

  lemma ReleaseWrote(w: World, who: nat -> nat, t: nat, log: seq<P.Event>, id: nat, x: nat, e: P.Event)
    requires Tallies(w, who, t, log) && P.Modest(log) && IsHeld(w, id)
    requires who(id) == t && IsHeld(w, x) && who(x) == t && x != id
    requires w.tokens[x].wrote && e.Release? && e.page == w.tokens[id].page
    ensures P.Wrote(log + [e], w.tokens[x].page)
  {
    P.Extended(log, e, w.tokens[x].page);
    assert w.tokens[x].page != e.page by { if w.tokens[x].page == e.page { TwoPins(w, who, t, log, id, x); } }
  }

  /** A modest thread has no second pin of a page. */
  lemma TwoPins(w: World, who: nat -> nat, t: nat, log: seq<P.Event>, x: nat, y: nat)
    requires Tallies(w, who, t, log) && P.Modest(log) && IsHeld(w, x) && IsHeld(w, y) && who(x) == t && who(y) == t
    requires w.tokens[x].page == w.tokens[y].page
    ensures x == y
  {
    var p := w.tokens[x].page;
    P.HeldOnce(log, p);
    var rest := Mine(w, who, t, p) - {x};
    assert |rest| == 0;
    assert y !in rest;
  }

  lemma WriteTally(w: World, w': World, who: nat -> nat, t: nat, log: seq<P.Event>, id: nat)
    requires Tallies(w, who, t, log) && OthersStay(w, w', who, t, id) && who(id) == t
    requires IsHeld(w, id) && IsHeld(w', id) && w'.tokens[id].page == w.tokens[id].page
    ensures Tallies(w', who, t, log + [P.Write(w.tokens[id].page)])
  {
    var e := P.Write(w.tokens[id].page);
    forall q ensures P.Held(log + [e], q) == |Mine(w', who, t, q)| {
      P.Extended(log, e, q);
      OneMember(Mine(w, who, t, q), Mine(w', who, t, q), id);
    }
    forall x | IsHeld(w', x) && who(x) == t && w'.tokens[x].wrote ensures P.Wrote(log + [e], w'.tokens[x].page) {
      P.Extended(log, e, w'.tokens[x].page);
    }
  }

  /** A token not of the step's event is the same pin afterwards, if it is one. */
  lemma SamePin(w: World, st: Step, x: nat)
    requires Enabled(w, st) && (EventOf(w, st).None? || EventOf(w, st).value.0 != x)
    ensures IsHeld(Apply(w, st), x) == IsHeld(w, x) && (IsHeld(w, x) ==> Apply(w, st).tokens[x] == w.tokens[x])
  {
    if st.Serve? { SamePinServed(w, st.o, st.torn, x); }
  }

  lemma SamePinServed(w: World, o: Outcome, torn: Contents, x: nat)
    requires Enabled(w, Serve(o, torn)) && (EventOf(w, Serve(o, torn)).None? || w.server.value != x)
    ensures var w' := Served(w, o, torn);
      IsHeld(w', x) == IsHeld(w, x) && (IsHeld(w, x) ==> w'.tokens[x] == w.tokens[x])
  {
  }

  lemma OthersStep(w: World, st: Step, who: nat -> nat, t: nat, id: nat)
    requires Inv(w) && Enabled(w, st)
    requires EventOf(w, st).None? || EventOf(w, st).value.0 == id || who(EventOf(w, st).value.0) != t
    ensures OthersStay(w, Apply(w, st), who, t, id)
  {
    forall x | who(x) == t && x != id
      ensures IsHeld(Apply(w, st), x) == IsHeld(w, x) && (IsHeld(w, x) ==> Apply(w, st).tokens[x] == w.tokens[x])
    {
      SamePin(w, st, x);
    }
  }

  /** A step in nobody's history, or in another thread's, changes no pin of this one. */
  lemma QuietTally(w: World, st: Step, who: nat -> nat, t: nat, log: seq<P.Event>)
    requires Inv(w) && Enabled(w, st) && Tallies(w, who, t, log)
    requires EventOf(w, st).None? || who(EventOf(w, st).value.0) != t
    ensures Tallies(Apply(w, st), who, t, log)
  {
    var w' := Apply(w, st);
    forall x | who(x) == t ensures IsHeld(w', x) == IsHeld(w, x) && (IsHeld(w, x) ==> w'.tokens[x] == w.tokens[x]) {
      SamePin(w, st, x);
    }
    forall p ensures Mine(w', who, t, p) == Mine(w, who, t, p) {}
  }

  /** A step in the thread's history. */
  lemma EventTally(w: World, st: Step, who: nat -> nat, t: nat, log: seq<P.Event>)
    requires Inv(w) && Enabled(w, st) && Tallies(w, who, t, log) && P.Modest(log)
    requires EventOf(w, st).Some? && who(EventOf(w, st).value.0) == t
    ensures Tallies(Apply(w, st), who, t, log + [EventOf(w, st).value.1])
  {
    var w', id := Apply(w, st), EventOf(w, st).value.0;
    OthersStep(w, st, who, t, id);
    match st
    case DirectPin(_, p) => AcquireTally(w, w', who, t, log, id, p);
    case Serve(o, _) => assert TokenInv(w, id); AcquireTally(w, w', who, t, log, id, o.ctx.page);
    case DirectUnpin(_, isWrite) => ReleaseTally(w, w', who, t, log, id, isWrite);
    case ServerUnpin(_, isWrite) => ReleaseTally(w, w', who, t, log, id, isWrite);
    case Store(_, _) => WriteTally(w, w', who, t, log, id);
  }

  /** A faithful thread gives back as dirty what it has stored through. */
  lemma Disciplined(w: World, st: Step, who: nat -> nat, log: seq<P.Event>)
    requires LooseEnabled(w, st)
    requires EventOf(w, st).Some? ==>
      var e := EventOf(w, st).value; Tallies(w, who, who(e.0), log) && P.Faithful(log + [e.1])
    ensures Enabled(w, st)
  {
    if st.DirectUnpin? || st.ServerUnpin? {
      var e := EventOf(w, st).value;
      P.Extended(log, e.1, e.1.page);
    }
  }

  // ---------------------------------------------------------------- faithful threads make runs

  /** All threads' histories so far are a private cache's: faithful and modest. */
  ghost predicate GoodLogs(ws: seq<World>, sts: seq<Step>, who: nat -> nat)
    requires |ws| == |sts| + 1
  {
    forall t: nat :: GoodLog(LogOf(ws, sts, who, t, |sts|))
  }

  ghost predicate GoodLog(log: seq<P.Event>) { P.Faithful(log) && P.Modest(log) }

  lemma LogSoFar(ws: seq<World>, sts: seq<Step>, who: nat -> nat, t: nat, k: nat)
    requires |ws| == |sts| + 1 && k <= |sts| && GoodLogs(ws, sts, who)
    ensures GoodLog(LogOf(ws, sts, who, t, k))
  {
    var all, log := LogOf(ws, sts, who, t, |sts|), LogOf(ws, sts, who, t, k);
    assert GoodLog(all);
    LogGrows(ws, sts, who, t, k, |sts|);
    P.PrefixGood(all, |log|);
    assert all[..|log|] == log;
  }

  /** Up to step `k` the clients keep to what the partition asks of them. */
  lemma {:induction false} RunSoFar(ws: seq<World>, sts: seq<Step>, who: nat -> nat, k: nat)
    requires LooseRun(ws, sts) && k <= |sts| && GoodLogs(ws, sts, who)
    ensures forall i | 0 <= i < k :: Enabled(ws[i], sts[i]) && ws[i + 1] == Apply(ws[i], sts[i])
    ensures Inv(ws[k]) && forall t: nat :: Tallies(ws[k], who, t, LogOf(ws, sts, who, t, k))
  {
    if k == 0 {
      InitInv(ws[0]);
      forall t: nat ensures Tallies(ws[0], who, t, []) {
        forall p ensures Mine(ws[0], who, t, p) == {} {}
      }
    } else {
      RunSoFar(ws, sts, who, k - 1);
      EnabledNext(ws, sts, who, k - 1);
      StepKeeps(ws[k - 1], sts[k - 1]);
      forall t: nat ensures Tallies(ws[k], who, t, LogOf(ws, sts, who, t, k)) { TallyNext(ws, sts, who, k - 1, t); }
    }
  }

  lemma EnabledNext(ws: seq<World>, sts: seq<Step>, who: nat -> nat, k: nat)
    requires LooseRun(ws, sts) && k < |sts| && GoodLogs(ws, sts, who)
    requires forall t: nat :: Tallies(ws[k], who, t, LogOf(ws, sts, who, t, k))
    ensures Enabled(ws[k], sts[k])
  {
    var e := EventOf(ws[k], sts[k]);
    if e.Some? {
      var t := who(e.value.0);
      LogSoFar(ws, sts, who, t, k + 1);
      Disciplined(ws[k], sts[k], who, LogOf(ws, sts, who, t, k));
    } else {
      Disciplined(ws[k], sts[k], who, []);
    }
  }

  lemma TallyNext(ws: seq<World>, sts: seq<Step>, who: nat -> nat, k: nat, t: nat)
    requires |ws| == |sts| + 1 && k < |sts| && GoodLogs(ws, sts, who) && Inv(ws[k])
    requires Enabled(ws[k], sts[k]) && ws[k + 1] == Apply(ws[k], sts[k])
    requires Tallies(ws[k], who, t, LogOf(ws, sts, who, t, k))
    ensures Tallies(ws[k + 1], who, t, LogOf(ws, sts, who, t, k + 1))
  {
    var log, e := LogOf(ws, sts, who, t, k), EventOf(ws[k], sts[k]);
    LogSoFar(ws, sts, who, t, k);
    if e.Some? && who(e.value.0) == t {
      EventTally(ws[k], sts[k], who, t, log);
    } else {
      QuietTally(ws[k], sts[k], who, t, log);
      assert LogOf(ws, sts, who, t, k + 1) == log;
    }
  }

  /** Threads with such histories need not be asked for discipline: their runs are runs of the partition. */
  lemma FaithfulThreadsRun(ws: seq<World>, sts: seq<Step>, who: nat -> nat)
    requires LooseRun(ws, sts) && GoodLogs(ws, sts, who)
    ensures Run(ws, sts)
  {
    RunSoFar(ws, sts, who, |sts|);
  }

  // ---------------------------------------------------------------- the private caches behind the threads

  function Local(e: P.Event, parts: nat): P.Event
    requires parts > 0
  {
    e.(page := Partitioner.Locate(parts, e.page).block)
  }

  /** The part of a thread's history that partition `part` sees, in its own page numbers. */
  function Project(log: seq<P.Event>, parts: nat, part: nat): seq<P.Event>
    requires parts > 0
  {
    if log == [] then [] else
      var e, front := log[|log| - 1], Project(log[..|log| - 1], parts, part);
      if Partitioner.Locate(parts, e.page).part == part then front + [Local(e, parts)] else front
  }

  /** Which events of a partition are about one of its pages. */
  lemma SamePage(e: P.Event, parts: nat, part: nat, b: Page)
    requires part < parts && Partitioner.Locate(parts, e.page).part == part
    ensures Local(e, parts).page == b <==> e.page == Partitioner.Globalize(parts, Partitioner.Loc(part, b))
  {
    Partitioner.RoundTrip(parts, e.page, Partitioner.Loc(part, b));
  }

  /** What it says of a page is what the history says of it. */
  lemma {:induction false} ProjectReads(log: seq<P.Event>, parts: nat, part: nat, b: Page, p: Page)
    requires part < parts && p == Partitioner.Globalize(parts, Partitioner.Loc(part, b))
    ensures P.Held(Project(log, parts, part), b) == P.Held(log, p)
    ensures P.Wrote(Project(log, parts, part), b) <==> P.Wrote(log, p)
  {
    if log != [] {
      var e, front := log[|log| - 1], log[..|log| - 1];
      ProjectReads(front, parts, part, b, p);
      if Partitioner.Locate(parts, e.page).part == part {
        SamePage(e, parts, part, b);
        P.Extended(Project(front, parts, part), Local(e, parts), b);
      } else {
        Partitioner.RoundTrip(parts, e.page, Partitioner.Loc(part, b));
      }
    }
  }

  lemma {:induction false} ProjectGood(log: seq<P.Event>, parts: nat, part: nat)
    requires part < parts && GoodLog(log)
    ensures GoodLog(Project(log, parts, part))
  {
    if log != [] {
      var e, front := log[|log| - 1], log[..|log| - 1];
      ProjectGood(front, parts, part);
      if Partitioner.Locate(parts, e.page).part == part {
        var b := Local(e, parts).page;
        SamePage(e, parts, part, b);
        ProjectReads(front, parts, part, b, e.page);
        P.Extended(Project(front, parts, part), Local(e, parts), b);
      }
    }
  }

  /** The thread's history in this partition is that of its private cache. */
  ghost predicate Backed(ws: seq<World>, sts: seq<Step>, who: nat -> nat, t: nat, v: P.Priv, part: nat)
    requires |ws| == |sts| + 1
  {
    P.Ok(v) && part < v.parts && LogOf(ws, sts, who, t, |sts|) == Project(v.log, v.parts, part)
  }

  lemma BackedRuns(ws: seq<World>, sts: seq<Step>, who: nat -> nat, privs: nat -> P.Priv, part: nat)
    requires LooseRun(ws, sts) && forall t: nat :: Backed(ws, sts, who, t, privs(t), part)
    ensures Run(ws, sts) && GoodLogs(ws, sts, who)
  {
    forall t: nat ensures GoodLog(LogOf(ws, sts, who, t, |sts|)) {
      assert Backed(ws, sts, who, t, privs(t), part);
      ProjectGood(privs(t).log, privs(t).parts, part);
    }
    FaithfulThreadsRun(ws, sts, who);
  }

  // ---------------------------------------------------------------- what the next reader sees

  predicate StoresTo(w: World, st: Step, p: Page) { st.Store? && IsHeld(w, st.id) && w.tokens[st.id].page == p }

  /** Only stores change the contents a page was given: unpins give it again what it shows. */
  lemma OnlyStores(w: World, st: Step, p: Page)
    requires Inv(w) && Enabled(w, st) && !StoresTo(w, st, p) && p in w.logical
    ensures p in Apply(w, st).logical && Apply(w, st).logical[p] == w.logical[p]
  {
    if st.DirectUnpin? || st.ServerUnpin? {
      assert TokenInv(w, st.id) && PageInv(w, w.tokens[st.id].page);
    }
  }

  lemma {:induction false} StoreStays(ws: seq<World>, sts: seq<Step>, i: nat, k: nat, p: Page)
    requires Run(ws, sts) && i < k <= |sts| && StoresTo(ws[i], sts[i], p)
    requires forall j | i < j < k :: !StoresTo(ws[j], sts[j], p)
    ensures p in ws[k].logical && ws[k].logical[p] == sts[i].value
  {
    if k > i + 1 {
      StoreStays(ws, sts, i, k - 1, p);
      RunInv(ws, sts, k - 1);
      OnlyStores(ws[k - 1], sts[k - 1], p);
    }
  }

  /** Threads working through private caches, nothing else asked of them: whoever holds a pin of a page sees
      the last store made to it by any of them, whatever evictions, reloads and flushes came between. */
  lemma StoresAreSeen(ws: seq<World>, sts: seq<Step>, who: nat -> nat, privs: nat -> P.Priv, part: nat,
                      i: nat, k: nat, p: Page, reader: nat)
    requires LooseRun(ws, sts) && forall t: nat :: Backed(ws, sts, who, t, privs(t), part)
    requires i < k <= |sts| && StoresTo(ws[i], sts[i], p) && forall j | i < j < k :: !StoresTo(ws[j], sts[j], p)
    requires IsHeld(ws[k], reader) && ws[k].tokens[reader].page == p
    ensures ws[k].tokens[reader].frame < |ws[k].mem| && ws[k].mem[ws[k].tokens[reader].frame] == sts[i].value
  {
    BackedRuns(ws, sts, who, privs, part);
    StoreStays(ws, sts, i, k, p);
    RunInv(ws, sts, k);
    assert TokenInv(ws[k], reader) && PageInv(ws[k], p);
  }

  lemma NoneMine(w: World, who: nat -> nat, t: nat, b: Page, id: nat)
    requires |Mine(w, who, t, b)| == 0 && IsHeld(w, id) && w.tokens[id].page == b
    ensures who(id) != t
  {
    assert id !in Mine(w, who, t, b);
  }

  /** And a thread that has just flushed has no pin left in the partition; once every thread that holds the
      page has only read it, its contents are those of the last unpin with is_write. */
  lemma FlushedThreadLeaves(ws: seq<World>, sts: seq<Step>, who: nat -> nat, privs: nat -> P.Priv, part: nat, t: nat,
                            i: nat, p: Page)
    requires LooseRun(ws, sts) && forall u: nat :: Backed(ws, sts, who, u, privs(u), part)
    requires forall q: Page :: P.Held(privs(t).log, q) == 0
    requires i < |sts| && StoresTo(ws[i], sts[i], p) && forall j | i < j < |sts| :: !StoresTo(ws[j], sts[j], p)
    ensures forall id | IsHeld(ws[|sts|], id) :: who(id) != t
    ensures (forall id | IsHeld(ws[|sts|], id) && ws[|sts|].tokens[id].page == p :: !ws[|sts|].tokens[id].wrote) ==>
      p in ws[|sts|].sealed && ws[|sts|].sealed[p] == sts[i].value
  {
    BackedRuns(ws, sts, who, privs, part);
    var n := |sts|;
    RunSoFar(ws, sts, who, n);
    assert Backed(ws, sts, who, t, privs(t), part) && Tallies(ws[n], who, t, LogOf(ws, sts, who, t, n));
    forall id | IsHeld(ws[n], id) ensures who(id) != t {
      var b := ws[n].tokens[id].page;
      ProjectReads(privs(t).log, privs(t).parts, part, b,
        Partitioner.Globalize(privs(t).parts, Partitioner.Loc(part, b)));
      NoneMine(ws[n], who, t, b, id);
    }
    StoreStays(ws, sts, i, n, p);
    assert PageInv(ws[n], p);
  }
}
