/**
 * The reference count and the private caches. That a client has at most one pin of a page is not asked of the
 * header's runs here but follows from the clients' histories being those of private caches; and with it the
 * count stays far below the width of its field.
 */
module HeaderClients {
  import opened Basics
  import opened PteHeader
  import P = PrivateCaches

  /** What the step is in a client's history of page `p`: a reference is acquired when it is counted, for the
      client that asked for it. */
  function EventOf(w: World, st: Step, p: nat): Option<(nat, P.Event)> {
    match st
    case Swap(t) =>
      if t !in w.tries then None
      else if w.tries[t].op.Inc? then Some((t, P.Acquire(p)))
      else if w.tries[t].op.Dec? then Some((t, P.Release(p, w.tries[t].op.isWrite)))
      else None
    case MapRef(_, owner) => Some((owner, P.Acquire(p)))
    case _ => None
  }

  /** The history of client `t` after `k` steps. */
  function History(ws: seq<World>, sts: seq<Step>, p: nat, t: nat, k: nat): seq<P.Event>
    requires k <= |sts| && |ws| == |sts| + 1
  {
    if k == 0 then [] else
      var e := EventOf(ws[k - 1], sts[k - 1], p);
      var log := History(ws, sts, p, t, k - 1);
      if e.Some? && e.value.0 == t then log + [e.value.1] else log
  }

  lemma {:induction false} HistoryGrows(ws: seq<World>, sts: seq<Step>, p: nat, t: nat, j: nat, k: nat)
    requires j <= k <= |sts| && |ws| == |sts| + 1
    ensures History(ws, sts, p, t, j) <= History(ws, sts, p, t, k)
  {
    if j < k { HistoryGrows(ws, sts, p, t, j, k - 1); }
  }

  /** The references counted for client `t`. */
  function Counted(w: World, t: nat): nat { w.pins[t] + if w.promised == Some(t) then 1 else 0 }

  lemma CountedStep(w: World, st: Step, p: nat, t: nat, log: seq<P.Event>)
    requires Inv(w) && Enabled(w, st) && P.Held(log, p) == Counted(w, t)
    ensures var e := EventOf(w, st, p);
      P.Held(if e.Some? && e.value.0 == t then log + [e.value.1] else log, p) == Counted(Apply(w, st), t)
  {
    var e := EventOf(w, st, p);
    if e.Some? { P.Extended(log, e.value.1, p); }
    if st.Swap? { assert TryInv(w, st.t); }
  }

  /** A client's history holds the page as often as it is counted for the client. */
  lemma {:induction false} HistoryCounts(ws: seq<World>, sts: seq<Step>, p: nat, t: nat, k: nat)
    requires Run(ws, sts) && k <= |sts|
    ensures P.Held(History(ws, sts, p, t, k), p) == Counted(ws[k], t)
  {
    if k > 0 {
      HistoryCounts(ws, sts, p, t, k - 1);
      RunInv(ws, sts, k - 1);
      CountedStep(ws[k - 1], sts[k - 1], p, t, History(ws, sts, p, t, k - 1));
    }
  }

  /** The part of a private cache's history that reaches the header of page `p`. */
  function OnPage(log: seq<P.Event>, p: nat): seq<P.Event> {
    if log == [] then [] else
      var e := log[|log| - 1];
      var rest := OnPage(log[..|log| - 1], p);
      if !e.Write? && e.page == p then rest + [e] else rest
  }

  lemma {:induction false} OnPageModest(log: seq<P.Event>, p: nat)
    requires P.Modest(log)
    ensures P.Modest(OnPage(log, p)) && P.Held(OnPage(log, p), p) == P.Held(log, p)
  {
    if log != [] {
      var front := log[..|log| - 1];
      OnPageModest(front, p);
      P.Extended(OnPage(front, p), log[|log| - 1], p);
    }
  }

  /** The client works through the private cache `v`: its history so far is the beginning of what `v` does to
      the page, the rest being still to come. */
  ghost predicate Client(ws: seq<World>, sts: seq<Step>, p: nat, t: nat, v: P.Priv)
    requires |ws| == |sts| + 1
  {
    P.Ok(v) && History(ws, sts, p, t, |sts|) <= OnPage(v.log, p)
  }

  /** Such a client never has more than one reference. */
  lemma OneReference(ws: seq<World>, sts: seq<Step>, p: nat, t: nat, v: P.Priv, i: nat)
    requires Run(ws, sts) && i <= |sts| && Client(ws, sts, p, t, v)
    ensures Counted(ws[i], t) <= 1
  {
    var log, all := History(ws, sts, p, t, i), OnPage(v.log, p);
    HistoryGrows(ws, sts, p, t, i, |sts|);
    assert log == all[..|log|];
    OnPageModest(v.log, p);
    P.PrefixGood(all, |log|);
    P.HeldOnce(log, p);
    HistoryCounts(ws, sts, p, t, i);
  }

  /** Clients there are at most as many as ids, and all work through private caches. */
  ghost predicate Clients(ws: seq<World>, sts: seq<Step>, p: nat, privs: nat -> P.Priv)
    requires |ws| == |sts| + 1
  {
    && (forall t: nat :: Client(ws, sts, p, t, privs(t)))
    && (forall t: nat | t >= 2048 :: History(ws, sts, p, t, |sts|) == [])
  }

  lemma OnePinEach(ws: seq<World>, sts: seq<Step>, p: nat, privs: nat -> P.Priv, i: nat)
    requires Run(ws, sts) && i <= |sts| && Clients(ws, sts, p, privs)
    ensures OneEach(ws[i])
  {
    forall t: nat ensures Counted(ws[i], t) <= 1 && (t >= MAX_THREADS ==> Counted(ws[i], t) == 0) {
      OneReference(ws, sts, p, t, privs(t), i);
      HistoryCounts(ws, sts, p, t, i);
      HistoryGrows(ws, sts, p, t, i, |sts|);
    }
    forall t: nat | t in ws[i].pins ensures t < MAX_THREADS && ws[i].pins[t] == 1 { assert Counted(ws[i], t) <= 1; }
    if ws[i].promised.Some? { assert Counted(ws[i], ws[i].promised.value) == 1; }
  }

  /** The count of a page used through private caches is the number of its pins, however their loads, swaps,
      locks and retries interleave; it is at most a quarter of what its field can hold; a locked page has no
      pin handed out and a pinned one stays mapped. */
  lemma ClientsNeverWrap(ws: seq<World>, sts: seq<Step>, p: nat, privs: nat -> P.Priv, i: nat)
    requires Run(ws, sts) && i <= |sts| && Clients(ws, sts, p, privs)
    ensures ws[i].header.ref == Owners(ws[i]) <= 2048
    ensures ws[i].header.busy ==> ws[i].pins == multiset{}
    ensures ws[i].pins != multiset{} ==> ws[i].header.exist
  {
    forall j | 0 <= j <= i ensures OneEach(ws[j]) { OnePinEach(ws, sts, p, privs, j); }
    CountNeverWraps(ws, sts, i);
  }
}
