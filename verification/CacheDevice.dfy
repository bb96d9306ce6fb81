/** The in-memory device under a partition: what is outstanding in a reachable state is exclusive, so that
    running it, reads before writes, is a stretch of device completions of the transition system. */
module CacheDevice {
  import opened Basics
  import opened PageCache
  import opened CacheSystem
  import opened CacheInvariant
  import opened CacheTheorems
  import opened CacheAccounting
  import Dev = MemCopyDevice

  /** The request a context has handed to the device. */
  function Request(c: Context, id: nat): Dev.Op {
    if c.phase.Evicting? then Dev.Write(Block(c), c.frame, Some(id)) else Dev.Read(Block(c), c.frame, Some(id))
  }

  predicate Waiting(w: World, id: nat) {
    Outstanding(w, id) && (w.tokens[id].ctx.phase.Evicting? ==> w.tokens[id].ctx.victim.Some?)
  }

  function Requests(w: World, ids: seq<nat>): (ops: seq<Dev.Op>)
    requires forall id | id in ids :: Waiting(w, id)
    ensures |ops| == |ids| && forall i | 0 <= i < |ids| ::
      IsContext(w, ids[i]) && ops[i] == Request(w.tokens[ids[i]].ctx, ids[i])
  {
    if ids == [] then [] else
      var id := ids[|ids| - 1];
      assert Waiting(w, id);
      Requests(w, ids[..|ids| - 1]) + [Request(w.tokens[id].ctx, id)]
  }

  ghost predicate Distinct(ids: seq<nat>) { forall i, j | 0 <= i < j < |ids| :: ids[i] != ids[j] }

  /** In every reachable state the outstanding requests are exclusive. */
  lemma RequestsExclusive(ws: seq<World>, sts: seq<Step>, k: nat, ids: seq<nat>)
    requires Run(ws, sts) && k < |ws| && Distinct(ids) && forall id | id in ids :: Waiting(ws[k], id)
    ensures Dev.Exclusive(Requests(ws[k], ids))
  {
    var w := ws[k];
    var ops := Requests(w, ids);
    forall i, j | 0 <= i < j < |ops| ensures ops[i].block != ops[j].block && ops[i].frame != ops[j].frame {
      assert ids[i] in ids && ids[j] in ids && ids[i] != ids[j];
      TransfersApart(ws, sts, k, ids[i], ids[j]);
    }
  }

  /** The device's storage as the world has it. */
  ghost predicate Mirrors(s: Dev.Storage, w: World) {
    s.mem == w.mem && forall b: nat | b < |s.disk| :: s.disk[b] == DiskAt(w, b)
  }

  function Completion(w: World, id: nat): Step
    requires Waiting(w, id)
  {
    if w.tokens[id].ctx.phase.Evicting? then DeviceWrite(id) else DeviceRead(id)
  }

  /** Carrying out one request is one completion, and leaves the others outstanding. */
  lemma CompletionMirrors(w: World, id: nat, s: Dev.Storage)
    requires Waiting(w, id) && Mirrors(s, w) && Dev.InRange(Request(w.tokens[id].ctx, id), s)
    ensures Enabled(w, Completion(w, id))
    ensures Mirrors(Dev.Apply(Request(w.tokens[id].ctx, id), s), Apply(w, Completion(w, id)))
    ensures forall x | x != id :: x in w.tokens <==> x in Apply(w, Completion(w, id)).tokens
    ensures forall x | x != id && x in w.tokens :: Apply(w, Completion(w, id)).tokens[x] == w.tokens[x]
    ensures Apply(w, Completion(w, id)).core == w.core
    ensures id in Apply(w, Completion(w, id)).tokens && Apply(w, Completion(w, id)).tokens[id] == Finished(w.tokens[id])
  {
  }

  /** The completions of these contexts, in this order. */
  function Completions(w: World, ids: seq<nat>): (sts: seq<Step>)
    requires forall id | id in ids :: Waiting(w, id)
    ensures |sts| == |ids| && forall i | 0 <= i < |ids| :: sts[i] == DeviceWrite(ids[i]) || sts[i] == DeviceRead(ids[i])
  {
    if ids == [] then [] else
      var id := ids[|ids| - 1];
      assert Waiting(w, id);
      Completions(w, ids[..|ids| - 1]) + [Completion(w, id)]
  }

  lemma LastInRange(ops: seq<Dev.Op>, op: Dev.Op, s: Dev.Storage)
    requires Dev.AllInRange(ops + [op], s)
    ensures Dev.AllInRange(ops, s) && Dev.InRange(op, s)
    ensures Dev.InRange(op, Dev.ApplyAll(ops, s)) && Dev.ApplyAll(ops + [op], s) == Dev.Apply(op, Dev.ApplyAll(ops, s))
  {
    forall o | o in ops ensures Dev.InRange(o, s) { assert o in ops + [op]; }
    assert op in ops + [op];
    assert (ops + [op])[..|ops|] == ops;
  }

  /** The device has done everything these contexts wait for: exactly they are flagged as finished. */
  ghost predicate AllFinished(w: World, w': World, ids: seq<nat>) {
    && w'.core == w.core && w'.tokens.Keys == w.tokens.Keys
    && (forall x | x in w.tokens && x !in ids :: w'.tokens[x] == w.tokens[x])
    && (forall x | x in ids :: x in w.tokens && w.tokens[x].InFlight? && w'.tokens[x] == Finished(w.tokens[x]))
  }

  lemma OneMoreFinished(w: World, w1: World, w2: World, rest: seq<nat>, id: nat)
    requires AllFinished(w, w1, rest) && id !in rest && id in w1.tokens && w1.tokens[id].InFlight? && w2.core == w1.core
    requires w2.tokens == w1.tokens[id := Finished(w1.tokens[id])]
    ensures AllFinished(w, w2, rest + [id])
  {
  }

  lemma DeviceStep(ws: seq<World>, sts: seq<Step>, id: nat, s: Dev.Storage) returns (ws': seq<World>, sts': seq<Step>)
    requires Run(ws, sts) && Waiting(ws[|sts|], id) && Mirrors(s, ws[|sts|])
    requires Dev.InRange(Request(ws[|sts|].tokens[id].ctx, id), s)
    ensures Run(ws', sts') && ws <= ws' && sts' == sts + [Completion(ws[|sts|], id)]
    ensures Mirrors(Dev.Apply(Request(ws[|sts|].tokens[id].ctx, id), s), ws'[|sts'|])
    ensures var w := ws[|sts|];
      ws'[|sts'|].core == w.core && ws'[|sts'|].tokens == w.tokens[id := Finished(w.tokens[id])]
  {
    var w := ws[|sts|];
    CompletionMirrors(w, id, s);
    var st := Completion(w, id);
    Extend(ws, sts, st);
    ws', sts' := ws + [Apply(w, st)], sts + [st];
  }

  /** Carrying out all outstanding requests one after the other extends the run by their completions. */
  lemma {:induction false} DeviceExtendsRun(ws: seq<World>, sts: seq<Step>, ids: seq<nat>, s: Dev.Storage)
      returns (ws': seq<World>, sts': seq<Step>)
    requires Run(ws, sts) && Distinct(ids) && (forall id | id in ids :: Waiting(ws[|sts|], id)) && Mirrors(s, ws[|sts|])
    requires Dev.AllInRange(Requests(ws[|sts|], ids), s)
    ensures Run(ws', sts') && ws <= ws' && sts' == sts + Completions(ws[|sts|], ids)
    ensures Mirrors(Dev.ApplyAll(Requests(ws[|sts|], ids), s), ws'[|sts'|]) && AllFinished(ws[|sts|], ws'[|sts'|], ids)
  {
    if ids == [] {
      return ws, sts;
    }
    var w, rest, id := ws[|sts|], ids[..|ids| - 1], ids[|ids| - 1];
    LastRequest(w, ids, rest, id);
    var ops, op := Requests(w, rest), Request(w.tokens[id].ctx, id);
    LastInRange(ops, op, s);
    ws', sts' := DeviceExtendsRun(ws, sts, rest, s);
    var w1 := ws'[|sts'|];
    assert w1.tokens[id] == w.tokens[id];
    ws', sts' := DeviceStep(ws', sts', id, Dev.ApplyAll(ops, s));
    OneMoreFinished(w, w1, ws'[|sts'|], rest, id);
    Joined(sts, Completions(w, rest), Completion(w, id));
  }

  lemma Joined(a: seq<Step>, b: seq<Step>, st: Step)
    ensures a + b + [st] == a + (b + [st])
  {
  }

  lemma LastRequest(w: World, ids: seq<nat>, rest: seq<nat>, id: nat)
    requires Distinct(ids) && (forall x | x in ids :: Waiting(w, x)) && ids == rest + [id]
    ensures Distinct(rest) && id !in rest && Waiting(w, id) && forall x | x in rest :: Waiting(w, x)
    ensures Requests(w, ids) == Requests(w, rest) + [Request(w.tokens[id].ctx, id)]
    ensures Completions(w, ids) == Completions(w, rest) + [Completion(w, id)]
  {
    assert rest == ids[..|ids| - 1] && id == ids[|ids| - 1] && id in ids;
    forall x | x in rest ensures Waiting(w, x) && x != id {
      var i :| 0 <= i < |rest| && rest[i] == x;
      assert ids[i] == x;
    }
  }

  lemma RequestFlags(w: World, ids: seq<nat>, id: nat)
    requires forall x | x in ids :: Waiting(w, x)
    ensures id in Dev.Flags(Requests(w, ids)) <==> id in ids
  {
    var ops := Requests(w, ids);
    if id in ids {
      var i :| 0 <= i < |ids| && ids[i] == id;
      assert ops[i] in ops && ops[i].flag == Some(id);
    }
    if op :| op in ops && op.flag == Some(id) {
      var i :| 0 <= i < |ops| && ops[i] == op;
      assert ids[i] == id;
    }
  }

  /** The device object under a partition: when it makes progress on the requests outstanding in a reachable
      state, reads before writes, the run goes on by the completions of those requests in the order they
      were made; memory and disk agree afterwards; and the flags it sets are those of the contexts finished. */
  method RunDevice(m: Dev.MemCopy, ghost ws: seq<World>, ghost sts: seq<Step>, ghost ids: seq<nat>)
      returns (ghost ws': seq<World>, ghost sts': seq<Step>)
    requires m.Valid() && Run(ws, sts) && Distinct(ids) && (forall id | id in ids :: Waiting(ws[|sts|], id))
    requires m.Pending() == Requests(ws[|sts|], ids) && Mirrors(m.Stored(), ws[|sts|])
    modifies m, m.readSlots, m.writeSlots, m.disk, m.mem
    ensures m.Valid() && m.Pending() == [] && Run(ws', sts') && ws <= ws' && sts' == sts + Completions(ws[|sts|], ids)
    ensures Mirrors(m.Stored(), ws'[|sts'|]) && AllFinished(ws[|sts|], ws'[|sts'|], ids)
    ensures forall id :: id in m.finished <==> id in old(m.finished) || id in ids
  {
    RequestsExclusive(ws, sts, |sts|, ids);
    m.PendingInRange();
    ws', sts' := DeviceExtendsRun(ws, sts, ids, m.Stored());
    ghost var ins, outs := m.Progress();
    forall id ensures id in m.finished <==> id in old(m.finished) || id in ids { RequestFlags(ws[|sts|], ids, id); }
  }
}
