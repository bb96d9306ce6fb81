/**
 * Several contexts in flight. One that finds its page locked waits for another that is evicting or loading, and
 * that one waits for no lock; so from every reachable state in which the server is between calls, its own
 * steps, the device's and the delivery of notifications can bring every pin in flight to its end.
 */
module CacheProgress {
  import opened Basics
  import opened PageCache
  import opened CacheSystem
  import opened CacheInvariant
  import opened CacheTheorems

  /** A step that needs no client. */
  predicate Own(st: Step) { st.Call? || st.Serve? || st.DeviceWrite? || st.DeviceRead? || st.DeliverPin? }

  /** The run goes on by such steps. */
  ghost predicate Continues(ws: seq<World>, sts: seq<Step>, ws': seq<World>, sts': seq<Step>) {
    Run(ws', sts') && ws <= ws' && sts <= sts' && forall i | |sts| <= i < |sts'| :: Own(sts'[i])
  }

  lemma Chain(ws: seq<World>, sts: seq<Step>, ws1: seq<World>, sts1: seq<Step>, ws2: seq<World>, sts2: seq<Step>)
    requires Continues(ws, sts, ws1, sts1) && Continues(ws1, sts1, ws2, sts2)
    ensures Continues(ws, sts, ws2, sts2)
  {
    forall i | |sts| <= i < |sts2| ensures Own(sts2[i]) { if i < |sts1| { assert sts2[i] == sts1[i]; } }
  }

  lemma Go(ws: seq<World>, sts: seq<Step>, st: Step) returns (ws': seq<World>, sts': seq<Step>)
    requires Run(ws, sts) && Enabled(ws[|sts|], st) && Own(st)
    ensures Continues(ws, sts, ws', sts') && ws'[|sts'|] == Apply(ws[|sts|], st)
  {
    ws', sts' := ws + [Apply(ws[|sts|], st)], sts + [st];
  }

  // ---------------------------------------------------------------- a context that holds its locks

  /** The context has mapped its page and is evicting or loading. */
  predicate Working(w: World, id: nat) {
    IsContext(w, id) && (w.tokens[id].ctx.phase.Evicting? || w.tokens[id].ctx.phase.Loading?)
  }

  /** The turn of such a context: there always is one, whatever the others do. */
  function NextTurn(s: Core, c: Context): Outcome {
    if c.phase.Evicting? then (if c.processing then EvictPoll(s, c) else EvictDone(s, c))
    else if c.processing then LoadPoll(s, c) else LoadDone(s, c)
  }

  /** Whoever waits for a page's lock waits for a context that waits for none. */
  lemma LockHolderWorks(ws: seq<World>, sts: seq<Step>, k: nat, p: Page) returns (j: nat)
    requires Run(ws, sts) && k < |ws| && At(ws[k], p).busy
    ensures Working(ws[k], j) && Locks(ws[k].tokens[j], p)
    ensures Iter(ws[k].core, ws[k].tokens[j].ctx, NextTurn(ws[k].core, ws[k].tokens[j].ctx))
  {
    RunInv(ws, sts, k);
    assert PageInv(ws[k], p);
    j :| j in ws[k].tokens && Locks(ws[k].tokens[j], p);
  }

  /** How far a transfer is from its end. */
  function Stage(io: Io): nat { if io.first then 3 else if !io.processing then 2 else if !io.finish then 1 else 0 }

  function Distance(c: Context): nat {
    (if c.phase.Evicting? then 100 else 0) + if c.processing then 10 + Stage(c.io) else 0
  }

  /** How far a working context is from its end, a call not yet made counting too. */
  function Left(w: World, id: nat): nat
    requires IsContext(w, id)
  {
    2 * Distance(w.tokens[id].ctx) + if w.server == None then 1 else 0
  }

  /** Nothing has happened but to token `id`. */
  ghost predicate Steady(w: World, w': World, id: nat) {
    && w'.pinNotes == w.pinNotes && w'.core.pinned == w.core.pinned && w'.core.capacity == w.core.capacity
    && forall x | x != id :: SameToken(w, w', x)
  }

  predicate SameToken(w: World, w': World, x: nat) {
    (x in w'.tokens <==> x in w.tokens) && (x in w.tokens ==> w'.tokens[x] == w.tokens[x])
  }

  /** The context has its pin. */
  predicate GotPin(w: World, w': World, id: nat) {
    IsContext(w, id) && IsHeld(w', id) && w'.tokens[id].page == w.tokens[id].ctx.page && w'.server == None
  }

  /** It is nearer its end, and the server works for it or for no one. */
  predicate Nearer(w: World, w': World, id: nat) {
    && Working(w, id) && Working(w', id) && Left(w', id) < Left(w, id)
    && w'.tokens[id].ctx.page == w.tokens[id].ctx.page && (w'.server == None || w'.server == Some(id))
  }

  lemma TurnCounts(s: Core, c: Context)
    requires (c.phase.Evicting? || c.phase.Loading?) && (c.processing ==> c.io.first || !c.io.processing || c.io.finish)
    ensures var o := NextTurn(s, c);
      && o.core.pinned == s.pinned && o.core.capacity == s.capacity && o.ctx.page == c.page && o.ctx.frame == c.frame
      && (o.ctx.phase.End? <==> c.phase.Loading? && !c.processing) && (o.ctx.phase.End? ==> o.stop)
      && (!o.ctx.phase.End? ==>
            (o.ctx.phase.Evicting? || o.ctx.phase.Loading?) && Distance(o.ctx) < Distance(c))
  {
  }

  lemma FrameGiven(w: World, id: nat)
    requires Inv(w) && Working(w, id)
    ensures w.tokens[id].ctx.frame < |w.mem| < EMPTY_FRAME
    ensures var c := w.tokens[id].ctx; c.phase.Evicting? && c.processing ==> c.victim.Some?
  {
    assert TokenInv(w, id) && PageInv(w, w.tokens[id].ctx.page);
  }

  /** A turn of a working context, called for. */
  lemma TurnOn(w: World, id: nat)
    requires Working(w, id) && w.server == Some(id) && w.tokens[id].ctx.frame != EMPTY_FRAME
    requires var c := w.tokens[id].ctx; c.processing ==> c.io.first || !c.io.processing || c.io.finish
    ensures var st := Serve(NextTurn(w.core, w.tokens[id].ctx), []);
      Enabled(w, st) && Steady(w, Apply(w, st), id) && (Nearer(w, Apply(w, st), id) || GotPin(w, Apply(w, st), id))
  {
    var c := w.tokens[id].ctx;
    TurnCounts(w.core, c);
    var o := NextTurn(w.core, c);
    TurnEnabled(w.core, c);
    TurnMoves(w, id, o);
  }

  lemma TurnEnabled(s: Core, c: Context)
    requires c.phase.Evicting? || c.phase.Loading?
    ensures Iter(s, c, NextTurn(s, c))
  {
  }

  /** What such a turn does to the tokens. */
  lemma TurnMoves(w: World, id: nat, o: Outcome)
    requires Working(w, id) && w.server == Some(id) && Iter(w.core, w.tokens[id].ctx, o)
    requires o.core.pinned == w.core.pinned && o.core.capacity == w.core.capacity
    requires o.ctx.page == w.tokens[id].ctx.page && o.ctx.frame != EMPTY_FRAME && (o.ctx.phase.End? ==> o.stop)
    requires !o.ctx.phase.End? ==>
      (o.ctx.phase.Evicting? || o.ctx.phase.Loading?) && Distance(o.ctx) < Distance(w.tokens[id].ctx)
    ensures var w' := Apply(w, Serve(o, []));
      Steady(w, w', id) && (if o.ctx.phase.End? then GotPin(w, w', id) else Nearer(w, w', id))
  {
    var w' := Apply(w, Serve(o, []));
    assert w'.tokens == Settle(w.tokens, id, o.ctx);
    forall x | x != id ensures SameToken(w, w', x) {}
  }

  /** The device finishes the transfer of a working context. */
  lemma DeviceOn(w: World, id: nat)
    requires Working(w, id) && (w.server == None || w.server == Some(id)) && w.tokens[id].ctx.frame < |w.mem|
    requires var c := w.tokens[id].ctx; c.processing && !c.io.first && c.io.processing && !c.io.finish
    requires w.tokens[id].ctx.phase.Evicting? ==> w.tokens[id].ctx.victim.Some?
    ensures var st := if w.tokens[id].ctx.phase.Evicting? then DeviceWrite(id) else DeviceRead(id);
      Enabled(w, st) && Steady(w, Apply(w, st), id) && Nearer(w, Apply(w, st), id)
  {
  }

  /** Some step of its own or the device's takes a working context on. */
  lemma StepOn(ws: seq<World>, sts: seq<Step>, id: nat) returns (ws': seq<World>, sts': seq<Step>)
    requires Run(ws, sts) && Working(ws[|sts|], id) && (ws[|sts|].server == None || ws[|sts|].server == Some(id))
    ensures Continues(ws, sts, ws', sts') && Steady(ws[|sts|], ws'[|sts'|], id)
    ensures Nearer(ws[|sts|], ws'[|sts'|], id) || GotPin(ws[|sts|], ws'[|sts'|], id)
  {
    var w := ws[|sts|];
    var c := w.tokens[id].ctx;
    RunInv(ws, sts, |sts|);
    FrameGiven(w, id);
    if c.processing && !c.io.first && c.io.processing && !c.io.finish {
      DeviceOn(w, id);
      ws', sts' := Go(ws, sts, if c.phase.Evicting? then DeviceWrite(id) else DeviceRead(id));
    } else if w.server == None {
      ws', sts' := Go(ws, sts, Call(id));
    } else {
      TurnOn(w, id);
      ws', sts' := Go(ws, sts, Serve(NextTurn(w.core, c), []));
    }
  }

  lemma SteadyOn(w: World, w1: World, w2: World, id: nat)
    requires Steady(w, w1, id) && Steady(w1, w2, id)
    ensures Steady(w, w2, id)
  {
    forall x | x != id ensures SameToken(w, w2, x) { assert SameToken(w, w1, x) && SameToken(w1, w2, x); }
  }

  /** A working context comes to its end, and gets its pin, with nothing else disturbed. */
  lemma {:induction false} WorkEnds(ws: seq<World>, sts: seq<Step>, id: nat) returns (ws': seq<World>, sts': seq<Step>)
    requires Run(ws, sts) && Working(ws[|sts|], id) && (ws[|sts|].server == None || ws[|sts|].server == Some(id))
    ensures Continues(ws, sts, ws', sts') && Steady(ws[|sts|], ws'[|sts'|], id) && GotPin(ws[|sts|], ws'[|sts'|], id)
    decreases Left(ws[|sts|], id)
  {
    ws', sts' := StepOn(ws, sts, id);
    if !GotPin(ws[|sts|], ws'[|sts'|], id) {
      var ws1, sts1 := ws', sts';
      ws', sts' := WorkEnds(ws1, sts1, id);
      Chain(ws, sts, ws1, sts1, ws', sts');
      SteadyOn(ws[|sts|], ws1[|sts1|], ws'[|sts'|], id);
    }
  }

  // ---------------------------------------------------------------- a context that waits

  /** What may become of a token: a context gets its pin or is refused, a pin stays. */
  predicate Moved(w: World, w': World, x: nat) {
    && (x in w'.tokens ==>
          && x in w.tokens
          && (w'.tokens[x] == w.tokens[x] ||
               (IsContext(w, x) && IsHeld(w', x) && w'.tokens[x].page == w.tokens[x].ctx.page)))
    && (IsHeld(w, x) ==> x in w'.tokens)
  }

  ghost predicate Onward(w: World, w': World) { forall x :: Moved(w, w', x) }

  lemma OnwardOn(w: World, w1: World, w2: World)
    requires Onward(w, w1) && Onward(w1, w2)
    ensures Onward(w, w2)
  {
    forall x ensures Moved(w, w2, x) { assert Moved(w, w1, x) && Moved(w1, w2, x); }
  }

  lemma SteadyOnward(w: World, w': World, id: nat)
    requires Steady(w, w', id) && Moved(w, w', id)
    ensures Onward(w, w')
  {
    forall x ensures Moved(w, w', x) { if x != id { assert SameToken(w, w', x); } }
  }

  lemma NotLockedBy(w: World, w': World, id: nat, p: Page, x: nat)
    requires Inv(w) && Steady(w, w', id) && Working(w, id)
    requires Locks(w.tokens[id], p) && !IsContext(w', id) && x in w'.tokens
    ensures !Locks(w'.tokens[x], p)
  {
    if x != id { assert SameToken(w, w', x) && Exclusive(w, id, x); }
  }

  /** When the holder of a lock has its pin the lock is free. */
  lemma Unlocked(w: World, w': World, id: nat, p: Page)
    requires Inv(w) && Inv(w') && Steady(w, w', id) && Working(w, id) && Locks(w.tokens[id], p) && !IsContext(w', id)
    ensures !At(w', p).busy
  {
    assert PageInv(w', p);
    forall x | x in w'.tokens ensures !Locks(w'.tokens[x], p) { NotLockedBy(w, w', id, p, x); }
  }

  /** A context that waits for a lock gets its turn. */
  lemma Unblock(ws: seq<World>, sts: seq<Step>, id: nat) returns (ws': seq<World>, sts': seq<Step>)
    requires Run(ws, sts) && ws[|sts|].server == None && IsContext(ws[|sts|], id)
    requires ws[|sts|].tokens[id].ctx.phase.Begin?
    ensures Continues(ws, sts, ws', sts') && Onward(ws[|sts|], ws'[|sts'|]) && ws'[|sts'|].server == None
    ensures ws'[|sts'|].pinNotes == ws[|sts|].pinNotes && SameToken(ws[|sts|], ws'[|sts'|], id)
    ensures !At(ws'[|sts'|], ws[|sts|].tokens[id].ctx.page).busy
  {
    var w, p := ws[|sts|], ws[|sts|].tokens[id].ctx.page;
    if !At(w, p).busy { return ws, sts; }
    var j := LockHolderWorks(ws, sts, |sts|, p);
    ws', sts' := WorkEnds(ws, sts, j);
    RunInv(ws, sts, |sts|);
    RunInv(ws', sts', |sts'|);
    Unlocked(w, ws'[|sts'|], j, p);
    SteadyOnward(w, ws'[|sts'|], j);
  }

  /** Pin notifications on their way arrive. */
  lemma {:induction false} Drain(ws: seq<World>, sts: seq<Step>) returns (ws': seq<World>, sts': seq<Step>)
    requires Run(ws, sts) && ws[|sts|].server == None
    ensures Continues(ws, sts, ws', sts') && ws'[|sts'|].server == None && ws'[|sts'|].pinNotes == multiset{}
    ensures ws'[|sts'|].tokens == ws[|sts|].tokens
    decreases |ws[|sts|].pinNotes|
  {
    ws', sts' := ws, sts;
    if ws[|sts|].pinNotes != multiset{} {
      var p :| p in ws[|sts|].pinNotes;
      var ws1, sts1 := Go(ws, sts, DeliverPin(p));
      ws', sts' := Drain(ws1, sts1);
      Chain(ws, sts, ws1, sts1, ws', sts');
    }
  }

  // ---------------------------------------------------------------- a context that begins

  /** The server has looked at the page of context `id` and found it unlocked. */
  ghost predicate Looked(w: World, w': World, id: nat) {
    && IsContext(w, id) && Steady(w, w', id) && IsContext(w', id) && w'.server == Some(id)
    && w'.tokens[id].ctx == w.tokens[id].ctx.(phase := Initing, seen := At(w, w.tokens[id].ctx.page))
    && w'.core == w.core
  }

  lemma Look(ws: seq<World>, sts: seq<Step>, id: nat) returns (ws': seq<World>, sts': seq<Step>)
    requires Run(ws, sts) && ws[|sts|].server == None && IsContext(ws[|sts|], id)
    requires ws[|sts|].tokens[id].ctx.phase.Begin?
    requires !At(ws[|sts|], ws[|sts|].tokens[id].ctx.page).busy
    ensures Continues(ws, sts, ws', sts') && Looked(ws[|sts|], ws'[|sts'|], id)
  {
    var w := ws[|sts|];
    var ws1, sts1 := Go(ws, sts, Call(id));
    ws', sts' := Go(ws1, sts1, Serve(BeginTurn(w.core, w.tokens[id].ctx), []));
    Chain(ws, sts, ws1, sts1, ws', sts');
  }

  /** The outcome of the turn that follows. */
  lemma Choice(w: World, id: nat) returns (o: Outcome)
    requires Inv(w) && w.server == Some(id) && IsContext(w, id)
    requires w.tokens[id].ctx.phase.Initing? && w.pinNotes == multiset{}
    ensures Iter(w.core, w.tokens[id].ctx, o) && o.ctx.page == w.tokens[id].ctx.page
    ensures o.ctx.phase.Evicting? || (o.ctx.phase.End? && o.stop && (o.ctx.frame == EMPTY_FRAME ==> FullPin(o.core)))
  {
    var s, c := w.core, w.tokens[id].ctx;
    assert TokenInv(w, id) && PageInv(w, c.page);
    if c.seen.exist {
      o := HitTurn(s, c);
    } else if FullPin(s) {
      o := RefuseTurn(s, c);
    } else if !Full(s) {
      o := FreeTurn(s, c);
    } else {
      VictimExists(w);
      var f :| Selects(s, {}, f);
      o := VictimTurn(s, c, {}, f);
    }
  }

  /** The context has its pin, or every frame is pinned and it is refused. */
  ghost predicate Settled(w: World, w': World, id: nat) {
    && IsContext(w, id) && !IsContext(w', id) && Onward(w, w') && w'.server == None
    && (IsHeld(w', id) || (id !in w'.tokens && FullPin(w'.core)))
  }

  lemma Others(w: World, w': World, id: nat)
    requires forall x | x != id :: SameToken(w, w', x)
    requires Moved(w, w', id)
    ensures Onward(w, w')
  {
    forall x ensures Moved(w, w', x) { if x != id { assert SameToken(w, w', x); } }
  }

  /** Once its page is unlocked and no pin notification is on its way, a context is served. */
  lemma Begun(ws: seq<World>, sts: seq<Step>, id: nat) returns (ws': seq<World>, sts': seq<Step>)
    requires Run(ws, sts) && ws[|sts|].server == Some(id) && ws[|sts|].pinNotes == multiset{}
    requires IsContext(ws[|sts|], id) && ws[|sts|].tokens[id].ctx.phase.Initing?
    ensures Continues(ws, sts, ws', sts') && Settled(ws[|sts|], ws'[|sts'|], id)
  {
    var w := ws[|sts|];
    RunInv(ws, sts, |sts|);
    var o := Choice(w, id);
    ws', sts' := Go(ws, sts, Serve(o, []));
    var w1 := ws'[|sts'|];
    forall x | x != id ensures SameToken(w, w1, x) {}
    if o.ctx.phase.Evicting? {
      var ws1, sts1 := ws', sts';
      ws', sts' := WorkEnds(ws1, sts1, id);
      Chain(ws, sts, ws1, sts1, ws', sts');
      forall x | x != id ensures SameToken(w, ws'[|sts'|], x) {
        assert SameToken(w, w1, x) && SameToken(w1, ws'[|sts'|], x);
      }
    }
    Others(w, ws'[|sts'|], id);
  }

  /** In every reachable state between calls, every pin in flight can be brought to its end without its clients:
      it is served, or refused with every frame pinned. Pins handed out stay. */
  lemma PinEnds(ws: seq<World>, sts: seq<Step>, id: nat) returns (ws': seq<World>, sts': seq<Step>)
    requires Run(ws, sts) && ws[|sts|].server == None && IsContext(ws[|sts|], id)
    ensures Continues(ws, sts, ws', sts') && Settled(ws[|sts|], ws'[|sts'|], id)
  {
    RunInv(ws, sts, |sts|);
    assert TokenInv(ws[|sts|], id);
    if Working(ws[|sts|], id) {
      ws', sts' := WorkEnds(ws, sts, id);
      SteadyOnward(ws[|sts|], ws'[|sts'|], id);
    } else {
      ws', sts' := BeginningEnds(ws, sts, id);
    }
  }

  lemma BeginningEnds(ws: seq<World>, sts: seq<Step>, id: nat) returns (ws': seq<World>, sts': seq<Step>)
    requires Run(ws, sts) && ws[|sts|].server == None && IsContext(ws[|sts|], id)
    requires ws[|sts|].tokens[id].ctx.phase.Begin?
    ensures Continues(ws, sts, ws', sts') && Settled(ws[|sts|], ws'[|sts'|], id)
  {
    var ws1, sts1 := Drain(ws, sts);
    var ws2, sts2 := Unblock(ws1, sts1, id);
    Chain(ws, sts, ws1, sts1, ws2, sts2);
    var ws3, sts3 := Look(ws2, sts2, id);
    Chain(ws, sts, ws2, sts2, ws3, sts3);
    ws', sts' := Begun(ws3, sts3, id);
    Chain(ws, sts, ws3, sts3, ws', sts');
    Patient(ws[|sts|], ws1[|sts1|], ws2[|sts2|], ws3[|sts3|], ws'[|sts'|], id);
  }

  lemma Patient(w: World, w1: World, w2: World, w3: World, w4: World, id: nat)
    requires IsContext(w, id) && w1.tokens == w.tokens && Onward(w1, w2) && Looked(w2, w3, id) && Settled(w3, w4, id)
    requires SameToken(w1, w2, id)
    ensures Settled(w, w4, id)
  {
    forall x ensures Moved(w, w4, x) {
      assert Moved(w1, w2, x) && Moved(w3, w4, x);
      if x != id { assert SameToken(w2, w3, x); }
    }
  }

  function InFlightIds(w: World): set<nat> { set id | id in w.tokens && w.tokens[id].InFlight? }

  lemma FewerInFlight(w: World, w': World, id: nat)
    requires Settled(w, w', id)
    ensures |InFlightIds(w')| < |InFlightIds(w)|
  {
    forall x | x in InFlightIds(w') ensures x in InFlightIds(w) - {id} { assert Moved(w, w', x); }
    assert InFlightIds(w') <= InFlightIds(w) - {id};
    Smaller(InFlightIds(w'), InFlightIds(w) - {id});
  }

  lemma {:induction false} Smaller(a: set<nat>, b: set<nat>)
    requires a <= b
    ensures |a| <= |b|
    decreases a
  {
    if a != {} {
      var x :| x in a;
      Smaller(a - {x}, b - {x});
    }
  }

  /** No deadlock, however many pins are in flight: all of them can be brought to their ends together. */
  lemma {:induction false} AllPinsEnd(ws: seq<World>, sts: seq<Step>) returns (ws': seq<World>, sts': seq<Step>)
    requires Run(ws, sts) && ws[|sts|].server == None
    ensures Continues(ws, sts, ws', sts') && Onward(ws[|sts|], ws'[|sts'|])
    ensures ws'[|sts'|].server == None && forall id :: !IsContext(ws'[|sts'|], id)
    decreases |InFlightIds(ws[|sts|])|
  {
    ws', sts' := ws, sts;
    if id :| id in InFlightIds(ws[|sts|]) {
      var ws1, sts1 := PinEnds(ws, sts, id);
      FewerInFlight(ws[|sts|], ws1[|sts1|], id);
      ws', sts' := AllPinsEnd(ws1, sts1);
      Chain(ws, sts, ws1, sts1, ws', sts');
      OnwardOn(ws[|sts|], ws1[|sts1|], ws'[|sts'|]);
    } else {
      forall id ensures !IsContext(ws[|sts|], id) { assert id !in InFlightIds(ws[|sts|]); }
    }
  }
}
