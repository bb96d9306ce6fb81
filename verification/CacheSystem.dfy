/** A partition together with its clients, its device and the notifications in flight, as a
    transition system. Server turns, client reference-count updates, stores through pinned
    pointers and device completions interleave freely. */
module CacheSystem {
  import opened Basics
  import opened PageCache

  /** What a client has asked for and not given back: a pin in flight at the server, or a pin it
      holds, with the frame it was given and whether it has stored through it. */
  datatype Token = InFlight(ctx: Context) | Held(page: Page, frame: Frame, wrote: bool)

  /** `server` is the context the server thread is working on. `logical[p]` is the latest contents
      given to page `p`, `sealed[p]` the contents at its latest unpin with is_write. */
  datatype World = World(
    core: Core,
    server: Option<nat>,
    tokens: map<nat, Token>,
    pinNotes: multiset<Page>,
    unpinNotes: multiset<Page>,
    mem: seq<Contents>,
    disk: map<Page, Contents>,
    logical: map<Page, Contents>,
    sealed: map<Page, Contents>,
    evictions: nat)

  function DiskAt(w: World, p: Page): Contents {
    if p in w.disk then w.disk[p] else []
  }

  function At(w: World, p: Page): Pte { Lookup(w.core.table, p) }

  /** A started partition: any disk and any memory, nothing cached. */
  ghost predicate Init(w: World) {
    && w.core == Fresh(|w.mem|)
    && |w.mem| < EMPTY_FRAME
    && w.server == None && w.tokens == map[]
    && w.pinNotes == multiset{} && w.unpinNotes == multiset{}
    && w.logical == map[] && w.sealed == map[] && w.evictions == 0
  }

  /** Steps. `torn` is what a transfer leaves in its target until it completes. */
  datatype Step =
    | Submit(id: nat, page: Page)
    | Call(id: nat)
    | Serve(o: Outcome, torn: Contents)
    | DeviceWrite(id: nat)
    | DeviceRead(id: nat)
    | DirectPin(id: nat, page: Page)
    | DirectUnpin(id: nat, isWrite: bool)
    | ServerUnpin(id: nat, isWrite: bool)
    | DeliverPin(page: Page)
    | DeliverUnpin(page: Page)
    | Store(id: nat, value: Contents)

  predicate IsContext(w: World, id: nat) { id in w.tokens && w.tokens[id].InFlight? }

  predicate IsHeld(w: World, id: nat) { id in w.tokens && w.tokens[id].Held? }

  predicate Transferring(w: World, id: nat, phase: Phase) {
    IsContext(w, id) && var c := w.tokens[id].ctx;
    c.phase == phase && c.processing && c.io.processing && !c.io.finish
  }

  /** A client that stored through its pin gives it back with is_write. */
  predicate MayUnpin(w: World, id: nat, isWrite: bool) {
    IsHeld(w, id) && (w.tokens[id].wrote ==> isWrite) && At(w, w.tokens[id].page).refCount > 0
  }

  ghost predicate Enabled(w: World, st: Step) {
    match st
    case Submit(id, _) => id !in w.tokens
    case Call(id) => w.server == None && IsContext(w, id)
    case Serve(o, _) => w.server.Some? && IsContext(w, w.server.value) && Iter(w.core, w.tokens[w.server.value].ctx, o)
    case DeviceWrite(id) =>
      Transferring(w, id, Evicting) && w.tokens[id].ctx.victim.Some? && w.tokens[id].ctx.frame < |w.mem|
    case DeviceRead(id) => Transferring(w, id, Loading) && w.tokens[id].ctx.frame < |w.mem|
    case DirectPin(id, p) => id !in w.tokens && At(w, p).exist && !At(w, p).busy
    case DirectUnpin(id, isWrite) => MayUnpin(w, id, isWrite) && w.tokens[id].frame < |w.mem|
    case ServerUnpin(id, isWrite) => w.server == None && MayUnpin(w, id, isWrite) && w.tokens[id].frame < |w.mem|
    case DeliverPin(p) => w.server == None && w.pinNotes[p] > 0
    case DeliverUnpin(p) => w.server == None && w.unpinNotes[p] > 0
    case Store(id, _) => IsHeld(w, id) && w.tokens[id].frame < |w.mem|
  }

  /** The tokens after a turn that leaves token `id` with context `c`. */
  function Settle(tokens: map<nat, Token>, id: nat, c: Context): map<nat, Token> {
    if !c.phase.End? then tokens[id := InFlight(c)]
    else if c.frame == EMPTY_FRAME then tokens - {id}
    else tokens[id := Held(c.page, c.frame, false)]
  }

  /** A turn hands a transfer to the device. */
  predicate Issues(c: Context, c': Context, phase: Phase) {
    c.phase == phase && c'.phase == phase && !c.io.processing && c'.io.processing
  }

  function Served(w: World, o: Outcome, torn: Contents): World
    requires w.server.Some? && IsContext(w, w.server.value)
  {
    var id := w.server.value;
    var c := w.tokens[id].ctx;
    w.(core := o.core,
       server := if o.stop then None else w.server,
       tokens := Settle(w.tokens, id, o.ctx),
       disk := if Issues(c, o.ctx, Evicting) && c.victim.Some? then w.disk[c.victim.value := torn] else w.disk,
       mem := if Issues(c, o.ctx, Loading) && c.frame < |w.mem| then w.mem[c.frame := torn] else w.mem,
       evictions := w.evictions + if c.phase.Initing? && o.ctx.phase.Evicting? && o.ctx.victim.Some? then 1 else 0)
  }

  function Finished(t: Token): Token
    requires t.InFlight?
  {
    InFlight(t.ctx.(io := t.ctx.io.(finish := true)))
  }

  /** An unpin gives the token back and, with is_write, fixes the page's contents. */
  function GivenBack(w: World, id: nat, isWrite: bool): World
    requires IsHeld(w, id) && w.tokens[id].frame < |w.mem|
  {
    var p, v := w.tokens[id].page, w.mem[w.tokens[id].frame];
    var w1 := w.(tokens := w.tokens - {id});
    if isWrite then w1.(logical := w.logical[p := v], sealed := w.sealed[p := v]) else w1
  }

  function Apply(w: World, st: Step): World
    requires Enabled(w, st)
  {
    match st
    case Submit(id, p) => w.(tokens := w.tokens[id := InFlight(NewContext(Pin, p))])
    case Call(id) => w.(server := Some(id))
    case Serve(o, torn) => Served(w, o, torn)
    case DeviceWrite(id) =>
      var c := w.tokens[id].ctx;
      w.(disk := w.disk[c.victim.value := w.mem[c.frame]], tokens := w.tokens[id := Finished(w.tokens[id])])
    case DeviceRead(id) =>
      var c := w.tokens[id].ctx;
      w.(mem := w.mem[c.frame := DiskAt(w, c.page)], tokens := w.tokens[id := Finished(w.tokens[id])])
    case DirectPin(id, p) =>
      var e := At(w, p);
      w.(core := w.core.(table := Put(w.core.table, p, IncRef(e))),
         tokens := w.tokens[id := Held(p, e.frame, false)],
         pinNotes := if e.refCount == 0 then w.pinNotes + multiset{p} else w.pinNotes)
    case DirectUnpin(id, isWrite) =>
      var p := w.tokens[id].page;
      var e := At(w, p);
      GivenBack(w, id, isWrite).(
        core := w.core.(table := Put(w.core.table, p, DecRef(e, isWrite))),
        unpinNotes := if e.refCount == 1 then w.unpinNotes + multiset{p} else w.unpinNotes)
    case ServerUnpin(id, isWrite) =>
      GivenBack(w, id, isWrite).(core := UnpinResident(w.core, w.tokens[id].page, isWrite))
    case DeliverPin(p) => w.(core := NotifyPin(w.core, p), pinNotes := w.pinNotes - multiset{p})
    case DeliverUnpin(p) => w.(core := NotifyUnpin(w.core, p), unpinNotes := w.unpinNotes - multiset{p})
    case Store(id, v) =>
      var t := w.tokens[id];
      w.(mem := w.mem[t.frame := v],
         tokens := w.tokens[id := t.(wrote := true)],
         logical := w.logical[t.page := v])
  }

  /** A run: `ws[i+1]` follows from `ws[i]` by step `sts[i]`. */
  ghost predicate Run(ws: seq<World>, sts: seq<Step>) {
    && |ws| == |sts| + 1
    && Init(ws[0])
    && forall i | 0 <= i < |sts| :: Enabled(ws[i], sts[i]) && ws[i + 1] == Apply(ws[i], sts[i])
  }
}
