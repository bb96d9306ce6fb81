/**
 * The mailbox between one client id and one server thread.
 *
 * A client gathers up to three requests in a local message, copies the payload words of that message to
 * shared memory in any order, then the header word with a flipped toggle. The server polls the header,
 * processes the requests one by one and answers with a message of its own, written the same way. A request
 * that cannot be finished at once gets a null batch answer; later the server writes the answer straight to
 * the address carried by the request. A client id may be returned and reused by another client.
 *
 * The world below steps one shared-memory word at a time. `batches`, `served`, `reading` and `stamps`, and in
 * the ledger `issued`, `answers`, `late`, `arrived`, `writes` and the request numbers, are histories: no step
 * is decided by them.
 */
module Mailbox {
  const MAX_COMMS: nat := 3
  const WORDS: nat := 6

  /** The packed type and page, and the address of the response; address 0 is the null pointer. */
  datatype Request = Request(code: nat, slot: nat)

  datatype Message = Message(toggle: bool, num: nat, words: seq<nat>)

  datatype ClientPhase = Filling | Writing(todo: set<nat>) | Waiting | Receiving(next: nat)

  datatype ServerPhase = Polling | Serving(next: nat) | Replying(todo: set<nat>)

  /** The batch a request was told it belongs to, and its place in it. */
  datatype Stamp = Stamp(batch: int, pos: nat)

  /** Requests and their answers: the response slots in the callers' memory (`memory`), which caller still
      spins on which (`waiting`), the requests in the order they were made, the answers given as they were
      processed (0 when put off), those put off, the late answers, how many answers have come back with a
      batch, and how often each request was answered through its slot. */
  datatype Ledger = Ledger(
    memory: map<nat, nat>, waiting: map<nat, nat>, issued: seq<Request>, answers: seq<nat>,
    pending: map<nat, Request>, late: map<nat, nat>, arrived: nat, writes: multiset<nat>)

  datatype World = World(
    attached: bool, toggle: bool, saved: bool, client: ClientPhase, local: seq<nat>, slots: seq<nat>, epoch: nat,
    req: Message, resp: Message,
    seen: bool, server: ServerPhase, reply: Message,
    book: Ledger, batches: seq<seq<Request>>, served: seq<seq<Request>>, reading: seq<Request>, stamps: seq<Stamp>,
      base: nat)

  const ZEROS: seq<nat> := [0, 0, 0, 0, 0, 0]
  const ALL_WORDS: set<nat> := {0, 1, 2, 3, 4, 5}
  const EMPTY: Message := Message(false, 0, ZEROS)

  const INIT: World := World(
    false, false, false, Filling, ZEROS, [], 1,
    EMPTY, EMPTY,
    false, Polling, EMPTY,
    Ledger(map[], map[], [], [], map[], map[], 0, multiset{}), [], [], [], [], 0)

  /** Request `i` of a message. */
  function At(words: seq<nat>, i: nat): Request
    requires |words| == WORDS && i < MAX_COMMS
  {
    Request(words[2 * i], words[2 * i + 1])
  }

  function Read(memory: map<nat, nat>, s: nat): nat { if s in memory then memory[s] else 0 }

  function Flat(bs: seq<seq<Request>>): seq<Request> {
    if bs == [] then [] else Flat(bs[..|bs| - 1]) + bs[|bs| - 1]
  }

  /** The requests in the local message. */
  function Batch(w: World): seq<Request>
    requires |w.local| == WORDS && |w.slots| <= MAX_COMMS
  {
    seq(|w.slots|, i requires 0 <= i < |w.slots| => At(w.local, i))
  }

  datatype Step =
    | Attach
    | Detach
    | Ask(r: Request)
    | Submit
    | WriteWord(k: nat)
    | WriteHeader
    | Detect
    | Serve(answer: nat)
    | Reply
    | ReplyWord(k: nat)
    | ReplyHeader
    | Notice
    | Receive
    | Received
    | AnswerLate(t: nat, answer: nat)
    | Take(slot: nat)
    | Scribble(slot: nat, value: nat)

  predicate WellFormed(w: World) {
    && |w.local| == |w.req.words| == |w.resp.words| == |w.reply.words| == WORDS
    && |w.slots| <= MAX_COMMS
  }

  predicate Enabled(w: World, st: Step)
    requires WellFormed(w)
  {
    match st
    case Attach => !w.attached
    // The destructor first submits and polls until nothing is left.
    case Detach => w.attached && w.client.Filling? && w.slots == []
    // The client has polled until its last batch was answered; a full batch is submitted at once.
    case Ask(r) => w.attached && w.client.Filling? && |w.slots| < MAX_COMMS && r.slot !in w.book.waiting
    case Submit => w.client.Filling? && w.slots != []
    case WriteWord(k) => w.client.Writing? && k in w.client.todo && k < WORDS
    case WriteHeader => w.client == Writing({})
    case Detect => w.server.Polling? && w.req.toggle != w.seen
    case Serve(answer) => w.server.Serving? && w.server.next < w.req.num && w.server.next < MAX_COMMS
    case Reply => w.server.Serving? && w.server.next == w.req.num
    case ReplyWord(k) => w.server.Replying? && k in w.server.todo && k < WORDS
    case ReplyHeader => w.server == Replying({})
    case Notice => w.client.Waiting? && w.resp.toggle == w.toggle
    case Receive => w.client.Receiving? && w.client.next < w.resp.num && w.client.next < MAX_COMMS
    case Received => w.client.Receiving? && w.client.next == w.resp.num
    case AnswerLate(t, answer) => t in w.book.pending && answer != 0
    // A caller that spins on its response slot sees a non-null pointer and is done with the slot.
    case Take(slot) => slot in w.book.waiting && Read(w.book.memory, slot) != 0
    // An address nobody waits on may be put to any other use.
    case Scribble(slot, value) => slot !in w.book.waiting
  }

  // Steps of the ledger.

  /** A caller clears its slot and asks; address 0 asks for no answer. */
  function Asks(b: Ledger, r: Request): Ledger {
    if r.slot == 0 then b.(issued := b.issued + [r])
    else b.(memory := b.memory[r.slot := 0], waiting := b.waiting[r.slot := |b.issued|], issued := b.issued + [r])
  }

  /** The server processes the request `r` it read, answering it or putting it off. */
  function Processes(b: Ledger, r: Request, answer: nat): Ledger {
    if answer == 0 then b.(pending := b.pending[|b.answers| := r], answers := b.answers + [answer])
    else b.(answers := b.answers + [answer])
  }

  /** The client takes the next word of a batch response for the slot it remembered. */
  function TakesWord(b: Ledger, slot: nat, word: nat): Ledger {
    if slot != 0 && word != 0 then
      b.(arrived := b.arrived + 1, memory := b.memory[slot := word], writes := b.writes + multiset{b.arrived})
    else b.(arrived := b.arrived + 1)
  }

  /** The server finishes a request it had put off. */
  function Finishes(b: Ledger, t: nat, answer: nat): Ledger
    requires t in b.pending
  {
    var s := b.pending[t].slot;
    if s != 0 then
      b.(pending := b.pending - {t}, late := b.late[t := answer], memory := b.memory[s := answer],
        writes := b.writes + multiset{t})
    else b.(pending := b.pending - {t}, late := b.late[t := answer])
  }

  // Steps of the world.

  function Attached(w: World): World {
    w.(attached := true, toggle := w.saved, client := Filling, local := ZEROS, slots := [], epoch := 1,
      base := |w.batches|)
  }

  function Asked(w: World, r: Request): World
    requires WellFormed(w) && |w.slots| < MAX_COMMS
  {
    var n := |w.slots|;
    w.(local := w.local[2 * n := r.code][2 * n + 1 := r.slot], slots := w.slots + [r.slot], book := Asks(w.book, r),
       stamps := w.stamps + [Stamp(w.base + w.epoch - 1, n)])
  }

  function Wrote(w: World, k: nat): World
    requires WellFormed(w) && w.client.Writing? && k < WORDS
  {
    w.(req := w.req.(words := w.req.words[k := w.local[k]]), client := Writing(w.client.todo - {k}))
  }

  function WroteHeader(w: World): World
    requires WellFormed(w)
  {
    w.(req := w.req.(toggle := w.toggle, num := |w.slots|), client := Waiting, epoch := w.epoch + 1,
      batches := w.batches + [Batch(w)])
  }

  function Served(w: World, answer: nat): World
    requires WellFormed(w) && w.server.Serving? && w.server.next < MAX_COMMS
  {
    var i := w.server.next;
    var r := At(w.req.words, i);
    w.(server := Serving(i + 1), reply := w.reply.(words := w.reply.words[i := answer]),
       book := Processes(w.book, r, answer), reading := w.reading + [r])
  }

  function Replied(w: World): World {
    w.(seen := !w.seen, server := Replying(ALL_WORDS), reply := w.reply.(toggle := !w.seen),
       served := w.served + [w.reading], reading := [])
  }

  function RepliedWord(w: World, k: nat): World
    requires WellFormed(w) && w.server.Replying? && k < WORDS
  {
    w.(resp := w.resp.(words := w.resp.words[k := w.reply.words[k]]), server := Replying(w.server.todo - {k}))
  }

  function RepliedHeader(w: World): World {
    w.(resp := w.resp.(toggle := w.reply.toggle, num := w.reply.num), server := Polling)
  }

  function ReceivedOne(w: World): World
    requires WellFormed(w) && w.client.Receiving? && w.client.next < MAX_COMMS
  {
    var i := w.client.next;
    w.(client := Receiving(i + 1), book := TakesWord(w.book, if i < |w.slots| then w.slots[i] else 0, w.resp.words[i]))
  }

  function Apply(w: World, st: Step): World
    requires WellFormed(w) && Enabled(w, st)
  {
    match st
    case Attach => Attached(w)
    case Detach => w.(attached := false, saved := w.toggle)
    case Ask(r) => Asked(w, r)
    case Submit => w.(toggle := !w.toggle, client := Writing(ALL_WORDS))
    case WriteWord(k) => Wrote(w, k)
    case WriteHeader => WroteHeader(w)
    case Detect => w.(server := Serving(0), reply := w.reply.(num := w.req.num))
    case Serve(answer) => Served(w, answer)
    case Reply => Replied(w)
    case ReplyWord(k) => RepliedWord(w, k)
    case ReplyHeader => RepliedHeader(w)
    case Notice => w.(client := Receiving(0))
    case Receive => ReceivedOne(w)
    case Received => w.(client := Filling, slots := [])
    case AnswerLate(t, answer) => w.(book := Finishes(w.book, t, answer))
    case Take(slot) => w.(book := w.book.(waiting := w.book.waiting - {slot}))
    case Scribble(slot, value) => w.(book := w.book.(memory := w.book.memory[slot := value]))
  }

  ghost predicate Run(ws: seq<World>, sts: seq<Step>) {
    && |ws| == |sts| + 1 && ws[0] == INIT
    && forall i | 0 <= i < |sts| :: WellFormed(ws[i]) && Enabled(ws[i], sts[i]) && ws[i + 1] == Apply(ws[i], sts[i])
  }

  // ---------------------------------------------------------------- the invariant

  /** The server has taken over the last batch, and the client does not yet know. */
  predicate Outstanding(w: World) { w.client.Waiting? || w.client.Receiving? }

  predicate Answered(w: World) { w.server.Polling? && w.seen == w.req.toggle }

  /** How the two toggles and the two header toggles hang together. */
  predicate Protocol(w: World) {
    && (!w.attached ==> w.client.Filling? && w.slots == [] && w.saved == w.toggle)
    && (w.attached ==> w.epoch > 0 && w.base + w.epoch == |w.batches| + 1)
    && match w.client {
      case Filling => Answered(w) && w.toggle == w.seen && w.resp.toggle == w.seen
      case Writing(todo) =>
        Answered(w) && w.toggle != w.seen && w.resp.toggle == w.seen && todo <= ALL_WORDS && w.slots != []
      case Waiting =>
        && w.req.toggle == w.toggle && w.slots != []
        && (if w.server.Replying?
            then w.seen == w.toggle != w.resp.toggle && w.reply.toggle == w.seen && w.server.todo <= ALL_WORDS
            else w.resp.toggle == w.seen)
        && (w.server.Serving? ==> w.seen != w.toggle && w.server.next <= |w.slots|)
      case Receiving(i) =>
        w.req.toggle == w.toggle && w.slots != [] && Answered(w) && w.resp.toggle == w.seen && i <= |w.slots|
    }
  }

  /** What the shared messages carry. */
  predicate Carried(w: World)
    requires WellFormed(w)
  {
    && (forall i | 0 <= i < |w.slots| :: At(w.local, i).slot == w.slots[i])
    && (w.client.Writing? ==> forall k | 0 <= k < WORDS :: k in w.client.todo || w.req.words[k] == w.local[k])
    && (Outstanding(w) ==> w.req.num == |w.slots| && w.req.words == w.local)
    && (w.server.Serving? || w.server.Replying? ==> w.reply.num == |w.slots|)
    && (w.server.Replying? ==> forall k | 0 <= k < WORDS :: k in w.server.todo || w.resp.words[k] == w.reply.words[k])
  }

  /** The histories of requests, request by request and batch by batch. */
  predicate Histories(w: World)
    requires WellFormed(w)
  {
    && w.book.issued == Flat(w.batches) + (if Outstanding(w) then [] else Batch(w))
    && (Outstanding(w) ==> w.batches != [] && w.batches[|w.batches| - 1] == Batch(w))
    && (if Outstanding(w) && w.seen != w.toggle then w.batches == w.served + [Batch(w)] else w.batches == w.served)
    && (if w.server.Serving?
        then w.server.next <= |w.slots| && w.reading == Batch(w)[..w.server.next]
        else w.reading == [])
    && |w.book.answers| == |Flat(w.served)| + |w.reading|
  }

  /** The first request of the batch being answered. */
  function Start(w: World): int { |w.book.issued| - |w.slots| }

  predicate Returned(w: World)
    requires WellFormed(w)
  {
    && (w.server.Serving? ==> w.server.next <= |w.slots| && |w.book.answers| == Start(w) + w.server.next)
    && (w.server.Serving? ==> forall j | 0 <= j < w.server.next :: Matches(w, w.reply.words, j))
    && (w.server.Replying? ==>
         |w.book.answers| == |w.book.issued| && forall j | 0 <= j < |w.slots| :: Matches(w, w.reply.words, j))
    && (Outstanding(w) && Answered(w) && w.seen == w.toggle ==>
          && w.resp.num == |w.slots| && |w.book.answers| == |w.book.issued|
          && forall j | 0 <= j < |w.slots| :: Matches(w, w.resp.words, j))
    && w.book.arrived == (if w.client.Receiving? then Start(w) + w.client.next else Start(w))
  }

  predicate Matches(w: World, words: seq<nat>, j: nat) {
    j < |words| && 0 <= Start(w) + j < |w.book.answers| && words[j] == w.book.answers[Start(w) + j]
  }

  /** The answer to request `t` has been handed over: with its batch, or late. */
  predicate Delivered(b: Ledger, t: nat) {
    t < |b.answers| && (if b.answers[t] != 0 then t < b.arrived else t !in b.pending)
  }

  function Answer(b: Ledger, t: nat): nat {
    if t < |b.answers| && b.answers[t] != 0 then b.answers[t] else if t in b.late then b.late[t] else 0
  }

  /** The fate of request number `t`. */
  predicate TicketInv(b: Ledger, t: nat) {
    && (t in b.pending || t in b.writes || t in b.late ==> t < |b.issued|)
    && (t in b.pending ==> t < |b.answers| && b.answers[t] == 0 && b.pending[t] == b.issued[t])
    && (t in b.late ==> b.late[t] != 0)
    && (t < |b.answers| && b.answers[t] == 0 ==> t in b.pending || t in b.late)
    && (t < |b.issued| ==>
          && b.writes[t] == (if b.issued[t].slot != 0 && Delivered(b, t) then 1 else 0)
          && (b.issued[t].slot != 0 && !Delivered(b, t) ==> Awaited(b, b.issued[t].slot, t)))
  }

  /** A caller spins on the still null slot `s` for the answer to `t`. */
  predicate Awaited(b: Ledger, s: nat, t: nat) {
    s in b.waiting && b.waiting[s] == t && Read(b.memory, s) == 0
  }

  /** What a caller that spins on slot `s` sees. */
  predicate SlotInv(b: Ledger, s: nat) {
    s in b.waiting ==>
      && s != 0 && b.waiting[s] < |b.issued| && b.issued[b.waiting[s]].slot == s
      && Read(b.memory, s) == (if Delivered(b, b.waiting[s]) then Answer(b, b.waiting[s]) else 0)
      && (Delivered(b, b.waiting[s]) ==> Answer(b, b.waiting[s]) != 0)
  }

  ghost predicate Tickets(b: Ledger) { (forall t: nat :: TicketInv(b, t)) && forall s: nat :: SlotInv(b, s) }

  /** Request `t` is where it was told to be: in a submitted batch, or in the local message. */
  predicate StampInv(w: World, t: nat)
    requires WellFormed(w) && t < |w.stamps| && t < |w.book.issued|
  {
    var s := w.stamps[t];
    if t < |Flat(w.batches)| then
      0 <= s.batch < |w.batches| && s.pos < |w.batches[s.batch]| && w.batches[s.batch][s.pos] == w.book.issued[t]
    else s.batch == |w.batches| && s.pos == t - |Flat(w.batches)| && s.pos < |w.slots|
  }

  ghost predicate Stamps(w: World)
    requires WellFormed(w)
  {
    |w.stamps| == |w.book.issued| && forall t | 0 <= t < |w.book.issued| :: StampInv(w, t)
  }

  datatype Aspect = Toggles | Words | Requests | Answers

  predicate Holds(w: World, a: Aspect)
    requires WellFormed(w)
  {
    match a
    case Toggles => Protocol(w)
    case Words => Carried(w)
    case Requests => Histories(w)
    case Answers => Returned(w)
  }

  /** What the two sides agree on; stated aspect by aspect so that a proof opens it only where it needs to. */
  ghost predicate Core(w: World) { WellFormed(w) && forall a: Aspect :: Holds(w, a) }

  lemma Open(w: World)
    requires Core(w)
    ensures Protocol(w) && Carried(w) && Histories(w) && Returned(w)
  {
    assert Holds(w, Toggles) && Holds(w, Words) && Holds(w, Requests) && Holds(w, Answers);
  }

  lemma Seal(w: World)
    requires WellFormed(w) && Protocol(w) && Carried(w) && Histories(w) && Returned(w)
    ensures Core(w)
  {
  }

  ghost predicate Inv(w: World) { Core(w) && Tickets(w.book) && Stamps(w) }
}
