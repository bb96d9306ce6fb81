/** Every step of the mailbox keeps its invariant; what that means for batches, answers and epochs. */
module MailboxTheorems {
  import opened Mailbox

  lemma FlatSnoc(bs: seq<seq<Request>>, b: seq<Request>)
    ensures Flat(bs + [b]) == Flat(bs) + b
  {
    assert (bs + [b])[..|bs|] == bs;
  }

  lemma AttachCore(w: World)
    requires Core(w) && !w.attached
    ensures Core(Attached(w))
  {
    Open(w);
    assert Batch(Attached(w)) == [] == Batch(w);
    Seal(Attached(w));
  }

  lemma AskCore(w: World, r: Request)
    requires Core(w) && w.attached && w.client.Filling? && |w.slots| < MAX_COMMS
    ensures Core(Asked(w, r))
  {
    Open(w);
    assert Batch(Asked(w, r)) == Batch(w) + [r];
    Seal(Asked(w, r));
  }

  lemma WriteCore(w: World, k: nat)
    requires Core(w) && w.client.Writing? && k in w.client.todo && k < WORDS
    ensures Core(Wrote(w, k))
  {
    Open(w);
    assert Batch(Wrote(w, k)) == Batch(w);
    Seal(Wrote(w, k));
  }

  lemma WriteHeaderCore(w: World)
    requires Core(w) && w.client == Writing({})
    ensures Core(WroteHeader(w))
  {
    Open(w);
    assert Batch(WroteHeader(w)) == Batch(w);
    FlatSnoc(w.batches, Batch(w));
    assert w.req.words == w.local;
    Seal(WroteHeader(w));
  }

  lemma ServeCore(w: World, answer: nat)
    requires Core(w) && w.server.Serving? && w.server.next < w.req.num && w.server.next < MAX_COMMS
    ensures Core(Served(w, answer))
  {
    Open(w);
    var w' := Served(w, answer);
    assert Batch(w') == Batch(w);
    assert Batch(w)[..w'.server.next] == w.reading + [Batch(w)[w.server.next]];
    forall j | 0 <= j < w'.server.next ensures Matches(w', w'.reply.words, j) {
      if j < w.server.next { assert Matches(w, w.reply.words, j); }
    }
    Seal(w');
  }

  lemma ReplyCore(w: World)
    requires Core(w) && w.server.Serving? && w.server.next == w.req.num
    ensures Core(Replied(w))
  {
    Open(w);
    var w' := Replied(w);
    assert Batch(w') == Batch(w) == w.reading;
    FlatSnoc(w.served, w.reading);
    forall j | 0 <= j < |w.slots| ensures Matches(w', w'.reply.words, j) { assert Matches(w, w.reply.words, j); }
    Seal(w');
  }

  lemma ReplyWordCore(w: World, k: nat)
    requires Core(w) && w.server.Replying? && k in w.server.todo && k < WORDS
    ensures Core(RepliedWord(w, k))
  {
    Open(w);
    var w' := RepliedWord(w, k);
    assert Batch(w') == Batch(w);
    forall j | 0 <= j < |w.slots| ensures Matches(w', w'.reply.words, j) { assert Matches(w, w.reply.words, j); }
    Seal(w');
  }

  lemma ReplyHeaderCore(w: World)
    requires Core(w) && w.server == Replying({})
    ensures Core(RepliedHeader(w))
  {
    Open(w);
    var w' := RepliedHeader(w);
    assert Batch(w') == Batch(w);
    forall j | 0 <= j < |w.slots| ensures Matches(w', w'.resp.words, j) { assert Matches(w, w.reply.words, j); }
    Seal(w');
  }

  /** The core speaks neither of slots' memory nor of who waits on them. */
  lemma BookCore(w: World, b: Ledger)
    requires Core(w) && b.issued == w.book.issued && b.answers == w.book.answers && b.arrived == w.book.arrived
    ensures Core(w.(book := b))
  {
    Open(w);
    var w' := w.(book := b);
    assert Batch(w') == Batch(w);
    forall words, j: nat ensures Matches(w', words, j) == Matches(w, words, j) {}
    Seal(w');
  }

  lemma ReceiveCore(w: World)
    requires Core(w) && w.client.Receiving? && w.client.next < w.resp.num && w.client.next < MAX_COMMS
    ensures Core(ReceivedOne(w))
  {
    Open(w);
    var w' := ReceivedOne(w);
    assert Batch(w') == Batch(w);
    forall j | 0 <= j < |w.slots| ensures Matches(w', w'.resp.words, j) { assert Matches(w, w.resp.words, j); }
    Seal(w');
  }

  lemma ReceivedCore(w: World)
    requires Core(w) && Enabled(w, Received)
    ensures Core(Apply(w, Received))
  {
    Open(w);
    assert Batch(Apply(w, Received)) == [];
    Seal(Apply(w, Received));
  }

  lemma NoticeCore(w: World)
    requires Core(w) && Enabled(w, Notice)
    ensures Core(Apply(w, Notice))
  {
    Open(w);
    var w' := Apply(w, Notice);
    assert Batch(w') == Batch(w);
    forall j | 0 <= j < |w.slots| ensures Matches(w', w'.resp.words, j) { assert Matches(w, w.resp.words, j); }
    Seal(w');
  }

  lemma SubmitCore(w: World, st: Step)
    requires Core(w) && Enabled(w, st) && (st.Detach? || st.Submit?)
    ensures Core(Apply(w, st))
  {
    Open(w);
    assert Batch(Apply(w, st)) == Batch(w);
    Seal(Apply(w, st));
  }

  lemma DetectCore(w: World)
    requires Core(w) && Enabled(w, Detect)
    ensures Core(Apply(w, Detect))
  {
    Open(w);
    assert Batch(Apply(w, Detect)) == Batch(w);
    Seal(Apply(w, Detect));
  }

  lemma CoreStep(w: World, st: Step)
    requires Core(w) && Enabled(w, st)
    ensures Core(Apply(w, st))
  {
    match st
    case Attach => AttachCore(w);
    case Ask(r) => AskCore(w, r);
    case WriteWord(k) => WriteCore(w, k);
    case WriteHeader => WriteHeaderCore(w);
    case Detect => DetectCore(w);
    case Serve(answer) => ServeCore(w, answer);
    case Reply => ReplyCore(w);
    case ReplyWord(k) => ReplyWordCore(w, k);
    case ReplyHeader => ReplyHeaderCore(w);
    case Receive => ReceiveCore(w);
    case Received => ReceivedCore(w);
    case Detach | Submit => SubmitCore(w, st);
    case Notice => NoticeCore(w);
    case AnswerLate(_, _) | Take(_) | Scribble(_, _) => BookCore(w, Apply(w, st).book);
  }

  // ---------------------------------------------------------------- answers

  lemma Counts(w: World)
    requires Core(w)
    ensures w.book.arrived <= |w.book.answers| <= |w.book.issued|
    ensures w.client.Filling? || w.client.Writing? ==> |w.book.answers| == |w.book.issued| - |w.slots| == w.book.arrived
  {
    Open(w);
    if Outstanding(w) && w.seen != w.toggle { FlatSnoc(w.served, Batch(w)); }
  }

  /** The server reads the requests in the order they were made. */
  lemma ServeFacts(w: World)
    requires Core(w) && w.server.Serving? && w.server.next < w.req.num && w.server.next < MAX_COMMS
    ensures w.book.arrived <= |w.book.answers| < |w.book.issued|
    ensures At(w.req.words, w.server.next) == w.book.issued[|w.book.answers|]
  {
    Open(w);
    FlatSnoc(w.served, Batch(w));
  }

  /** The client takes the answers in the order the requests were made, each for its own slot. */
  lemma ReceiveFacts(w: World)
    requires Core(w) && w.client.Receiving? && w.client.next < w.resp.num && w.client.next < MAX_COMMS
    ensures w.client.next < |w.slots| && w.book.arrived < |w.book.answers| == |w.book.issued|
    ensures w.resp.words[w.client.next] == w.book.answers[w.book.arrived]
    ensures w.slots[w.client.next] == w.book.issued[w.book.arrived].slot
  {
    Open(w);
    var i := w.client.next;
    assert Matches(w, w.resp.words, i);
    LastIssued(w.book.issued, w.batches, Batch(w), i);
    assert Batch(w)[i] == At(w.local, i) && At(w.local, i).slot == w.slots[i];
  }

  /** The requests of the last batch are the last ones. */
  lemma LastIssued(issued: seq<Request>, batches: seq<seq<Request>>, batch: seq<Request>, i: nat)
    requires issued == Flat(batches) && batches != [] && batches[|batches| - 1] == batch && i < |batch|
    ensures 0 <= |issued| - |batch| && issued[|issued| - |batch| + i] == batch[i]
  {
  }

  lemma AskTickets(b: Ledger, r: Request)
    requires Tickets(b) && |b.answers| <= |b.issued| && r.slot !in b.waiting
    ensures Tickets(Asks(b, r))
  {
    var b' := Asks(b, r);
    forall t: nat ensures TicketInv(b', t) { assert TicketInv(b, t); }
    forall s: nat ensures SlotInv(b', s) { assert SlotInv(b, s); }
  }

  lemma ProcessTickets(b: Ledger, r: Request, answer: nat)
    requires Tickets(b) && b.arrived <= |b.answers| < |b.issued| && r == b.issued[|b.answers|]
    ensures Tickets(Processes(b, r, answer))
  {
    var b' := Processes(b, r, answer);
    forall t: nat ensures TicketInv(b', t) { ProcessTicket(b, r, answer, t); }
    forall s: nat ensures SlotInv(b', s) { ProcessSlot(b, r, answer, s); }
  }

  lemma ProcessTicket(b: Ledger, r: Request, answer: nat, t: nat)
    requires Tickets(b) && b.arrived <= |b.answers| < |b.issued| && r == b.issued[|b.answers|]
    ensures TicketInv(Processes(b, r, answer), t)
  {
    assert TicketInv(b, t);
  }

  lemma ProcessSlot(b: Ledger, r: Request, answer: nat, s: nat)
    requires Tickets(b) && b.arrived <= |b.answers| < |b.issued|
    ensures SlotInv(Processes(b, r, answer), s)
  {
    assert SlotInv(b, s);
  }

  lemma WordTickets(b: Ledger, slot: nat, word: nat)
    requires Tickets(b) && b.arrived < |b.answers| == |b.issued|
    requires word == b.answers[b.arrived] && slot == b.issued[b.arrived].slot
    ensures Tickets(TakesWord(b, slot, word))
  {
    var b' := TakesWord(b, slot, word);
    assert TicketInv(b, b.arrived);
    forall t: nat ensures TicketInv(b', t) { assert TicketInv(b, t); }
    forall s: nat ensures SlotInv(b', s) { WordSlot(b, slot, word, s); }
  }

  lemma WordSlot(b: Ledger, slot: nat, word: nat, s: nat)
    requires Tickets(b) && b.arrived < |b.answers| == |b.issued|
    requires word == b.answers[b.arrived] && slot == b.issued[b.arrived].slot
    ensures SlotInv(TakesWord(b, slot, word), s)
  {
    assert TicketInv(b, b.arrived);
    assert SlotInv(b, s);
  }

  lemma FinishTickets(b: Ledger, t0: nat, answer: nat)
    requires Tickets(b) && t0 in b.pending && answer != 0
    ensures Tickets(Finishes(b, t0, answer))
  {
    var b' := Finishes(b, t0, answer);
    assert TicketInv(b, t0);
    forall t: nat ensures TicketInv(b', t) { assert TicketInv(b, t); }
    forall s: nat ensures SlotInv(b', s) { assert SlotInv(b, s); }
  }

  lemma TakeTickets(b: Ledger, slot: nat)
    requires Tickets(b) && slot in b.waiting && Read(b.memory, slot) != 0
    ensures Tickets(b.(waiting := b.waiting - {slot}))
  {
    var b' := b.(waiting := b.waiting - {slot});
    forall t: nat ensures TicketInv(b', t) { assert TicketInv(b, t); }
    forall s: nat ensures SlotInv(b', s) { assert SlotInv(b, s); }
  }

  lemma ScribbleTickets(b: Ledger, slot: nat, value: nat)
    requires Tickets(b) && slot !in b.waiting
    ensures Tickets(b.(memory := b.memory[slot := value]))
  {
    var b' := b.(memory := b.memory[slot := value]);
    forall t: nat ensures TicketInv(b', t) { assert TicketInv(b, t); }
    forall s: nat ensures SlotInv(b', s) { assert SlotInv(b, s); }
  }

  lemma TicketsStep(w: World, st: Step)
    requires Core(w) && Tickets(w.book) && Enabled(w, st)
    ensures Tickets(Apply(w, st).book)
  {
    Counts(w);
    match st
    case Ask(r) => AskTickets(w.book, r);
    case Serve(answer) => ServeFacts(w); ProcessTickets(w.book, At(w.req.words, w.server.next), answer);
    case Receive => ReceiveFacts(w); WordTickets(w.book, w.slots[w.client.next], w.resp.words[w.client.next]);
    case AnswerLate(t, answer) => FinishTickets(w.book, t, answer);
    case Take(slot) => TakeTickets(w.book, slot);
    case Scribble(slot, value) => ScribbleTickets(w.book, slot, value);
    case _ =>
  }

  // ---------------------------------------------------------------- stamps

  lemma AskStamps(w: World, r: Request)
    requires Core(w) && Stamps(w) && w.attached && w.client.Filling? && |w.slots| < MAX_COMMS
    ensures Stamps(Asked(w, r))
  {
    Open(w);
    var w' := Asked(w, r);
    forall t | 0 <= t < |w'.book.issued| ensures StampInv(w', t) {
      if t < |w.book.issued| { assert StampInv(w, t); }
    }
  }

  lemma WriteHeaderStamps(w: World)
    requires Core(w) && Stamps(w) && w.client == Writing({})
    ensures Stamps(WroteHeader(w))
  {
    Open(w);
    FlatSnoc(w.batches, Batch(w));
    var w' := WroteHeader(w);
    forall t | 0 <= t < |w'.book.issued| ensures StampInv(w', t) { assert StampInv(w, t); }
  }

  lemma ReceivedStamps(w: World)
    requires Core(w) && Stamps(w) && Enabled(w, Received)
    ensures Stamps(Apply(w, Received))
  {
    Open(w);
    var w' := Apply(w, Received);
    forall t | 0 <= t < |w'.book.issued| ensures StampInv(w', t) { assert StampInv(w, t); }
  }

  lemma AttachStamps(w: World)
    requires Core(w) && Stamps(w) && !w.attached
    ensures Stamps(Attached(w))
  {
    Open(w);
    var w' := Attached(w);
    forall t | 0 <= t < |w'.book.issued| ensures StampInv(w', t) { assert StampInv(w, t); }
  }

  lemma QuietStamps(w: World, w': World)
    requires WellFormed(w) && WellFormed(w') && Stamps(w)
    requires w'.book.issued == w.book.issued && w'.stamps == w.stamps && w'.batches == w.batches && w'.slots == w.slots
    ensures Stamps(w')
  {
    forall t | 0 <= t < |w'.book.issued| ensures StampInv(w', t) { assert StampInv(w, t); }
  }

  lemma StampsStep(w: World, st: Step)
    requires Core(w) && Stamps(w) && Enabled(w, st) && WellFormed(Apply(w, st))
    ensures Stamps(Apply(w, st))
  {
    match st
    case Attach => AttachStamps(w);
    case Ask(r) => AskStamps(w, r);
    case WriteHeader => WriteHeaderStamps(w);
    case Received => ReceivedStamps(w);
    case _ => QuietStamps(w, Apply(w, st));
  }

  // ---------------------------------------------------------------- theorems

  lemma InvStep(w: World, st: Step)
    requires Inv(w) && Enabled(w, st)
    ensures Inv(Apply(w, st))
  {
    CoreStep(w, st);
    TicketsStep(w, st);
    StampsStep(w, st);
  }

  lemma InvInit()
    ensures Inv(INIT)
  {
    assert Batch(INIT) == [];
    Seal(INIT);
    forall t: nat ensures TicketInv(INIT.book, t) {}
    forall s: nat ensures SlotInv(INIT.book, s) {}
  }

  lemma {:induction false} RunInv(ws: seq<World>, sts: seq<Step>, i: nat)
    requires Run(ws, sts) && i < |ws|
    ensures Inv(ws[i])
  {
    if i == 0 {
      InvInit();
    } else {
      RunInv(ws, sts, i - 1);
      InvStep(ws[i - 1], sts[i - 1]);
    }
  }

  /** Every batch is read whole, once and in the order submitted, at most one being outstanding; and across
      batches, clients and reuse of the client id the server reads the requests in the order they were made. */
  lemma ExactlyOnce(ws: seq<World>, sts: seq<Step>, i: nat)
    requires Run(ws, sts) && i < |ws|
    ensures var w := ws[i];
      && w.served <= w.batches && |w.batches| <= |w.served| + 1
      && (w.reading != [] ==> |w.batches| == |w.served| + 1 && w.reading <= w.batches[|w.served|])
      && Flat(w.served) + w.reading <= w.book.issued
      && Flat(w.batches) <= w.book.issued
      && |w.book.issued| <= |Flat(w.batches)| + MAX_COMMS
  {
    RunInv(ws, sts, i);
    var w := ws[i];
    Open(w);
    if Outstanding(w) && w.seen != w.toggle {
      FlatSnoc(w.served, Batch(w));
      assert w.reading <= Batch(w);
    }
  }

  /** The request message is written only when every earlier batch has been answered and its answers taken;
      the response message is written only while the client waits, and read only while the server polls. */
  lemma NeverOverwritten(ws: seq<World>, sts: seq<Step>, i: nat)
    requires Run(ws, sts) && i < |sts|
    ensures sts[i].WriteWord? || sts[i].WriteHeader? ==>
      ws[i].served == ws[i].batches && ws[i].book.arrived == |Flat(ws[i].batches)| && ws[i].server.Polling?
    ensures sts[i].ReplyWord? || sts[i].ReplyHeader? ==> ws[i].client.Waiting? && ws[i].served == ws[i].batches
    ensures sts[i].Serve? ==> ws[i].client.Waiting? && |ws[i].batches| == |ws[i].served| + 1
    ensures sts[i].Receive? ==> ws[i].server.Polling? && ws[i].served == ws[i].batches
  {
    RunInv(ws, sts, i);
    Open(ws[i]);
  }

  /** Exactly one non-null answer: none before the answer is delivered, one after; and it is delivered once
      the response to its batch has been taken and it is not among the requests put off. */
  lemma SingleAnswer(ws: seq<World>, sts: seq<Step>, i: nat, t: nat)
    requires Run(ws, sts) && i < |ws| && t < |ws[i].book.issued|
    ensures var b := ws[i].book;
      && b.writes[t] == (if b.issued[t].slot != 0 && Delivered(b, t) then 1 else 0)
      && (t < b.arrived && t !in b.pending ==> Delivered(b, t) && Answer(b, t) != 0)
      && (b.issued[t].slot != 0 && !Delivered(b, t) ==> Awaited(b, b.issued[t].slot, t))
  {
    RunInv(ws, sts, i);
    Counts(ws[i]);
    assert TicketInv(ws[i].book, t);
  }

  /** A caller that sees a non-null pointer in its slot has been answered, with that pointer. */
  lemma CallerSeesAnswer(ws: seq<World>, sts: seq<Step>, i: nat, s: nat)
    requires Run(ws, sts) && i < |ws| && s in ws[i].book.waiting && Read(ws[i].book.memory, s) != 0
    ensures var b := ws[i].book; var t := b.waiting[s];
      t < |b.issued| && b.issued[t].slot == s && b.writes[t] == 1 && Read(b.memory, s) == Answer(b, t)
  {
    RunInv(ws, sts, i);
    assert SlotInv(ws[i].book, s);
    assert TicketInv(ws[i].book, ws[i].book.waiting[s]);
  }

  // What the server answered, in terms of its own steps.

  /** What is on record of request `t` stays on record. */
  predicate Recorded(b: Ledger, b': Ledger, t: nat) {
    && |b.issued| <= |b'.issued| && |b.answers| <= |b'.answers|
    && (t < |b.issued| ==> b'.issued[t] == b.issued[t])
    && (t < |b.answers| ==> b'.answers[t] == b.answers[t])
    && (t < |b.answers| && t !in b.pending ==> t !in b'.pending)
    && (t < |b.answers| && t !in b.pending && t in b.late ==> t in b'.late && b'.late[t] == b.late[t])
  }

  lemma RecordStep(w: World, st: Step, t: nat)
    requires WellFormed(w) && Enabled(w, st)
    ensures Recorded(w.book, Apply(w, st).book, t)
  {
    if st.Serve? {
      RecordProcessed(w.book, At(w.req.words, w.server.next), st.answer, t);
    } else if st.AnswerLate? {
      RecordFinished(w.book, st.t, st.answer, t);
    } else if st.Ask? {
      RecordAsked(w.book, st.r, t);
    } else if st.Receive? {
      var i := w.client.next;
      RecordTaken(w.book, if i < |w.slots| then w.slots[i] else 0, w.resp.words[i]);
      RecordKept(w.book, Apply(w, st).book, t);
    } else {
      RecordQuiet(w, st);
      RecordKept(w.book, Apply(w, st).book, t);
    }
  }

  predicate SameRecord(b: Ledger, b': Ledger) {
    b'.issued == b.issued && b'.answers == b.answers && b'.pending == b.pending && b'.late == b.late
  }

  lemma RecordQuiet(w: World, st: Step)
    requires WellFormed(w) && Enabled(w, st) && !st.Serve? && !st.AnswerLate? && !st.Ask? && !st.Receive?
    ensures SameRecord(w.book, Apply(w, st).book)
  {
    if st.Take? || st.Scribble? {
    } else {
      assert Apply(w, st).book == w.book;
    }
  }

  lemma RecordTaken(b: Ledger, slot: nat, word: nat)
    ensures SameRecord(b, TakesWord(b, slot, word))
  {
  }

  lemma RecordAsked(b: Ledger, r: Request, t: nat)
    ensures Recorded(b, Asks(b, r), t)
  {
  }

  lemma RecordKept(b: Ledger, b': Ledger, t: nat)
    requires SameRecord(b, b')
    ensures Recorded(b, b', t)
  {
  }

  lemma RecordProcessed(b: Ledger, r: Request, a: nat, t: nat)
    ensures Recorded(b, Processes(b, r, a), t)
  {
  }

  lemma RecordFinished(b: Ledger, t0: nat, a: nat, t: nat)
    requires t0 in b.pending
    ensures Recorded(b, Finishes(b, t0, a), t)
  {
  }

  lemma RecordNext(ws: seq<World>, sts: seq<Step>, i: nat, t: nat)
    requires Run(ws, sts) && i < |sts|
    ensures Recorded(ws[i].book, ws[i + 1].book, t)
  {
    RecordStep(ws[i], sts[i], t);
  }

  lemma {:induction false} RecordChain(ws: seq<World>, i: nat, j: nat, t: nat)
    requires i <= j < |ws| && forall x | 0 < x < |ws| :: Recorded(ws[x - 1].book, ws[x].book, t)
    ensures Recorded(ws[i].book, ws[j].book, t)
  {
    if i < j { RecordChain(ws, i, j - 1, t); }
  }

  lemma RecordStays(ws: seq<World>, sts: seq<Step>, i: nat, j: nat, t: nat)
    requires Run(ws, sts) && i <= j < |ws|
    ensures Recorded(ws[i].book, ws[j].book, t)
  {
    forall x: nat | 0 < x < |ws| ensures Recorded(ws[x - 1].book, ws[x].book, t) { RecordNext(ws, sts, x - 1, t); }
    RecordChain(ws, i, j, t);
  }

  /** The caller that made request `t` at step `i` still spins on its slot. */
  ghost predicate Spins(ws: seq<World>, sts: seq<Step>, i: nat, j: nat)
    requires |ws| == |sts| + 1
  {
    && i < j < |ws| && sts[i].Ask? && sts[i].r.slot in ws[j].book.waiting
    && ws[j].book.waiting[sts[i].r.slot] == |ws[i].book.issued|
  }

  /** A late answer is what the caller reads, from then until it has taken it: the request made at step `i`,
      finished by the server at step `k`. */
  lemma LateAnswerSeen(ws: seq<World>, sts: seq<Step>, i: nat, k: nat, j: nat, a: nat)
    requires Run(ws, sts) && k < j && Spins(ws, sts, i, j) && sts[k] == AnswerLate(|ws[i].book.issued|, a)
    ensures a != 0 && Read(ws[j].book.memory, sts[i].r.slot) == a
  {
    var t := |ws[i].book.issued|;
    RunInv(ws, sts, k);
    assert TicketInv(ws[k].book, t);
    RecordStays(ws, sts, k + 1, j, t);
    RunInv(ws, sts, j);
    assert SlotInv(ws[j].book, sts[i].r.slot);
  }

  /** And an answer given when the batch was processed is what the caller reads once it is delivered; it is
      never put off: the request made at step `i`, processed by the server at step `k`. */
  lemma BatchAnswerSeen(ws: seq<World>, sts: seq<Step>, i: nat, k: nat, j: nat, a: nat)
    requires Run(ws, sts) && k < j && Spins(ws, sts, i, j) && sts[k] == Serve(a) && a != 0
    requires |ws[k].book.answers| == |ws[i].book.issued|
    ensures Read(ws[j].book.memory, sts[i].r.slot) == 0 || Read(ws[j].book.memory, sts[i].r.slot) == a
    ensures ws[j].book.arrived > |ws[i].book.issued| ==> Read(ws[j].book.memory, sts[i].r.slot) == a
    ensures |ws[i].book.issued| !in ws[j].book.pending
  {
    var t := |ws[i].book.issued|;
    RunInv(ws, sts, k);
    assert TicketInv(ws[k].book, t);
    RecordStays(ws, sts, k + 1, j, t);
    RunInv(ws, sts, j);
    assert SlotInv(ws[j].book, sts[i].r.slot);
  }

  /** The request the server processes at step `k` is the one it has in hand, as its caller made it at step `i`:
      code and slot have come through the message whole. */
  lemma RequestArrives(ws: seq<World>, sts: seq<Step>, i: nat, k: nat)
    requires Run(ws, sts) && i < |sts| && sts[i].Ask? && k < |sts| && sts[k].Serve?
    requires |ws[k].book.answers| == |ws[i].book.issued|
    ensures i < k && At(ws[k].req.words, ws[k].server.next) == sts[i].r
    ensures sts[k].answer == 0 ==> |ws[i].book.issued| in ws[k + 1].book.pending
    ensures sts[k].answer == 0 ==> ws[k + 1].book.pending[|ws[i].book.issued|] == sts[i].r
  {
    RunInv(ws, sts, k);
    ServeFacts(ws[k]);
    if k <= i { RecordStays(ws, sts, k, i, 0); }
    RecordStays(ws, sts, i + 1, k, |ws[i].book.issued|);
  }

  /** Whoever writes through a slot address, batch response or late answer, finds there a caller still
      spinning on a null pointer for that very request; so a batch response writes nothing through the
      address of a request answered late, whose caller may be long gone. */
  lemma OnlyAwaitedSlotsWritten(ws: seq<World>, sts: seq<Step>, i: nat)
    requires Run(ws, sts) && i < |sts|
    ensures var w := ws[i];
      && (sts[i].Receive? ==> w.client.next < |w.slots| && w.book.arrived < |w.book.answers|)
      && (sts[i].Receive? ==> w.resp.words[w.client.next] == w.book.answers[w.book.arrived])
      && (sts[i].Receive? && w.slots[w.client.next] != 0 && w.resp.words[w.client.next] != 0 ==>
            Awaited(w.book, w.slots[w.client.next], w.book.arrived) && w.book.writes[w.book.arrived] == 0)
      && (sts[i].AnswerLate? && w.book.pending[sts[i].t].slot != 0 ==>
            Awaited(w.book, w.book.pending[sts[i].t].slot, sts[i].t) && w.book.writes[sts[i].t] == 0)
  {
    var w := ws[i];
    RunInv(ws, sts, i);
    match sts[i]
    case Receive => ReceiveFacts(w); assert TicketInv(w.book, w.book.arrived);
    case AnswerLate(t, _) => assert TicketInv(w.book, t);
    case _ =>
  }

  /** A batch is as large as a message has room for: three requests can be made before one must be submitted, and no
      run gets further. */
  lemma ThreeToABatch(ws: seq<World>, sts: seq<Step>, i: nat, r: Request) returns (ws3: seq<World>, sts3: seq<Step>)
    requires Run(ws, sts) && i < |ws|
    ensures |ws[i].slots| <= 3 && WellFormed(ws[i]) && (|ws[i].slots| == 3 ==> !Enabled(ws[i], Ask(r)))
    ensures var a := Ask(Request(r.code, 0)); Run(ws3, sts3) && sts3 == [Attach, a, a, a]
    ensures ws3[4].slots == [0, 0, 0] && WellFormed(ws3[4]) && Enabled(ws3[4], Submit)
  {
    RunInv(ws, sts, i);
    var a := Request(r.code, 0);
    var w1 := Apply(INIT, Attach);
    var w2 := Apply(w1, Ask(a));
    var w3 := Apply(w2, Ask(a));
    ws3, sts3 := [INIT, w1, w2, w3, Apply(w3, Ask(a))], [Attach, Ask(a), Ask(a), Ask(a)];
  }

  /** What `poll_message(sid, epoch)` gives back: a request made under epoch `e` is in batch number `e` of its
      client; while the epoch has not moved on that batch is not empty, so polling submits it; and once the
      epoch has moved on and nothing is outstanding, the batch was submitted, processed, and its response taken. */
  lemma PollAnswers(ws: seq<World>, sts: seq<Step>, i: nat, t: nat, e: nat)
    requires Run(ws, sts) && i < |ws| && ws[i].attached && ws[i].client.Filling?
    requires t < |ws[i].book.issued| && |ws[i].stamps| == |ws[i].book.issued|
    requires ws[i].stamps[t].batch == ws[i].base + e - 1
    ensures e <= ws[i].epoch
    ensures WellFormed(ws[i]) && (e == ws[i].epoch ==> Enabled(ws[i], Submit))
    ensures e < ws[i].epoch ==>
      var w := ws[i]; var b := w.base + e - 1;
      && 0 <= b < |w.batches| && b < |w.served| && w.served[b] == w.batches[b]
      && w.stamps[t].pos < |w.batches[b]| && w.batches[b][w.stamps[t].pos] == w.book.issued[t]
      && t < w.book.arrived && (Delivered(w.book, t) <==> t !in w.book.pending)
  {
    RunInv(ws, sts, i);
    var w := ws[i];
    Open(w);
    Counts(w);
    assert StampInv(w, t);
    assert TicketInv(w.book, t);
  }

  /** The epoch handed out with a request is the one `PollAnswers` speaks of. */
  lemma StampedAtAsk(ws: seq<World>, sts: seq<Step>, i: nat)
    requires Run(ws, sts) && i < |sts| && sts[i].Ask?
    ensures var t := |ws[i].book.issued|;
      && |ws[i + 1].stamps| == |ws[i + 1].book.issued| == t + 1
      && ws[i + 1].book.issued[t] == sts[i].r
      && ws[i + 1].stamps[t].batch == ws[i].base + ws[i].epoch - 1
  {
    RunInv(ws, sts, i);
  }

  // ---------------------------------------------------------------- progress

  /** The next step of a handshake under way. */
  function NextStep(w: World, k: nat): Step {
    match w.client
    case Writing(todo) => if todo == {} then WriteHeader else WriteWord(k)
    case Receiving(i) => if i < w.resp.num then Receive else Received
    case _ =>
      match w.server
      case Polling => if w.req.toggle != w.seen then Detect else Notice
      case Serving(i) => if i < w.req.num then Serve(1) else Reply
      case Replying(todo) => if todo == {} then ReplyHeader else ReplyWord(k)
  }

  /** Steps a handshake still has to take. */
  function Rank(w: World): int {
    match w.client
    case Filling => 0
    case Writing(todo) => 30 + |todo|
    case Receiving(i) => 5 - i
    case Waiting =>
      match w.server
      case Polling => if w.req.toggle != w.seen then 29 else 6
      case Serving(i) => 28 - i
      case Replying(todo) => 10 + |todo|
  }

  predicate ClientSide(st: Step) { st.WriteWord? || st.WriteHeader? || st.Notice? || st.Receive? || st.Received? }

  predicate ServerSide(st: Step) { st.Detect? || st.Serve? || st.Reply? || st.ReplyWord? || st.ReplyHeader? }

  predicate Handshake(st: Step) { ClientSide(st) || ServerSide(st) }

  /** A client that waits is never stuck: some step of the handshake can be taken. */
  lemma NeverStuck(ws: seq<World>, sts: seq<Step>, i: nat) returns (k: nat)
    requires Run(ws, sts) && i < |ws| && !ws[i].client.Filling?
    ensures WellFormed(ws[i]) && Enabled(ws[i], NextStep(ws[i], k)) && Handshake(NextStep(ws[i], k))
  {
    RunInv(ws, sts, i);
    var w := ws[i];
    Open(w);
    k := 0;
    if w.client.Writing? && w.client.todo != {} {
      k :| k in w.client.todo;
    } else if w.client.Waiting? && w.server.Replying? && w.server.todo != {} {
      k :| k in w.server.todo;
    }
  }

  /** And every step of a handshake brings it nearer its end, while nothing else but submitting sets it back. */
  lemma HandshakeEnds(ws: seq<World>, sts: seq<Step>, i: nat)
    requires Run(ws, sts) && i < |sts|
    ensures 0 <= Rank(ws[i]) <= 36
    ensures Handshake(sts[i]) ==> Rank(ws[i + 1]) < Rank(ws[i])
    ensures !Handshake(sts[i]) && !sts[i].Submit? ==> Rank(ws[i + 1]) == Rank(ws[i])
  {
    RunInv(ws, sts, i);
    RankBounds(ws[i]);
    if ClientSide(sts[i]) {
      ClientRank(ws[i], sts[i]);
    } else if ServerSide(sts[i]) {
      ServerRank(ws[i], sts[i]);
    } else if !sts[i].Submit? {
      QuietRank(ws[i], sts[i]);
    }
  }

  lemma RankBounds(w: World)
    requires Core(w)
    ensures 0 <= Rank(w) <= 36
  {
    Open(w);
    if w.client.Writing? { SubsetSize(w.client.todo, ALL_WORDS); }
    if w.server.Replying? && w.client.Waiting? { SubsetSize(w.server.todo, ALL_WORDS); }
  }

  lemma {:induction false} SubsetSize(a: set<nat>, b: set<nat>)
    requires a <= b
    ensures |a| <= |b|
  {
    if a != {} {
      var x :| x in a;
      SubsetSize(a - {x}, b - {x});
    }
  }

  lemma ClientRank(w: World, st: Step)
    requires Core(w) && Enabled(w, st) && ClientSide(st)
    ensures Rank(Apply(w, st)) < Rank(w)
  {
    Open(w);
  }

  lemma ServerRank(w: World, st: Step)
    requires Core(w) && Enabled(w, st) && ServerSide(st)
    ensures Rank(Apply(w, st)) < Rank(w)
  {
    Open(w);
  }

  lemma QuietRank(w: World, st: Step)
    requires Core(w) && Enabled(w, st) && !Handshake(st) && !st.Submit?
    ensures Rank(Apply(w, st)) == Rank(w)
  {
    Open(w);
  }
}
