/** The in-memory device: requests wait in slots until `Progress` runs all reads, then all writes. */
module MemCopyDevice {
  import opened Basics

  const DEPTH: nat := 4096

  /** A transfer between a block of the device and a frame of memory; `flag` is the caller's finish
      flag, if it gave one. */
  datatype Op = Read(block: nat, frame: nat, flag: Option<nat>) | Write(block: nat, frame: nat, flag: Option<nat>)

  datatype Storage = Storage(disk: seq<Contents>, mem: seq<Contents>)

  predicate InRange(op: Op, s: Storage) { op.block < |s.disk| && op.frame < |s.mem| }

  /** What a synchronous store does with one transfer. */
  function Apply(op: Op, s: Storage): (r: Storage)
    ensures |r.disk| == |s.disk| && |r.mem| == |s.mem|
  {
    if !InRange(op, s) then s
    else if op.Read? then s.(mem := s.mem[op.frame := s.disk[op.block]])
    else s.(disk := s.disk[op.block := s.mem[op.frame]])
  }

  /** And with a list of them, each completed before the next. */
  function ApplyAll(ops: seq<Op>, s: Storage): (r: Storage)
    ensures |r.disk| == |s.disk| && |r.mem| == |s.mem|
  {
    if ops == [] then s else Apply(ops[|ops| - 1], ApplyAll(ops[..|ops| - 1], s))
  }

  /** No two transfers share a block or a frame. */
  ghost predicate Exclusive(ops: seq<Op>) {
    forall i, j | 0 <= i < j < |ops| :: ops[i].block != ops[j].block && ops[i].frame != ops[j].frame
  }

  ghost predicate AllInRange(ops: seq<Op>, s: Storage) { forall op | op in ops :: InRange(op, s) }

  /** What exclusive transfers do does not depend on their order: each target gets what its source held
      at the start, and nothing else changes. */
  lemma {:induction false} Pointwise(ops: seq<Op>, s: Storage)
    requires Exclusive(ops) && AllInRange(ops, s)
    ensures var r := ApplyAll(ops, s);
      && (forall op | op in ops && op.Read? :: r.mem[op.frame] == s.disk[op.block])
      && (forall op | op in ops && op.Write? :: r.disk[op.block] == s.mem[op.frame])
      && (forall f | 0 <= f < |s.mem| && (forall op | op in ops :: op.frame != f || op.Write?) :: r.mem[f] == s.mem[f])
      && (forall b | 0 <= b < |s.disk| && (forall op | op in ops :: op.block != b || op.Read?) ::
           r.disk[b] == s.disk[b])
  {
    if ops != [] {
      var last, rest := ops[|ops| - 1], ops[..|ops| - 1];
      assert ops == rest + [last];
      Pointwise(rest, s);
      forall op | op in rest ensures op.block != last.block && op.frame != last.frame {
        var i :| 0 <= i < |rest| && rest[i] == op;
        assert ops[i] == op;
      }
    }
  }

  /** The same exclusive transfers in any other order have the same effect. */
  lemma OrderFree(ops: seq<Op>, ops': seq<Op>, s: Storage)
    requires Exclusive(ops) && Exclusive(ops') && AllInRange(ops, s) && AllInRange(ops', s)
    requires forall op :: op in ops <==> op in ops'
    ensures ApplyAll(ops, s) == ApplyAll(ops', s)
  {
    Pointwise(ops, s);
    Pointwise(ops', s);
    var r, r' := ApplyAll(ops, s), ApplyAll(ops', s);
    forall f | 0 <= f < |s.mem| ensures r.mem[f] == r'.mem[f] {
      if op :| op in ops && op.Read? && op.frame == f { assert op in ops'; }
    }
    forall b | 0 <= b < |s.disk| ensures r.disk[b] == r'.disk[b] {
      if op :| op in ops && op.Write? && op.block == b { assert op in ops'; }
    }
    assert r.mem == r'.mem && r.disk == r'.disk;
  }

  /** A request slot; between calls of `Progress` none is running. */
  datatype Slot = Slot(running: bool, op: Op)

  /** A pointer to a slot. */
  datatype Ref = ReadSlot(index: nat) | WriteSlot(index: nat)

  /** The transfers of the running slots, in slot order. */
  function SlotOps(slots: seq<Slot>): seq<Op> {
    if slots == [] then []
    else
      var last := slots[|slots| - 1];
      SlotOps(slots[..|slots| - 1]) + if last.running then [last.op] else []
  }

  predicate Disjoint(a: Op, b: Op) { a.block != b.block && a.frame != b.frame }

  ghost predicate SlotsApart(slots: seq<Slot>) {
    forall i, j | 0 <= i < j < |slots| && slots[i].running && slots[j].running :: Disjoint(slots[i].op, slots[j].op)
  }

  lemma {:induction false} SlotOpsMember(slots: seq<Slot>, op: Op)
    ensures op in SlotOps(slots) <==> exists i :: 0 <= i < |slots| && slots[i].running && slots[i].op == op
  {
    if slots != [] {
      var rest := slots[..|slots| - 1];
      SlotOpsMember(rest, op);
      if i :| 0 <= i < |slots| && slots[i].running && slots[i].op == op {
        if i < |rest| { assert rest[i].running && rest[i].op == op; }
      }
      if op in SlotOps(rest) {
        var i :| 0 <= i < |rest| && rest[i].running && rest[i].op == op;
        assert slots[i].running && slots[i].op == op;
      }
    }
  }

  lemma {:induction false} SlotOpsExclusive(slots: seq<Slot>)
    requires SlotsApart(slots)
    ensures Exclusive(SlotOps(slots))
  {
    if slots != [] {
      var last, rest := slots[|slots| - 1], slots[..|slots| - 1];
      SlotOpsExclusive(rest);
      forall op | op in SlotOps(rest) && last.running ensures Disjoint(op, last.op) {
        SlotOpsMember(rest, op);
        var i :| 0 <= i < |rest| && rest[i].running && rest[i].op == op;
        assert slots[i] == rest[i];
      }
      assert forall i | 0 <= i < |SlotOps(rest)| :: SlotOps(rest)[i] in SlotOps(rest);
    }
  }

  lemma {:induction false} ApplyAllConcat(a: seq<Op>, b: seq<Op>, s: Storage)
    ensures ApplyAll(a + b, s) == ApplyAll(b, ApplyAll(a, s))
  {
    if b == [] {
      assert a + b == a;
    } else {
      assert (a + b)[..|a + b| - 1] == a + b[..|b| - 1];
      ApplyAllConcat(a, b[..|b| - 1], s);
    }
  }

  function Flags(ops: seq<Op>): set<nat> {
    set op | op in ops && op.flag.Some? :: op.flag.value
  }

  lemma SlotOpsNext(slots: seq<Slot>, i: nat, s: Storage)
    requires i < |slots|
    ensures ApplyAll(SlotOps(slots[..i + 1]), s) ==
      if slots[i].running
      then Apply(slots[i].op, ApplyAll(SlotOps(slots[..i]), s))
      else ApplyAll(SlotOps(slots[..i]), s)
    ensures Flags(SlotOps(slots[..i + 1])) ==
      Flags(SlotOps(slots[..i])) + if slots[i].running && slots[i].op.flag.Some? then {slots[i].op.flag.value} else {}
  {
    assert slots[..i + 1][..i] == slots[..i];
    var a := SlotOps(slots[..i]);
    if slots[i].running {
      assert (a + [slots[i].op])[..|a|] == a;
    } else {
      assert a + [] == a;
    }
  }

  const IDLE_OP := Read(0, 0, None)

  /** The transfer a pointer leads to. */
  function OpAt(r: Ref, reading: seq<Slot>, writing: seq<Slot>): Op {
    match r
    case ReadSlot(i) => if i < |reading| then reading[i].op else IDLE_OP
    case WriteSlot(i) => if i < |writing| then writing[i].op else IDLE_OP
  }

  function OpsAt(refs: seq<Ref>, reading: seq<Slot>, writing: seq<Slot>): seq<Op> {
    seq(|refs|, k requires 0 <= k < |refs| => OpAt(refs[k], reading, writing))
  }

  function Pointer(reading: bool, i: nat): Ref { if reading then ReadSlot(i) else WriteSlot(i) }

  /** The slots with those the pointers lead to running. */
  ghost predicate Marked(refs: seq<Ref>, before: seq<Slot>, after: seq<Slot>, reading: bool) {
    && |after| == |before|
    && forall i | 0 <= i < |after| ::
        after[i] == before[i].(running := Pointer(reading, i) in refs)
  }

  /** The pointers are distinct and in range. */
  ghost predicate Proper(refs: seq<Ref>, n: nat) {
    && (forall r | r in refs :: r.index < n)
    && (forall i, j | 0 <= i < j < |refs| :: refs[i] != refs[j])
  }

  lemma MarkedOps(refs: seq<Ref>, rs: seq<Slot>, ws: seq<Slot>, rs': seq<Slot>, ws': seq<Slot>, op: Op)
    requires Marked(refs, rs, rs', true) && Marked(refs, ws, ws', false) && |rs| == |ws| && Proper(refs, |rs|)
    ensures op in OpsAt(refs, rs, ws) <==> op in SlotOps(rs') + SlotOps(ws')
  {
    SlotOpsMember(rs', op);
    SlotOpsMember(ws', op);
    if op in OpsAt(refs, rs, ws) {
      var k :| 0 <= k < |refs| && OpAt(refs[k], rs, ws) == op;
      assert refs[k] in refs;
      if refs[k].ReadSlot? { assert rs'[refs[k].index].running; } else { assert ws'[refs[k].index].running; }
    }
    if i :| 0 <= i < |rs'| && rs'[i].running && rs'[i].op == op {
      var k :| 0 <= k < |refs| && refs[k] == ReadSlot(i);
      assert OpsAt(refs, rs, ws)[k] == op;
    }
    if i :| 0 <= i < |ws'| && ws'[i].running && ws'[i].op == op {
      var k :| 0 <= k < |refs| && refs[k] == WriteSlot(i);
      assert OpsAt(refs, rs, ws)[k] == op;
    }
  }

  /** Different pointers lead to disjoint transfers when the pending ones are exclusive. */
  lemma RefsApart(refs: seq<Ref>, rs: seq<Slot>, ws: seq<Slot>, a: Ref, b: Ref)
    requires Exclusive(OpsAt(refs, rs, ws)) && a in refs && b in refs && a != b
    ensures Disjoint(OpAt(a, rs, ws), OpAt(b, rs, ws))
  {
    var i :| 0 <= i < |refs| && refs[i] == a;
    var j :| 0 <= j < |refs| && refs[j] == b;
    assert OpsAt(refs, rs, ws)[i] == OpAt(a, rs, ws) && OpsAt(refs, rs, ws)[j] == OpAt(b, rs, ws);
    if i < j { assert Disjoint(OpsAt(refs, rs, ws)[i], OpsAt(refs, rs, ws)[j]); }
    else { assert Disjoint(OpsAt(refs, rs, ws)[j], OpsAt(refs, rs, ws)[i]); }
  }

  lemma MarkedApart(refs: seq<Ref>, rs: seq<Slot>, ws: seq<Slot>, rs': seq<Slot>, ws': seq<Slot>)
    requires Marked(refs, rs, rs', true) && Marked(refs, ws, ws', false) && Exclusive(OpsAt(refs, rs, ws))
    ensures Exclusive(SlotOps(rs') + SlotOps(ws'))
  {
    forall i, j | 0 <= i < j < |rs'| && rs'[i].running && rs'[j].running ensures Disjoint(rs'[i].op, rs'[j].op) {
      RefsApart(refs, rs, ws, ReadSlot(i), ReadSlot(j));
    }
    forall i, j | 0 <= i < j < |ws'| && ws'[i].running && ws'[j].running ensures Disjoint(ws'[i].op, ws'[j].op) {
      RefsApart(refs, rs, ws, WriteSlot(i), WriteSlot(j));
    }
    SlotOpsExclusive(rs');
    SlotOpsExclusive(ws');
    forall a, b | a in SlotOps(rs') && b in SlotOps(ws') ensures Disjoint(a, b) {
      SlotOpsMember(rs', a);
      SlotOpsMember(ws', b);
      var i :| 0 <= i < |rs'| && rs'[i].running && rs'[i].op == a;
      var j :| 0 <= j < |ws'| && ws'[j].running && ws'[j].op == b;
      RefsApart(refs, rs, ws, ReadSlot(i), WriteSlot(j));
    }
    ExclusiveConcat(SlotOps(rs'), SlotOps(ws'));
  }

  lemma ExclusiveConcat(a: seq<Op>, b: seq<Op>)
    requires Exclusive(a) && Exclusive(b) && forall x, y | x in a && y in b :: Disjoint(x, y)
    ensures Exclusive(a + b)
  {
    forall i, j | 0 <= i < j < |a + b| ensures Disjoint((a + b)[i], (a + b)[j]) {
      if i < |a| <= j { assert a[i] in a && b[j - |a|] in b; }
    }
  }

  /** Reads first, then writes, each in slot order, is as good as the order of the requests. */
  lemma ReadsThenWrites(refs: seq<Ref>, rs: seq<Slot>, ws: seq<Slot>, rs': seq<Slot>, ws': seq<Slot>, s: Storage)
    requires Marked(refs, rs, rs', true) && Marked(refs, ws, ws', false) && |rs| == |ws| && Proper(refs, |rs|)
    requires Exclusive(OpsAt(refs, rs, ws)) && AllInRange(OpsAt(refs, rs, ws), s)
    ensures ApplyAll(SlotOps(ws'), ApplyAll(SlotOps(rs'), s)) == ApplyAll(OpsAt(refs, rs, ws), s)
  {
    var ops, ops' := OpsAt(refs, rs, ws), SlotOps(rs') + SlotOps(ws');
    forall op ensures op in ops <==> op in ops' { MarkedOps(refs, rs, ws, rs', ws', op); }
    MarkedApart(refs, rs, ws, rs', ws');
    OrderFree(ops, ops', s);
    ApplyAllConcat(SlotOps(rs'), SlotOps(ws'), s);
  }

  lemma MarkedKinds(refs: seq<Ref>, rs: seq<Slot>, ws: seq<Slot>, rs': seq<Slot>, ws': seq<Slot>)
    requires Marked(refs, rs, rs', true) && Marked(refs, ws, ws', false) && |rs| == |ws|
    requires forall r | r in refs :: OpAt(r, rs, ws).Read? == r.ReadSlot?
    ensures (forall op | op in SlotOps(rs') :: op.Read?) && (forall op | op in SlotOps(ws') :: op.Write?)
  {
    forall op | op in SlotOps(rs') ensures op.Read? {
      SlotOpsMember(rs', op);
      var i :| 0 <= i < |rs'| && rs'[i].running && rs'[i].op == op;
      assert OpAt(ReadSlot(i), rs, ws) == op;
    }
    forall op | op in SlotOps(ws') ensures op.Write? {
      SlotOpsMember(ws', op);
      var i :| 0 <= i < |ws'| && ws'[i].running && ws'[i].op == op;
      assert OpAt(WriteSlot(i), rs, ws) == op;
    }
  }

  lemma FlagsMarked(refs: seq<Ref>, rs: seq<Slot>, ws: seq<Slot>, rs': seq<Slot>, ws': seq<Slot>, t: nat)
    requires Marked(refs, rs, rs', true) && Marked(refs, ws, ws', false) && |rs| == |ws| && Proper(refs, |rs|)
    ensures t in Flags(SlotOps(rs')) + Flags(SlotOps(ws')) <==> t in Flags(OpsAt(refs, rs, ws))
  {
    forall op ensures op in OpsAt(refs, rs, ws) <==> op in SlotOps(rs') || op in SlotOps(ws') {
      MarkedOps(refs, rs, ws, rs', ws', op);
    }
  }

  /** The idle slots of one kind: distinct, in range, and exactly those that are not waiting. */
  ghost predicate IdleOk(idle: seq<nat>, refs: seq<Ref>, reading: bool) {
    && (forall i | i in idle :: i < DEPTH && Pointer(reading, i) !in refs)
    && (forall i: nat | i < DEPTH :: i in idle || Pointer(reading, i) in refs)
    && (forall i, j | 0 <= i < j < |idle| :: idle[i] != idle[j])
  }

  /** The slots below `n` that were running, each once. */
  ghost predicate Freed(slots: seq<Slot>, n: int, freed: seq<nat>) {
    && 0 <= n <= |slots|
    && (forall i | i in freed :: i < n && slots[i].running)
    && (forall i: nat | i < n && slots[i].running :: i in freed)
    && (forall i, j | 0 <= i < j < |freed| :: freed[i] != freed[j])
  }

  lemma FreedNext(slots: seq<Slot>, n: nat, freed: seq<nat>)
    requires Freed(slots, n, freed) && n < |slots|
    ensures Freed(slots, n + 1, if slots[n].running then freed + [n] else freed)
  {
    if slots[n].running {
      var freed' := freed + [n];
      forall i: nat | i < n + 1 && slots[i].running ensures i in freed' { if i < n { assert i in freed; } }
    }
  }

  lemma IdleJoined(idle: seq<nat>, slots: seq<Slot>, freed: seq<nat>, refs: seq<Ref>, reading: bool)
    requires IdleOk(idle, refs, reading) && |slots| == DEPTH && Freed(slots, DEPTH, freed)
    requires forall i: nat | i < DEPTH :: slots[i].running <==> Pointer(reading, i) in refs
    ensures IdleOk(idle + freed, [], reading)
  {
    var all := idle + freed;
    forall i: nat | i < DEPTH ensures i in all { assert i in idle || Pointer(reading, i) in refs; }
    forall i, j | 0 <= i < j < |all| ensures all[i] != all[j] {
      if i < |idle| <= j { assert all[i] in idle && all[j] in freed; }
    }
  }

  /** Taking the last idle slot into use. */
  lemma IdleTaken(idle: seq<nat>, refs: seq<Ref>, reading: bool)
    requires IdleOk(idle, refs, reading) && idle != [] && Proper(refs, DEPTH)
    ensures idle[|idle| - 1] < DEPTH && Pointer(reading, idle[|idle| - 1]) !in refs
    ensures var refs' := refs + [Pointer(reading, idle[|idle| - 1])];
      IdleOk(idle[..|idle| - 1], refs', reading) && Proper(refs', DEPTH)
  {
    var rest, i := idle[..|idle| - 1], idle[|idle| - 1];
    assert i in idle;
    var refs' := refs + [Pointer(reading, i)];
    forall j | j in rest ensures j < DEPTH && Pointer(reading, j) !in refs' { assert j in idle; }
    forall j: nat | j < DEPTH ensures j in rest || Pointer(reading, j) in refs' { assert idle == rest + [i]; }
  }

  lemma IdleOther(idle: seq<nat>, refs: seq<Ref>, reading: bool, i: nat)
    requires IdleOk(idle, refs, reading)
    ensures IdleOk(idle, refs + [Pointer(!reading, i)], reading)
  {
    var refs' := refs + [Pointer(!reading, i)];
    forall j | j in idle ensures Pointer(reading, j) !in refs' {}
    forall j: nat | j < DEPTH ensures j in idle || Pointer(reading, j) in refs' {}
  }

  // ---------------------------------------------------------------- how many

  /** How many of the transfers are reads, or writes. */
  function Count(ops: seq<Op>, reading: bool): nat {
    if ops == [] then 0
    else Count(ops[..|ops| - 1], reading) + if ops[|ops| - 1].Read? == reading then 1 else 0
  }

  /** The slots of one kind that the pointers lead to. */
  function Slots(refs: seq<Ref>, reading: bool): set<nat> { set r | r in refs && r.ReadSlot? == reading :: r.index }

  lemma {:induction false} CountSlots(refs: seq<Ref>, rs: seq<Slot>, ws: seq<Slot>, reading: bool)
    requires forall i, j | 0 <= i < j < |refs| :: refs[i] != refs[j]
    requires forall r | r in refs :: OpAt(r, rs, ws).Read? == r.ReadSlot?
    ensures Count(OpsAt(refs, rs, ws), reading) == |Slots(refs, reading)|
  {
    if refs != [] {
      var front, last := refs[..|refs| - 1], refs[|refs| - 1];
      assert refs == front + [last];
      CountSlots(front, rs, ws, reading);
      OpsAtFront(refs, rs, ws);
      OneSlotMore(front, last, reading);
    }
  }

  lemma OpsAtFront(refs: seq<Ref>, rs: seq<Slot>, ws: seq<Slot>)
    requires refs != []
    ensures OpsAt(refs, rs, ws) == OpsAt(refs[..|refs| - 1], rs, ws) + [OpAt(refs[|refs| - 1], rs, ws)]
    ensures OpsAt(refs, rs, ws)[..|refs| - 1] == OpsAt(refs[..|refs| - 1], rs, ws)
  {
  }

  lemma OneSlotMore(front: seq<Ref>, last: Ref, reading: bool)
    requires last !in front
    ensures |Slots(front + [last], reading)| == |Slots(front, reading)| + if last.ReadSlot? == reading then 1 else 0
  {
    if last.ReadSlot? == reading {
      assert Slots(front + [last], reading) == Slots(front, reading) + {last.index};
      forall r | r in front && r.ReadSlot? == reading ensures r.index != last.index {}
    } else {
      assert Slots(front + [last], reading) == Slots(front, reading);
    }
  }

  function Elements(s: seq<nat>): set<nat> { set i | i in s }

  lemma {:induction false} DistinctSize(s: seq<nat>)
    requires forall i, j | 0 <= i < j < |s| :: s[i] != s[j]
    ensures |Elements(s)| == |s|
  {
    if s == [] {
      assert Elements(s) == {};
    } else {
      var front, last := s[..|s| - 1], s[|s| - 1];
      DistinctSize(front);
      assert s == front + [last];
      assert Elements(s) == Elements(front) + {last};
    }
  }

  lemma {:induction false} TwoKinds(a: set<nat>, b: set<nat>, n: nat)
    requires forall i: nat :: (i in a || i in b <==> i < n) && !(i in a && i in b)
    ensures |a| + |b| == n
  {
    if n == 0 {
      assert a == {} && b == {};
    } else {
      TwoKinds(a - {n - 1}, b - {n - 1}, n - 1);
    }
  }

  /** Idle slots and waiting ones of a kind make up all of them. */
  lemma IdleCount(idle: seq<nat>, refs: seq<Ref>, reading: bool)
    requires IdleOk(idle, refs, reading) && Proper(refs, DEPTH)
    ensures |idle| + |Slots(refs, reading)| == DEPTH
  {
    DistinctSize(idle);
    var busy := Slots(refs, reading);
    forall i: nat ensures i in busy <==> Pointer(reading, i) in refs {
      if Pointer(reading, i) in refs { assert Pointer(reading, i).index == i; }
    }
    forall i: nat ensures (i in Elements(idle) || i in busy <==> i < DEPTH) && !(i in Elements(idle) && i in busy) {}
    TwoKinds(Elements(idle), busy, DEPTH);
  }

  class MemCopy {
    const disk: array<Contents>
    const mem: array<Contents>
    const readSlots: array<Slot>
    const writeSlots: array<Slot>
    var idleReads: seq<nat>
    var idleWrites: seq<nat>
    var preparing: seq<Ref>
    var finished: set<nat>

    ghost function Stored(): Storage
      reads disk, mem
    {
      Storage(disk[..], mem[..])
    }

    ghost predicate Valid()
      reads this, readSlots, writeSlots, disk, mem
    {
      && readSlots.Length == DEPTH && writeSlots.Length == DEPTH && readSlots != writeSlots && disk != mem
      && (forall i | 0 <= i < DEPTH :: !readSlots[i].running && !writeSlots[i].running)
      && IdleOk(idleReads, preparing, true) && IdleOk(idleWrites, preparing, false)
      && Proper(preparing, DEPTH) && (forall r | r in preparing :: Fits(r))
    }

    ghost predicate Fits(r: Ref)
      reads readSlots, writeSlots, disk, mem
    {
      var op := OpAt(r, readSlots[..], writeSlots[..]);
      InRange(op, Stored()) && op.Read? == r.ReadSlot?
    }

    /** The requests accepted and not yet carried out, in the order they were made. */
    ghost function Pending(): seq<Op>
      reads this, readSlots, writeSlots
    {
      OpsAt(preparing, readSlots[..], writeSlots[..])
    }

    /** The copy itself. */
    method Transfer(op: Op)
      requires disk != mem && op.block < disk.Length && op.frame < mem.Length
      modifies disk, mem
      ensures Stored() == Apply(op, old(Stored()))
    {
      if op.Read? {
        mem[op.frame] := disk[op.block];
      } else {
        disk[op.block] := mem[op.frame];
      }
    }

    /** Runs one running slot. */
    method RunSlot(slots: array<Slot>, i: nat)
      requires i < slots.Length && disk != mem && slots[i].running && InRange(slots[i].op, Stored())
      modifies slots, disk, mem, this`finished
      ensures slots[..] == old(slots[..])[i := old(slots[i]).(running := false)]
      ensures Stored() == Apply(old(slots[i]).op, old(Stored()))
      ensures finished == old(finished) + Flags([old(slots[i]).op])
    {
      var op := slots[i].op;
      Transfer(op);
      if op.flag.Some? {
        finished := finished + {op.flag.value};
      }
      slots[i] := slots[i].(running := false);
    }

    /** Runs the running slots of one kind in slot order and returns them as idle. */
    method RunSlots(slots: array<Slot>) returns (freed: seq<nat>)
      requires slots.Length == DEPTH && disk != mem
      requires forall i | 0 <= i < DEPTH && slots[i].running :: InRange(slots[i].op, Stored())
      modifies slots, disk, mem, this`finished
      ensures Stored() == ApplyAll(old(SlotOps(slots[..])), old(Stored()))
      ensures finished == old(finished) + Flags(old(SlotOps(slots[..])))
      ensures forall i | 0 <= i < DEPTH :: slots[i] == old(slots[i]).(running := false)
      ensures Freed(old(slots[..]), DEPTH, freed)
    {
      freed := [];
      ghost var was := slots[..];
      var i := 0;
      while i < DEPTH
        invariant i <= DEPTH
        invariant Stored() == ApplyAll(SlotOps(was[..i]), old(Stored()))
        invariant finished == old(finished) + Flags(SlotOps(was[..i]))
        invariant forall j | 0 <= j < DEPTH :: slots[j] == if j < i then was[j].(running := false) else was[j]
        invariant Freed(was, i, freed)
      {
        SlotOpsNext(was, i, old(Stored()));
        FreedNext(was, i, freed);
        if slots[i].running {
          RunSlot(slots, i);
          freed := freed + [i];
        }
        i := i + 1;
      }
      assert was[..DEPTH] == was;
    }
  
    /** Sets the slots the pointers lead to running. */
    method Mark()
      requires readSlots.Length == DEPTH && writeSlots.Length == DEPTH
      requires readSlots != writeSlots && Proper(preparing, DEPTH)
      requires forall i | 0 <= i < DEPTH :: !readSlots[i].running && !writeSlots[i].running
      modifies readSlots, writeSlots
      ensures Marked(preparing, old(readSlots[..]), readSlots[..], true)
      ensures Marked(preparing, old(writeSlots[..]), writeSlots[..], false)
    {
      ghost var rs, ws := readSlots[..], writeSlots[..];
      var k := 0;
      while k < |preparing|
        invariant k <= |preparing|
        invariant Marked(preparing[..k], rs, readSlots[..], true) && Marked(preparing[..k], ws, writeSlots[..], false)
      {
        assert preparing[..k + 1] == preparing[..k] + [preparing[k]];
        assert preparing[k] in preparing;
        match preparing[k] {
          case ReadSlot(i) => readSlots[i] := readSlots[i].(running := true);
          case WriteSlot(i) => writeSlots[i] := writeSlots[i].(running := true);
        }
        k := k + 1;
      }
      assert preparing[..k] == preparing;
    }
  
    constructor (blocks: array<Contents>, frames: array<Contents>)
      requires blocks != frames
      ensures Valid() && disk == blocks && mem == frames && Pending() == [] && finished == {}
    {
      disk, mem := blocks, frames;
      readSlots := new Slot[DEPTH](_ => Slot(false, IDLE_OP));
      writeSlots := new Slot[DEPTH](_ => Slot(false, IDLE_OP));
      idleReads := seq(DEPTH, i => i);
      idleWrites := seq(DEPTH, i => i);
      preparing, finished := [], {};
      new;
      forall i: nat | i < DEPTH ensures i in idleReads && i in idleWrites {
        assert idleReads[i] == i && idleWrites[i] == i;
      }
    }

    /** Runs the marked slots, reads first. */
    method RunAll(ghost refs: seq<Ref>)
      requires readSlots.Length == DEPTH && writeSlots.Length == DEPTH && readSlots != writeSlots && disk != mem
      requires forall i | 0 <= i < DEPTH :: readSlots[i].running <==> ReadSlot(i) in refs
      requires forall i | 0 <= i < DEPTH :: writeSlots[i].running <==> WriteSlot(i) in refs
      requires forall i | 0 <= i < DEPTH && readSlots[i].running :: InRange(readSlots[i].op, Stored())
      requires forall i | 0 <= i < DEPTH && writeSlots[i].running :: InRange(writeSlots[i].op, Stored())
      requires IdleOk(idleReads, refs, true) && IdleOk(idleWrites, refs, false)
      modifies this`idleReads, this`idleWrites, this`finished, readSlots, writeSlots, disk, mem
      ensures forall i | 0 <= i < DEPTH :: !readSlots[i].running && !writeSlots[i].running
      ensures IdleOk(idleReads, [], true) && IdleOk(idleWrites, [], false)
      ensures Stored() == ApplyAll(old(SlotOps(writeSlots[..])), ApplyAll(old(SlotOps(readSlots[..])), old(Stored())))
      ensures finished == old(finished) + Flags(old(SlotOps(readSlots[..]))) + Flags(old(SlotOps(writeSlots[..])))
    {
      ghost var rs, ws := readSlots[..], writeSlots[..];
      var freed := RunSlots(readSlots);
      IdleJoined(idleReads, rs, freed, refs, true);
      idleReads := idleReads + freed;
      assert writeSlots[..] == ws;
      freed := RunSlots(writeSlots);
      IdleJoined(idleWrites, ws, freed, refs, false);
      idleWrites := idleWrites + freed;
    }

    /** Carries out everything pending: all the reads first, in some order, then all the writes. When the pending
        requests are exclusive this is what a synchronous store would have done request by request. */
    method Progress() returns (ghost ins: seq<Op>, ghost outs: seq<Op>)
      requires Valid()
      modifies this, readSlots, writeSlots, disk, mem
      ensures Valid() && Pending() == []
      ensures forall op :: op in old(Pending()) <==> op in ins + outs
      ensures (forall op | op in ins :: op.Read?) && (forall op | op in outs :: op.Write?)
      ensures Stored() == ApplyAll(outs, ApplyAll(ins, old(Stored())))
      ensures Exclusive(old(Pending())) ==> Stored() == ApplyAll(old(Pending()), old(Stored()))
      ensures finished == old(finished) + Flags(old(Pending()))
    {
      ghost var refs, rs, ws, s := preparing, readSlots[..], writeSlots[..], Stored();
      PendingInRange();
      Mark();
      ghost var rs', ws' := readSlots[..], writeSlots[..];
      ins, outs := SlotOps(rs'), SlotOps(ws');
      MarkedKinds(refs, rs, ws, rs', ws');
      forall op ensures op in OpsAt(refs, rs, ws) <==> op in ins + outs { MarkedOps(refs, rs, ws, rs', ws', op); }
      preparing := [];
      RunAll(refs);
      if Exclusive(OpsAt(refs, rs, ws)) {
        ReadsThenWrites(refs, rs, ws, rs', ws', s);
      }
      forall t ensures t in Flags(SlotOps(rs')) + Flags(SlotOps(ws')) <==> t in Flags(OpsAt(refs, rs, ws)) {
        FlagsMarked(refs, rs, ws, rs', ws', t);
      }
    }

    /** The requests pending and the idle slots add up. */
    lemma SlotsAddUp()
      requires Valid()
      ensures |idleReads| + Count(Pending(), true) == 4096 && |idleWrites| + Count(Pending(), false) == 4096
    {
      forall r | r in preparing ensures OpAt(r, readSlots[..], writeSlots[..]).Read? == r.ReadSlot? { assert Fits(r); }
      IdleCount(idleReads, preparing, true);
      IdleCount(idleWrites, preparing, false);
      CountSlots(preparing, readSlots[..], writeSlots[..], true);
      CountSlots(preparing, readSlots[..], writeSlots[..], false);
    }

    lemma PendingInRange()
      requires Valid()
      ensures AllInRange(Pending(), Stored())
      ensures forall i | 0 <= i < DEPTH && ReadSlot(i) in preparing :: InRange(readSlots[i].op, Stored())
      ensures forall i | 0 <= i < DEPTH && WriteSlot(i) in preparing :: InRange(writeSlots[i].op, Stored())
    {
      forall r | r in preparing ensures InRange(OpAt(r, readSlots[..], writeSlots[..]), Stored()) { assert Fits(r); }
      forall op | op in Pending() ensures InRange(op, Stored()) {
        var k :| 0 <= k < |preparing| && Pending()[k] == op;
        assert preparing[k] in preparing;
      }
      forall i | 0 <= i < DEPTH && ReadSlot(i) in preparing ensures InRange(readSlots[i].op, Stored()) {
        assert Fits(ReadSlot(i));
      }
      forall i | 0 <= i < DEPTH && WriteSlot(i) in preparing ensures InRange(writeSlots[i].op, Stored()) {
        assert Fits(WriteSlot(i));
      }
    }

    /** Accepts a read request, or makes room for one. */
    method ReadBlock(block: nat, frame: nat, flag: Option<nat>) returns (ok: bool)
      requires Valid() && block < disk.Length && frame < mem.Length
      modifies this, readSlots, writeSlots, disk, mem
      ensures Valid() && (ok <==> Count(old(Pending()), true) < 4096)
      ensures ok ==> Stored() == old(Stored()) && finished == old(finished)
      ensures ok ==> Pending() == old(Pending()) + [Read(block, frame, flag)]
      ensures !ok ==> Pending() == [] && finished == old(finished) + Flags(old(Pending()))
      ensures !ok && Exclusive(old(Pending())) ==> Stored() == ApplyAll(old(Pending()), old(Stored()))
    {
      ok := idleReads != [];
      SlotsAddUp();
      if !ok {
        ghost var ins, outs := Progress();
        return;
      }
      var i := idleReads[|idleReads| - 1];
      IdleTaken(idleReads, preparing, true);
      IdleOther(idleWrites, preparing, !true, i);
      idleReads := idleReads[..|idleReads| - 1];
      readSlots[i] := Slot(false, Read(block, frame, flag));
      preparing := preparing + [ReadSlot(i)];
    }
  
    /** Accepts a write request, or makes room for one. */
    method WriteBlock(block: nat, frame: nat, flag: Option<nat>) returns (ok: bool)
      requires Valid() && block < disk.Length && frame < mem.Length
      modifies this, readSlots, writeSlots, disk, mem
      ensures Valid() && (ok <==> Count(old(Pending()), false) < 4096)
      ensures ok ==> Stored() == old(Stored()) && finished == old(finished)
      ensures ok ==> Pending() == old(Pending()) + [Write(block, frame, flag)]
      ensures !ok ==> Pending() == [] && finished == old(finished) + Flags(old(Pending()))
      ensures !ok && Exclusive(old(Pending())) ==> Stored() == ApplyAll(old(Pending()), old(Stored()))
    {
      ok := idleWrites != [];
      SlotsAddUp();
      if !ok {
        ghost var ins, outs := Progress();
        return;
      }
      var i := idleWrites[|idleWrites| - 1];
      IdleTaken(idleWrites, preparing, false);
      IdleOther(idleReads, preparing, !false, i);
      idleWrites := idleWrites[..|idleWrites| - 1];
      writeSlots[i] := Slot(false, Write(block, frame, flag));
      preparing := preparing + [WriteSlot(i)];
    }
  }
}
