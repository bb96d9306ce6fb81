/** The lines of the page table over whole runs: with one context in flight at a time and none refused, the
    overflow lines suffice at every step; with refused pins they need not. */
module CacheLines {
  import opened Basics
  import opened PageCache
  import opened CacheSystem
  import opened CacheInvariant
  import opened CacheTheorems
  import opened CacheAccounting
  import opened CompactPageTable
  import opened SingleThreadCache
  import opened OneAtATime

  /** The tags that have lines after a step. Serving and unpinning look the page's line up, making it if
      need be; clients and notifications make none. */
  ghost function StepTags(w: World, st: Step, tags: set<nat>): set<nat>
    requires Enabled(w, st)
  {
    match st
    case Serve(o, _) => TurnTags(tags, Current(w), o.core.table)
    case ServerUnpin(id, _) => tags + {TagOf(w.tokens[id].page)}
    case _ => tags
  }

  /** A run, with the tags that have lines after each step. */
  ghost predicate TaggedRun(ws: seq<World>, sts: seq<Step>, tags: seq<set<nat>>) {
    && Run(ws, sts) && |tags| == |ws| && tags[0] == {}
    && forall i | 0 <= i < |sts| :: tags[i + 1] == StepTags(ws[i], sts[i], tags[i])
  }

  /** No two contexts are in flight. */
  ghost predicate Alone(w: World) { forall i, j | IsContext(w, i) && IsContext(w, j) :: i == j }

  /** The step does not serve a pin that will be refused. */
  predicate Accepted(w: World, st: Step) {
    st.Serve? && w.server.Some? && IsContext(w, w.server.value) ==> Unrefused(w.core, Current(w))
  }

  predicate Needs(w: World, id: nat, tag: nat) {
    IsContext(w, id) && w.tokens[id].ctx.phase.Initing? && TagOf(w.tokens[id].ctx.page) == tag
  }

  predicate NoEmpty(t: Table) { forall p | p in t :: t[p] != EMPTY_PTE }

  ghost predicate SoloInv(w: World, tags: set<nat>) {
    && NoEmpty(w.core.table)
    && forall tag | tag in tags :: Inhabited(w.core.table, tag) || exists id :: Needs(w, id, tag)
  }

  lemma ServeSolo(w: World, o: Outcome, torn: Contents, tags: set<nat>)
    requires Inv(w) && Alone(w) && SoloInv(w, tags) && Enabled(w, Serve(o, torn)) && Unrefused(w.core, Current(w))
    ensures SoloInv(Served(w, o, torn), TurnTags(tags, Current(w), o.core.table))
  {
    var id := w.server.value;
    var c := Current(w);
    var w', tags' := Served(w, o, torn), TurnTags(tags, c, o.core.table);
    assert TokenInv(w, id);
    forall tag | tag in tags ensures Inhabited(w.core.table, tag) || (c.phase.Initing? && tag == TagOf(c.page)) {
      if !Inhabited(w.core.table, tag) { var j :| Needs(w, j, tag); assert j == id; }
    }
    TurnLines(w.core, tags, c, o);
    forall tag | tag in tags' ensures Inhabited(w'.core.table, tag) || exists j :: Needs(w', j, tag) {
      if !Inhabited(w'.core.table, tag) { assert Needs(w', id, tag); }
    }
  }

  /** Steps that keep the pages of the table. */
  lemma QuietSolo(w: World, w': World, tags: set<nat>)
    requires SoloInv(w, tags) && NoEmpty(w'.core.table) && w'.core.table.Keys == w.core.table.Keys
    requires forall id | IsContext(w, id) && w.tokens[id].ctx.phase.Initing? ::
      IsContext(w', id) && w'.tokens[id].ctx.phase.Initing? && w'.tokens[id].ctx.page == w.tokens[id].ctx.page
    ensures SoloInv(w', tags)
  {
    forall tag | tag in tags ensures Inhabited(w'.core.table, tag) || exists id :: Needs(w', id, tag) {
      if Inhabited(w.core.table, tag) {
        var p :| p in w.core.table && TagOf(p) == tag;
        assert p in w'.core.table;
      } else {
        var id :| Needs(w, id, tag);
        assert Needs(w', id, tag);
      }
    }
  }

  lemma UnpinSolo(w: World, id: nat, isWrite: bool, tags: set<nat>)
    requires Inv(w) && SoloInv(w, tags) && Enabled(w, ServerUnpin(id, isWrite))
    ensures SoloInv(Apply(w, ServerUnpin(id, isWrite)), tags + {TagOf(w.tokens[id].page)})
  {
    var w' := Apply(w, ServerUnpin(id, isWrite));
    var p := w.tokens[id].page;
    assert TokenInv(w, id) && p in w.core.table;
    QuietSolo(w, w', tags);
    assert Inhabited(w'.core.table, TagOf(p)) by { assert p in w'.core.table; }
  }

  lemma DirectSolo(w: World, st: Step, tags: set<nat>)
    requires Inv(w) && SoloInv(w, tags) && Enabled(w, st) && Direct(st)
    ensures SoloInv(Apply(w, st), tags)
  {
    if st.DirectUnpin? { assert TokenInv(w, st.id); }
    QuietSolo(w, Apply(w, st), tags);
  }

  lemma OtherSolo(w: World, st: Step, tags: set<nat>)
    requires SoloInv(w, tags) && Enabled(w, st) && !Direct(st) && !st.Serve? && !st.ServerUnpin?
    ensures SoloInv(Apply(w, st), tags)
  {
    QuietSolo(w, Apply(w, st), tags);
  }

  lemma SoloStep(w: World, st: Step, tags: set<nat>)
    requires Inv(w) && Alone(w) && SoloInv(w, tags) && Enabled(w, st) && Accepted(w, st)
    ensures SoloInv(Apply(w, st), StepTags(w, st, tags))
  {
    if st.Serve? {
      ServeSolo(w, st.o, st.torn, tags);
    } else if st.ServerUnpin? {
      UnpinSolo(w, st.id, st.isWrite, tags);
    } else if Direct(st) {
      DirectSolo(w, st, tags);
    } else {
      OtherSolo(w, st, tags);
    }
  }

  lemma {:induction false} RunSolo(ws: seq<World>, sts: seq<Step>, tags: seq<set<nat>>, k: nat)
    requires TaggedRun(ws, sts, tags) && k < |ws|
    requires forall i | 0 <= i < k :: Alone(ws[i]) && Accepted(ws[i], sts[i])
    ensures SoloInv(ws[k], tags[k])
  {
    if k > 0 {
      RunSolo(ws, sts, tags, k - 1);
      RunInv(ws, sts, k - 1);
      SoloStep(ws[k - 1], sts[k - 1], tags[k - 1]);
    }
  }

  /** The context in flight, or one that has ended when there is none. */
  ghost predicate Flies(w: World, c: Context) {
    if exists id :: IsContext(w, id) then exists id :: IsContext(w, id) && w.tokens[id].ctx == c else c.phase.End?
  }

  lemma FlightEntry(w: World, tags: set<nat>, c: Context, p: Page)
    requires Inv(w) && Alone(w) && SoloInv(w, tags) && Flies(w, c)
    ensures EntryOk(w.core, c, p)
  {
    assert PageInv(w, p);
    if id :| IsContext(w, id) && w.tokens[id].ctx == c { assert TokenInv(w, id); }
    if At(w, p).busy {
      var j :| j in w.tokens && Locks(w.tokens[j], p);
      assert IsContext(w, j) && TokenInv(w, j);
    }
  }

  /** In a reachable state one context in flight is alone in the sense of its table, too. */
  lemma FlightIsSole(w: World, tags: set<nat>, c: Context)
    requires Inv(w) && Alone(w) && SoloInv(w, tags) && Flies(w, c)
    ensures Sole(w.core, tags, c)
  {
    forall p ensures EntryOk(w.core, c, p) { FlightEntry(w, tags, c, p); }
    forall p, q ensures FramesApart(w.core, p, q) { assert Apart(w, p, q); }
    forall p | p in w.core.table && w.core.table[p].exist ensures w.core.table[p].frame < w.core.curId {
      assert PageInv(w, p);
    }
    forall tag | tag in tags ensures Inhabited(w.core.table, tag) || (c.phase.Initing? && tag == TagOf(c.page)) {
      if !Inhabited(w.core.table, tag) { var id :| Needs(w, id, tag); }
    }
  }

  /** The overflow bound over whole runs: while contexts are served one at a time and none is refused, at most
      one tag more than frames ever has a line, and none more when a context begins; so any table in order
      with these tags has room for the line it asks for, even if all tags collide. */
  lemma LinesSuffice(ws: seq<World>, sts: seq<Step>, tags: seq<set<nat>>, k: nat, t: Shape, p: Page)
    requires TaggedRun(ws, sts, tags) && k < |ws| && (forall i | 0 <= i <= k :: Alone(ws[i]))
    requires forall i | 0 <= i < k :: Accepted(ws[i], sts[i])
    requires Sealed(t) && 0 < t.capacity == ws[k].core.capacity && t.lineOf.Keys == tags[k]
    ensures |tags[k]| <= ws[k].core.capacity + 1
    ensures (forall id | IsContext(ws[k], id) ::
      !ws[k].tokens[id].ctx.phase.Initing? && !ws[k].tokens[id].ctx.phase.Evicting?) ==>
      |tags[k]| <= ws[k].core.capacity && Room(t, TagOf(p))
  {
    var w := ws[k];
    RunInv(ws, sts, k);
    RunSolo(ws, sts, tags, k);
    var c: Context;
    if id :| IsContext(w, id) { c := w.tokens[id].ctx; } else { c := NewContext(Pin, 0).(phase := End); }
    FlightIsSole(w, tags[k], c);
    SoleTags(w.core, tags[k], c);
    assert |t.lineOf| == |t.lineOf.Keys|;
    if |tags[k]| <= w.core.capacity { RoomWhenFew(t, TagOf(p)); }
  }

  // ---------------------------------------------------------------- refused pins

  lemma ExtendTagged(ws: seq<World>, sts: seq<Step>, tags: seq<set<nat>>, st: Step)
      returns (ws': seq<World>, sts': seq<Step>, tags': seq<set<nat>>)
    requires TaggedRun(ws, sts, tags) && Enabled(ws[|sts|], st)
    ensures TaggedRun(ws', sts', tags') && ws <= ws' && sts' == sts + [st]
    ensures ws'[|sts'|] == Apply(ws[|sts|], st) && tags'[|sts'|] == StepTags(ws[|sts|], st, tags[|sts|])
  {
    ws', sts', tags' := ws + [Apply(ws[|sts|], st)], sts + [st], tags + [StepTags(ws[|sts|], st, tags[|sts|])];
  }

  /** Step `i` of the run refuses a pin of page `p`. */
  ghost predicate Refuses(ws: seq<World>, sts: seq<Step>, i: nat, p: Page) {
    && i < |sts| && i < |ws| && sts[i].Serve? && ws[i].server.Some? && IsContext(ws[i], ws[i].server.value)
    && FullPin(ws[i].core) && Current(ws[i]).page == p && Current(ws[i]).phase.Initing?
    && sts[i].o == RefuseTurn(ws[i].core, Current(ws[i]))
  }

  /** A pin refused for want of frames changes nothing but the lines: its own is left behind, used by nothing. */
  lemma RefusedPinLeavesLine(ws: seq<World>, sts: seq<Step>, tags: seq<set<nat>>, id: nat, p: Page)
      returns (ws': seq<World>, sts': seq<Step>, tags': seq<set<nat>>)
    requires TaggedRun(ws, sts, tags) && ws[|sts|].server == None && id !in ws[|sts|].tokens
    requires FullPin(ws[|sts|].core) && !At(ws[|sts|], p).exist && !At(ws[|sts|], p).busy
    ensures TaggedRun(ws', sts', tags') && ws <= ws' && sts <= sts' && |sts'| == |sts| + 4
    ensures Refuses(ws', sts', |sts| + 3, p)
    ensures ws'[|sts'|] == ws[|sts|] && tags'[|sts'|] == tags[|sts|] + {TagOf(p)}
  {
    var w := ws[|sts|];
    ws', sts', tags' := ExtendTagged(ws, sts, tags, Submit(id, p));
    ws', sts', tags' := ExtendTagged(ws', sts', tags', Call(id));
    var w2 := ws'[|sts'|];
    ws', sts', tags' := ExtendTagged(ws', sts', tags', Serve(BeginTurn(w2.core, Current(w2)), []));
    var w3 := ws'[|sts'|];
    ws', sts', tags' := ExtendTagged(ws', sts', tags', Serve(RefuseTurn(w3.core, Current(w3)), []));
    assert ws'[|sts'|].tokens == w.tokens;
  }

  /** One frame, page 0 mapped to it and about to be loaded. */
  lemma ClaimFirst() returns (ws: seq<World>, sts: seq<Step>, tags: seq<set<nat>>)
    ensures TaggedRun(ws, sts, tags) && ws[|sts|] == CLAIMED && tags[|sts|] == {0}
  {
    var w0 := World(Fresh(1), None, map[], multiset{}, multiset{}, [[]], map[], map[], map[], 0);
    ws, sts, tags := [w0], [], [{}];
    ws, sts, tags := ExtendTagged(ws, sts, tags, Submit(0, 0));
    ws, sts, tags := ExtendTagged(ws, sts, tags, Call(0));
    var w2 := ws[|sts|];
    ws, sts, tags := ExtendTagged(ws, sts, tags, Serve(BeginTurn(w2.core, Current(w2)), []));
    var w3 := ws[|sts|];
    ws, sts, tags := ExtendTagged(ws, sts, tags, Serve(FreeTurn(w3.core, Current(w3)), []));
    assert ws[|sts|] == CLAIMED;
  }

  /** One frame, page 0 pinned in it. */
  lemma PinFirst() returns (ws: seq<World>, sts: seq<Step>, tags: seq<set<nat>>)
    ensures TaggedRun(ws, sts, tags) && ws[|sts|] == PINNED && tags[|sts|] == {0}
  {
    ws, sts, tags := ClaimFirst();
    ws, sts, tags := ExtendTagged(ws, sts, tags, Serve(EvictDone(CLAIMED.core, Current(CLAIMED)), []));
    var w5 := ws[|sts|];
    ws, sts, tags := ExtendTagged(ws, sts, tags, Serve(LoadDone(w5.core, Current(w5)), []));
    assert ws[|sts|] == PINNED;
    assert Inhabited(PINNED.core.table, 0) by { assert 0 in PINNED.core.table && TagOf(0) == 0; }
  }

  /** A table with the lines that page 0, pinned, and pages 8 and 16, refused in turn, have been given. */
  lemma ExhaustedTable() returns (t: Shape)
    ensures Sealed(t) && t.capacity == 1 && t.view == PINNED.core.table && t.lineOf.Keys == {0, 1, 2}
  {
    NewSealed(1);
    var t0 := NewShape(1);
    HeadTaggedSealed(t0, 0, 0);
    var t1 := HeadTagged(t0, 0, 0);
    EntrySealed(t1, 0);
    UpdatedSealed(t1, 0, Pte(true, false, false, 1, 0));
    var t2 := Updated(t1, 0, Pte(true, false, false, 1, 0));
    HeadTaggedSealed(t2, 1, 1);
    var t3 := HeadTagged(t2, 1, 1);
    AppendedSealed(t3, 0, 2);
    t := Appended(t3, 0, 2);
  }

  /** And no table with these lines has room for page 32. */
  lemma NoRoomFor32(u: Shape)
    requires Sealed(u) && u.capacity == 1 && u.lineOf.Keys == {0, 1, 2}
    ensures !Room(u, TagOf(32))
  {
    assert |u.lineOf| == |u.lineOf.Keys| == |{0, 1, 2}|;
    NoRoomWhenFull(u, TagOf(32));
  }

  /** Refused pins exhaust the overflow lines: one frame, page 0 pinned in it, pages 8 and 16 refused, and no
      table with the lines these were given has room for one more, while the cache holds a single page. */
  lemma RefusedPinsExhaust() returns (ws: seq<World>, sts: seq<Step>, tags: seq<set<nat>>, i: nat, j: nat, t: Shape)
    ensures TaggedRun(ws, sts, tags) && ws[|sts|] == PINNED && FullPin(PINNED.core) && tags[|sts|] == {0, 1, 2}
    ensures Refuses(ws, sts, i, 8) && Refuses(ws, sts, j, 16)
    ensures Sealed(t) && t.capacity == 1 && t.view == PINNED.core.table && t.lineOf.Keys == tags[|sts|]
    ensures forall u: Shape | Sealed(u) && u.capacity == 1 && u.lineOf.Keys == tags[|sts|] :: !Room(u, TagOf(32))
  {
    ws, sts, tags := PinFirst();
    i := |sts| + 3;
    ws, sts, tags := RefusedPinLeavesLine(ws, sts, tags, 1, 8);
    var ws1, sts1 := ws, sts;
    j := |sts| + 3;
    ws, sts, tags := RefusedPinLeavesLine(ws, sts, tags, 2, 16);
    RefusesLater(ws1, sts1, ws, sts, i, 8);
    t := ExhaustedTable();
    assert tags[|sts|] == {0, 1, 2};
    forall u: Shape | Sealed(u) && u.capacity == 1 && u.lineOf.Keys == tags[|sts|] ensures !Room(u, TagOf(32)) {
      NoRoomFor32(u);
    }
  }

  lemma RefusesLater(ws: seq<World>, sts: seq<Step>, ws': seq<World>, sts': seq<Step>, i: nat, p: Page)
    requires Refuses(ws, sts, i, p) && ws <= ws' && sts <= sts'
    ensures Refuses(ws', sts', i, p)
  {
    assert ws'[i] == ws[i] && sts'[i] == sts[i];
  }
}
