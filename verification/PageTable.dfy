/** The chained page table. A cache line packs the entries of eight consecutive pages under one tag;
    lines that collide hang off the bucket's own line, and come from a pool of spare lines. Every
    operation is proved against the plain map `view`. */
module CompactPageTable {
  import opened Basics
  import opened PageCache

  const PACK: nat := 8
  const EMPTY_TAG: nat := 0x3FF_FFFF_FFFF_FFFF
  const NULL: int := -1

  function TagOf(p: Page): nat { p / PACK }

  function OffsetOf(p: Page): nat { p % PACK }

  /** `next` is the index of the following line of the chain, or NULL. */
  datatype Line = Line(tag: nat, numUsing: nat, ptes: seq<Pte>, next: int)

  const EMPTY_PTES: seq<Pte> := [EMPTY_PTE, EMPTY_PTE, EMPTY_PTE, EMPTY_PTE, EMPTY_PTE, EMPTY_PTE, EMPTY_PTE, EMPTY_PTE]
  const EMPTY_LINE := Line(EMPTY_TAG, 0, EMPTY_PTES, NULL)

  predicate InUse(e: Pte) { e.exist || e.busy }

  /** An entry that maps nothing holds nothing but, possibly, the lock. */
  predicate Tidy(e: Pte) { !e.exist ==> !e.dirty && e.refCount == 0 && e.frame == EMPTY_FRAME }

  function Using(s: seq<Pte>): nat {
    if s == [] then 0 else (if InUse(s[0]) then 1 else 0) + Using(s[1..])
  }

  lemma {:induction false} UsingUpdate(s: seq<Pte>, o: nat, e: Pte)
    requires o < |s|
    ensures Using(s[o := e]) == Using(s) - (if InUse(s[o]) then 1 else 0) + (if InUse(e) then 1 else 0)
  {
    if o == 0 {
      assert s[o := e][1..] == s[1..];
    } else {
      assert s[o := e][1..] == s[1..][o - 1 := e];
      UsingUpdate(s[1..], o - 1, e);
    }
  }

  lemma {:induction false} UsingZero(s: seq<Pte>)
    ensures Using(s) == 0 <==> forall o | 0 <= o < |s| :: !InUse(s[o])
  {
    if s != [] {
      UsingZero(s[1..]);
      assert forall o | 0 < o < |s| :: s[o] == s[1..][o - 1];
      assert forall o | 0 <= o < |s| - 1 :: s[1..][o] == s[o + 1];
    }
  }

  lemma EmptySlots(s: seq<Pte>)
    requires |s| == PACK && Using(s) == 0 && forall o | 0 <= o < PACK :: Tidy(s[o])
    ensures s == EMPTY_PTES
  {
    UsingZero(s);
  }

  /** Where a linked line sits: the bucket of its chain and its place in it. */
  datatype Place = Place(bucket: nat, index: nat)

  /** The table as a value. `chains` lists each bucket's lines, `place` inverts it, `lineOf` finds a
      tag's line, `view` is the map the table stands for. The first `2 * capacity` lines are the
      buckets' own. */
  datatype Shape = Shape(
    capacity: nat,
    store: seq<Line>,
    pool: seq<nat>,
    chains: seq<seq<nat>>,
    place: map<nat, Place>,
    lineOf: map<nat, nat>,
    view: Table)

  function Bucket(t: Shape, tag: nat): (b: nat)
    requires 0 < t.capacity
    ensures b < 2 * t.capacity
  {
    tag % (2 * t.capacity)
  }

  ghost predicate LineOk(x: Line) {
    && |x.ptes| == PACK && x.numUsing == Using(x.ptes)
    && (forall o | 0 <= o < PACK :: Tidy(x.ptes[o]))
    && (x.tag == EMPTY_TAG ==> x.numUsing == 0)
  }

  /** The bucket's lines are linked in this order, beginning with the bucket's own. */
  ghost predicate LinkOk(t: Shape, b: nat, i: nat)
    requires b < |t.chains| && i < |t.chains[b]|
  {
    var l := t.chains[b][i];
    && l < |t.store| && l in t.place && t.place[l] == Place(b, i)
    && t.store[l].next == if i + 1 < |t.chains[b]| then t.chains[b][i + 1] else NULL
  }

  ghost predicate ChainOk(t: Shape, b: nat)
    requires b < |t.chains|
  {
    |t.chains[b]| > 0 && t.chains[b][0] == b && forall i | 0 <= i < |t.chains[b]| :: LinkOk(t, b, i)
  }

  ghost predicate PlaceOk(t: Shape, l: nat)
    requires l in t.place
  {
    var q := t.place[l];
    && l < |t.store| && q.bucket < |t.chains| && q.index < |t.chains[q.bucket]| && t.chains[q.bucket][q.index] == l
    && (l < 2 * t.capacity <==> q.index == 0)
  }

  ghost predicate ChainsOk(t: Shape) {
    && 0 < t.capacity && |t.store| == 3 * t.capacity && |t.chains| == 2 * t.capacity
    && (forall b | 0 <= b < |t.chains| :: ChainOk(t, b))
    && (forall l | l in t.place :: PlaceOk(t, l))
  }

  /** The spare lines are exactly the unlinked ones. */
  ghost predicate SparesOk(t: Shape) {
    && (forall i, j | 0 <= i < j < |t.pool| :: t.pool[i] != t.pool[j])
    && (forall l | 0 <= l < |t.store| :: l in t.pool <==> l !in t.place)
    && (forall l | l in t.pool :: l < |t.store| && t.store[l] == EMPTY_LINE)
  }

  ghost predicate TagOk(t: Shape, l: nat)
    requires l in t.place && l < |t.store| && 0 < t.capacity
  {
    var tag := t.store[l].tag;
    if tag == EMPTY_TAG then l < 2 * t.capacity
    else tag in t.lineOf && t.lineOf[tag] == l && t.place[l].bucket == Bucket(t, tag)
  }

  ghost predicate LinesOk(t: Shape) {
    forall l | 0 <= l < |t.store| :: LineOk(t.store[l])
  }

  /** Tags are unique and sit in their own bucket; only a bucket's own line may be empty-tagged. */
  ghost predicate TagsOk(t: Shape)
    requires ChainsOk(t)
  {
    && (forall l | l in t.place :: PlaceOk(t, l) && TagOk(t, l))
    && (forall tag | tag in t.lineOf ::
         tag < EMPTY_TAG && t.lineOf[tag] in t.place && t.lineOf[tag] < |t.store| && t.store[t.lineOf[tag]].tag == tag)
  }

  /** The entry the lines hold for page `p`. */
  ghost function Packed(t: Shape, p: Page): Pte {
    if TagOf(p) in t.lineOf && t.lineOf[TagOf(p)] < |t.store| && OffsetOf(p) < |t.store[t.lineOf[TagOf(p)]].ptes|
    then t.store[t.lineOf[TagOf(p)]].ptes[OffsetOf(p)]
    else EMPTY_PTE
  }

  ghost predicate ViewOk(t: Shape) {
    && (forall p | p in t.view :: t.view[p] != EMPTY_PTE)
    && (forall p: Page :: Lookup(t.view, p) == Packed(t, p))
  }

  ghost predicate Good(t: Shape) {
    ChainsOk(t) && SparesOk(t) && LinesOk(t) && TagsOk(t) && ViewOk(t)
  }

  /** Chains depend on the links only. */
  lemma SameLinks(t: Shape, t': Shape)
    requires ChainsOk(t)
    requires t'.capacity == t.capacity && t'.chains == t.chains && t'.place == t.place && |t'.store| == |t.store|
    requires forall l | 0 <= l < |t.store| :: t'.store[l].next == t.store[l].next
    ensures ChainsOk(t')
  {
    forall b | 0 <= b < |t'.chains| ensures ChainOk(t', b) {
      assert ChainOk(t, b);
      forall i | 0 <= i < |t'.chains[b]| ensures LinkOk(t', b, i) { assert LinkOk(t, b, i); }
    }
    forall l | l in t'.place ensures PlaceOk(t', l) { assert PlaceOk(t, l); }
  }

  /** A bucket's own line is the first of its chain. */
  lemma HeadLinked(t: Shape, b: nat)
    requires ChainsOk(t) && b < 2 * t.capacity
    ensures b in t.place && t.place[b] == Place(b, 0)
  {
    assert ChainOk(t, b) && LinkOk(t, b, 0);
  }

  /** A linked line can change without touching the spare ones. */
  lemma SameSpares(t: Shape, t': Shape, l: nat)
    requires SparesOk(t) && l in t.place && l < |t.store|
    requires t'.pool == t.pool && t'.place == t.place && |t'.store| == |t.store|
    requires t'.store == t.store[l := t'.store[l]]
    ensures SparesOk(t')
  {
  }

  /** Tags and links can change without touching the entries, as long as only the unused line `l` gains
      or loses its tag. */
  lemma EntriesStay(t: Shape, t': Shape, tag: nat, l: nat)
    requires LinesOk(t) && ViewOk(t) && t'.view == t.view && |t'.store| == |t.store| && l < |t.store|
    requires forall k | 0 <= k < |t.store| ::
      t'.store[k].ptes == t.store[k].ptes && t'.store[k].numUsing == t.store[k].numUsing
    requires forall k | 0 <= k < |t.store| && k != l :: t'.store[k].tag == t.store[k].tag
    requires t.store[l].numUsing == 0
    requires forall u | u != tag ::
      (u in t.lineOf <==> u in t'.lineOf) && (u in t.lineOf ==> t'.lineOf[u] == t.lineOf[u])
    requires (tag in t.lineOf ==> t.lineOf[tag] == l) && (tag in t'.lineOf ==> t'.lineOf[tag] == l)
    ensures LinesOk(t') && ViewOk(t')
  {
    assert LineOk(t.store[l]);
    EmptySlots(t.store[l].ptes);
    forall k | 0 <= k < |t'.store| ensures LineOk(t'.store[k]) { assert LineOk(t.store[k]); }
    forall p: Page ensures Lookup(t'.view, p) == Packed(t', p) {
      assert Lookup(t.view, p) == Packed(t, p);
      assert OffsetOf(p) < PACK && EMPTY_PTES[OffsetOf(p)] == EMPTY_PTE;
    }
  }

  // A new table.

  ghost function NewShape(n: nat): Shape {
    Shape(n, seq(3 * n, _ => EMPTY_LINE), seq(n, i => 2 * n + i), seq(2 * n, b => [b]),
          map b: nat | b < 2 * n :: Place(b, 0), map[], map[])
  }

  lemma NewGood(n: nat)
    requires 0 < n
    ensures Good(NewShape(n))
  {
    var t := NewShape(n);
    UsingZero(EMPTY_PTES);
    assert ChainsOk(t);
    assert SparesOk(t) by {
      forall l | 0 <= l < |t.store| && l !in t.place ensures l in t.pool { assert t.pool[l - 2 * n] == l; }
    }
  }

  // Giving a tag to the bucket's own line, and taking it back.

  ghost function HeadTagged(t: Shape, b: nat, tag: nat): Shape
    requires b < |t.store|
  {
    t.(store := t.store[b := t.store[b].(tag := tag)], lineOf := t.lineOf[tag := b])
  }

  lemma HeadTaggedTags(t: Shape, b: nat, tag: nat)
    requires ChainsOk(t) && TagsOk(t) && b < |t.store| && ChainsOk(HeadTagged(t, b, tag))
    requires b in t.place && t.place[b] == Place(b, 0)
    requires tag < EMPTY_TAG && tag !in t.lineOf && b == Bucket(t, tag) && t.store[b].tag == EMPTY_TAG
    ensures TagsOk(HeadTagged(t, b, tag))
  {
    var t' := HeadTagged(t, b, tag);
    forall l | l in t'.place ensures PlaceOk(t', l) && TagOk(t', l) { assert PlaceOk(t, l) && TagOk(t, l); }
  }

  lemma HeadTaggedGood(t: Shape, b: nat, tag: nat)
    requires Good(t) && tag < EMPTY_TAG && tag !in t.lineOf && b == Bucket(t, tag) && t.store[b].tag == EMPTY_TAG
    ensures Good(HeadTagged(t, b, tag))
  {
    SameLinks(t, HeadTagged(t, b, tag));
    HeadLinked(t, b);
    SameSpares(t, HeadTagged(t, b, tag), b);
    HeadTaggedTags(t, b, tag);
    assert LineOk(t.store[b]);
    EntriesStay(t, HeadTagged(t, b, tag), tag, b);
  }

  ghost function HeadUntagged(t: Shape, b: nat): Shape
    requires b < |t.store|
  {
    t.(store := t.store[b := t.store[b].(tag := EMPTY_TAG)], lineOf := t.lineOf - {t.store[b].tag})
  }

  lemma HeadUntaggedTags(t: Shape, b: nat)
    requires ChainsOk(t) && TagsOk(t) && b < 2 * t.capacity && ChainsOk(HeadUntagged(t, b)) && b in t.place
    requires t.store[b].tag != EMPTY_TAG && t.store[b].numUsing == 0
    ensures TagsOk(HeadUntagged(t, b))
  {
    var t' := HeadUntagged(t, b);
    assert TagOk(t, b);
    forall l | l in t'.place ensures PlaceOk(t', l) && TagOk(t', l) { assert PlaceOk(t, l) && TagOk(t, l); }
    forall tag | tag in t'.lineOf
      ensures t'.lineOf[tag] in t'.place && t'.store[t'.lineOf[tag]].tag == tag
    {
      assert tag in t.lineOf;
    }
  }

  lemma HeadUntaggedGood(t: Shape, b: nat)
    requires Good(t) && b < 2 * t.capacity && t.store[b].tag != EMPTY_TAG && t.store[b].numUsing == 0
    ensures Good(HeadUntagged(t, b))
  {
    SameLinks(t, HeadUntagged(t, b));
    HeadLinked(t, b);
    SameSpares(t, HeadUntagged(t, b), b);
    assert TagOk(t, b);
    HeadUntaggedTags(t, b);
    EntriesStay(t, HeadUntagged(t, b), t.store[b].tag, b);
  }

  // Hanging a spare line on a chain.

  ghost function Appended(t: Shape, b: nat, tag: nat): Shape
    requires b < |t.chains| && |t.chains[b]| > 0 && |t.pool| > 0
    requires t.pool[|t.pool| - 1] < |t.store| && t.chains[b][|t.chains[b]| - 1] < |t.store|
  {
    var l, last := t.pool[|t.pool| - 1], t.chains[b][|t.chains[b]| - 1];
    t.(store := t.store[l := t.store[l].(tag := tag)][last := t.store[last].(next := l)],
       pool := t.pool[..|t.pool| - 1],
       chains := t.chains[b := t.chains[b] + [l]],
       place := t.place[l := Place(b, |t.chains[b]|)],
       lineOf := t.lineOf[tag := l])
  }

  /** What an append relies on: the spare line is unlinked and the chain's last line is linked. */
  ghost predicate AppendCase(t: Shape, b: nat, tag: nat) {
    && ChainsOk(t) && TagsOk(t) && b < |t.chains| && tag < EMPTY_TAG && tag !in t.lineOf && b == Bucket(t, tag)
    && t.store[b].tag != EMPTY_TAG && |t.chains[b]| > 0 && |t.pool| > 0
    && var l, last := t.pool[|t.pool| - 1], t.chains[b][|t.chains[b]| - 1];
    && l < |t.store| && last < |t.store| && l !in t.place && t.store[l] == EMPTY_LINE
    && last in t.place && t.place[last] == Place(b, |t.chains[b]| - 1)
  }

  lemma AppendFacts(t: Shape, b: nat, tag: nat)
    requires Good(t) && tag < EMPTY_TAG && tag !in t.lineOf && b == Bucket(t, tag) && t.store[b].tag != EMPTY_TAG
    requires |t.pool| > 0
    ensures AppendCase(t, b, tag)
  {
    assert ChainOk(t, b) && LinkOk(t, b, |t.chains[b]| - 1);
    assert t.pool[|t.pool| - 1] in t.pool;
  }

  lemma AppendedChains(t: Shape, b: nat, tag: nat)
    requires AppendCase(t, b, tag)
    ensures ChainsOk(Appended(t, b, tag))
  {
    var t' := Appended(t, b, tag);
    forall c | 0 <= c < |t'.chains| ensures ChainOk(t', c) {
      assert ChainOk(t, c);
      forall i | 0 <= i < |t'.chains[c]| ensures LinkOk(t', c, i) {
        if i < |t.chains[c]| { assert LinkOk(t, c, i); }
      }
    }
    HeadLinked(t, b);
    forall l | l in t'.place ensures PlaceOk(t', l) {
      if l in t.place { assert PlaceOk(t, l); }
      else if l < 2 * t.capacity { HeadLinked(t, l); }
    }
  }

  lemma AppendedTags(t: Shape, b: nat, tag: nat)
    requires AppendCase(t, b, tag) && ChainsOk(Appended(t, b, tag))
    ensures TagsOk(Appended(t, b, tag))
  {
    var t' := Appended(t, b, tag);
    forall l | l in t'.place ensures PlaceOk(t', l) && TagOk(t', l) {
      if l in t.place { assert PlaceOk(t, l) && TagOk(t, l); }
    }
  }

  lemma AppendedSpares(t: Shape, b: nat, tag: nat)
    requires SparesOk(t) && b < |t.chains| && |t.chains[b]| > 0 && |t.pool| > 0
    requires var last := t.chains[b][|t.chains[b]| - 1]; last < |t.store| && last in t.place
    requires t.pool[|t.pool| - 1] < |t.store|
    ensures SparesOk(Appended(t, b, tag))
  {
    var t' := Appended(t, b, tag);
    var l := t.pool[|t.pool| - 1];
    assert t.pool == t'.pool + [l];
    assert l !in t'.pool;
    forall k | 0 <= k < |t'.store| ensures k in t'.pool <==> k !in t'.place {
      assert k in t.pool <==> k in t'.pool || k == l;
    }
    forall k | k in t'.pool ensures k < |t'.store| && t'.store[k] == EMPTY_LINE {
      assert k in t.pool;
    }
  }

  lemma AppendedEntries(t: Shape, b: nat, tag: nat)
    requires AppendCase(t, b, tag) && LinesOk(t) && ViewOk(t)
    ensures LinesOk(Appended(t, b, tag)) && ViewOk(Appended(t, b, tag))
  {
    EntriesStay(t, Appended(t, b, tag), tag, t.pool[|t.pool| - 1]);
  }

  lemma AppendedGood(t: Shape, b: nat, tag: nat)
    requires SparesOk(t) && LinesOk(t) && ViewOk(t) && AppendCase(t, b, tag)
    ensures Good(Appended(t, b, tag))
  {
    AppendedChains(t, b, tag);
    AppendedTags(t, b, tag);
    AppendedSpares(t, b, tag);
    AppendedEntries(t, b, tag);
  }

  // Taking an unused line off its chain.

  function Closed(q: Place, gap: Place): Place {
    if q.bucket == gap.bucket && q.index > gap.index then Place(q.bucket, q.index - 1) else q
  }

  ghost function Unlinked(t: Shape, l: nat): Shape
    requires l in t.place && PlaceOk(t, l) && t.place[l].index > 0
    requires t.chains[t.place[l].bucket][t.place[l].index - 1] < |t.store|
  {
    var q := t.place[l];
    var chain := t.chains[q.bucket];
    var pre := chain[q.index - 1];
    t.(store := t.store[pre := t.store[pre].(next := t.store[l].next)]
                       [l := t.store[l].(next := NULL, tag := EMPTY_TAG)],
       pool := t.pool + [l],
       chains := t.chains[q.bucket := chain[..q.index] + chain[q.index + 1..]],
       place := map k | k in t.place && k != l :: Closed(t.place[k], q),
       lineOf := t.lineOf - {t.store[l].tag})
  }

  /** Line `l` and the one before it are linked as they should be. */
  ghost predicate UnlinkHere(t: Shape, l: nat) {
    && l in t.place && PlaceOk(t, l) && LinkOk(t, t.place[l].bucket, t.place[l].index)
    && t.place[l].index > 0 && LinkOk(t, t.place[l].bucket, t.place[l].index - 1)
  }

  ghost predicate UnlinkCase(t: Shape, l: nat) {
    UnlinkHere(t, l) && ChainsOk(t) && TagsOk(t) && TagOk(t, l) && t.store[l].numUsing == 0
  }

  lemma UnlinkFacts(t: Shape, l: nat)
    requires Good(t) && l in t.place && l >= 2 * t.capacity && l < |t.store| && t.store[l].numUsing == 0
    ensures UnlinkCase(t, l)
  {
    assert PlaceOk(t, l) && TagOk(t, l);
    assert ChainOk(t, t.place[l].bucket);
  }

  lemma UnlinkedLink(t: Shape, l: nat, c: nat, i: nat, j: nat)
    requires UnlinkHere(t, l) && c < |t.chains| && i < |Unlinked(t, l).chains[c]|
    requires j == (if c == t.place[l].bucket && i >= t.place[l].index then i + 1 else i) && j < |t.chains[c]|
    requires LinkOk(t, c, j) && (j + 1 < |t.chains[c]| ==> LinkOk(t, c, j + 1))
    ensures LinkOk(Unlinked(t, l), c, i)
  {
    var t' := Unlinked(t, l);
    assert t'.chains[c][i] == t.chains[c][j];
  }

  lemma UnlinkedPlace(t: Shape, l: nat, k: nat)
    requires UnlinkHere(t, l) && k in Unlinked(t, l).place && PlaceOk(t, k)
    ensures PlaceOk(Unlinked(t, l), k)
  {
  }

  lemma UnlinkedChains(t: Shape, l: nat)
    requires UnlinkCase(t, l)
    ensures ChainsOk(Unlinked(t, l))
  {
    var t' := Unlinked(t, l);
    forall c | 0 <= c < |t'.chains| ensures ChainOk(t', c) {
      assert ChainOk(t, c);
      forall i | 0 <= i < |t'.chains[c]| ensures LinkOk(t', c, i) {
        var j := if c == t.place[l].bucket && i >= t.place[l].index then i + 1 else i;
        assert LinkOk(t, c, j) && (j + 1 < |t.chains[c]| ==> LinkOk(t, c, j + 1));
        UnlinkedLink(t, l, c, i, j);
      }
    }
    forall k | k in t'.place ensures PlaceOk(t', k) {
      assert PlaceOk(t, k);
      UnlinkedPlace(t, l, k);
    }
  }

  lemma UnlinkedTags(t: Shape, l: nat)
    requires UnlinkCase(t, l) && ChainsOk(Unlinked(t, l))
    ensures TagsOk(Unlinked(t, l))
  {
    var t' := Unlinked(t, l);
    forall k | k in t'.place ensures PlaceOk(t', k) && TagOk(t', k) {
      assert PlaceOk(t, k) && TagOk(t, k) && PlaceOk(t', k);
    }
    forall tag | tag in t'.lineOf ensures t'.lineOf[tag] in t'.place && t'.store[t'.lineOf[tag]].tag == tag {
      assert tag in t.lineOf;
    }
  }

  lemma UnlinkedSpares(t: Shape, l: nat)
    requires UnlinkCase(t, l) && SparesOk(t) && LineOk(t.store[l])
    ensures SparesOk(Unlinked(t, l))
  {
    EmptySlots(t.store[l].ptes);
  }

  lemma UnlinkedEntries(t: Shape, l: nat)
    requires UnlinkCase(t, l) && LinesOk(t) && ViewOk(t)
    ensures LinesOk(Unlinked(t, l)) && ViewOk(Unlinked(t, l))
  {
    EntriesStay(t, Unlinked(t, l), t.store[l].tag, l);
  }

  lemma UnlinkedGood(t: Shape, l: nat)
    requires SparesOk(t) && LinesOk(t) && ViewOk(t) && UnlinkCase(t, l)
    ensures Good(Unlinked(t, l))
  {
    UnlinkedChains(t, l);
    UnlinkedTags(t, l);
    UnlinkedSpares(t, l);
    UnlinkedEntries(t, l);
  }

  // Changing one entry.

  function WithPte(x: Line, o: nat, e: Pte): Line
    requires o < |x.ptes|
  {
    var s := x.ptes[o := e];
    x.(ptes := s, numUsing := Using(s))
  }

  ghost function Updated(t: Shape, p: Page, e: Pte): Shape
    requires TagOf(p) in t.lineOf && t.lineOf[TagOf(p)] < |t.store| && |t.store[t.lineOf[TagOf(p)]].ptes| == PACK
  {
    var l := t.lineOf[TagOf(p)];
    t.(store := t.store[l := WithPte(t.store[l], OffsetOf(p), e)], view := Put(t.view, p, e))
  }

  lemma UpdatedTags(t: Shape, p: Page, e: Pte)
    requires ChainsOk(t) && TagsOk(t) && TagOf(p) in t.lineOf
    requires LineOk(t.store[t.lineOf[TagOf(p)]]) && ChainsOk(Updated(t, p, e))
    ensures TagsOk(Updated(t, p, e))
  {
    var t' := Updated(t, p, e);
    forall l | l in t'.place ensures PlaceOk(t', l) && TagOk(t', l) { assert PlaceOk(t, l) && TagOk(t, l); }
  }

  lemma UpdatedView(t: Shape, p: Page, e: Pte)
    requires ViewOk(t) && TagOf(p) in t.lineOf && t.lineOf[TagOf(p)] < |t.store|
    requires |t.store[t.lineOf[TagOf(p)]].ptes| == PACK
    requires forall tag | tag in t.lineOf :: t.lineOf[tag] < |t.store| && t.store[t.lineOf[tag]].tag == tag
    ensures ViewOk(Updated(t, p, e))
  {
    var t' := Updated(t, p, e);
    forall q: Page ensures Lookup(t'.view, q) == Packed(t', q) {
      assert Lookup(t.view, q) == Packed(t, q);
      if q != p && TagOf(q) == TagOf(p) { assert OffsetOf(q) != OffsetOf(p); }
    }
  }

  lemma UpdatedGood(t: Shape, p: Page, e: Pte)
    requires Good(t) && TagOf(p) in t.lineOf && Tidy(e)
    ensures Good(Updated(t, p, e))
  {
    SameLinks(t, Updated(t, p, e));
    SameSpares(t, Updated(t, p, e), t.lineOf[TagOf(p)]);
    UpdatedTags(t, p, e);
    UpdatedView(t, p, e);
  }

  // Searching.

  /** A linked line that carries the tag is the tag's line. */
  lemma TagFound(t: Shape, l: nat, tag: nat)
    requires Good(t) && l in t.place && l < |t.store| && t.store[l].tag == tag != EMPTY_TAG
    ensures tag in t.lineOf && t.lineOf[tag] == l
  {
    assert TagOk(t, l);
  }

  /** A tag's line is in the chain of the tag's bucket. */
  lemma TagPlace(t: Shape, tag: nat)
    requires Good(t) && tag in t.lineOf
    ensures t.lineOf[tag] in t.chains[Bucket(t, tag)] && t.store[t.lineOf[tag]].tag == tag
  {
    var l := t.lineOf[tag];
    assert PlaceOk(t, l) && TagOk(t, l);
    assert t.chains[t.place[l].bucket][t.place[l].index] == l;
  }

  /** The lines `chain` of `store` are linked in this order. */
  ghost predicate Walkable(store: seq<Line>, chain: seq<nat>) {
    |chain| > 0 && forall i | 0 <= i < |chain| :: Leads(store, chain, i)
  }

  ghost predicate Leads(store: seq<Line>, chain: seq<nat>, i: nat)
    requires i < |chain|
  {
    chain[i] < |store| && store[chain[i]].next == if i + 1 < |chain| then chain[i + 1] else NULL
  }

  lemma ChainWalkable(t: Shape, b: nat)
    requires ChainsOk(t) && b < |t.chains|
    ensures Walkable(t.store, t.chains[b]) && t.chains[b][0] == b
    ensures forall l | l in t.chains[b] :: l in t.place && t.place[l].bucket == b
  {
    assert ChainOk(t, b);
    forall i | 0 <= i < |t.chains[b]| ensures Leads(t.store, t.chains[b], i) { assert LinkOk(t, b, i); }
    forall l | l in t.chains[b] ensures l in t.place && t.place[l].bucket == b {
      var i :| 0 <= i < |t.chains[b]| && t.chains[b][i] == l;
      assert LinkOk(t, b, i);
    }
  }

  /** Follows the links from the first line of `chain` until a line carries the tag; `last` is the line
      reached when none does. */
  method Walk(store: array<Line>, first: nat, tag: nat, ghost chain: seq<nat>) returns (found: bool, r: nat)
    requires Walkable(store[..], chain) && chain[0] == first
    ensures r in chain && r < store.Length
    ensures found ==> store[r].tag == tag
    ensures !found ==> r == chain[|chain| - 1] && forall l | l in chain :: l < store.Length && store[l].tag != tag
  {
    ghost var i := 0;
    r := first;
    while true
      invariant i < |chain| && r == chain[i]
      invariant forall j | 0 <= j < i :: chain[j] < store.Length && store[chain[j]].tag != tag
      decreases |chain| - i
    {
      assert Leads(store[..], chain, i);
      if store[r].tag == tag { return true, r; }
      if store[r].next == NULL { return false, r; }
      r, i := store[r].next, i + 1;
    }
  }

  /** Follows the links to the line before `end`. */
  method WalkTo(store: array<Line>, first: nat, end: nat, ghost chain: seq<nat>) returns (found: bool, r: nat)
    requires Walkable(store[..], chain) && chain[0] == first
    ensures r in chain && r < store.Length && (found ==> store[r].next == end)
    ensures !found ==> forall l | l in chain :: l < store.Length && store[l].next != end
  {
    ghost var i := 0;
    r := first;
    while true
      invariant i < |chain| && r == chain[i]
      invariant forall j | 0 <= j < i :: chain[j] < store.Length && store[chain[j]].next != end
      decreases |chain| - i
    {
      assert Leads(store[..], chain, i);
      if store[r].next == end { return true, r; }
      if store[r].next == NULL { return false, r; }
      r, i := store[r].next, i + 1;
    }
  }

  // The pool of spare lines.

  /** The line carries a tag that leads back to it. */
  ghost predicate Carries(store: seq<Line>, lineOf: map<nat, nat>, l: nat) {
    l < |store| && store[l].tag in lineOf && lineOf[store[l].tag] == l
  }

  lemma {:induction false} TaggedLines(lines: set<nat>, store: seq<Line>, lineOf: map<nat, nat>)
    requires forall l | l in lines :: Carries(store, lineOf, l)
    ensures |lines| <= |lineOf|
  {
    if lines != {} {
      var l :| l in lines;
      assert Carries(store, lineOf, l);
      var rest := lineOf - {store[l].tag};
      assert rest.Keys == lineOf.Keys - {store[l].tag};
      forall k | k in lines - {l} ensures Carries(store, rest, k) { assert Carries(store, lineOf, k); }
      TaggedLines(lines - {l}, store, rest);
    }
  }

  function Range(a: nat, n: nat): (r: set<nat>)
    ensures |r| == n && forall i :: i in r <==> a <= i < a + n
  {
    if n == 0 then {} else Range(a, n - 1) + {a + n - 1}
  }

  /** Without a spare line every line is linked, and every overflow line tagged. */
  lemma NoSpares(t: Shape, l: nat)
    requires Good(t) && t.pool == [] && l < |t.store| && (l < 2 * t.capacity ==> t.store[l].tag != EMPTY_TAG)
    ensures Carries(t.store, t.lineOf, l)
  {
    assert l in t.place;
    assert TagOk(t, l);
  }

  /** Overflow-pool bound: while no more tags are present than there are frames, a collision finds a
      spare line, even if every tag falls into one bucket. */
  lemma SpareLineLeft(t: Shape, b: nat)
    requires Good(t) && |t.lineOf| <= t.capacity && b < 2 * t.capacity && t.store[b].tag != EMPTY_TAG
    ensures t.pool != []
  {
    var lines := Range(2 * t.capacity, t.capacity) + {b};
    if t.pool == [] {
      forall l | l in lines ensures Carries(t.store, t.lineOf, l) { NoSpares(t, l); }
      TaggedLines(lines, t.store, t.lineOf);
    }
  }

  /** The table's entry for a page is where the tag says, or empty. */
  lemma EntryAt(t: Shape, p: Page)
    requires Good(t)
    ensures TagOf(p) !in t.lineOf ==> Lookup(t.view, p) == EMPTY_PTE
    ensures TagOf(p) in t.lineOf ==>
      var l := t.lineOf[TagOf(p)];
      && l < |t.store| && |t.store[l].ptes| == PACK && t.store[l].numUsing == Using(t.store[l].ptes) && l in t.place
      && t.store[l].tag == TagOf(p) && Lookup(t.view, p) == t.store[l].ptes[OffsetOf(p)]
    ensures Tidy(Lookup(t.view, p))
  {
    assert Lookup(t.view, p) == Packed(t, p);
    if TagOf(p) in t.lineOf {
      assert LineOk(t.store[t.lineOf[TagOf(p)]]);
    }
  }

  /** Where a new line for the tag goes: NULL for the bucket's own line, else after the chain's last. */
  ghost function Anchor(t: Shape, tag: nat): int
    requires 0 < t.capacity
  {
    var b := Bucket(t, tag);
    if b >= |t.store| || t.store[b].tag == EMPTY_TAG || b >= |t.chains| || t.chains[b] == [] then NULL
    else t.chains[b][|t.chains[b]| - 1]
  }

  /** Only the line before `l` in its chain leads to `l`, and the bucket's own line has none before it. */
  lemma LineBefore(t: Shape, l: nat)
    requires Good(t) && l in t.place
    ensures PlaceOk(t, l)
    ensures var q := t.place[l];
      && (q.index > 0 ==> var pre := t.chains[q.bucket][q.index - 1];
            pre in t.chains[q.bucket] && pre < |t.store| && t.store[pre].next == l)
      && forall r | r in t.chains[q.bucket] && r < |t.store| && t.store[r].next == l ::
          q.index > 0 && r == t.chains[q.bucket][q.index - 1]
  {
    assert PlaceOk(t, l);
    var q := t.place[l];
    assert ChainOk(t, q.bucket);
    if q.index > 0 { assert LinkOk(t, q.bucket, q.index - 1); }
    forall r | r in t.chains[q.bucket] && r < |t.store| && t.store[r].next == l
      ensures q.index > 0 && r == t.chains[q.bucket][q.index - 1]
    {
      var j :| 0 <= j < |t.chains[q.bucket]| && t.chains[q.bucket][j] == r;
      NextInChain(t, l, j);
    }
  }

  lemma NextInChain(t: Shape, l: nat, j: nat)
    requires ChainsOk(t) && l in t.place && PlaceOk(t, l)
    requires var q := t.place[l];
      j < |t.chains[q.bucket]| && t.chains[q.bucket][j] < |t.store| && t.store[t.chains[q.bucket][j]].next == l
    ensures t.place[l].index == j + 1
  {
    var q := t.place[l];
    assert ChainOk(t, q.bucket) && LinkOk(t, q.bucket, j);
    assert LinkOk(t, q.bucket, j + 1);
  }

  // The operations of the table, each with the invariant packed up so that the class need not open it.

  datatype Aspect = Chains | Spares | Lines | Tags | View

  ghost predicate InOrder(t: Shape, a: Aspect) {
    match a
    case Chains => ChainsOk(t)
    case Spares => SparesOk(t)
    case Lines => LinesOk(t)
    case Tags => ChainsOk(t) && TagsOk(t)
    case View => ViewOk(t)
  }

  ghost predicate Sealed(t: Shape) { forall a: Aspect :: InOrder(t, a) }

  lemma Open(t: Shape)
    requires Sealed(t)
    ensures Good(t)
  {
    assert InOrder(t, Chains) && InOrder(t, Spares) && InOrder(t, Lines) && InOrder(t, Tags) && InOrder(t, View);
  }

  lemma Seal(t: Shape)
    requires Good(t)
    ensures Sealed(t)
  {
  }

  lemma NewSealed(n: nat)
    requires 0 < n
    ensures Sealed(NewShape(n))
  {
    NewGood(n);
    Seal(NewShape(n));
  }

  lemma BucketChain(t: Shape, tag: nat)
    requires Sealed(t) && 0 < t.capacity
    ensures var b := Bucket(t, tag);
      && b < |t.chains| && Walkable(t.store, t.chains[b]) && t.chains[b][0] == b && b < |t.store|
      && (forall l | l in t.chains[b] && l < |t.store| && t.store[l].tag == tag && tag != EMPTY_TAG ::
            tag in t.lineOf && t.lineOf[tag] == l)
      && (tag in t.lineOf ==>
           t.lineOf[tag] in t.chains[b] && t.lineOf[tag] < |t.store| && t.store[t.lineOf[tag]].tag == tag)
  {
    Open(t);
    var b := Bucket(t, tag);
    ChainWalkable(t, b);
    forall l | l in t.chains[b] && l < |t.store| && t.store[l].tag == tag && tag != EMPTY_TAG
      ensures tag in t.lineOf && t.lineOf[tag] == l
    {
      TagFound(t, l, tag);
    }
    if tag in t.lineOf { TagPlace(t, tag); }
  }

  lemma HeadTaggedSealed(t: Shape, b: nat, tag: nat)
    requires Sealed(t) && 0 < t.capacity && b < |t.store| && t.store[b].tag == EMPTY_TAG
    requires tag < EMPTY_TAG && tag !in t.lineOf && b == Bucket(t, tag)
    ensures Sealed(HeadTagged(t, b, tag))
  {
    Open(t);
    HeadTaggedGood(t, b, tag);
    Seal(HeadTagged(t, b, tag));
  }

  lemma AppendedSealed(t: Shape, b: nat, tag: nat)
    requires Sealed(t) && 0 < t.capacity && tag < EMPTY_TAG && tag !in t.lineOf && b == Bucket(t, tag)
    requires b < |t.store| && t.store[b].tag != EMPTY_TAG && t.pool != []
    ensures b < |t.chains| && |t.chains[b]| > 0
    ensures t.pool[|t.pool| - 1] < |t.store| && t.chains[b][|t.chains[b]| - 1] < |t.store|
    ensures t.pool[|t.pool| - 1] != t.chains[b][|t.chains[b]| - 1]
    ensures Sealed(Appended(t, b, tag))
  {
    Open(t);
    AppendFacts(t, b, tag);
    AppendedGood(t, b, tag);
    Seal(Appended(t, b, tag));
  }

  /** Deleting an unused line: the search for the line before it succeeds exactly for overflow lines. */
  lemma DeletedSealed(t: Shape, l: nat)
    requires Sealed(t) && 0 < t.capacity && l in t.place && l < |t.store|
    requires t.store[l].tag != EMPTY_TAG && t.store[l].numUsing == 0
    ensures PlaceOk(t, l) && t.place[l].bucket == Bucket(t, t.store[l].tag)
    ensures var q := t.place[l];
      if q.index == 0 then
        && l == q.bucket && Sealed(HeadUntagged(t, l))
        && forall r | r in t.chains[q.bucket] && r < |t.store| :: t.store[r].next != l
      else
        var pre := t.chains[q.bucket][q.index - 1];
        && pre < |t.store| && pre != l && pre in t.chains[q.bucket] && t.store[pre].next == l && Sealed(Unlinked(t, l))
        && forall r | r in t.chains[q.bucket] && r < |t.store| && t.store[r].next == l :: r == pre
  {
    Open(t);
    LineBefore(t, l);
    assert TagOk(t, l);
    if t.place[l].index == 0 {
      HeadLinked(t, l);
      HeadUntaggedGood(t, l);
      Seal(HeadUntagged(t, l));
    } else {
      UnlinkFacts(t, l);
      UnlinkedGood(t, l);
      Seal(Unlinked(t, l));
    }
  }

  lemma UpdatedSealed(t: Shape, p: Page, e: Pte)
    requires Sealed(t) && TagOf(p) in t.lineOf && Tidy(e)
    requires t.lineOf[TagOf(p)] < |t.store| && |t.store[t.lineOf[TagOf(p)]].ptes| == PACK
    ensures Sealed(Updated(t, p, e))
  {
    Open(t);
    UpdatedGood(t, p, e);
    Seal(Updated(t, p, e));
  }

  lemma EntrySealed(t: Shape, p: Page)
    requires Sealed(t)
    ensures TagOf(p) !in t.lineOf ==> Lookup(t.view, p) == EMPTY_PTE
    ensures TagOf(p) in t.lineOf ==>
      var l := t.lineOf[TagOf(p)];
      && l < |t.store| && |t.store[l].ptes| == PACK && t.store[l].numUsing == Using(t.store[l].ptes) && l in t.place
      && t.store[l].tag == TagOf(p) && Lookup(t.view, p) == t.store[l].ptes[OffsetOf(p)]
    ensures Tidy(Lookup(t.view, p))
  {
    Open(t);
    EntryAt(t, p);
  }

  // Runs that finish each pin before the next.

  /** Nothing is locked, each frame backs at most one page, and no line is left without an entry. */
  ghost predicate Settled(t: Shape) {
    AtRest(t.view, t.capacity) && forall tag | tag in t.lineOf :: Inhabited(t.view, tag)
  }

  ghost predicate AtRest(view: Table, capacity: nat) {
    && (forall p | p in view :: view[p].exist && !view[p].busy && view[p].frame < capacity)
    && (forall p, q | p in view && q in view && p != q :: view[p].frame != view[q].frame)
  }

  ghost predicate Inhabited(view: Table, tag: nat) { exists p :: p in view && TagOf(p) == tag }

  /** Pins and unpins of a resident page keep it so. */
  lemma SettledReferences(t: Shape, t': Shape, p: Page, e: Pte)
    requires Settled(t) && p in t.view && t'.lineOf == t.lineOf
    requires t'.capacity == t.capacity && t'.view == Put(t.view, p, e)
    requires e == IncRef(t.view[p]) || exists w :: t.view[p].refCount > 0 && e == DecRef(t.view[p], w)
    ensures Settled(t')
  {
    forall tag | tag in t'.lineOf ensures Inhabited(t'.view, tag) {
      assert Inhabited(t.view, tag);
      var q :| q in t.view && TagOf(q) == tag;
      assert q in t'.view;
    }
  }

  lemma {:induction false} FramesBound(view: Table, frames: set<Frame>)
    requires forall p | p in view :: view[p].frame in frames
    requires forall p, q | p in view && q in view && p != q :: view[p].frame != view[q].frame
    ensures |view| <= |frames|
  {
    if view != map[] {
      var p :| p in view;
      var rest := view - {p};
      assert rest.Keys == view.Keys - {p};
      FramesBound(rest, frames - {view[p].frame});
    }
  }

  lemma {:induction false} TagsBound(tags: set<nat>, view: Table)
    requires forall tag | tag in tags :: Inhabited(view, tag)
    ensures |tags| <= |view|
  {
    if tags != {} {
      var tag :| tag in tags;
      assert Inhabited(view, tag);
      var p :| p in view && TagOf(p) == tag;
      var rest := view - {p};
      assert rest.Keys == view.Keys - {p};
      forall u | u in tags - {tag} ensures Inhabited(rest, u) {
        assert Inhabited(view, u);
        var q :| q in view && TagOf(q) == u;
        assert q in rest;
      }
      TagsBound(tags - {tag}, rest);
    }
  }

  /** Between pins at most as many tags are present as there are frames. */
  lemma SettledTags(t: Shape)
    requires Settled(t)
    ensures |t.lineOf| <= t.capacity
  {
    TagsBound(t.lineOf.Keys, t.view);
    FramesBound(t.view, Range(0, t.capacity));
  }

  /** A line with entries in use holds a page. */
  lemma UsedLine(t: Shape, tag: nat)
    requires Sealed(t) && tag in t.lineOf && t.lineOf[tag] < |t.store| && t.store[t.lineOf[tag]].numUsing > 0
    ensures Inhabited(t.view, tag)
  {
    EntrySealed(t, tag * PACK);
    var s := t.store[t.lineOf[tag]].ptes;
    assert TagOf(tag * PACK) == tag;
    UsingZero(s);
    var o :| 0 <= o < |s| && InUse(s[o]);
    var p := tag * PACK + o;
    assert TagOf(p) == tag && OffsetOf(p) == o;
    EntrySealed(t, p);
    assert p in t.view;
  }

  lemma UnusedLine(t: Shape, tag: nat)
    requires Sealed(t) && tag in t.lineOf && t.lineOf[tag] < |t.store| && t.store[t.lineOf[tag]].numUsing == 0
    ensures !Inhabited(t.view, tag)
  {
    forall p | p in t.view ensures TagOf(p) != tag {
      Open(t);
      EntryAt(t, p);
      UsingZero(t.store[t.lineOf[tag]].ptes);
    }
  }

  /** There is a line for the tag, or one can be made. */
  ghost predicate Room(t: Shape, tag: nat)
    requires 0 < t.capacity
  {
    tag in t.lineOf || Anchor(t, tag) == NULL || t.pool != []
  }

  lemma RoomWhenSettled(t: Shape, tag: nat)
    requires Sealed(t) && 0 < t.capacity && Settled(t)
    ensures Room(t, tag)
  {
    SettledTags(t);
    RoomWhenFew(t, tag);
  }

  /** No more tags than frames leave room for any one more. */
  lemma RoomWhenFew(t: Shape, tag: nat)
    requires Sealed(t) && 0 < t.capacity && |t.lineOf| <= t.capacity
    ensures Room(t, tag)
  {
    if Anchor(t, tag) != NULL {
      Open(t);
      SpareLineLeft(t, Bucket(t, tag));
    }
  }

  /** The overflow lines hanging on some chain. */
  ghost function Overflow(t: Shape): set<nat> { set l | l in t.place && l >= 2 * t.capacity }

  /** A sequence without repetitions has as many members as places. */
  lemma {:induction false} Members(s: seq<nat>, m: set<nat>)
    requires (forall i, j | 0 <= i < j < |s| :: s[i] != s[j]) && (forall x :: x in m <==> x in s)
    ensures |m| == |s|
  {
    if s != [] {
      var last := s[|s| - 1];
      var rest := s[..|s| - 1];
      assert s == rest + [last];
      Members(rest, m - {last});
    } else {
      assert m == {};
    }
  }

  /** An overflow line is spare or on a chain; a bucket's own line is never spare. */
  lemma OverflowOrSpare(t: Shape, l: nat)
    requires Good(t)
    ensures l in t.pool ==> 2 * t.capacity <= l < 3 * t.capacity && l !in Overflow(t)
    ensures l in Overflow(t) ==> l < 3 * t.capacity
    ensures 2 * t.capacity <= l < 3 * t.capacity ==> l in t.pool || l in Overflow(t)
  {
    if l < 2 * t.capacity { HeadLinked(t, l); }
    if l in t.place { assert PlaceOk(t, l); }
  }

  lemma TwoParts(s: seq<nat>, over: set<nat>, all: set<nat>)
    requires forall i, j | 0 <= i < j < |s| :: s[i] != s[j]
    requires forall l :: l in all <==> l in s || l in over
    requires forall l | l in s :: l !in over
    ensures |s| + |over| == |all|
  {
    var rest := all - over;
    Members(s, rest);
    assert all == rest + over;
  }

  /** Spare lines and overflow lines in use make up the pool. */
  lemma PoolSize(t: Shape)
    requires Good(t)
    ensures |t.pool| + |Overflow(t)| == t.capacity
  {
    var all, over := Range(2 * t.capacity, t.capacity), Overflow(t);
    forall l ensures (l in all <==> l in t.pool || l in over) && (l in t.pool ==> l !in over) { OverflowOrSpare(t, l); }
    TwoParts(t.pool, over, all);
  }

  /** Exactly when a page's line can be made: its tag has one, its bucket's own line is free, or not all
      overflow lines are in use. */
  lemma RoomIff(t: Shape, tag: nat)
    requires Sealed(t) && 0 < t.capacity
    ensures Room(t, tag) <==>
      tag in t.lineOf || (Bucket(t, tag) < |t.store| && t.store[Bucket(t, tag)].tag == EMPTY_TAG) ||
        |Overflow(t)| < t.capacity
  {
    Open(t);
    PoolSize(t);
    assert ChainOk(t, Bucket(t, tag)) && LinkOk(t, Bucket(t, tag), 0);
    ChainWalkable(t, Bucket(t, tag));
  }

  /** Tags sit on different lines. */
  lemma {:induction false} LinesOfTags(t: Shape, tags: set<nat>, lines: set<nat>)
    requires forall tag | tag in tags ::
      tag in t.lineOf && t.lineOf[tag] in lines && t.lineOf[tag] < |t.store| && t.store[t.lineOf[tag]].tag == tag
    ensures |tags| <= |lines|
  {
    if tags != {} {
      var tag :| tag in tags;
      LinesOfTags(t, tags - {tag}, lines - {t.lineOf[tag]});
    }
  }

  lemma EveryLineTagged(t: Shape, l: nat)
    requires Good(t) && |t.lineOf| == 3 * t.capacity && l < 3 * t.capacity
    ensures t.store[l].tag != EMPTY_TAG && l !in t.pool
  {
    var others := Range(0, 3 * t.capacity) - {l};
    assert |others| == 3 * t.capacity - 1;
    if t.store[l].tag == EMPTY_TAG { LinesOfTags(t, t.lineOf.Keys, others); }
  }

  /** With a tag on every line there is room for no other. */
  lemma NoRoomWhenFull(t: Shape, tag: nat)
    requires Sealed(t) && 0 < t.capacity && |t.lineOf| == 3 * t.capacity && tag !in t.lineOf
    ensures !Room(t, tag)
  {
    Open(t);
    EveryLineTagged(t, Bucket(t, tag));
    if t.pool != [] { OverflowOrSpare(t, t.pool[0]); EveryLineTagged(t, t.pool[0]); }
    ChainWalkable(t, Bucket(t, tag));
  }

  class CompactHashPageTable {
    const capacity: nat
    const store: array<Line>
    var pool: seq<nat>
    ghost var chains: seq<seq<nat>>
    ghost var place: map<nat, Place>
    ghost var lineOf: map<nat, nat>
    ghost var view: Table

    ghost function Value(): Shape
      reads this, store
    {
      Shape(capacity, store[..], pool, chains, place, lineOf, view)
    }

    ghost predicate Valid()
      reads this, store
    {
      0 < capacity && store.Length == 3 * capacity && Sealed(Value())
    }

    constructor (n: nat)
      requires 0 < n
      ensures Valid() && fresh(store) && Value() == NewShape(n)
    {
      capacity := n;
      store := new Line[3 * n](_ => EMPTY_LINE);
      pool := seq(n, i => 2 * n + i);
      chains := seq(2 * n, b => [b]);
      place := map b: nat | b < 2 * n :: Place(b, 0);
      lineOf, view := map[], map[];
      new;
      assert store[..] == NewShape(n).store;
      NewSealed(n);
    }

    method FindCacheline(tag: nat) returns (r: int)
      requires Valid() && tag < EMPTY_TAG
      ensures r == if tag in lineOf then lineOf[tag] else NULL
    {
      BucketChain(Value(), tag);
      var b := tag % (2 * capacity);
      var found, line := Walk(store, b, tag, chains[b]);
      r := if found then line else NULL;
    }

    /** Finds the tag's line, or the line a new one must follow; NULL means the bucket's own line. */
    method FindCachelineHint(tag: nat) returns (exist: bool, r: int)
      requires Valid() && tag < EMPTY_TAG
      ensures exist <==> tag in lineOf
      ensures r == if exist then lineOf[tag] else Anchor(Value(), tag)
    {
      BucketChain(Value(), tag);
      var b := tag % (2 * capacity);
      var found, line := Walk(store, b, tag, chains[b]);
      exist, r := found, if !found && store[b].tag == EMPTY_TAG then NULL else line;
    }

    method CreateCacheline(tag: nat, pre: int) returns (r: nat)
      requires Valid() && tag < EMPTY_TAG && tag !in lineOf && pre == Anchor(Value(), tag)
      requires pre != NULL ==> pool != []
      modifies this, store
      ensures Valid() && view == old(view) && lineOf == old(lineOf)[tag := r]
      ensures if pre == NULL then r == tag % (2 * capacity) && pool == old(pool) else old(pool) == pool + [r]
    {
      ghost var t := Value();
      BucketChain(t, tag);
      var b := tag % (2 * capacity);
      r := b;
      if pre == NULL {
        HeadTaggedSealed(t, b, tag);
        store[b] := store[b].(tag := tag);
        lineOf := lineOf[tag := b];
        assert Value() == HeadTagged(t, b, tag);
      } else {
        AppendedSealed(t, b, tag);
        r := pool[|pool| - 1];
        pool := pool[..|pool| - 1];
        store[r] := store[r].(tag := tag);
        store[pre] := store[pre].(next := r);
        place := place[r := Place(b, |chains[b]|)];
        chains := chains[b := chains[b] + [r]];
        lineOf := lineOf[tag := r];
        assert Value() == Appended(t, b, tag);
      }
    }

    method DeleteCacheline(l: nat)
      requires Valid() && l in place && l < store.Length && store[l].tag != EMPTY_TAG && store[l].numUsing == 0
      modifies this, store
      ensures Valid() && view == old(view) && lineOf == old(lineOf) - {old(store[l].tag)}
      ensures pool == if l < 2 * capacity then old(pool) else old(pool) + [l]
    {
      ghost var t := Value();
      DeletedSealed(t, l);
      BucketChain(t, store[l].tag);
      var b := store[l].tag % (2 * capacity);
      var found, pre := WalkTo(store, b, l, chains[b]);
      ghost var q := place[l];
      lineOf := lineOf - {store[l].tag};
      if found {
        store[pre] := store[pre].(next := store[l].next);
        store[l] := store[l].(next := NULL);
        pool := pool + [l];
        chains := chains[b := chains[b][..q.index] + chains[b][q.index + 1..]];
        place := map k | k in place && k != l :: Closed(place[k], q);
      }
      store[l] := store[l].(tag := EMPTY_TAG);
      assert Value() == if found then Unlinked(t, l) else HeadUntagged(t, l);
    }
  
    /** There is a line for the page, or one can be made. */
    ghost predicate HasRoom(p: Page)
      reads this, store
      requires 0 < capacity
    {
      Room(Value(), TagOf(p))
    }

    method FindOrCreateHint(p: Page) returns (r: nat)
      requires Valid() && TagOf(p) < EMPTY_TAG && HasRoom(p)
      modifies this, store
      ensures Valid() && view == old(view)
      ensures lineOf == old(lineOf)[TagOf(p) := r]
      ensures TagOf(p) in old(lineOf) ==> Value() == old(Value())
      ensures pool == old(pool) || old(pool) == pool + [r]
    {
      var exist, line := FindCachelineHint(p / PACK);
      if exist {
        EntrySealed(Value(), p);
        r := line;
        assert lineOf[TagOf(p) := r] == lineOf;
      } else {
        r := CreateCacheline(p / PACK, line);
      }
    }

    method GetPte(p: Page) returns (e: Pte)
      requires Valid() && TagOf(p) < EMPTY_TAG
      ensures e == Lookup(view, p)
    {
      var l := FindCacheline(p / PACK);
      EntrySealed(Value(), p);
      e := if l == NULL then EMPTY_PTE else store[l].ptes[p % PACK];
    }

    /** Stores an entry, and nothing else. */
    method SetEntry(l: nat, p: Page, e: Pte)
      requires l < store.Length && |store[l].ptes| == PACK
      modifies store
      ensures store[..] == old(store[..])[l := old(store[l]).(ptes := old(store[l]).ptes[OffsetOf(p) := e])]
    {
      store[l] := store[l].(ptes := store[l].ptes[p % PACK := e]);
    }

    /** Replaces an entry by one that uses its slot just as much; the line's count stays right. */
    method SetPte(l: nat, p: Page, e: Pte)
      requires Valid() && TagOf(p) in lineOf && lineOf[TagOf(p)] == l && Tidy(e) && InUse(e) == InUse(Lookup(view, p))
      modifies this`view, store
      ensures Valid() && view == Put(old(view), p, e)
    {
      ghost var t := Value();
      EntrySealed(t, p);
      UpdatedSealed(t, p, e);
      UsingUpdate(store[l].ptes, OffsetOf(p), e);
      SetEntry(l, p, e);
      view := Put(view, p, e);
      assert Value() == Updated(t, p, e);
    }

    method Pin(p: Page) returns (success: bool, frame: Frame, before: nat)
      requires Valid() && TagOf(p) < EMPTY_TAG
      modifies this`view, store
      ensures Valid()
      ensures var e := old(Lookup(view, p));
        && success == (e.exist && !e.busy)
        && view == (if success then Put(old(view), p, IncRef(e)) else old(view))
        && (success ==> frame == e.frame && before == e.refCount)
    {
      var l := FindCacheline(p / PACK);
      EntrySealed(Value(), p);
      success, frame, before := false, EMPTY_FRAME, 0;
      if l != NULL {
        var e := store[l].ptes[p % PACK];
        if e.exist && !e.busy {
          SetPte(l, p, IncRef(e));
          success, frame, before := true, e.frame, e.refCount;
        }
      }
    }

    method Unpin(p: Page, isWrite: bool) returns (before: nat)
      requires Valid() && TagOf(p) < EMPTY_TAG && Lookup(view, p).refCount > 0
      modifies this`view, store
      ensures Valid() && before == old(Lookup(view, p)).refCount
      ensures view == Put(old(view), p, DecRef(old(Lookup(view, p)), isWrite))
    {
      var l := FindCacheline(p / PACK);
      EntrySealed(Value(), p);
      var e := store[l].ptes[p % PACK];
      SetPte(l, p, DecRef(e, isWrite));
      before := e.refCount;
    }

    /** Locks the page's empty entry and maps it; refused when it is locked already. */
    method CreateMapping(p: Page, f: Frame, refs: nat) returns (ok: bool)
      requires Valid() && TagOf(p) < EMPTY_TAG && TagOf(p) in lineOf && !Lookup(view, p).exist
      modifies this`view, store
      ensures Valid() && ok == !old(Lookup(view, p)).busy
      ensures view == if ok then Put(old(view), p, Pte(true, true, false, refs, f)) else old(view)
    {
      var l := FindCacheline(p / PACK);
      EntrySealed(Value(), p);
      var e := store[l].ptes[p % PACK];
      ok := e.refCount == 0 && !e.busy;
      if ok {
        ghost var t := Value();
        var e' := Pte(true, true, e.dirty, refs, f);
        UpdatedSealed(t, p, e');
        UsingUpdate(store[l].ptes, OffsetOf(p), e');
        SetEntry(l, p, e');
        store[l] := store[l].(numUsing := store[l].numUsing + 1);
        view := Put(view, p, e');
        assert Value() == Updated(t, p, e');
      }
    }

    /** Locks the page's entry and unmaps it, keeping the lock; refused when it is pinned or locked. */
    method DeleteMapping(p: Page) returns (ok: bool)
      requires Valid() && TagOf(p) < EMPTY_TAG && Lookup(view, p).exist
      modifies this`view, store
      ensures Valid() && ok == (old(Lookup(view, p)).refCount == 0 && !old(Lookup(view, p)).busy)
      ensures view == if ok then Put(old(view), p, DELETED) else old(view)
      ensures TagOf(p) in lineOf
    {
      var l := FindCacheline(p / PACK);
      EntrySealed(Value(), p);
      var e := store[l].ptes[p % PACK];
      ok := e.refCount == 0 && !e.busy;
      if ok {
        SetPte(l, p, DELETED);
      }
    }

    /** Releases the page's lock; the slot of a page that does not exist is then no longer in use. */
    method Unlock(l: nat, p: Page, e: Pte)
      requires Valid() && TagOf(p) in lineOf && lineOf[TagOf(p)] == l && e == Lookup(view, p) && e.busy
      modifies this`view, store
      ensures Valid() && view == Put(old(view), p, Released(e))
    {
      ghost var t := Value();
      EntrySealed(t, p);
      UpdatedSealed(t, p, Released(e));
      UsingUpdate(store[l].ptes, OffsetOf(p), Released(e));
      SetEntry(l, p, Released(e));
      if !e.exist {
        store[l] := store[l].(numUsing := store[l].numUsing - 1);
      }
      view := Put(view, p, Released(e));
      assert Value() == Updated(t, p, Released(e));
    }

    /** Releases the page's lock, and its line with it when nothing else uses the line. */
    method ReleaseMappingLock(p: Page) returns (ok: bool)
      requires Valid() && TagOf(p) < EMPTY_TAG && TagOf(p) in lineOf
      modifies this, store
      ensures Valid() && ok == old(Lookup(view, p)).busy
      ensures view == Put(old(view), p, Released(old(Lookup(view, p))))
      ensures lineOf == if ok && !Inhabited(view, TagOf(p)) then old(lineOf) - {TagOf(p)} else old(lineOf)
    {
      var l := FindCacheline(p / PACK);
      EntrySealed(Value(), p);
      var e := store[l].ptes[p % PACK];
      ok := e.busy;
      if ok {
        Unlock(l, p, e);
        EntrySealed(Value(), p);
        if store[l].numUsing == 0 {
          UnusedLine(Value(), TagOf(p));
          DeleteCacheline(l);
        } else {
          UsedLine(Value(), TagOf(p));
        }
      } else {
        assert view == Put(view, p, e) by { Open(Value()); }
      }
    }
  }
}
