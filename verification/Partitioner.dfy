/** Pages are dealt to partitions in turn; the maps in both directions, and the size of each partition. */
module Partitioner {
  datatype Loc = Loc(part: nat, block: nat)

  function Locate(parts: nat, p: nat): Loc
    requires parts > 0
  {
    Loc(p % parts, p / parts)
  }

  function Globalize(parts: nat, l: Loc): nat { l.block * parts + l.part }

  function NumBlocks(parts: nat, pages: nat, part: nat): nat
    requires parts > 0
  {
    pages / parts + if part < pages % parts then 1 else 0
  }

  lemma AtLeastOne(k: int, d: nat)
    requires k >= 1
    ensures k * d >= d
  {
    assert k * d == (k - 1) * d + d;
    assert (k - 1) * d >= 0;
  }

  lemma DivModUnique(n: nat, d: nat, q: int, r: nat)
    requires d > 0 && r < d && n == q * d + r
    ensures n / d == q && n % d == r
  {
    var q', r' := n / d, n % d;
    assert n == q' * d + r' && 0 <= r' < d;
    assert (q' - q) * d == r - r';
    if q < q' { AtLeastOne(q' - q, d); }
    if q' < q { assert (q - q') * d == r' - r; AtLeastOne(q - q', d); }
  }

  /** Pages are dealt out in turn: the first page is the first block of the first partition, and the next page is in
      the next partition, at the same block, or after the last partition at the next block of the first. */
  lemma DealtInTurn(parts: nat, p: nat)
    requires parts > 0
    ensures Locate(parts, 0) == Loc(0, 0)
    ensures var l := Locate(parts, p);
      Locate(parts, p + 1) == if l.part + 1 < parts then Loc(l.part + 1, l.block) else Loc(0, l.block + 1)
  {
    var l := Locate(parts, p);
    DivModUnique(0, parts, 0, 0);
    assert p == l.block * parts + l.part;
    if l.part + 1 < parts {
      DivModUnique(p + 1, parts, l.block, l.part + 1);
    } else {
      assert (l.block + 1) * parts == l.block * parts + parts;
      DivModUnique(p + 1, parts, l.block + 1, 0);
    }
  }

  /** The two maps undo each other. */
  lemma RoundTrip(parts: nat, p: nat, l: Loc)
    requires parts > 0 && l.part < parts
    ensures Globalize(parts, Locate(parts, p)) == p && Locate(parts, p).part < parts
    ensures Locate(parts, Globalize(parts, l)) == l
  {
    DivModUnique(Globalize(parts, l), parts, l.block, l.part);
  }

  /** A place names a page of the space exactly when its block is among its partition's. */
  lemma BlocksFit(parts: nat, pages: nat, l: Loc)
    requires parts > 0 && l.part < parts
    ensures l.block < NumBlocks(parts, pages, l.part) <==> Globalize(parts, l) < pages
  {
    var q, r := pages / parts, pages % parts;
    assert pages == q * parts + r;
    if l.block < q {
      assert (l.block + 1) * parts <= q * parts;
      assert (l.block + 1) * parts == l.block * parts + parts;
    } else if l.block > q {
      assert (q + 1) * parts <= l.block * parts;
      assert (q + 1) * parts == q * parts + parts;
    }
  }
}
