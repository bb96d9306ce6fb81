/**
 * `cache_memcpy` and `cache_memmove` between two operands that both lie in the cached address space.
 *
 * The space is an array of bytes, `pages` pages long, in which a copy may touch only pages it has pinned.
 * `memcpy` walks both ranges page by page with one pinned page on each side; `memmove` chooses by an
 * unsigned comparison between that walk and a byte loop, forwards or backwards.
 */
module ByteCopy {
  import opened Basics

  const PAGE: nat := 4096
  const WORD: int := 0x1_0000_0000_0000_0000

  function PageOf(at: int): int { at / 4096 }

  function OffsetIn(at: int): int { at % 4096 }

  /** The `n` bytes at `at` lie in page `p`. */
  predicate Within(at: nat, n: nat, p: nat) { 4096 * p <= at && at + n <= 4096 * p + 4096 }

  predicate Disjoint(d: nat, s: nat, n: nat) { d + n <= s || s + n <= d }

  /** Byte `i` after `n` bytes of `m` have been copied from `s` to `d`. */
  function ByteAt(m: seq<byte>, d: int, s: int, n: int, i: int): byte
    requires 0 <= d && 0 <= s && 0 <= n && d + n <= |m| && s + n <= |m| && 0 <= i < |m|
  {
    if d <= i < d + n then m[i - d + s] else m[i]
  }

  /** `m'` is `m` with its `n` bytes at `s` copied to `d`. */
  ghost predicate Copied(m: seq<byte>, m': seq<byte>, d: int, s: int, n: int) {
    && 0 <= d && 0 <= s && 0 <= n && d + n <= |m| && s + n <= |m| && |m'| == |m|
    && forall i | 0 <= i < |m| :: m'[i] == ByteAt(m, d, s, n, i)
  }

  /** There is exactly one such result: the destination reads as the source did, the rest as before. */
  lemma CopiedIs(m: seq<byte>, m': seq<byte>, d: int, s: int, n: int)
    requires 0 <= d && 0 <= s && 0 <= n && d + n <= |m| && s + n <= |m|
    ensures Copied(m, m', d, s, n) <==> m' == m[..d] + m[s..s + n] + m[d + n..]
  {
    var r := m[..d] + m[s..s + n] + m[d + n..];
    forall i | 0 <= i < |m| ensures r[i] == ByteAt(m, d, s, n, i) {}
    if Copied(m, m', d, s, n) {
      forall i | 0 <= i < |m| ensures m'[i] == r[i] { assert m'[i] == ByteAt(m, d, s, n, i); }
    }
  }

  /** A value as the unsigned 64-bit word it is stored in. */
  function Unsigned(z: int): int { z % WORD }

  /** The test by which `memmove` decides for `memcpy`. */
  predicate FarApart(d: nat, s: nat, n: nat) { Unsigned(s - d - n) <= Unsigned(-2 * (n as int)) }

  lemma UnsignedNear(z: int)
    requires -WORD <= z < WORD
    ensures Unsigned(z) == if z < 0 then z + WORD else z
  {
  }

  /** For a non-empty copy between offsets the test holds exactly when the ranges do not overlap; for an
      empty one exactly when they start together. */
  lemma FarApartIsDisjoint(d: nat, s: nat, n: nat)
    requires d < WORD / 2 && s < WORD / 2 && n < WORD / 4
    ensures n > 0 ==> (FarApart(d, s, n) <==> Disjoint(d, s, n))
    ensures n == 0 ==> (FarApart(d, s, n) <==> d == s)
  {
    UnsignedNear(s - d - n);
    UnsignedNear(-2 * n);
  }

  lemma CopiedMore(m: seq<byte>, m1: seq<byte>, m2: seq<byte>, d: int, s: int, n: int, d1: int, s1: int, k: int)
    requires Copied(m, m1, d, s, n) && Copied(m1, m2, d1, s1, k) && 0 <= k && d1 == d + n && s1 == s + n
    requires d < s || s + n + k <= d
    ensures Copied(m, m2, d, s, n + k)
  {
    forall i | 0 <= i < |m| ensures m2[i] == ByteAt(m, d, s, n + k, i) {
      assert m2[i] == ByteAt(m1, d + n, s + n, k, i);
      assert m1[i] == ByteAt(m, d, s, n, i);
      if d + n <= i < d + n + k { assert m1[i - d + s] == ByteAt(m, d, s, n, i - d + s); }
    }
  }

  /** Copying one byte more at the front of a copied stretch. */
  lemma CopiedBefore(m: seq<byte>, m1: seq<byte>, m2: seq<byte>, d: int, s: int, n: int)
    requires Copied(m, m1, d, s, n) && Copied(m1, m2, d - 1, s - 1, 1) && s < d
    ensures Copied(m, m2, d - 1, s - 1, n + 1)
  {
    forall i | 0 <= i < |m| ensures m2[i] == ByteAt(m, d - 1, s - 1, n + 1, i) {
      assert m2[i] == ByteAt(m1, d - 1, s - 1, 1, i);
      assert m1[i] == ByteAt(m, d, s, n, i);
      assert m1[s - 1] == ByteAt(m, d, s, n, s - 1);
    }
  }

  /** What one assignment does. */
  lemma CopiedOne(m: seq<byte>, d: nat, s: nat)
    requires d < |m| && s < |m|
    ensures Copied(m, m[d := m[s]], d, s, 1)
  {
  }

  class CachedSpace {
    const pages: nat
    const mem: array<byte>
    var pins: multiset<nat>
    /** The most pins ever held at once. */
    ghost var peak: nat

    ghost predicate Valid()
      reads this
    {
      mem.Length == 4096 * pages && |pins| <= peak
    }

    constructor (pages: nat)
      ensures Valid() && this.pages == pages && pins == multiset{} && peak == 0 && fresh(mem)
    {
      this.pages := pages;
      mem := new byte[4096 * pages](_ => 0);
      pins := multiset{};
      peak := 0;
    }

    /** Refused only for a page outside the space. */
    method Pin(p: nat) returns (ok: bool)
      requires Valid()
      modifies this
      ensures Valid() && (ok <==> p < pages)
      ensures pins == if ok then old(pins) + multiset{p} else old(pins)
      ensures peak == if |pins| > old(peak) then |pins| else old(peak)
    {
      ok := p < pages;
      if ok {
        pins := pins + multiset{p};
        if |pins| > peak { peak := |pins|; }
      }
    }

    method Unpin(p: nat)
      requires Valid() && p in pins
      modifies this
      ensures Valid() && pins == old(pins) - multiset{p} && peak == old(peak)
    {
      pins := pins - multiset{p};
    }

    /** The C library's memcpy on two stretches, each within a page that is pinned. */
    method CopyChunk(d: nat, s: nat, n: nat, ghost dPage: nat, ghost sPage: nat)
      requires Valid() && Within(d, n, dPage) && dPage in pins && Within(s, n, sPage) && sPage in pins
      requires d + n <= mem.Length && s + n <= mem.Length && Disjoint(d, s, n)
      modifies mem
      ensures Copied(old(mem[..]), mem[..], d, s, n)
    {
      ghost var m := mem[..];
      var i := 0;
      while i < n
        invariant i <= n && Copied(m, mem[..], d, s, i)
      {
        ghost var m1 := mem[..];
        mem[d + i] := mem[s + i];
        CopiedOne(m1, d + i, s + i);
        assert mem[..] == m1[d + i := m1[s + i]];
        CopiedMore(m, m1, mem[..], d, s, i, d + i, s + i, 1);
        i := i + 1;
      }
    }
  }

  /** Moves a pin on to the next page. */
  method Cross(c: CachedSpace, page: nat, ghost rest: multiset<nat>) returns (ok: bool)
    requires c.Valid() && c.pins == rest + multiset{page}
    modifies c
    ensures c.Valid() && (ok <==> page + 1 < c.pages) && (c.peak <= old(c.peak) || c.peak <= |rest| + 1)
    ensures c.pins == if ok then rest + multiset{page + 1} else rest
  {
    c.Unpin(page);
    assert c.pins == rest;
    ok := c.Pin(page + 1);
  }

  /** A place in the space, as the page that is pinned for it and the offset in that page. */
  datatype Place = Place(page: nat, off: nat)

  function At(p: Place): nat { 4096 * p.page + p.off }

  /** The place `step` bytes on; a place at a page's end is at the start of the next. */
  function Moved(p: Place, step: nat): Place {
    if p.off + step == 4096 then Place(p.page + 1, 0) else Place(p.page, p.off + step)
  }

  /** The page of a place can be, and is, pinned. */
  predicate Ready(c: CachedSpace, p: Place) { p.off < 4096 && p.page < c.pages }

  /** Moves on the pins of the places whose pages end `step` bytes on. */
  method CrossBoth(c: CachedSpace, d: Place, s: Place, step: nat, ghost rest: multiset<nat>) returns (ok: bool)
    requires c.Valid() && c.pins == rest + multiset{d.page} + multiset{s.page} && d.page < c.pages && s.page < c.pages
    modifies c
    ensures c.Valid() && (ok <==> Moved(d, step).page < c.pages && Moved(s, step).page < c.pages)
    ensures ok ==> c.pins == rest + multiset{Moved(d, step).page} + multiset{Moved(s, step).page}
    ensures !ok ==> rest <= c.pins && |c.pins| <= |rest| + 1
    ensures c.peak <= old(c.peak) || c.peak <= |rest| + 2
  {
    ok := true;
    if d.off + step == PAGE {
      assert c.pins == rest + multiset{s.page} + multiset{d.page};
      ok := Cross(c, d.page, rest + multiset{s.page});
      if !ok { return; }
    }
    assert c.pins == rest + multiset{Moved(d, step).page} + multiset{s.page};
    if s.off + step == PAGE {
      ok := Cross(c, s.page, rest + multiset{Moved(d, step).page});
    }
  }

  /** One round of the page walk: copy up to the nearer page end, then move on the pins that came to one. */
  method Chunk(c: CachedSpace, d: Place, s: Place, left: nat, ghost rest: multiset<nat>)
    returns (d': Place, s': Place, step: nat, ok: bool)
    requires c.Valid() && Ready(c, d) && Ready(c, s) && c.pins == rest + multiset{d.page} + multiset{s.page}
    requires left > 0 && At(d) + left <= c.mem.Length && At(s) + left <= c.mem.Length && Disjoint(At(d), At(s), left)
    modifies c, c.mem
    ensures c.Valid() && 0 < step <= left && Copied(old(c.mem[..]), c.mem[..], At(d), At(s), step)
    ensures At(d') == At(d) + step && At(s') == At(s) + step
    ensures ok <==> At(d') < c.mem.Length && At(s') < c.mem.Length
    ensures ok ==> Ready(c, d') && Ready(c, s') && c.pins == rest + multiset{d'.page} + multiset{s'.page}
    ensures !ok ==> step == left && rest <= c.pins && |c.pins| <= |rest| + 1
    ensures c.peak <= old(c.peak) || c.peak <= |rest| + 2
  {
    step := if PAGE - d.off < PAGE - s.off then PAGE - d.off else PAGE - s.off;
    step := if step < left then step else left;
    c.CopyChunk(At(d), At(s), step, d.page, s.page);
    ok := CrossBoth(c, d, s, step, rest);
    d', s' := Moved(d, step), Moved(s, step);
  }

  /** The page walk of `cache_memcpy`. It fails exactly when one of the ranges ends at the very end of the
      space, since it then pins the page behind it; even so every byte has been copied. Pins are given back
      and at most two are held at a time. */
  method Memcpy(c: CachedSpace, dst: nat, src: nat, n: nat) returns (ok: bool)
    requires c.Valid() && dst + n <= c.mem.Length && src + n <= c.mem.Length && Disjoint(dst, src, n)
    modifies c, c.mem
    ensures c.Valid() && Copied(old(c.mem[..]), c.mem[..], dst, src, n)
    ensures ok <==> PageOf(dst + n) < c.pages && PageOf(src + n) < c.pages
    ensures ok ==> c.pins == old(c.pins)
    ensures !ok ==> old(c.pins) <= c.pins && |c.pins| <= |old(c.pins)| + 1
    ensures c.peak <= old(c.peak) || c.peak <= |old(c.pins)| + 2
  {
    var d, s := Place(PageOf(dst), OffsetIn(dst)), Place(PageOf(src), OffsetIn(src));
    assert At(d) == dst && At(s) == src;
    ok := Walk(c, d, s, n);
    EndPage(dst, n, c.pages);
    EndPage(src, n, c.pages);
  }

  /** A range within the space has a page behind it unless it ends with the space. */
  lemma EndPage(at: nat, n: nat, pages: nat)
    requires at + n <= 4096 * pages
    ensures PageOf(at + n) < pages <==> at + n < 4096 * pages
  {
  }

  method Walk(c: CachedSpace, d0: Place, s0: Place, n: nat) returns (ok: bool)
    requires c.Valid() && d0.off < 4096 && s0.off < 4096
    requires At(d0) + n <= c.mem.Length && At(s0) + n <= c.mem.Length && Disjoint(At(d0), At(s0), n)
    modifies c, c.mem
    ensures c.Valid() && Copied(old(c.mem[..]), c.mem[..], At(d0), At(s0), n)
    ensures ok <==> At(d0) + n < c.mem.Length && At(s0) + n < c.mem.Length
    ensures ok ==> c.pins == old(c.pins)
    ensures !ok ==> old(c.pins) <= c.pins && |c.pins| <= |old(c.pins)| + 1
    ensures c.peak <= old(c.peak) || c.peak <= |old(c.pins)| + 2
  {
    ghost var pins := c.pins;
    ok := PinBoth(c, d0.page, s0.page);
    if !ok { assert n == 0; return; }
    var d, s;
    d, s, ok := WalkOn(c, d0, s0, n, pins);
    if ok { UnpinBoth(c, d.page, s.page, pins); }
  }

  method PinBoth(c: CachedSpace, d: nat, s: nat) returns (ok: bool)
    requires c.Valid()
    modifies c
    ensures c.Valid() && (ok <==> d < c.pages && s < c.pages)
    ensures ok ==> c.pins == old(c.pins) + multiset{d} + multiset{s}
    ensures !ok ==> old(c.pins) <= c.pins && |c.pins| <= |old(c.pins)| + 1
    ensures c.peak <= old(c.peak) || c.peak <= |old(c.pins)| + 2
  {
    ok := c.Pin(d);
    if !ok { return; }
    ok := c.Pin(s);
  }

  method UnpinBoth(c: CachedSpace, d: nat, s: nat, ghost rest: multiset<nat>)
    requires c.Valid() && c.pins == rest + multiset{d} + multiset{s}
    modifies c
    ensures c.Valid() && c.pins == rest && c.peak == old(c.peak)
  {
    c.Unpin(d);
    assert c.pins == rest + multiset{s};
    c.Unpin(s);
    assert c.pins == rest;
  }

  /** The loop of the page walk, with the first pages pinned. */
  method WalkOn(c: CachedSpace, d0: Place, s0: Place, n: nat, ghost rest: multiset<nat>)
      returns (d: Place, s: Place, ok: bool)
    requires c.Valid() && Ready(c, d0) && Ready(c, s0)
    requires c.pins == rest + multiset{d0.page} + multiset{s0.page}
    requires At(d0) + n <= c.mem.Length && At(s0) + n <= c.mem.Length && Disjoint(At(d0), At(s0), n)
    modifies c, c.mem
    ensures c.Valid() && Copied(old(c.mem[..]), c.mem[..], At(d0), At(s0), n)
    ensures ok <==> At(d0) + n < c.mem.Length && At(s0) + n < c.mem.Length
    ensures ok ==> c.pins == rest + multiset{d.page} + multiset{s.page}
    ensures !ok ==> rest <= c.pins && |c.pins| <= |rest| + 1
    ensures c.peak <= old(c.peak) || c.peak <= |rest| + 2
  {
    ghost var m, a, b := c.mem[..], At(d0), At(s0);
    d, s, ok := d0, s0, true;
    var copied := 0;
    while copied < n
      invariant 0 <= copied <= n && At(d) == a + copied && At(s) == b + copied && Ready(c, d) && Ready(c, s) && ok
      invariant c.Valid() && c.pins == rest + multiset{d.page} + multiset{s.page}
      invariant Copied(m, c.mem[..], a, b, copied)
      invariant c.peak <= old(c.peak) || c.peak <= |rest| + 2
    {
      ghost var m1 := c.mem[..];
      ghost var a', b' := At(d), At(s);
      var step;
      d, s, step, ok := Chunk(c, d, s, n - copied, rest);
      CopiedMore(m, m1, c.mem[..], a, b, copied, a', b', step);
      copied := copied + step;
      if !ok { return; }
    }
  }

  /** `cache_memmove`: whatever the overlap, the destination ends up with what the source held. */
  method Memmove(c: CachedSpace, dst: nat, src: nat, n: nat) returns (ok: bool)
    requires c.Valid() && dst + n <= c.mem.Length && src + n <= c.mem.Length
    requires dst < WORD / 2 && src < WORD / 2 && n < WORD / 4
    modifies c, c.mem
    ensures c.Valid() && Copied(old(c.mem[..]), c.mem[..], dst, src, n)
    ensures ok <==>
      (n > 0 && dst != src && Disjoint(dst, src, n) ==> PageOf(dst + n) < c.pages && PageOf(src + n) < c.pages)
    ensures ok ==> c.pins == old(c.pins)
    ensures c.peak <= old(c.peak) || c.peak <= |old(c.pins)| + 2
  {
    ghost var m := c.mem[..];
    ok := true;
    FarApartIsDisjoint(dst, src, n);
    if dst == src { return; }
    if FarApart(dst, src, n) {
      ok := Memcpy(c, dst, src, n);
      return;
    }
    if dst < src {
      Forwards(c.mem, dst, src, n);
    } else {
      Backwards(c.mem, dst, src, n);
    }
  }

  method Forwards(mem: array<byte>, dst: nat, src: nat, n: nat)
    requires dst < src && src + n <= mem.Length
    modifies mem
    ensures Copied(old(mem[..]), mem[..], dst, src, n)
  {
    ghost var m := mem[..];
    var d, s, left := dst, src, n;
    while left > 0
      invariant 0 <= left <= n && d == dst + n - left && s == src + n - left
      invariant Copied(m, mem[..], dst, src, n - left)
    {
      ghost var m1 := mem[..];
      mem[d] := mem[s];
      CopiedOne(m1, d, s);
      assert mem[..] == m1[d := m1[s]];
      CopiedMore(m, m1, mem[..], dst, src, n - left, d, s, 1);
      d := d + 1;
      s := s + 1;
      left := left - 1;
    }
    assert n - left == n;
  }

  method Backwards(mem: array<byte>, dst: nat, src: nat, n: nat)
    requires src < dst && dst + n <= mem.Length
    modifies mem
    ensures Copied(old(mem[..]), mem[..], dst, src, n)
  {
    ghost var m := mem[..];
    ghost var d, s, k := dst + n, src + n, 0;
    var left := n;
    while left > 0
      invariant 0 <= left <= n && d == dst + left && s == src + left && k == n - left && Copied(m, mem[..], d, s, k)
    {
      left := left - 1;
      ghost var m1 := mem[..];
      mem[dst + left] := mem[src + left];
      CopiedOne(m1, d - 1, s - 1);
      assert mem[..] == m1[d - 1 := m1[s - 1]];
      CopiedBefore(m, m1, mem[..], d, s, k);
      d, s, k := d - 1, s - 1, k + 1;
    }
  }
}
