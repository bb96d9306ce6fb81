/** The second-chance replacement policy. Each frame is untracked (0), due (1) or recently used (2). */
module Replacement {

  /** The frame `k` places after `h` on a clock of `n` frames, for at most one lap. */
  function Cyc(h: nat, k: nat, n: nat): nat
    requires h < n && k <= n
  {
    if h + k < n then h + k else h + k - n
  }

  lemma NextIsCyc(h: nat, n: nat)
    requires h < n
    ensures (h + 1) % n == Cyc(h, 1, n)
  {
    if h + 1 < n { assert (h + 1) / n == 0; } else { assert (h + 1) == n * 1; }
  }

  /** How far the frame `f` is ahead of the hand. */
  function Dist(h: nat, f: nat, n: nat): (d: nat)
    requires h < n && f < n
    ensures d < n && Cyc(h, d, n) == f
  {
    if f >= h then f - h else f + n - h
  }

  ghost predicate AnyDue(s: seq<nat>) { exists g :: 0 <= g < |s| && s[g] == 1 }

  /** The frame a pop must take: going round from the hand, the first frame that is due or, when none
      is, the first frame that is tracked at all. */
  ghost predicate FirstChoice(s: seq<nat>, h: nat, f: nat)
    requires h < |s|
  {
    && f < |s| && s[f] != 0 && (AnyDue(s) ==> s[f] == 1)
    && forall g | 0 <= g < |s| && Dist(h, g, |s|) < Dist(h, f, |s|) :: s[g] != 1 && (AnyDue(s) || s[g] == 0)
  }

  /** What a pop of frame `f` leaves: the recently used frames the hand passed have become due. */
  ghost function AfterPop(s: seq<nat>, h: nat, f: nat): seq<nat>
    requires h < |s| && f < |s|
  {
    seq(|s|, g requires 0 <= g < |s| =>
      if g == f then 0
      else if s[g] == 2 && (!AnyDue(s) || Dist(h, g, |s|) < Dist(h, f, |s|)) then 1
      else s[g])
  }

  /** At most one frame is the right choice. */
  lemma FirstChoiceUnique(s: seq<nat>, h: nat, f: nat, g: nat)
    requires h < |s| && FirstChoice(s, h, f) && FirstChoice(s, h, g)
    ensures f == g
  {
    assert !(Dist(h, f, |s|) < Dist(h, g, |s|));
    assert !(Dist(h, g, |s|) < Dist(h, f, |s|));
  }

  /** The frame `k` places after `h`, for any number of laps. */
  function Ahead(h: nat, k: nat, n: nat): (f: nat)
    requires h < n
    ensures f < n
  {
    if k == 0 then h else Cyc(Ahead(h, k - 1, n), 1, n)
  }

  /** The states of the frames and where the hand is. */
  datatype Mark = Mark(states: seq<nat>, hand: nat)

  /** Where the hand comes to rest after frame `h`: at the first due frame from there on, looking at 1023 frames, or
      at the one after those. */
  ghost predicate Rests(s: seq<nat>, h: nat, h': nat)
    requires h < |s|
  {
    exists k: nat :: RestsAt(s, h, h', k)
  }

  ghost predicate RestsAt(s: seq<nat>, h: nat, h': nat, k: nat)
    requires h < |s|
  {
    && k <= 1023 && h' == Ahead(h, k, |s|) && (k == 1023 || s[h'] == 1)
    && forall j: nat | j < k :: s[Ahead(h, j, |s|)] != 1
  }

  lemma RestsFirst(s: seq<nat>, h: nat, a: nat, j: nat, b: nat, k: nat)
    requires h < |s| && RestsAt(s, h, a, j) && RestsAt(s, h, b, k)
    ensures j >= k
  {
    var f := Ahead(h, j, |s|);
  }

  lemma RestsUnique(s: seq<nat>, h: nat, a: nat, b: nat)
    requires h < |s| && Rests(s, h, a) && Rests(s, h, b)
    ensures a == b
  {
    var j: nat :| RestsAt(s, h, a, j);
    var k: nat :| RestsAt(s, h, b, k);
    RestsFirst(s, h, a, j, b, k);
    RestsFirst(s, h, b, k, a, j);
  }

  /** The clock pops frame `f`. */
  ghost predicate PopStep(m: Mark, f: nat, m': Mark) {
    && m.hand < |m.states| && FirstChoice(m.states, m.hand, f)
    && m'.states == AfterPop(m.states, m.hand, f) && Rests(m'.states, f, m'.hand)
  }

  /** The clock pops the frames `fs` one after the other; `ms` are its marks, before the first to after the last. */
  ghost predicate Pops(ms: seq<Mark>, fs: seq<nat>) {
    |ms| == |fs| + 1 && forall i | 0 <= i < |fs| :: PopsAt(ms, fs, i)
  }

  ghost predicate PopsAt(ms: seq<Mark>, fs: seq<nat>, i: nat)
    requires i < |fs| < |ms|
  {
    PopStep(ms[i], fs[i], ms[i + 1])
  }

  lemma PopsNext(ms: seq<Mark>, fs: seq<nat>, f: nat, m: Mark)
    requires Pops(ms, fs) && PopStep(ms[|fs|], f, m)
    ensures Pops(ms + [m], fs + [f])
  {
    forall i | 0 <= i < |fs + [f]| ensures PopsAt(ms + [m], fs + [f], i) {
      if i < |fs| { assert PopsAt(ms, fs, i); }
    }
  }

  class Clock {
    const states: array<nat>
    var hand: nat
    var count: nat

    function Tracked(): set<nat>
      reads states
    {
      set f | 0 <= f < states.Length && states[f] != 0
    }

    ghost function Now(): Mark
      reads this, states
    {
      Mark(states[..], hand)
    }

    ghost predicate Valid()
      reads this, states
    {
      && 0 < states.Length && hand < states.Length
      && (forall f | 0 <= f < states.Length :: states[f] <= 2)
      && count == |Tracked()|
    }

    constructor (n: nat)
      requires 0 < n
      ensures Valid() && fresh(states) && states.Length == n && hand == 0 && Tracked() == {}
    {
      states := new nat[n](_ => 0);
      hand, count := 0, 0;
    }

    method Push(f: nat)
      requires Valid() && f < states.Length
      modifies this, states
      ensures Valid() && hand == old(hand)
      ensures states[..] == old(states[..])[f := 2]
      ensures Tracked() == old(Tracked()) + {f}
    {
      if states[f] == 0 {
        count := count + 1;
        states[f] := 2;
        assert Tracked() == old(Tracked()) + {f};
      } else {
        Access(f);
      }
    }

    method Access(f: nat)
      requires Valid() && f < states.Length && states[f] != 0
      modifies states
      ensures Valid() && states[..] == old(states[..])[f := 2] && Tracked() == old(Tracked())
    {
      states[f] := 2;
      assert Tracked() == old(Tracked());
    }

    method Erase(f: nat)
      requires Valid() && f < states.Length
      modifies this, states
      ensures Valid() && hand == old(hand)
      ensures states[..] == old(states[..])[f := 0]
      ensures Tracked() == old(Tracked()) - {f}
    {
      if states[f] != 0 {
        assert f in Tracked();
        states[f] := 0;
        count := count - 1;
        assert Tracked() == old(Tracked()) - {f};
      }
    }

    /** Turns the hand until it is at a due frame, making the recently used frames it passes due. */
    method Sweep()
      requires Valid() && count > 0
      modifies this`hand, states
      ensures hand < states.Length && FirstChoice(old(states[..]), old(hand), hand)
      ensures states[..][hand := 0] == AfterPop(old(states[..]), old(hand), hand)
      ensures Valid() && states[hand] == 1 && Tracked() == old(Tracked())
    {
      ghost var s, h, n := states[..], hand, states.Length;
      ghost var lap, m := false, 0;
      ghost var f :| f in Tracked();
      while states[hand] != 1
        invariant m < n && hand == Cyc(h, m, n) && hand < n
        invariant forall g | 0 <= g < n ::
          (if lap || Dist(h, g, n) < m
           then s[g] != 1 && states[g] == (if s[g] == 2 then 1 else s[g]) && (lap && Dist(h, g, n) < m ==> s[g] == 0)
           else states[g] == s[g])
        decreases !lap, n - m
      {
        ghost var passed := hand;
        if states[hand] == 2 {
          states[hand] := 1;
        }
        NextIsCyc(hand, n);
        hand := (hand + 1) % states.Length;
        assert forall g | 0 <= g < n && g != passed :: Dist(h, g, n) != m;
        assert lap ==> m < Dist(h, f, n);
        if m + 1 < n {
          m := m + 1;
        } else {
          lap, m := true, 0;
        }
      }
      assert Tracked() == old(Tracked());
    }

    /** Moves the hand on to a due frame, giving up after 1023 places. */
    method Advance()
      requires Valid()
      modifies this`hand
      ensures Valid() && Rests(states[..], old(hand), hand)
    {
      ghost var start, k := hand, 0;
      var loops := 1024;
      while states[hand] != 1 && loops > 1
        invariant 1 <= loops <= 1024 && k == 1024 - loops && hand < states.Length
        invariant hand == Ahead(start, k, states.Length)
        invariant forall j: nat | j < k :: states[Ahead(start, j, states.Length)] != 1
      {
        NextIsCyc(hand, states.Length);
        loops := loops - 1;
        hand := (hand + 1) % states.Length;
        k := k + 1;
      }
      assert RestsAt(states[..], start, hand, k);
    }

    /** Takes the frame the policy must take, and moves the hand on to the next frame due. */
    method Pop() returns (victim: nat, next: nat)
      requires Valid() && count > 0
      modifies this, states
      ensures Valid() && hand == next && PopStep(old(Now()), victim, Now())
      ensures Tracked() == old(Tracked()) - {victim}
    {
      Sweep();
      victim := hand;
      ghost var swept, after := states[..], AfterPop(old(states[..]), old(hand), hand);
      Erase(hand);
      assert states[..] == swept[victim := 0] == after;
      Advance();
      assert states[..] == after;
      next := hand;
    }
  }
}
