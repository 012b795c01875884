/** What one cleanup pass over an engine group leaves behind.

    Both cleanup routines walk the group's live entry array with `forEach` and call
    `destroy()` on every entry that has left the screen. Destroying an entry splices it
    out of the very array being walked, so the entry that slides into the freed slot is
    never looked at during that pass. `LiveCull` states that outcome as a function of the
    entries before the pass; the lemmas below say what it keeps and what it may miss. */
module Culling {

  /** The entries of `s` that `off` does not reject, in order: what a pass over a
      snapshot of the array would keep. */
  function Kept<T>(s: seq<T>, off: T -> bool): seq<T>
  {
    if s == [] then [] else (if off(s[0]) then [] else [s[0]]) + Kept(s[1..], off)
  }

  /** How many entries of `s` are off-screen. */
  function CountOff<T>(s: seq<T>, off: T -> bool): nat
  {
    if s == [] then 0 else (if off(s[0]) then 1 else 0) + CountOff(s[1..], off)
  }

  /** No two neighbouring entries are both off-screen. */
  predicate NoAdjacentOff<T>(s: seq<T>, off: T -> bool)
  {
    forall i :: 0 <= i < |s| - 1 ==> !(off(s[i]) && off(s[i + 1]))
  }

  /** The entries left after one pass of "destroy every off-screen entry" over the live
      array: an off-screen entry is removed, and the entry right after it is kept unseen. */
  function LiveCull<T>(s: seq<T>, off: T -> bool): (r: seq<T>)
    ensures |r| <= |s|
    ensures multiset(r) <= multiset(s)
    ensures s != [] && !off(s[0]) ==> r != [] && r[0] == s[0]
    decreases |s|
  {
    if s == [] then []
    else if !off(s[0]) then
      assert s == [s[0]] + s[1..];
      [s[0]] + LiveCull(s[1..], off)
    else if |s| == 1 then []
    else
      assert s == [s[0]] + [s[1]] + s[2..];
      [s[1]] + LiveCull(s[2..], off)
  }

  lemma {:induction false} KeptCons<T>(x: T, s: seq<T>, off: T -> bool)
    ensures Kept([x] + s, off) == (if off(x) then [] else [x]) + Kept(s, off)
    ensures CountOff([x] + s, off) == (if off(x) then 1 else 0) + CountOff(s, off)
  {
    assert ([x] + s)[0] == x;
    assert ([x] + s)[1..] == s;
  }

  /** `Kept` and `CountOff` over the first two entries. */
  lemma KeptUnfoldTwo<T>(s: seq<T>, off: T -> bool)
    requires |s| >= 2
    ensures Kept(s, off) ==
      (if off(s[0]) then [] else [s[0]]) + ((if off(s[1]) then [] else [s[1]]) + Kept(s[2..], off))
    ensures CountOff(s, off) == (if off(s[0]) then 1 else 0) + (if off(s[1]) then 1 else 0) + CountOff(s[2..], off)
  {
    assert s[1..][0] == s[1] && s[1..][1..] == s[2..];
  }

  /** A pass never loses an on-screen entry and keeps the on-screen entries in their
      order; together with `multiset(LiveCull(s, off)) <= multiset(s)` this says that
      everything a pass removes was off-screen. */
  lemma {:induction false} LiveCullKeepsOnScreen<T>(s: seq<T>, off: T -> bool)
    ensures Kept(LiveCull(s, off), off) == Kept(s, off)
    decreases |s|
  {
    if s == [] {
    } else if !off(s[0]) {
      LiveCullUnfold(s, off);
      LiveCullKeepsOnScreen(s[1..], off);
      KeptCons(s[0], LiveCull(s[1..], off), off);
    } else if |s| == 1 {
      LiveCullUnfold(s, off);
    } else {
      LiveCullUnfold(s, off);
      LiveCullKeepsOnScreen(s[2..], off);
      KeptCons(s[1], LiveCull(s[2..], off), off);
      KeptUnfoldTwo(s, off);
    }
  }

  /** A pass leaves at most half of the off-screen entries (rounded down): it removes
      at least half of them, and need not remove them all. */
  lemma {:induction false} LiveCullHalvesOffScreen<T>(s: seq<T>, off: T -> bool)
    ensures 2 * CountOff(LiveCull(s, off), off) <= CountOff(s, off)
    decreases |s|
  {
    if s == [] {
    } else if !off(s[0]) {
      LiveCullUnfold(s, off);
      LiveCullHalvesOffScreen(s[1..], off);
      KeptCons(s[0], LiveCull(s[1..], off), off);
    } else if |s| == 1 {
      LiveCullUnfold(s, off);
    } else {
      LiveCullUnfold(s, off);
      LiveCullHalvesOffScreen(s[2..], off);
      KeptCons(s[1], LiveCull(s[2..], off), off);
      KeptUnfoldTwo(s, off);
    }
  }

  /** So a pass removes at least one off-screen entry whenever there is one. */
  lemma LiveCullMakesProgress<T>(s: seq<T>, off: T -> bool)
    ensures CountOff(s, off) > 0 ==> CountOff(LiveCull(s, off), off) < CountOff(s, off)
  {
    LiveCullHalvesOffScreen(s, off);
  }

  /** When no two off-screen entries are neighbours, the live pass does what a pass over
      a snapshot would do: it removes exactly the off-screen entries. */
  lemma {:induction false} LiveCullIsFilterWhenSparse<T>(s: seq<T>, off: T -> bool)
    requires NoAdjacentOff(s, off)
    ensures LiveCull(s, off) == Kept(s, off)
    decreases |s|
  {
    if s == [] {
    } else if !off(s[0]) {
      assert NoAdjacentOff(s[1..], off) by {
        forall i | 0 <= i < |s[1..]| - 1 ensures !(off(s[1..][i]) && off(s[1..][i + 1])) {
          assert s[1..][i] == s[i + 1] && s[1..][i + 1] == s[i + 2];
        }
      }
      LiveCullIsFilterWhenSparse(s[1..], off);
    } else if |s| == 1 {
    } else {
      assert !off(s[1]) by { assert !(off(s[0]) && off(s[1])); }
      assert NoAdjacentOff(s[2..], off) by {
        forall i | 0 <= i < |s[2..]| - 1 ensures !(off(s[2..][i]) && off(s[2..][i + 1])) {
          assert s[2..][i] == s[i + 2] && s[2..][i + 1] == s[i + 3];
        }
      }
      LiveCullIsFilterWhenSparse(s[2..], off);
      assert s[1..] == [s[1]] + s[2..];
      KeptCons(s[1], s[2..], off);
    }
  }

  /** Two neighbouring off-screen entries at the front: the pass removes the first and
      never sees the second, which outlives the pass. */
  lemma {:induction false} LiveCullMissesNeighbour<T>(a: T, b: T, rest: seq<T>, off: T -> bool)
    requires off(a) && off(b)
    ensures LiveCull([a, b] + rest, off) == [b] + LiveCull(rest, off)
    ensures CountOff(LiveCull([a, b] + rest, off), off) > 0
  {
    var s := [a, b] + rest;
    assert s[0] == a && s[1] == b && s[2..] == rest;
    KeptCons(b, LiveCull(rest, off), off);
  }

  /** Two neighbouring off-screen entries anywhere in the array: some off-screen entry
      outlives the pass (not always the second of the two: in three off-screen entries in
      a row the first and third go and the middle one stays). */
  lemma {:induction false} LiveCullMissesSomeNeighbour<T>(s: seq<T>, k: nat, off: T -> bool)
    requires k + 1 < |s| && off(s[k]) && off(s[k + 1])
    ensures CountOff(LiveCull(s, off), off) > 0
    decreases |s|
  {
    if !off(s[0]) {
      LiveCullUnfold(s, off);
      assert s[1..][k - 1] == s[k] && s[1..][k] == s[k + 1];
      LiveCullMissesSomeNeighbour(s[1..], k - 1, off);
      KeptCons(s[0], LiveCull(s[1..], off), off);
    } else if k < 2 {
      // s[1] is off-screen and is the entry the pass never looks at
      LiveCullUnfold(s, off);
      KeptCons(s[1], LiveCull(s[2..], off), off);
    } else {
      LiveCullUnfold(s, off);
      assert s[2..][k - 2] == s[k] && s[2..][k - 1] == s[k + 1];
      LiveCullMissesSomeNeighbour(s[2..], k - 2, off);
      KeptCons(s[1], LiveCull(s[2..], off), off);
    }
  }

  /** No entry of a snapshot filter is off-screen. */
  lemma {:induction false} KeptHasNoOff<T>(s: seq<T>, off: T -> bool)
    ensures CountOff(Kept(s, off), off) == 0
    decreases |s|
  {
    if s != [] {
      KeptHasNoOff(s[1..], off);
      if !off(s[0]) {
        KeptCons(s[0], Kept(s[1..], off), off);
      } else {
        assert Kept(s, off) == [] + Kept(s[1..], off) == Kept(s[1..], off);
      }
    }
  }

  /** A pass leaves no off-screen entry exactly when no two off-screen entries are
      neighbours. */
  lemma LiveCullClearsAllIff<T>(s: seq<T>, off: T -> bool)
    ensures CountOff(LiveCull(s, off), off) == 0 <==> NoAdjacentOff(s, off)
  {
    if NoAdjacentOff(s, off) {
      LiveCullIsFilterWhenSparse(s, off);
      KeptHasNoOff(s, off);
    } else {
      var k :| 0 <= k < |s| - 1 && off(s[k]) && off(s[k + 1]);
      LiveCullMissesSomeNeighbour(s, k, off);
    }
  }

  /** The three shapes of a pass over a non-empty array. */
  lemma LiveCullUnfold<T>(s: seq<T>, off: T -> bool)
    requires s != []
    ensures s == [s[0]] + s[1..]
    ensures !off(s[0]) ==> LiveCull(s, off) == [s[0]] + LiveCull(s[1..], off)
    ensures off(s[0]) && |s| == 1 ==> LiveCull(s, off) == []
    ensures off(s[0]) && |s| > 1 ==>
      s[1..] == [s[1]] + s[2..] && LiveCull(s, off) == [s[1]] + LiveCull(s[2..], off)
  {
  }

  /** Splicing out the element at the seam of `a + b`. */
  lemma SpliceAtSeam<T>(a: seq<T>, b: seq<T>)
    requires b != []
    ensures (a + b)[|a|] == b[0]
    ensures (a + b)[..|a|] + (a + b)[|a| + 1..] == a + b[1..]
  {
    assert (a + b)[..|a|] == a;
    assert (a + b)[|a| + 1..] == b[1..];
  }

  lemma AppendAssoc<T>(a: seq<T>, b: seq<T>, c: seq<T>)
    ensures a + (b + c) == (a + b) + c
  {
  }
}
