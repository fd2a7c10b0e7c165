/** Scoring of a hand, as Player.point_tally computes it.

    point_tally sorts the hand, reverses it, and then walks it with a Python
    `for` loop while removing elements from the same list. The loop's hidden
    index still moves forward after a removal, so the element that slides into
    the removed slot is never looked at. `Sweep` is that loop, with the index
    written out. */
module Tally {

  /** Values in non-decreasing order (what `list.sort()` produces). */
  ghost predicate Ascending(s: seq<int>) {
    forall i, j :: 0 <= i < j < |s| ==> s[i] <= s[j]
  }

  /** Values in non-increasing order. */
  ghost predicate Descending(s: seq<int>) {
    forall i, j :: 0 <= i < j < |s| ==> s[i] >= s[j]
  }

  /** Python's `sum`. */
  function Sum(s: seq<int>): int {
    if s == [] then 0 else s[0] + Sum(s[1..])
  }

  /** Putting a value no larger than the head in front keeps a list ascending. */
  lemma AscendingCons(a: int, t: seq<int>)
    requires Ascending(t) && (t == [] || a <= t[0])
    ensures Ascending([a] + t)
  {
    var u := [a] + t;
    forall i, j | 0 <= i < j < |u| ensures u[i] <= u[j] {
      if i == 0 {
        assert u[j] == t[j - 1];
      }
    }
  }

  /** Insertion of one value into an ascending list. */
  function Insert(x: int, s: seq<int>): (r: seq<int>)
    requires Ascending(s)
    ensures Ascending(r)
    ensures multiset(r) == multiset(s) + multiset{x}
  {
    if s == [] || x <= s[0] then
      AscendingCons(x, s);
      [x] + s
    else
      assert s == [s[0]] + s[1..];
      var rest := Insert(x, s[1..]);
      assert s[0] <= rest[0] by {
        assert rest[0] in multiset(s[1..]) + multiset{x};
        if rest[0] != x {
          var k :| 0 <= k < |s[1..]| && s[1..][k] == rest[0];
          assert s[k + 1] == rest[0];
        }
      }
      AscendingCons(s[0], rest);
      [s[0]] + rest
  }

  /** `list.sort()` on a list of integers. */
  function Sort(s: seq<int>): (r: seq<int>)
    ensures Ascending(r)
    ensures multiset(r) == multiset(s)
  {
    if s == [] then []
    else
      assert s == [s[0]] + s[1..];
      Insert(s[0], Sort(s[1..]))
  }

  /** Two ascending lists holding the same values start with the same value:
      the smallest one. */
  lemma AscendingSameHead(a: seq<int>, b: seq<int>)
    requires Ascending(a) && Ascending(b)
    requires multiset(a) == multiset(b) && a != []
    ensures b != [] && a[0] == b[0]
  {
    assert a[0] in multiset(b);
    assert b[0] in multiset(a);
    var k :| 0 <= k < |b| && b[k] == a[0];
    var l :| 0 <= l < |a| && a[l] == b[0];
    assert b[0] <= b[k] && a[0] <= a[l];
  }

  /** Dropping the same head from two lists with the same values leaves two
      lists with the same values, both still ascending. */
  lemma AscendingSameTail(a: seq<int>, b: seq<int>)
    requires Ascending(a) && Ascending(b)
    requires multiset(a) == multiset(b) && a != [] && b != [] && a[0] == b[0]
    ensures Ascending(a[1..]) && Ascending(b[1..])
    ensures multiset(a[1..]) == multiset(b[1..])
  {
    assert a == [a[0]] + a[1..] && b == [b[0]] + b[1..];
    assert multiset(a) == multiset{a[0]} + multiset(a[1..]);
    assert multiset(b) == multiset{b[0]} + multiset(b[1..]);
    calc {
      multiset(a[1..]);
      multiset(a) - multiset{a[0]};
      multiset(b) - multiset{b[0]};
      multiset(b[1..]);
    }
  }

  /** A list in ascending order is determined by its values: two ascending
      lists holding the same values are equal. So `Sort` is the only sorting
      of a hand. */
  lemma {:induction false} AscendingUnique(a: seq<int>, b: seq<int>)
    requires Ascending(a) && Ascending(b)
    requires multiset(a) == multiset(b)
    ensures a == b
    decreases |a|
  {
    if a == [] {
      assert |b| == |multiset(b)| == 0;
    } else {
      AscendingSameHead(a, b);
      AscendingSameTail(a, b);
      AscendingUnique(a[1..], b[1..]);
      assert a == [a[0]] + a[1..] && b == [b[0]] + b[1..];
    }
  }

  /** `list.reverse()`. */
  function Reverse(s: seq<int>): (r: seq<int>)
    ensures |r| == |s|
    ensures forall k :: 0 <= k < |s| ==> r[k] == s[|s| - 1 - k]
    ensures multiset(r) == multiset(s)
  {
    if s == [] then []
    else
      assert s == s[..|s| - 1] + [s[|s| - 1]];
      [s[|s| - 1]] + Reverse(s[..|s| - 1])
  }

  /** Position of the first occurrence of `x` (what `list.remove` looks for). */
  function IndexOf(s: seq<int>, x: int): (i: nat)
    requires x in s
    ensures i < |s| && s[i] == x
    ensures forall k :: 0 <= k < i ==> s[k] != x
  {
    if s[0] == x then 0 else 1 + IndexOf(s[1..], x)
  }

  /** `list.remove(x)`: drops the first occurrence of `x`. point_tally only
      removes the element it is looking at, so `x` is always present. */
  function RemoveFirst(s: seq<int>, x: int): (r: seq<int>)
    requires x in s
    ensures r == s[..IndexOf(s, x)] + s[IndexOf(s, x) + 1..]
    ensures |r| == |s| - 1
    ensures multiset(r) == multiset(s) - multiset{x}
  {
    var i := IndexOf(s, x);
    assert s == s[..i] + [x] + s[i + 1..];
    s[..i] + s[i + 1..]
  }

  /** Dropping one position keeps a list in descending order. */
  lemma DropKeepsOrder(s: seq<int>, i: nat)
    requires i < |s| && Descending(s)
    ensures Descending(s[..i] + s[i + 1..])
  {
    var d := s[..i] + s[i + 1..];
    forall a, b | 0 <= a < b < |d| ensures d[a] >= d[b] {
      var a' := if a < i then a else a + 1;
      var b' := if b < i then b else b + 1;
      assert d[a] == s[a'] && d[b] == s[b'];
    }
  }

  /** The removal loop of point_tally, from hidden index `i` on: the element
      at `i` is removed when its predecessor value is in the list, and `i`
      moves on by one either way. The loop only removes, and keeps the order. */
  function Sweep(s: seq<int>, i: nat): (r: seq<int>)
    ensures multiset(r) <= multiset(s)
    decreases |s| - i
  {
    if i >= |s| then s
    else if s[i] - 1 in s then Sweep(RemoveFirst(s, s[i]), i + 1)
    else Sweep(s, i + 1)
  }

  /** The loop keeps a non-increasing list non-increasing. */
  lemma {:induction false} SweepDescending(s: seq<int>, i: nat)
    requires Descending(s)
    ensures Descending(Sweep(s, i))
    decreases |s| - i
  {
    if i < |s| {
      if s[i] - 1 in s {
        var c := RemoveFirst(s, s[i]);
        DropKeepsOrder(s, IndexOf(s, s[i]));
        SweepDescending(c, i + 1);
      } else {
        SweepDescending(s, i + 1);
      }
    }
  }

  /** The hand point_tally leaves behind: sorted, reversed, swept. It is in
      non-increasing order and holds only cards of the hand. */
  function Collapse(hand: seq<int>): (r: seq<int>)
    ensures Descending(r)
    ensures multiset(r) <= multiset(hand)
  {
    var sorted := Sort(hand);
    var reversed := Reverse(sorted);
    assert Descending(reversed);
    SweepDescending(reversed, 0);
    Sweep(reversed, 0)
  }

  /** The value point_tally returns: card points minus chips. */
  function Score(hand: seq<int>, chips: int): int {
    Sum(Collapse(hand)) - chips
  }

  /** Removing one copy of `x` leaves the count of every other value, and
      leaves no value that was not there. */
  lemma RemoveFirstKeeps(s: seq<int>, x: int, w: int)
    requires x in s
    ensures w != x ==> multiset(RemoveFirst(s, x))[w] == multiset(s)[w]
    ensures w in RemoveFirst(s, x) ==> w in s
  {
    var c := RemoveFirst(s, x);
    if w in c {
      assert w in multiset(c);
    }
  }

  /** The loop removes a copy of `v` only when `v - 1` is in the list. */
  lemma {:induction false} SweepRemovesAfterPredecessor(s: seq<int>, i: nat, v: int)
    requires multiset(Sweep(s, i))[v] < multiset(s)[v]
    ensures v - 1 in s
    decreases |s| - i
  {
    if i < |s| {
      if s[i] - 1 in s {
        var c := RemoveFirst(s, s[i]);
        assert Sweep(s, i) == Sweep(c, i + 1);
        if v != s[i] {
          RemoveFirstKeeps(s, s[i], v);
          SweepRemovesAfterPredecessor(c, i + 1, v);
          RemoveFirstKeeps(s, s[i], v - 1);
        }
      } else {
        SweepRemovesAfterPredecessor(s, i + 1, v);
      }
    }
  }

  /** A list in which no value has its predecessor value loses nothing. */
  lemma {:induction false} SweepNoRuns(c: seq<int>, i: nat)
    requires forall v :: v in c ==> v - 1 !in c
    ensures Sweep(c, i) == c
    decreases |c| - i
  {
    if i < |c| {
      assert c[i] in c;
      SweepNoRuns(c, i + 1);
    }
  }

  /** Every card point_tally drops from a hand had its predecessor value in
      the hand. */
  lemma CollapseRemovesAfterPredecessor(hand: seq<int>, v: int)
    requires multiset(Collapse(hand))[v] < multiset(hand)[v]
    ensures v - 1 in hand
  {
    var reversed := Reverse(Sort(hand));
    SweepRemovesAfterPredecessor(reversed, 0, v);
    assert v - 1 in multiset(reversed);
  }

  /** A hand without two consecutive values keeps every card. */
  lemma CollapseNoRuns(hand: seq<int>)
    requires forall v :: v in hand ==> v - 1 !in hand
    ensures multiset(Collapse(hand)) == multiset(hand)
  {
    var sorted := Sort(hand);
    var reversed := Reverse(sorted);
    assert multiset(reversed) == multiset(hand);
    forall v | v in reversed ensures v - 1 !in reversed {
      assert v in multiset(reversed);
      assert v in hand;
      assert v - 1 !in hand;
      assert v - 1 !in multiset(hand);
      assert v - 1 !in multiset(reversed);
    }
    SweepNoRuns(reversed, 0);
  }

  lemma SortPair(v: int)
    ensures Sort([v, v + 1]) == [v, v + 1]
    ensures Sort([v + 1, v]) == [v, v + 1]
  {
    AscendingUnique(Sort([v, v + 1]), [v, v + 1]);
    AscendingUnique(Sort([v + 1, v]), [v, v + 1]);
  }

  lemma ReversePair(v: int)
    ensures Reverse([v, v + 1]) == [v + 1, v]
  {
  }

  lemma SweepPair(v: int)
    ensures Sweep([v + 1, v], 0) == [v]
  {
    var c := [v + 1, v];
    assert RemoveFirst(c, v + 1) == [v];
    assert Sweep(c, 0) == Sweep([v], 1);
  }

  /** A hand of exactly two consecutive cards keeps only the lower one. */
  lemma CollapsePair(v: int)
    ensures Collapse([v, v + 1]) == [v]
    ensures Collapse([v + 1, v]) == [v]
  {
    SortPair(v);
    ReversePair(v);
    SweepPair(v);
  }

  lemma SortRunOfThree(v: int)
    ensures Sort([v + 2, v + 1, v]) == [v, v + 1, v + 2]
  {
    var run := [v, v + 1, v + 2];
    assert multiset(run) == multiset([v + 2, v + 1, v]);
    assert Ascending(run);
    AscendingUnique(Sort([v + 2, v + 1, v]), run);
  }

  lemma ReverseRunOfThree(v: int)
    ensures Reverse([v, v + 1, v + 2]) == [v + 2, v + 1, v]
  {
  }

  /** First pass over a run of three: the top card goes and the middle card
      slides into position 0, which the index has already passed. */
  lemma SweepRunOfThreeHead(v: int)
    ensures Sweep([v + 2, v + 1, v], 0) == Sweep([v + 1, v], 1)
  {
    assert RemoveFirst([v + 2, v + 1, v], v + 2) == [v + 1, v];
  }

  /** The lowest card of the run has no predecessor, so nothing more goes. */
  lemma SweepRunOfThreeTail(v: int)
    ensures Sweep([v + 1, v], 1) == [v + 1, v]
  {
    assert v - 1 !in [v + 1, v];
  }

  /** A run of three is not reduced to its lowest card: from v+2, v+1, v the
      loop removes v+2, v+1 slides into the slot the index has just passed,
      and v has no predecessor, so v+1 and v both count. For 8, 9, 10 that is
      17 points where the lowest-card rule gives 8. */
  lemma CollapseRunOfThree(v: int)
    ensures Collapse([v + 2, v + 1, v]) == [v + 1, v]
  {
    SortRunOfThree(v);
    ReverseRunOfThree(v);
    SweepRunOfThreeHead(v);
    SweepRunOfThreeTail(v);
  }

  lemma SumPairDown(v: int)
    ensures Sum([v + 1, v]) == 2 * v + 1
  {
    assert [v + 1, v][1..] == [v];
    assert Sum([v]) == v;
  }

  /** The run v+2, v+1, v with no chips scores 2v+1 points: 17 for 10, 9, 8,
      where the lowest-card rule gives 8. */
  lemma ScoreRunOfThree(v: int)
    ensures Score([v + 2, v + 1, v], 0) == 2 * v + 1
  {
    CollapseRunOfThree(v);
    SumPairDown(v);
  }
}
