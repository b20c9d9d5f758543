/** The order in which `signal::remove_slot` leaves a slot list: scanning from
    the front, each match is overwritten by the last element, the list is
    popped, and the scan stays at the same position. */
module SwapRemove {

  /** The list that the scan starting at position `i` leaves behind. */
  function SwapRemoveFrom<T>(xs: seq<T>, i: nat, m: T -> bool): seq<T>
    decreases |xs| - i
  {
    if i >= |xs| then xs
    else if m(xs[i]) then SwapRemoveFrom(xs[i := xs[|xs| - 1]][..|xs| - 1], i, m)
    else SwapRemoveFrom(xs, i + 1, m)
  }

  /** How many elements match. */
  function CountMatches<T>(xs: seq<T>, m: T -> bool): nat
  {
    if xs == [] then 0 else (if m(xs[0]) then 1 else 0) + CountMatches(xs[1..], m)
  }

  lemma {:induction false} CountMatchesAppend<T>(a: seq<T>, b: seq<T>, m: T -> bool)
    ensures CountMatches(a + b, m) == CountMatches(a, m) + CountMatches(b, m)
    decreases |a|
  {
    if a == [] {
      assert a + b == b;
    } else {
      assert (a + b)[1..] == a[1..] + b;
      CountMatchesAppend(a[1..], b, m);
    }
  }

  /** The list after one match at position `i`. */
  function SwapPop<T>(xs: seq<T>, i: nat): seq<T>
    requires i < |xs|
  {
    xs[i := xs[|xs| - 1]][..|xs| - 1]
  }

  /** `SwapPop` written as concatenations. */
  lemma SwapPopShape<T>(xs: seq<T>, i: nat)
    requires i < |xs|
    ensures i == |xs| - 1 ==> SwapPop(xs, i) == xs[..i]
    ensures i < |xs| - 1 ==> SwapPop(xs, i) == xs[..i] + [xs[|xs| - 1]] + xs[i + 1..|xs| - 1]
  {
  }

  /** One match at position `i` removes exactly that element. */
  lemma SwapStepMultiset<T>(xs: seq<T>, i: nat)
    requires i < |xs|
    ensures multiset(SwapPop(xs, i)) == multiset(xs) - multiset{xs[i]}
  {
    var n := |xs| - 1;
    SwapPopShape(xs, i);
    if i == n {
      assert xs == xs[..n] + [xs[n]];
    } else {
      var a, b := xs[..i], xs[i + 1..n];
      assert xs == a + ([xs[i]] + b + [xs[n]]);
      assert SwapPop(xs, i) == a + ([xs[n]] + b);
    }
  }

  /** One match at position `i` leaves the prefix before `i` untouched and
      only keeps elements of the old list. */
  lemma SwapStepFrame<T>(xs: seq<T>, i: nat)
    requires i < |xs|
    ensures |SwapPop(xs, i)| == |xs| - 1
    ensures SwapPop(xs, i)[..i] == xs[..i]
    ensures forall k :: 0 <= k < |SwapPop(xs, i)| ==> SwapPop(xs, i)[k] in xs
  {
  }

  /** No element occurs twice. */
  ghost predicate Distinct<T>(xs: seq<T>) {
    forall i, j :: 0 <= i < j < |xs| ==> xs[i] != xs[j]
  }

  /** On a list without duplicates, one match at position `i` drops exactly
      the element at `i`, moves the last element into position `i` and keeps
      every other position. */
  lemma SwapPopMembers<T>(xs: seq<T>, i: nat)
    requires i < |xs| && Distinct(xs)
    ensures Distinct(SwapPop(xs, i))
    ensures forall x :: x in SwapPop(xs, i) <==> x in xs && x != xs[i]
    ensures forall k :: 0 <= k < |SwapPop(xs, i)| && k != i ==> SwapPop(xs, i)[k] == xs[k]
    ensures i < |xs| - 1 ==> SwapPop(xs, i)[i] == xs[|xs| - 1]
  {
    var ys := SwapPop(xs, i);
    forall x
      ensures x in ys <==> x in xs && x != xs[i]
    {
      if x in xs && x != xs[i] {
        var k :| 0 <= k < |xs| && xs[k] == x;
        if k == |xs| - 1 {
          assert ys[i] == x;
        } else {
          assert ys[k] == x;
        }
      }
    }
  }

  /** One match at position `i` lowers the number of matches from `i` on by one. */
  lemma SwapStepCount<T>(xs: seq<T>, i: nat, m: T -> bool)
    requires i < |xs| && m(xs[i])
    ensures CountMatches(SwapPop(xs, i)[i..], m) + 1 == CountMatches(xs[i..], m)
  {
    var n := |xs| - 1;
    var ys := SwapPop(xs, i);
    SwapPopShape(xs, i);
    if i == n {
      assert ys[i..] == [];
      assert xs[i..] == [xs[i]];
      assert xs[i..][1..] == [];
    } else {
      var mid := xs[i + 1..n];
      assert ys[i..] == [xs[n]] + mid;
      assert xs[i..][1..] == mid + [xs[n]];
      CountMatchesAppend([xs[n]], mid, m);
      CountMatchesAppend(mid, [xs[n]], m);
      assert [xs[n]][1..] == [];
    }
  }

  /** The scan removes exactly the matching elements: each non-matching element
      is kept as often as it occurred, no match remains, the prefix already
      scanned is untouched, and the length drops by the number of matches. */
  lemma {:induction false} SwapRemoveSpec<T>(xs: seq<T>, i: nat, m: T -> bool)
    requires i <= |xs|
    requires forall k :: 0 <= k < i ==> !m(xs[k])
    ensures var r := SwapRemoveFrom(xs, i, m);
      (forall x :: multiset(r)[x] == if m(x) then 0 else multiset(xs)[x]) &&
      (forall k :: 0 <= k < |r| ==> !m(r[k])) &&
      i <= |r| && r[..i] == xs[..i] &&
      |r| == |xs| - CountMatches(xs[i..], m)
    decreases |xs| - i
  {
    var r := SwapRemoveFrom(xs, i, m);
    if i == |xs| {
      assert xs[i..] == [];
    } else if m(xs[i]) {
      var ys := SwapPop(xs, i);
      SwapStepMultiset(xs, i);
      SwapStepFrame(xs, i);
      SwapStepCount(xs, i, m);
      assert forall k :: 0 <= k < i ==> ys[k] == xs[k];
      SwapRemoveSpec(ys, i, m);
    } else {
      SwapRemoveSpec(xs, i + 1, m);
      assert xs[i..] == [xs[i]] + xs[i + 1..];
      assert xs[i..][1..] == xs[i + 1..];
      assert r[..i] == r[..i + 1][..i];
      assert xs[..i] == xs[..i + 1][..i];
    }
  }

  /** Removing the first of three elements moves the last one into its place:
      `[p, q, s]` without `p` is `[s, q]`. */
  lemma RemoveFirstOfThree<T>(p: T, q: T, s: T, m: T -> bool)
    requires m(p) && !m(q) && !m(s)
    ensures SwapRemoveFrom([p, q, s], 0, m) == [s, q]
  {
    assert [p, q, s][0 := s][..2] == [s, q];
    assert SwapRemoveFrom([s, q], 2, m) == [s, q];
    assert SwapRemoveFrom([s, q], 1, m) == [s, q];
  }

  /** Removing the last element keeps the order of the others: `[p, q, s, d]`
      without `d` is `[p, q, s]`. */
  lemma RemoveLastOfFour<T>(p: T, q: T, s: T, d: T, m: T -> bool)
    requires !m(p) && !m(q) && !m(s) && m(d)
    ensures SwapRemoveFrom([p, q, s, d], 0, m) == [p, q, s]
  {
    var xs := [p, q, s, d];
    assert xs[3 := d][..3] == [p, q, s];
    assert SwapRemoveFrom([p, q, s], 3, m) == [p, q, s];
    assert SwapRemoveFrom(xs, 3, m) == [p, q, s];
    assert SwapRemoveFrom(xs, 2, m) == [p, q, s];
    assert SwapRemoveFrom(xs, 1, m) == [p, q, s];
  }
}
