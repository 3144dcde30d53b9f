/**
 * `arrayMove` of @dnd-kit/sortable: copy the list, take out the element at
 * `from` and insert it again at `to`.
 */
module Sortable {

  function ArrayMove<T>(s: seq<T>, from: nat, to: nat): (r: seq<T>)
    requires from < |s| && to < |s|
    ensures |r| == |s|
    ensures r[to] == s[from]
    ensures multiset(r) == multiset(s)
    // positions before and after the moved range are untouched
    ensures forall k :: 0 <= k < |s| && k < from && k < to ==> r[k] == s[k]
    ensures forall k :: 0 <= k < |s| && k > from && k > to ==> r[k] == s[k]
    // the entries in between shift by one towards the vacated slot
    ensures forall k :: from <= k < to ==> r[k] == s[k + 1]
    ensures forall k :: to < k <= from ==> r[k] == s[k - 1]
  {
    var rest := s[..from] + s[from + 1..];
    RemoveInsertMultiset(s, from, to);
    rest[..to] + [s[from]] + rest[to..]
  }

  /** Removing the element at `from` and inserting it at `to` keeps the multiset. */
  lemma RemoveInsertMultiset<T>(s: seq<T>, from: nat, to: nat)
    requires from < |s| && to < |s|
    ensures var rest := s[..from] + s[from + 1..];
      multiset(rest[..to] + [s[from]] + rest[to..]) == multiset(s)
  {
    var x := s[from];
    var rest := s[..from] + s[from + 1..];
    assert s == s[..from] + [x] + s[from + 1..];
    assert multiset(s) == multiset(rest) + multiset{x};
    assert rest == rest[..to] + rest[to..];
    assert multiset(rest[..to] + [x] + rest[to..]) == multiset(rest) + multiset{x};
  }

  /** Dropping an item on its own position changes nothing. */
  lemma MoveToSelf<T>(s: seq<T>, i: nat)
    requires i < |s|
    ensures ArrayMove(s, i, i) == s
  {
  }

  /** Moving back from `to` to `from` undoes a move. */
  lemma MoveBack<T>(s: seq<T>, from: nat, to: nat)
    requires from < |s| && to < |s|
    ensures ArrayMove(ArrayMove(s, from, to), to, from) == s
  {
    var r := ArrayMove(s, from, to);
    var q := ArrayMove(r, to, from);
    forall k | 0 <= k < |s| ensures q[k] == s[k] {
      if k == from {
      } else if from < to && from < k <= to {
        assert q[k] == r[k - 1];
      } else if to < from && to <= k < from {
        assert q[k] == r[k + 1];
      }
    }
  }
}
