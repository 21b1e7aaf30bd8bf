/** Entity pools as sequences, and the two ways the game changes them while walking over them:
    `Array.prototype.splice(i, 1)` and `forEach` with a splice inside its callback.

    `forEach` (section 23.1.3.15 of ECMA-262, 2023 edition) fixes the number of visits `n` when
    it starts and, at each index `k < n`, visits the element that is at `k` at that moment, or
    nobody if the pool has become shorter. A splice at `k` therefore moves the next element to
    `k`, and the walk goes on at `k + 1`: that element is not visited in this walk. */
module Pools {

  /** `s.splice(i, 1)`: removes the element at `i`, or nothing when `i` is past the end. */
  function Remove<T>(s: seq<T>, i: nat): (r: seq<T>)
    ensures |r| == if i < |s| then |s| - 1 else |s|
    ensures forall j :: 0 <= j < |r| ==> r[j] == if j < i then s[j] else s[j + 1]
    ensures forall x :: x in r ==> x in s
  {
    if i < |s| then s[..i] + s[i + 1..] else s
  }

  /** What is left of the walk `forEach((e, k) => { move e; if gone(e, limit) splice(k, 1) })`
      from index `k` on, with `n` visits in all. Visits at or past the end of the (shrinking)
      pool do nothing. The elements before `k`, already visited, are kept as they are. */
  function SweepFrom<T>(s: seq<T>, k: nat, n: nat, move: T -> T, gone: (T, int) -> bool, limit: int): (r: seq<T>)
    ensures k <= |s| ==> k <= |r| && r[..k] == s[..k]
    decreases n - k
  {
    if k >= n || k >= |s| then s
    else if gone(move(s[k]), limit) then SweepFrom(Remove(s, k), k + 1, n, move, gone, limit)
    else SweepFrom(s[k := move(s[k])], k + 1, n, move, gone, limit)
  }

  /** The whole walk over a pool. */
  function Sweep<T>(s: seq<T>, move: T -> T, gone: (T, int) -> bool, limit: int): seq<T>
  {
    SweepFrom(s, 0, |s|, move, gone, limit)
  }

  /** Every element moved in place, nothing removed: what the walk is meant to do when nobody
      leaves. */
  function MapAll<T>(s: seq<T>, move: T -> T): (r: seq<T>)
    ensures |r| == |s| && forall j :: 0 <= j < |s| ==> r[j] == move(s[j])
  {
    if s == [] then [] else [move(s[0])] + MapAll(s[1..], move)
  }

  /** A walk never lengthens the pool. */
  lemma {:induction false} SweepFromShrinks<T>(s: seq<T>, k: nat, n: nat, move: T -> T, gone: (T, int) -> bool, limit: int)
    ensures |SweepFrom(s, k, n, move, gone, limit)| <= |s|
    decreases n - k
  {
    if k < n && k < |s| {
      if gone(move(s[k]), limit) {
        SweepFromShrinks(Remove(s, k), k + 1, n, move, gone, limit);
      } else {
        SweepFromShrinks(s[k := move(s[k])], k + 1, n, move, gone, limit);
      }
    }
  }

  /** From `k` on, when no element leaves, the walk moves each element in place. */
  lemma {:induction false} SweepFromMovesRest<T>(s: seq<T>, k: nat, move: T -> T, gone: (T, int) -> bool, limit: int)
    requires k <= |s|
    requires forall j :: k <= j < |s| ==> !gone(move(s[j]), limit)
    ensures var r := SweepFrom(s, k, |s|, move, gone, limit);
            |r| == |s| && forall j :: 0 <= j < |s| ==> r[j] == if j < k then s[j] else move(s[j])
    decreases |s| - k
  {
    if k < |s| {
      var s' := s[k := move(s[k])];
      assert forall j :: k + 1 <= j < |s'| ==> s'[j] == s[j];
      SweepFromMovesRest(s', k + 1, move, gone, limit);
    }
  }

  /** A walk from `k` on only removes elements that leave: if the pool got shorter, some element
      at or after `k` was gone once moved. */
  lemma {:induction false} SweepFromRemovesOnlyGone<T>(s: seq<T>, k: nat, n: nat, move: T -> T, gone: (T, int) -> bool, limit: int)
    ensures |SweepFrom(s, k, n, move, gone, limit)| < |s| ==>
              exists j :: k <= j < |s| && gone(move(s[j]), limit)
    decreases n - k
  {
    if k < n && k < |s| && !gone(move(s[k]), limit) {
      var s' := s[k := move(s[k])];
      SweepFromRemovesOnlyGone(s', k + 1, n, move, gone, limit);
      if |SweepFrom(s', k + 1, n, move, gone, limit)| < |s'| {
        var j :| k + 1 <= j < |s'| && gone(move(s'[j]), limit);
        assert s'[j] == s[j];
      }
    }
  }

  /** `idx` traces each element of the result `r` of a walk from `k` back to its index in `s`, in
      increasing order: every survivor is the element as it was, or its moved copy that did not
      leave, and only an element at or after `k` can have been moved. */
  ghost predicate Traces<T>(s: seq<T>, r: seq<T>, idx: seq<int>, k: nat, move: T -> T, gone: (T, int) -> bool, limit: int)
  {
    |idx| == |r| &&
    (forall i :: 0 <= i < |idx| ==>
       0 <= idx[i] < |s| &&
       (r[i] == s[idx[i]] || (k <= idx[i] && r[i] == move(s[idx[i]]) && !gone(r[i], limit)))) &&
    (forall i, j :: 0 <= i < j < |idx| ==> idx[i] < idx[j])
  }

  /** Every index of `s` that a trace leaves out holds an element, at or after `k`, that was gone
      once moved: the walk splices nothing else. */
  ghost predicate Drops<T>(s: seq<T>, idx: seq<int>, k: nat, move: T -> T, gone: (T, int) -> bool, limit: int)
  {
    forall j :: 0 <= j < |s| && j !in idx ==> k <= j && gone(move(s[j]), limit)
  }

  /** The indices of a trace past a removal at `k`, as indices before it. */
  function Shift(idx: seq<int>, k: int): (r: seq<int>)
    ensures |r| == |idx| && forall i :: 0 <= i < |idx| ==> r[i] == if idx[i] < k then idx[i] else idx[i] + 1
  {
    seq(|idx|, i requires 0 <= i < |idx| => if idx[i] < k then idx[i] else idx[i] + 1)
  }

  /** A trace past a removed element at `k` is a trace before the removal, shifted. */
  lemma TracesPastRemove<T>(s: seq<T>, r: seq<T>, idx': seq<int>, k: nat, move: T -> T, gone: (T, int) -> bool, limit: int)
    requires k < |s| && Traces(Remove(s, k), r, idx', k + 1, move, gone, limit)
    ensures Traces(s, r, Shift(idx', k), k, move, gone, limit)
  {
  }

  /** Past a removal at `k` of an element that was gone, the shifted trace leaves out only that
      element and those the rest of the walk removed. */
  lemma DropsPastRemove<T>(s: seq<T>, idx': seq<int>, k: nat, move: T -> T, gone: (T, int) -> bool, limit: int)
    requires k < |s| && gone(move(s[k]), limit)
    requires Drops(Remove(s, k), idx', k + 1, move, gone, limit)
    ensures Drops(s, Shift(idx', k), k, move, gone, limit)
  {
    var idx := Shift(idx', k);
    forall j | 0 <= j < |s| && j != k
      ensures j in idx || (k <= j && gone(move(s[j]), limit))
    {
      var j' := if j < k then j else j - 1;
      assert Remove(s, k)[j'] == s[j];
      if j' in idx' {
        var i :| 0 <= i < |idx'| && idx'[i] == j';
        assert idx[i] == j;
      }
    }
  }

  /** A trace past an element moved in place at `k` is a trace before the move. */
  lemma TracesPastMove<T>(s: seq<T>, r: seq<T>, idx: seq<int>, k: nat, move: T -> T, gone: (T, int) -> bool, limit: int)
    requires k < |s| && !gone(move(s[k]), limit)
    requires Traces(s[k := move(s[k])], r, idx, k + 1, move, gone, limit)
    requires Drops(s[k := move(s[k])], idx, k + 1, move, gone, limit)
    ensures Traces(s, r, idx, k, move, gone, limit) && Drops(s, idx, k, move, gone, limit)
  {
    assert forall j :: k < j < |s| ==> s[k := move(s[k])][j] == s[j];
  }

  /** The survivors of a walk keep their order, each is either untouched or moved once and still
      in bounds, and every element the walk spliced out was, at or after `k`, gone once moved. */
  lemma {:induction false} SweepFromKeepsOrder<T>(s: seq<T>, k: nat, n: nat, move: T -> T, gone: (T, int) -> bool, limit: int)
    ensures exists idx :: Traces(s, SweepFrom(s, k, n, move, gone, limit), idx, k, move, gone, limit) &&
                          Drops(s, idx, k, move, gone, limit)
    decreases n - k
  {
    var r := SweepFrom(s, k, n, move, gone, limit);
    if k >= n || k >= |s| {
      var idx := seq(|s|, i => i);
      forall j | 0 <= j < |s| ensures j in idx { assert idx[j] == j; }
      assert Traces(s, r, idx, k, move, gone, limit) && Drops(s, idx, k, move, gone, limit);
    } else if gone(move(s[k]), limit) {
      SweepFromKeepsOrder(Remove(s, k), k + 1, n, move, gone, limit);
      var idx' :| Traces(Remove(s, k), r, idx', k + 1, move, gone, limit) &&
                  Drops(Remove(s, k), idx', k + 1, move, gone, limit);
      TracesPastRemove(s, r, idx', k, move, gone, limit);
      DropsPastRemove(s, idx', k, move, gone, limit);
    } else {
      SweepFromKeepsOrder(s[k := move(s[k])], k + 1, n, move, gone, limit);
      var idx :| Traces(s[k := move(s[k])], r, idx, k + 1, move, gone, limit) &&
                 Drops(s[k := move(s[k])], idx, k + 1, move, gone, limit);
      TracesPastMove(s, r, idx, k, move, gone, limit);
    }
  }

  /** When no element leaves, the walk moves every element once and keeps the order. */
  lemma SweepMapsAll<T>(s: seq<T>, move: T -> T, gone: (T, int) -> bool, limit: int)
    requires forall j :: 0 <= j < |s| ==> !gone(move(s[j]), limit)
    ensures Sweep(s, move, gone, limit) == MapAll(s, move)
  {
    SweepFromMovesRest(s, 0, move, gone, limit);
  }

  /** The walk skips the follower of a removed element: if the first of two elements leaves, the
      second is neither moved nor tested in this walk, even when it would leave as well. */
  lemma SweepSkipsFollower<T>(a: T, b: T, move: T -> T, gone: (T, int) -> bool, limit: int)
    requires gone(move(a), limit)
    ensures Sweep([a, b], move, gone, limit) == [b]
  {
    var s := [a, b];
    assert s[0] == a && Remove(s, 0) == [b];
    assert SweepFrom([b], 1, 2, move, gone, limit) == [b];
  }
}
