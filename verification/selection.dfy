/**
 * Keeping the present values of a list of options, and of a list of such
 * lists, together with the positions they came from. The receiver's walk is
 * an instance: each change either asks for a handler call or does not.
 */
module Selection {
  import opened Wrappers

  /** The present values of `os`, in order. */
  function Somes<T>(os: seq<Option<T>>): seq<T> {
    if |os| == 0 then []
    else (if os[0].Some? then [os[0].value] else []) + Somes(os[1..])
  }

  /** The present values of each list of `oss`, one list after the other. */
  function SomesAll<T>(oss: seq<seq<Option<T>>>): seq<T> {
    if |oss| == 0 then []
    else Somes(oss[0]) + SomesAll(oss[1..])
  }

  /** Keeping the present values of a non-empty run: its first value when present, then those of the rest. */
  lemma SomesStep<T>(os: seq<Option<T>>, j: nat, m: nat, here: seq<T>, rest: seq<T>)
    requires j < m <= |os|
    requires here == (if os[j].Some? then [os[j].value] else [])
    requires rest == Somes(os[j + 1..m])
    ensures here + rest == Somes(os[j..m])
  {
    assert os[j..m][1..] == os[j + 1..m];
  }

  /**
   * Keeping the present values of a non-empty run of lists, followed by
   * `tail`: those of its first list, then those of the rest of the run and
   * `tail`.
   */
  lemma SomesAllStep<T>(oss: seq<seq<Option<T>>>, i: nat, m: nat, here: seq<T>, rest: seq<T>, tail: seq<T>)
    requires i < m <= |oss|
    requires here == Somes(oss[i])
    requires rest == SomesAll(oss[i + 1..m]) + tail
    ensures here + rest == SomesAll(oss[i..m]) + tail
  {
    assert oss[i..m][1..] == oss[i + 1..m];
  }

  /** Nothing is kept when nothing is present. */
  lemma {:induction false} SomesAllNone<T>(oss: seq<seq<Option<T>>>)
    requires forall i, k :: 0 <= i < |oss| && 0 <= k < |oss[i]| ==> oss[i][k].None?
    ensures SomesAll(oss) == []
    decreases |oss|
  {
    if |oss| > 0 {
      SomesNone(oss[0]);
      assert forall i, k :: 0 <= i < |oss[1..]| && 0 <= k < |oss[1..][i]| ==> oss[1..][i][k] == oss[i + 1][k];
      SomesAllNone(oss[1..]);
    }
  }

  /** Nothing is kept from a list of absent values. */
  lemma {:induction false} SomesNone<T>(os: seq<Option<T>>)
    requires forall k :: 0 <= k < |os| ==> os[k].None?
    ensures Somes(os) == []
    decreases |os|
  {
    if |os| > 0 {
      assert forall k :: 0 <= k < |os[1..]| ==> os[1..][k] == os[k + 1];
      SomesNone(os[1..]);
    }
  }

  /** Lexicographic order on (outer index, inner index) positions. */
  predicate Before(p: (nat, nat), q: (nat, nat)) {
    p.0 < q.0 || (p.0 == q.0 && p.1 < q.1)
  }

  /** How many values of `os` are present before position `k`. */
  function Rank<T>(os: seq<Option<T>>, k: nat): nat
    requires k <= |os|
    decreases k
  {
    if k == 0 then 0 else (if os[0].Some? then 1 else 0) + Rank(os[1..], k - 1)
  }

  /** How many values of `oss` are present before position (i, k). */
  function RankAll<T>(oss: seq<seq<Option<T>>>, i: nat, k: nat): nat
    requires i < |oss| && k <= |oss[i]|
    decreases i
  {
    if i == 0 then Rank(oss[0], k) else |Somes(oss[0])| + RankAll(oss[1..], i - 1, k)
  }

  /** Every index of `js` moved one place on. */
  function Incremented(js: seq<nat>): (r: seq<nat>)
    ensures |r| == |js|
    ensures forall n :: 0 <= n < |js| ==> r[n] == js[n] + 1
  {
    if |js| == 0 then [] else [js[0] + 1] + Incremented(js[1..])
  }

  /** The indices `js` of list `i`, as positions. */
  function Tagged(i: nat, js: seq<nat>): (r: seq<(nat, nat)>)
    ensures |r| == |js|
    ensures forall n :: 0 <= n < |js| ==> r[n] == (i, js[n])
  {
    if |js| == 0 then [] else [(i, js[0])] + Tagged(i, js[1..])
  }

  /** Positions `ps` with the list index moved one place on. */
  function Shifted(ps: seq<(nat, nat)>): (r: seq<(nat, nat)>)
    ensures |r| == |ps|
    ensures forall n :: 0 <= n < |ps| ==> r[n] == (ps[n].0 + 1, ps[n].1)
  {
    if |ps| == 0 then [] else [(ps[0].0 + 1, ps[0].1)] + Shifted(ps[1..])
  }

  /** Where each present value of `os` sits, in order. */
  function Positions<T>(os: seq<Option<T>>): (js: seq<nat>)
    ensures |js| == |Somes(os)|
    ensures forall n :: 0 <= n < |js| ==> js[n] < |os|
    decreases |os|
  {
    if |os| == 0 then []
    else
      var rest := Positions(os[1..]);
      (if os[0].Some? then [0] else []) + Incremented(rest)
  }

  /** The n-th value `Somes` keeps is the one at position `Positions(os)[n]`. */
  lemma {:induction false} PositionsPick<T>(os: seq<Option<T>>)
    ensures forall n :: 0 <= n < |Positions(os)| ==> os[Positions(os)[n]] == Some(Somes(os)[n])
    decreases |os|
  {
    if |os| > 0 {
      PositionsPick(os[1..]);
      var rest := Positions(os[1..]);
      var h := if os[0].Some? then 1 else 0;
      forall n | h <= n < |Positions(os)|
        ensures os[Positions(os)[n]] == Some(Somes(os)[n])
      {
        assert Positions(os)[n] == rest[n - h] + 1;
        assert os[1..][rest[n - h]] == os[Positions(os)[n]];
      }
    }
  }

  /** Positions are strictly increasing: `Somes` keeps the order of `os`. */
  lemma {:induction false} PositionsIncreasing<T>(os: seq<Option<T>>)
    ensures forall a, b :: 0 <= a < b < |Positions(os)| ==> Positions(os)[a] < Positions(os)[b]
    decreases |os|
  {
    if |os| > 0 {
      PositionsIncreasing(os[1..]);
    }
  }

  /** Every present value is kept, at the index given by its rank. */
  lemma {:induction false} PositionsComplete<T>(os: seq<Option<T>>)
    ensures forall k :: 0 <= k < |os| && os[k].Some? ==>
              Rank(os, k) < |Positions(os)| && Positions(os)[Rank(os, k)] == k
    decreases |os|
  {
    if |os| > 0 {
      PositionsComplete(os[1..]);
      var rest := Positions(os[1..]);
      forall k | 0 <= k < |os| && os[k].Some?
        ensures Rank(os, k) < |Positions(os)| && Positions(os)[Rank(os, k)] == k
      {
        if k > 0 {
          assert os[1..][k - 1] == os[k];
        }
      }
    }
  }

  /** Where each present value of `oss` sits, in order, as (list, index) pairs. */
  function PositionsAll<T>(oss: seq<seq<Option<T>>>): (ps: seq<(nat, nat)>)
    ensures |ps| == |SomesAll(oss)|
    ensures forall n :: 0 <= n < |ps| ==> ps[n].0 < |oss| && ps[n].1 < |oss[ps[n].0]|
    decreases |oss|
  {
    if |oss| == 0 then []
    else
      var js := Positions(oss[0]);
      var rest := PositionsAll(oss[1..]);
      Tagged(0, js) + Shifted(rest)
  }

  /** The n-th value `SomesAll` keeps is the one at position `PositionsAll(oss)[n]`. */
  lemma {:induction false} PositionsAllPick<T>(oss: seq<seq<Option<T>>>)
    ensures forall n :: 0 <= n < |PositionsAll(oss)| ==>
              oss[PositionsAll(oss)[n].0][PositionsAll(oss)[n].1] == Some(SomesAll(oss)[n])
    decreases |oss|
  {
    if |oss| > 0 {
      PositionsPick(oss[0]);
      PositionsAllPick(oss[1..]);
      var js := Positions(oss[0]);
      var rest := PositionsAll(oss[1..]);
      assert SomesAll(oss) == Somes(oss[0]) + SomesAll(oss[1..]);
      forall n | |js| <= n < |PositionsAll(oss)|
        ensures oss[PositionsAll(oss)[n].0][PositionsAll(oss)[n].1] == Some(SomesAll(oss)[n])
      {
        var m := n - |js|;
        assert PositionsAll(oss)[n] == (rest[m].0 + 1, rest[m].1);
        assert oss[1..][rest[m].0] == oss[PositionsAll(oss)[n].0];
      }
    }
  }

  /** Positions are strictly increasing in entry-major order. */
  lemma {:induction false} PositionsAllIncreasing<T>(oss: seq<seq<Option<T>>>)
    ensures forall a, b :: 0 <= a < b < |PositionsAll(oss)| ==> Before(PositionsAll(oss)[a], PositionsAll(oss)[b])
    decreases |oss|
  {
    if |oss| > 0 {
      PositionsIncreasing(oss[0]);
      PositionsAllIncreasing(oss[1..]);
      var js := Positions(oss[0]);
      var rest := PositionsAll(oss[1..]);
      forall a, b | 0 <= a < b < |PositionsAll(oss)|
        ensures Before(PositionsAll(oss)[a], PositionsAll(oss)[b])
      {
        if a >= |js| {
          assert Before(rest[a - |js|], rest[b - |js|]);
        }
      }
    }
  }

  /** Every present value of `oss` is kept, at the index given by its rank. */
  lemma PositionsAllComplete<T>(oss: seq<seq<Option<T>>>)
    ensures forall i, k :: 0 <= i < |oss| && 0 <= k < |oss[i]| && oss[i][k].Some? ==>
              RankAll(oss, i, k) < |PositionsAll(oss)| && PositionsAll(oss)[RankAll(oss, i, k)] == (i, k)
  {
    forall i, k | 0 <= i < |oss| && 0 <= k < |oss[i]| && oss[i][k].Some?
      ensures RankAll(oss, i, k) < |PositionsAll(oss)| && PositionsAll(oss)[RankAll(oss, i, k)] == (i, k)
    {
      PositionsAllCompleteAt(oss, i, k);
    }
  }

  /** The present value at (i, k) is kept at the index given by its rank. */
  lemma {:induction false} PositionsAllCompleteAt<T>(oss: seq<seq<Option<T>>>, i: nat, k: nat)
    requires i < |oss| && k < |oss[i]| && oss[i][k].Some?
    ensures RankAll(oss, i, k) < |PositionsAll(oss)| && PositionsAll(oss)[RankAll(oss, i, k)] == (i, k)
    decreases |oss|
  {
    if i == 0 {
      PositionsAllCompleteFirst(oss, k);
    } else {
      assert oss[1..][i - 1] == oss[i];
      PositionsAllCompleteAt(oss[1..], i - 1, k);
      PositionsAllCompleteNext(oss, i, k);
    }
  }

  /** The base case of `PositionsAllCompleteAt`: a value of the first list. */
  lemma PositionsAllCompleteFirst<T>(oss: seq<seq<Option<T>>>, k: nat)
    requires 0 < |oss| && k < |oss[0]| && oss[0][k].Some?
    ensures RankAll(oss, 0, k) < |PositionsAll(oss)| && PositionsAll(oss)[RankAll(oss, 0, k)] == (0, k)
  {
    PositionsComplete(oss[0]);
    var r := Rank(oss[0], k);
    PositionsAllUnfold(oss);
    TaggedBefore(Tagged(0, Positions(oss[0])), Shifted(PositionsAll(oss[1..])), r);
  }

  /** The step of `PositionsAllCompleteAt`: from the rest of the lists to all of them. */
  lemma PositionsAllCompleteNext<T>(oss: seq<seq<Option<T>>>, i: nat, k: nat)
    requires 0 < i < |oss| && k < |oss[i]|
    requires RankAll(oss[1..], i - 1, k) < |PositionsAll(oss[1..])|
    requires PositionsAll(oss[1..])[RankAll(oss[1..], i - 1, k)] == (i - 1, k)
    ensures RankAll(oss, i, k) < |PositionsAll(oss)| && PositionsAll(oss)[RankAll(oss, i, k)] == (i, k)
  {
    assert oss[1..][i - 1] == oss[i];
    var m := RankAll(oss[1..], i - 1, k);
    PositionsAllShift(oss, m, RankAll(oss, i, k), i - 1, k);
  }

  /** The position of a value of a later list, seen from the whole of `oss`. */
  lemma PositionsAllShift<T>(oss: seq<seq<Option<T>>>, m: nat, r: nat, i: nat, k: nat)
    requires 0 < |oss| && m < |PositionsAll(oss[1..])| && PositionsAll(oss[1..])[m] == (i, k)
    requires r == |Somes(oss[0])| + m
    ensures r < |PositionsAll(oss)| && PositionsAll(oss)[r] == (i + 1, k)
  {
    PositionsAllUnfold(oss);
    ShiftedAfter(Tagged(0, Positions(oss[0])), PositionsAll(oss[1..]), m, i, k);
  }

  /** One step of `PositionsAll`. */
  lemma PositionsAllUnfold<T>(oss: seq<seq<Option<T>>>)
    requires 0 < |oss|
    ensures PositionsAll(oss) == Tagged(0, Positions(oss[0])) + Shifted(PositionsAll(oss[1..]))
  {
  }

  /** Indices within the first part of a concatenation are unaffected by the second. */
  lemma TaggedBefore(tagged: seq<(nat, nat)>, shifted: seq<(nat, nat)>, r: nat)
    requires r < |tagged|
    ensures (tagged + shifted)[r] == tagged[r]
  {
  }

  /** A position of the rest, shifted to the next list, sits behind the first list's positions. */
  lemma ShiftedAfter(tagged: seq<(nat, nat)>, rest: seq<(nat, nat)>, m: nat, i: nat, k: nat)
    requires m < |rest| && rest[m] == (i, k)
    ensures |tagged| + m < |tagged + Shifted(rest)|
    ensures (tagged + Shifted(rest))[|tagged| + m] == (i + 1, k)
  {
  }
}
