/** Failure-carrying results shared by every module of the model. */
module Wrappers {

  datatype Option<+T> = None | Some(value: T)

  /** A value, or the error a JavaScript `throw` would carry instead. */
  datatype Result<+T, +E> = Ok(value: T) | Err(error: E) {
    predicate IsFailure() { Err? }

    function PropagateFailure<U>(): Result<U, E>
      requires Err?
    {
      Err(error)
    }

    function Extract(): T
      requires Ok?
    {
      value
    }
  }

  /**
   * A loop that pushes one result per step and stops at the first throw:
   * every value in order, or the first error.
   */
  function AllOk<T, E>(rs: seq<Result<T, E>>): (r: Result<seq<T>, E>)
    ensures r.Ok? ==> |r.value| == |rs|
  {
    if rs == [] then Ok([])
    else match rs[0]
      case Err(e) => Err(e)
      case Ok(v) =>
        match AllOk(rs[1..])
        case Err(e) => Err(e)
        case Ok(vs) => Ok([v] + vs)
  }

  /** The loop succeeds with `vs` exactly when every step gave the value of `vs` at its index. */
  lemma {:induction false} AllOkValues<T, E>(rs: seq<Result<T, E>>, vs: seq<T>)
    ensures AllOk(rs) == Ok(vs) <==> |vs| == |rs| && forall k :: 0 <= k < |rs| ==> rs[k] == Ok(vs[k])
  {
    if rs != [] && |vs| == |rs| {
      AllOkValues(rs[1..], vs[1..]);
      if forall k :: 0 <= k < |rs| ==> rs[k] == Ok(vs[k]) {
        assert forall k :: 0 <= k < |rs[1..]| ==> rs[1..][k] == Ok(vs[1..][k]) by {
          forall k | 0 <= k < |rs[1..]| ensures rs[1..][k] == Ok(vs[1..][k]) {
            assert rs[1..][k] == rs[k + 1];
          }
        }
        assert [vs[0]] + vs[1..] == vs;
      }
      if AllOk(rs) == Ok(vs) {
        forall k | 0 <= k < |rs| ensures rs[k] == Ok(vs[k]) {
          if k > 0 {
            assert rs[k] == rs[1..][k - 1];
          }
        }
      }
    }
  }

  /** One more step: a failure so far stands; otherwise the step's error, or its value appended. */
  lemma {:induction false} AllOkSnoc<T, E>(rs: seq<Result<T, E>>, i: nat)
    requires i < |rs|
    ensures AllOk(rs[..i + 1]) ==
      if AllOk(rs[..i]).Err? then AllOk(rs[..i])
      else if rs[i].Err? then Err(rs[i].error)
      else Ok(AllOk(rs[..i]).value + [rs[i].value])
  {
    if i == 0 {
      assert rs[..1][1..] == [] && rs[..0] == [];
      if rs[0].Ok? {
        assert [] + [rs[0].value] == [rs[0].value] + [];
      }
    } else {
      var tail := rs[1..];
      AllOkSnoc(tail, i - 1);
      assert rs[..i + 1][0] == rs[0] && rs[..i + 1][1..] == tail[..i];
      assert rs[..i][0] == rs[0] && rs[..i][1..] == tail[..i - 1];
      assert tail[i - 1] == rs[i];
      if rs[0].Ok? && AllOk(tail[..i - 1]).Ok? && rs[i].Ok? {
        assert [rs[0].value] + (AllOk(tail[..i - 1]).value + [rs[i].value])
            == ([rs[0].value] + AllOk(tail[..i - 1]).value) + [rs[i].value];
      }
    }
  }

  /** Once a prefix of the steps has failed, the whole loop fails the same way. */
  lemma {:induction false} AllOkPrefixError<T, E>(rs: seq<Result<T, E>>, i: nat)
    requires i <= |rs| && AllOk(rs[..i]).Err?
    ensures AllOk(rs) == AllOk(rs[..i])
  {
    assert i > 0;
    assert rs[..i][0] == rs[0];
    if rs[0].Ok? {
      assert rs[..i][1..] == rs[1..][..i - 1];
      AllOkPrefixError(rs[1..], i - 1);
    }
  }

  /** The loop fails with the error of the first failing step. */
  lemma {:induction false} AllOkFirstError<T, E>(rs: seq<Result<T, E>>, k: nat)
    requires k < |rs| && rs[k].Err?
    requires forall j :: 0 <= j < k ==> rs[j].Ok?
    ensures AllOk(rs) == Err(rs[k].error)
  {
    if k > 0 {
      assert forall j :: 0 <= j < k - 1 ==> rs[1..][j] == rs[j + 1];
      AllOkFirstError(rs[1..], k - 1);
    }
  }

  /** The loop succeeds exactly when every step succeeds. */
  lemma {:induction false} AllOkSucceeds<T, E>(rs: seq<Result<T, E>>)
    ensures AllOk(rs).Ok? <==> forall k :: 0 <= k < |rs| ==> rs[k].Ok?
  {
    if rs != [] {
      AllOkSucceeds(rs[1..]);
      assert forall k :: 1 <= k < |rs| ==> rs[k] == rs[1..][k - 1];
    }
  }

  /** A failed loop fails with the error of one of its steps. */
  lemma {:induction false} AllOkError<T, E>(rs: seq<Result<T, E>>)
    requires AllOk(rs).Err?
    ensures exists k :: 0 <= k < |rs| && rs[k] == Err(AllOk(rs).error)
  {
    if rs[0].Ok? {
      AllOkError(rs[1..]);
      var k :| 0 <= k < |rs[1..]| && rs[1..][k] == Err(AllOk(rs).error);
      assert rs[k + 1] == rs[1..][k];
    }
  }

  /** `f` applied to each element, in order. */
  function Outcomes<A, R>(f: A -> R, xs: seq<A>): (r: seq<R>)
    ensures |r| == |xs|
  {
    if xs == [] then [] else [f(xs[0])] + Outcomes(f, xs[1..])
  }

  /** The outcome at each position is that of the element at the same position. */
  lemma {:induction false} OutcomesAt<A, R>(f: A -> R, xs: seq<A>, i: nat)
    requires i < |xs|
    ensures Outcomes(f, xs)[i] == f(xs[i])
  {
    if i > 0 {
      OutcomesAt(f, xs[1..], i - 1);
    }
  }

  /** The outcomes of a prefix are the prefix of the outcomes. */
  lemma {:induction false} OutcomesPrefix<A, R>(f: A -> R, xs: seq<A>, n: nat)
    requires n <= |xs|
    ensures Outcomes(f, xs[..n]) == Outcomes(f, xs)[..n]
  {
    if n > 0 {
      assert xs[..n][0] == xs[0] && xs[..n][1..] == xs[1..][..n - 1];
      OutcomesPrefix(f, xs[1..], n - 1);
    }
  }

  /**
   * One more step of a loop over `xs` once the steps before it succeeded:
   * its error is the error of the whole loop, or its value is appended.
   */
  lemma AllOkStep<A, T, E>(f: A -> Result<T, E>, xs: seq<A>, i: nat)
    requires i < |xs| && AllOk(Outcomes(f, xs[..i])).Ok?
    ensures f(xs[i]).Err? ==> AllOk(Outcomes(f, xs)) == Err(f(xs[i]).error)
    ensures f(xs[i]).Ok? ==>
      AllOk(Outcomes(f, xs[..i + 1])) == Ok(AllOk(Outcomes(f, xs[..i])).value + [f(xs[i]).value])
  {
    var rs := Outcomes(f, xs);
    OutcomesPrefix(f, xs, i);
    OutcomesPrefix(f, xs, i + 1);
    OutcomesAt(f, xs, i);
    AllOkSnoc(rs, i);
    if rs[i].Err? {
      AllOkPrefixError(rs, i + 1);
    }
  }

  /** Writing one key after a merge is writing it into the map merged last. */
  lemma UpdateAfterMerge<K, V>(a: map<K, V>, b: map<K, V>, k: K, v: V)
    ensures (a + b)[k := v] == a + b[k := v]
  {
  }

  /** Two maps with the same keys and the same value at each key are equal. */
  lemma SameMap<K, V>(a: map<K, V>, b: map<K, V>)
    requires a.Keys == b.Keys && forall k :: k in a ==> a[k] == b[k]
    ensures a == b
  {
  }

  /** The maps merged left to right, a later map overwriting an earlier one at a shared key. */
  function MergeAll<K, V>(ms: seq<map<K, V>>): map<K, V>
  {
    if ms == [] then map[] else MergeAll(ms[..|ms| - 1]) + ms[|ms| - 1]
  }

  /** A key is in the merge exactly when some map has it. */
  lemma {:induction false} MergeAllKeys<K, V>(ms: seq<map<K, V>>, k: K)
    ensures k in MergeAll(ms) <==> exists i :: 0 <= i < |ms| && k in ms[i]
  {
    if ms != [] {
      var init := ms[..|ms| - 1];
      MergeAllKeys(init, k);
      if k in MergeAll(init) {
        var i :| 0 <= i < |init| && k in init[i];
        assert ms[i] == init[i];
      }
      if exists i :: 0 <= i < |ms| && k in ms[i] {
        var i :| 0 <= i < |ms| && k in ms[i];
        if i < |init| {
          assert init[i] == ms[i];
        }
      }
    }
  }

  /** The merge holds at a key the value of the last map that has it. */
  lemma {:induction false} MergeAllLastWins<K, V>(ms: seq<map<K, V>>, i: nat, k: K)
    requires i < |ms| && k in ms[i]
    requires forall j :: i < j < |ms| ==> k !in ms[j]
    ensures k in MergeAll(ms) && MergeAll(ms)[k] == ms[i][k]
  {
    var n := |ms| - 1;
    if i < n {
      var init := ms[..n];
      assert init[i] == ms[i];
      MergeAllLastWins(init, i, k);
    }
  }
}
