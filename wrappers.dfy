/** Option, Result and Outcome, and the "first failing rule" shape that every
    validator of the dashboard follows: rules are checked in a fixed order and
    the first one that does not hold decides the error that is reported. */
module Wrappers {

  datatype Option<+T> = None | Some(value: T)

  datatype Result<+T, +E> = Ok(value: T) | Err(error: E)

  /** The result of a check that carries no value on success. */
  datatype Outcome<+E> = Pass | Fail(error: E)

  /** Index of the first rule whose condition is false, or |rules| when all hold. */
  function FirstFailingIndex<E>(rules: seq<(bool, E)>): (k: nat)
    ensures k <= |rules|
    ensures forall j :: 0 <= j < k ==> rules[j].0
    ensures k < |rules| ==> !rules[k].0
  {
    if |rules| == 0 then 0
    else if !rules[0].0 then 0
    else 1 + FirstFailingIndex(rules[1..])
  }

  /** Reference semantics of an ordered validator: the error of the first rule
      that fails, or Pass when every rule holds. */
  function FirstFailure<E>(rules: seq<(bool, E)>): (r: Outcome<E>)
    ensures r.Pass? <==> forall j :: 0 <= j < |rules| ==> rules[j].0
    ensures r.Fail? ==> exists k :: 0 <= k < |rules| && !rules[k].0 && rules[k].1 == r.error
                                    && forall j :: 0 <= j < k ==> rules[j].0
  {
    var k := FirstFailingIndex(rules);
    if k == |rules| then Pass else Fail(rules[k].1)
  }

  /** A validator of two ordered rules, unfolded. */
  lemma FirstFailureOfTwo<E>(a: bool, ea: E, b: bool, eb: E)
    ensures FirstFailure([(a, ea), (b, eb)]) == if !a then Fail(ea) else if !b then Fail(eb) else Pass
  {
    var rules := [(a, ea), (b, eb)];
    assert rules[1..] == [(b, eb)];
    assert rules[1..][1..] == [];
    assert FirstFailingIndex(rules[1..]) == if !b then 0 else 1;
    assert FirstFailingIndex(rules) == if !a then 0 else if !b then 1 else 2;
  }

  /** A validator of three ordered rules, unfolded. */
  lemma FirstFailureOfThree<E>(a: bool, ea: E, b: bool, eb: E, c: bool, ec: E)
    ensures FirstFailure([(a, ea), (b, eb), (c, ec)])
         == if !a then Fail(ea) else if !b then Fail(eb) else if !c then Fail(ec) else Pass
  {
    var rules := [(a, ea), (b, eb), (c, ec)];
    assert rules[1..] == [(b, eb), (c, ec)];
    assert rules[1..][1..] == [(c, ec)];
    assert rules[1..][1..][1..] == [];
    assert FirstFailingIndex(rules[1..][1..]) == if !c then 0 else 1;
    assert FirstFailingIndex(rules[1..]) == if !b then 0 else if !c then 1 else 2;
    assert FirstFailingIndex(rules) == if !a then 0 else if !b then 1 else if !c then 2 else 3;
  }
}

/** Array.prototype.filter on sequences: order-preserving selection. */
module Seqs {

  function Filter<T>(xs: seq<T>, keep: T -> bool): (r: seq<T>)
    ensures |r| <= |xs|
    ensures forall i :: 0 <= i < |r| ==> r[i] in xs && keep(r[i])
    ensures forall i :: 0 <= i < |xs| && keep(xs[i]) ==> xs[i] in r
  {
    if xs == [] then []
    else (if keep(xs[0]) then [xs[0]] else []) + Filter(xs[1..], keep)
  }

  /** Filtering commutes with concatenation: the kept elements of a list keep
      their relative order. */
  lemma {:induction false} FilterAppend<T>(a: seq<T>, b: seq<T>, keep: T -> bool)
    ensures Filter(a + b, keep) == Filter(a, keep) + Filter(b, keep)
  {
    if a == [] {
      assert a + b == b;
    } else {
      assert (a + b)[0] == a[0];
      assert (a + b)[1..] == a[1..] + b;
      FilterAppend(a[1..], b, keep);
    }
  }

  /** Two predicates that agree on the list select the same elements. */
  lemma {:induction false} FilterCongruent<T>(xs: seq<T>, p: T -> bool, q: T -> bool)
    requires forall i :: 0 <= i < |xs| ==> p(xs[i]) == q(xs[i])
    ensures Filter(xs, p) == Filter(xs, q)
  {
    if xs != [] {
      FilterCongruent(xs[1..], p, q);
    }
  }

  /** Filtering out the only element that fails the predicate. */
  lemma {:induction false} FilterDropOne<T>(xs: seq<T>, k: nat, keep: T -> bool)
    requires k < |xs| && !keep(xs[k])
    requires forall i :: 0 <= i < |xs| && i != k ==> keep(xs[i])
    ensures Filter(xs, keep) == xs[..k] + xs[k + 1..]
  {
    var tail := xs[1..];
    if k == 0 {
      FilterDropHead(xs, keep);
    } else {
      assert forall i :: 0 <= i < |tail| && i != k - 1 ==> keep(tail[i]) by {
        forall i | 0 <= i < |tail| && i != k - 1 ensures keep(tail[i]) {
          assert tail[i] == xs[i + 1];
        }
      }
      assert tail[k - 1] == xs[k];
      FilterDropOne(tail, k - 1, keep);
      assert xs[..k] == [xs[0]] + tail[..k - 1];
      assert xs[k + 1..] == tail[k..];
    }
  }

  lemma FilterDropHead<T>(xs: seq<T>, keep: T -> bool)
    requires 0 < |xs| && !keep(xs[0])
    requires forall i :: 0 < i < |xs| ==> keep(xs[i])
    ensures Filter(xs, keep) == xs[1..]
  {
    var tail := xs[1..];
    assert forall i :: 0 <= i < |tail| ==> keep(tail[i]) by {
      forall i | 0 <= i < |tail| ensures keep(tail[i]) {
        assert tail[i] == xs[i + 1];
      }
    }
    FilterAll(tail, keep);
  }

  /** Filtering with a predicate that holds everywhere keeps the list as it is. */
  lemma {:induction false} FilterAll<T>(xs: seq<T>, keep: T -> bool)
    requires forall i :: 0 <= i < |xs| ==> keep(xs[i])
    ensures Filter(xs, keep) == xs
  {
    if xs != [] {
      FilterAll(xs[1..], keep);
    }
  }

  /** Filtering with a predicate that holds nowhere yields the empty list. */
  lemma {:induction false} FilterNone<T>(xs: seq<T>, keep: T -> bool)
    requires forall i :: 0 <= i < |xs| ==> !keep(xs[i])
    ensures Filter(xs, keep) == []
  {
    if xs != [] {
      FilterNone(xs[1..], keep);
    }
  }
}
