/** Sequence helpers shared by the viewer's list derivations: the `filter(...).map(...)`
    chains over `Object.entries(...)` and the spread `Math.max(...)`. */
module Seqs {

  datatype Option<+T> = None | Some(value: T)

  /** `xs.filter(p).map(g)` fused into one step: `f` returns `Some(g(x))` for the
      elements that pass the filter and `None` for the ones it drops. */
  function FilterMap<A, B>(xs: seq<A>, f: A -> Option<B>): (r: seq<B>)
    ensures |r| <= |xs|
    ensures forall b :: b in r ==> exists i :: 0 <= i < |xs| && f(xs[i]) == Some(b)
  {
    if xs == [] then []
    else
      var rest := FilterMap(xs[1..], f);
      assert forall b :: b in rest ==> exists i :: 0 <= i < |xs| && f(xs[i]) == Some(b) by {
        forall b | b in rest ensures exists i :: 0 <= i < |xs| && f(xs[i]) == Some(b) {
          var j :| 0 <= j < |xs[1..]| && f(xs[1..][j]) == Some(b);
          assert f(xs[j + 1]) == Some(b);
        }
      }
      match f(xs[0])
      case Some(b) => [b] + rest
      case None => rest
  }

  /** Filtering a concatenation is concatenating the filtered parts: entry order is kept. */
  lemma {:induction false} FilterMapAppend<A, B>(xs: seq<A>, ys: seq<A>, f: A -> Option<B>)
    ensures FilterMap(xs + ys, f) == FilterMap(xs, f) + FilterMap(ys, f)
  {
    if xs == [] {
      assert xs + ys == ys;
    } else {
      assert (xs + ys)[1..] == xs[1..] + ys;
      FilterMapAppend(xs[1..], ys, f);
    }
  }

  /** An element is in the output exactly when some input element maps to it. */
  lemma {:induction false} FilterMapMember<A, B>(xs: seq<A>, f: A -> Option<B>, b: B)
    ensures b in FilterMap(xs, f) <==> exists i :: 0 <= i < |xs| && f(xs[i]) == Some(b)
  {
    if xs != [] {
      FilterMapMember(xs[1..], f, b);
      if exists i :: 0 <= i < |xs| && f(xs[i]) == Some(b) {
        var i :| 0 <= i < |xs| && f(xs[i]) == Some(b);
        if i > 0 {
          assert f(xs[1..][i - 1]) == Some(b);
        }
      }
    }
  }

  /** Two kept elements come out in the order in which they went in. */
  lemma {:induction false} FilterMapOrder<A, B>(xs: seq<A>, f: A -> Option<B>, i: nat, j: nat)
    requires i < j < |xs| && f(xs[i]).Some? && f(xs[j]).Some?
    ensures var r := FilterMap(xs, f);
      exists p, q :: 0 <= p < q < |r| && r[p] == f(xs[i]).value && r[q] == f(xs[j]).value
  {
    var r := FilterMap(xs, f);
    var front, back := xs[..j], xs[j..];
    assert xs == front + back;
    FilterMapAppend(front, back, f);
    var rf, rb := FilterMap(front, f), FilterMap(back, f);
    assert r == rf + rb;
    FilterMapMember(front, f, f(xs[i]).value);
    assert front[i] == xs[i];
    var p :| 0 <= p < |rf| && rf[p] == f(xs[i]).value;
    assert back[0] == xs[j];
    assert rb[0] == f(xs[j]).value;
    assert r[p] == f(xs[i]).value && r[|rf|] == f(xs[j]).value;
  }

  /** When kept elements have pairwise distinct keys in the input, the outputs have
      pairwise distinct keys too. */
  lemma {:induction false} FilterMapDistinct<A, B, K>(xs: seq<A>, f: A -> Option<B>, key: B -> K)
    requires forall i, j :: 0 <= i < j < |xs| && f(xs[i]).Some? && f(xs[j]).Some? ==>
      key(f(xs[i]).value) != key(f(xs[j]).value)
    ensures forall p, q :: 0 <= p < q < |FilterMap(xs, f)| ==>
      key(FilterMap(xs, f)[p]) != key(FilterMap(xs, f)[q])
  {
    if xs != [] {
      var rest := FilterMap(xs[1..], f);
      forall i, j | 0 <= i < j < |xs[1..]| && f(xs[1..][i]).Some? && f(xs[1..][j]).Some?
        ensures key(f(xs[1..][i]).value) != key(f(xs[1..][j]).value)
      {
        assert xs[1..][i] == xs[i + 1] && xs[1..][j] == xs[j + 1];
      }
      FilterMapDistinct(xs[1..], f, key);
      assert forall p, q :: 0 <= p < q < |rest| ==> key(rest[p]) != key(rest[q]);
      if f(xs[0]).Some? {
        var r := FilterMap(xs, f);
        assert r == [f(xs[0]).value] + rest;
        forall q | 0 < q < |r| ensures key(r[0]) != key(r[q]) {
          FilterMapMember(xs[1..], f, r[q]);
          assert r[q] in rest;
          var j :| 0 <= j < |xs[1..]| && f(xs[1..][j]) == Some(r[q]);
          assert f(xs[j + 1]) == Some(r[q]);
        }
        forall p, q | 0 < p < q < |r| ensures key(r[p]) != key(r[q]) {
          assert r[p] == rest[p - 1] && r[q] == rest[q - 1];
          assert 0 <= p - 1 < q - 1 < |rest|;
        }
      } else {
        assert FilterMap(xs, f) == rest;
      }
    }
  }

  /** `Math.max(...xs)` for a non-empty list: an element of `xs` that no element exceeds. */
  function Max(xs: seq<real>): (m: real)
    requires |xs| > 0
    ensures m in xs
    ensures forall x :: x in xs ==> x <= m
  {
    if |xs| == 1 then xs[0]
    else
      var t := Max(xs[1..]);
      assert forall x :: x in xs ==> x == xs[0] || x in xs[1..];
      if xs[0] >= t then xs[0] else t
  }

  /** The maximum of a list is at most the maximum of any list holding all its elements. */
  lemma MaxSubset(xs: seq<real>, ys: seq<real>)
    requires |xs| > 0
    requires forall x :: x in xs ==> x in ys
    ensures |ys| > 0 && Max(xs) <= Max(ys)
  {
    assert Max(xs) in ys;
  }
}
