/** The bounded-refill request scheduler of the scale benchmark
    (scripts/run_p1_scale_benchmark.py): one new future for every completed one. */
module Scheduler {
  import opened Wrappers

  /** Every index below `n` occurs exactly once. */
  ghost predicate IsPermutation(order: seq<nat>, n: nat)
  {
    && |order| == n
    && (forall k :: 0 <= k < n ==> order[k] < n)
    && (forall i, j :: 0 <= i < j < n ==> order[i] != order[j])
    && (forall x :: 0 <= x < n ==> x in order)
  }

  /** The values in the order given. */
  function Picked<T>(values: seq<T>, order: seq<nat>): (r: seq<T>)
    requires forall k :: 0 <= k < |order| ==> order[k] < |values|
    ensures |r| == |order|
  {
    seq(|order|, k requires 0 <= k < |order| => values[order[k]])
  }

  lemma WithoutLargest(order: seq<nat>, n: nat, k: nat)
    requires IsPermutation(order, n) && k < n && order[k] == n - 1
    ensures IsPermutation(order[..k] + order[k + 1..], n - 1)
  {
    var rest := order[..k] + order[k + 1..];
    forall x | 0 <= x < n - 1 ensures x in rest {
      assert x in order;
      var i :| 0 <= i < n && order[i] == x;
      assert if i < k then rest[i] == x else rest[i - 1] == x;
    }
  }

  lemma PickedAppend<T>(values: seq<T>, a: seq<nat>, b: seq<nat>)
    requires forall k :: 0 <= k < |a| ==> a[k] < |values|
    requires forall k :: 0 <= k < |b| ==> b[k] < |values|
    ensures Picked(values, a + b) == Picked(values, a) + Picked(values, b)
  {
  }

  lemma PickedPrefix<T>(values: seq<T>, n: nat, order: seq<nat>)
    requires n <= |values| && forall k :: 0 <= k < |order| ==> order[k] < n
    ensures Picked(values[..n], order) == Picked(values, order)
  {
  }

  lemma PickedWithout<T>(values: seq<T>, order: seq<nat>, n: nat, k: nat, rest: seq<nat>)
    requires |values| == n + 1 && k < |order| && order[k] == n && rest == order[..k] + order[k + 1..]
    requires forall i :: 0 <= i < |order| ==> order[i] <= n && (i != k ==> order[i] < n)
    ensures forall i :: 0 <= i < |rest| ==> rest[i] < n
    ensures multiset(Picked(values, order)) == multiset(Picked(values[..n], rest)) + multiset{values[n]}
  {
    var before, after := order[..k], order[k + 1..];
    PickedAppend(values, before, [n] + after);
    PickedAppend(values, [n], after);
    PickedAppend(values, before, after);
    PickedPrefix(values, n, rest);
    assert order == before + ([n] + after);
    assert Picked(values, [n]) == [values[n]];
    MovedOut(Picked(values, before), values[n], Picked(values, after));
  }

  lemma {:induction false} PermutationKeepsMultiset<T>(values: seq<T>, order: seq<nat>)
    requires IsPermutation(order, |values|)
    ensures multiset(Picked(values, order)) == multiset(values)
    decreases |values|
  {
    if |values| > 0 {
      var n := |values| - 1;
      assert n in order;
      var k :| 0 <= k <= n && order[k] == n;
      WithoutLargest(order, n + 1, k);
      PickedWithout(values, order, n, k, order[..k] + order[k + 1..]);
      PermutationKeepsMultiset(values[..n], order[..k] + order[k + 1..]);
      assert values == values[..n] + [values[n]];
    }
  }

  lemma MovedOut<T>(a: seq<T>, x: T, b: seq<T>)
    ensures multiset(a + ([x] + b)) == multiset(a + b) + multiset{x}
  {
  }

  function Min(a: int, b: int): int { if a < b then a else b }

  function Max(a: int, b: int): int { if a > b then a else b }

  /** What holds whenever the scheduler is about to look at a future: `next` requests were
      issued, each is either pending or done, and one place is free only when no request
      is left. */
  ghost predicate Balanced(n: nat, width: int, next: nat, pending: set<nat>, order: seq<nat>)
  {
    && next <= n
    && (width == 0 ==> next == 0)
    && (forall x :: x in pending || x in order <==> 0 <= x < next)
    && (forall k :: 0 <= k < |order| ==> order[k] < next && order[k] !in pending)
    && (forall i, j :: 0 <= i < j < |order| ==> order[i] != order[j])
    && |order| + |pending| == next
    && |pending| <= width
    && (next < n ==> |pending| == width)
  }

  /** One completion: the future is done, and a further request takes its place. */
  lemma RefillKeepsBalance(n: nat, width: int, next: nat, pending: set<nat>, order: seq<nat>, future: nat)
    requires Balanced(n, width, next, pending, order) && future in pending
    ensures next == n ==> Balanced(n, width, next, pending - {future}, order + [future])
    ensures next < n ==> Balanced(n, width, next + 1, pending - {future} + {next}, order + [future])
    ensures |pending - {future}| == |pending| - 1
    ensures next !in pending && future < next
  {
    assert next < n ==> |pending - {future} + {next}| == |pending|;
  }

  /** The first `next` requests are all pending. */
  ghost predicate Filling(next: nat, pending: set<nat>)
  {
    (forall x :: x in pending <==> 0 <= x < next) && |pending| == next
  }

  lemma FillOne(next: nat, pending: set<nat>)
    requires Filling(next, pending)
    ensures Filling(next + 1, pending + {next})
  {
  }

  lemma FilledIsBalanced(n: nat, width: int, pending: set<nat>)
    requires 0 <= width <= n && Filling(width, pending)
    ensures Balanced(n, width, width, pending, [])
  {
  }

  lemma NothingPendingIsDone(n: nat, width: int, next: nat, order: seq<nat>)
    requires Balanced(n, width, next, {}, order) && (width >= 1 || n == 0)
    ensures next == n && IsPermutation(order, n)
  {
  }

  /** The outcomes so far are those of these requests. */
  ghost predicate Collected<S, O, E>(requests: seq<S>, issue: S -> Result<O, E>, outcomes: seq<O>, order: seq<nat>)
  {
    |outcomes| == |order| && forall k :: 0 <= k < |order| ==> order[k] < |requests| && issue(requests[order[k]]) == Ok(outcomes[k])
  }

  lemma CollectOne<S, O, E>(requests: seq<S>, issue: S -> Result<O, E>, outcomes: seq<O>, order: seq<nat>, future: nat)
    requires Collected(requests, issue, outcomes, order) && future < |requests| && issue(requests[future]).Ok?
    ensures Collected(requests, issue, outcomes + [issue(requests[future]).value], order + [future])
  {
  }

  lemma AllCollected<S, O, E>(requests: seq<S>, issue: S -> Result<O, E>, outcomes: seq<O>, order: seq<nat>)
    requires Collected(requests, issue, outcomes, order) && IsPermutation(order, |requests|)
    ensures forall i :: 0 <= i < |requests| ==> issue(requests[i]).Ok?
  {
    forall i | 0 <= i < |requests| ensures issue(requests[i]).Ok? { assert i in order; }
  }

  /** `_run_bounded_requests`.  `wait` may return any non-empty set of pending futures, in
      any order; a future whose request failed raises.  `issued` lists the requests handed
      to the executor, `order` the requests in the order of their outcomes, `peak` the
      largest number of futures pending at any time. */
  method RunBoundedRequests<S, O, E>(requests: seq<S>, concurrency: int, issue: S -> Result<O, E>)
    returns (r: Result<(seq<O>, nat), E>, ghost issued: seq<S>, ghost order: seq<nat>, ghost peak: nat)
    ensures concurrency >= 1 ==> (r.Ok? <==> forall i :: 0 <= i < |requests| ==> issue(requests[i]).Ok?)
    ensures r.Ok? && concurrency >= 1 ==> issued == requests && IsPermutation(order, |requests|)
    ensures r.Ok? ==> Collected(requests, issue, r.value.0, order)
    ensures r.Ok? ==> r.value.1 == Max(0, Min(concurrency, |requests|))
    ensures peak <= Max(0, Min(concurrency, |requests|))
    ensures issued <= requests
    ensures concurrency <= 0 ==> r == Ok(([], 0)) && issued == []
  {
    var n := |requests|;
    var width := Max(0, Min(concurrency, n));
    var outcomes: seq<O> := [];
    var pending: set<nat> := {};
    var next, maxOutstanding: nat := 0, 0;
    order, peak := [], 0;
    while next < width
      invariant next <= width
      invariant Filling(next, pending) && maxOutstanding == peak == next
    {
      FillOne(next, pending);
      pending, next := pending + {next}, next + 1;
      maxOutstanding, peak := Max(maxOutstanding, |pending|), Max(peak, |pending|);
    }
    FilledIsBalanced(n, width, pending);
    while pending != {}
      invariant Balanced(n, width, next, pending, order)
      invariant Collected(requests, issue, outcomes, order) && maxOutstanding == peak == width
      decreases n - next + |pending|
    {
      var completed: set<nat> :| completed != {} && completed <= pending;
      ghost var before := n - next + |pending|;
      ghost var returned := |completed|;
      while completed != {}
        invariant completed <= pending
        invariant Balanced(n, width, next, pending, order)
        invariant Collected(requests, issue, outcomes, order) && maxOutstanding == peak == width
        invariant n - next + |pending| == before - (returned - |completed|)
        decreases |completed|
      {
        var future :| future in completed;
        RefillKeepsBalance(n, width, next, pending, order, future);
        completed, pending := completed - {future}, pending - {future};
        match issue(requests[future]) {
          case Err(e) => return Err(e), requests[..next], order, peak;
          case Ok(outcome) =>
            CollectOne(requests, issue, outcomes, order, future);
            outcomes, order := outcomes + [outcome], order + [future];
        }
        if next < n {
          pending, next := pending + {next}, next + 1;
          maxOutstanding, peak := Max(maxOutstanding, |pending|), Max(peak, |pending|);
        }
      }
    }
    if concurrency >= 1 {
      NothingPendingIsDone(n, width, next, order);
      AllCollected(requests, issue, outcomes, order);
    }
    assert requests[..n] == requests;
    return Ok((outcomes, maxOutstanding)), requests[..next], order, peak;
  }

  /** The results of all requests, each once, in the order their futures completed. */
  lemma OutcomesArePermutedResults<S, O, E>(requests: seq<S>, issue: S -> Result<O, E>, results: seq<O>, outcomes: seq<O>, order: seq<nat>)
    requires |results| == |requests| && forall i :: 0 <= i < |requests| ==> issue(requests[i]) == Ok(results[i])
    requires IsPermutation(order, |requests|) && Collected(requests, issue, outcomes, order)
    ensures multiset(outcomes) == multiset(results)
  {
    PermutationKeepsMultiset(results, order);
    assert Picked(results, order) == outcomes;
  }
}
