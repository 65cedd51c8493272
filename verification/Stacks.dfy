/** Every thread is a stack of calls: a signal handler runs on top of whatever its thread was doing.
    The last element of a stack is the call that is running; the others are suspended beneath it.
    Both lock machines use these operations, and both termination proofs sum weights over them. */
module Stacks {

  function Top<F>(stacks: seq<seq<F>>, t: nat): F
    requires t < |stacks| && stacks[t] != []
  {
    stacks[t][|stacks[t]| - 1]
  }

  function SetTop<F>(stacks: seq<seq<F>>, t: nat, f: F): seq<seq<F>>
    requires t < |stacks| && stacks[t] != []
  {
    stacks[t := stacks[t][|stacks[t]| - 1 := f]]
  }

  function Push<F>(stacks: seq<seq<F>>, t: nat, f: F): seq<seq<F>>
    requires t < |stacks|
  {
    stacks[t := stacks[t] + [f]]
  }

  /** Pushing on a thread that is in no call. */
  lemma PushFirst<F>(stacks: seq<seq<F>>, t: nat, f: F)
    requires t < |stacks| && stacks[t] == []
    ensures Push(stacks, t, f) == stacks[t := [f]]
  {
    assert stacks[t] + [f] == [f];
  }

  /** Setting the top to what it is. */
  lemma SetTopToItself<F>(stacks: seq<seq<F>>, t: nat)
    requires t < |stacks| && stacks[t] != []
    ensures SetTop(stacks, t, Top(stacks, t)) == stacks
  {
    assert stacks[t][|stacks[t]| - 1 := Top(stacks, t)] == stacks[t];
  }

  function Pop<F>(stacks: seq<seq<F>>, t: nat): seq<seq<F>>
    requires t < |stacks| && stacks[t] != []
  {
    stacks[t := stacks[t][..|stacks[t]| - 1]]
  }

  /** `n` threads that are not in any call. */
  function Idle<F>(n: nat): (stacks: seq<seq<F>>)
    ensures |stacks| == n && forall t :: 0 <= t < n ==> stacks[t] == []
  {
    seq(n, _ => [])
  }

  /** Thread t has the calls `below`, and at least one more above them. */
  predicate Over<F(==)>(stacks: seq<seq<F>>, t: nat, below: seq<F>) {
    t < |stacks| && |below| < |stacks[t]| && stacks[t][..|below|] == below
  }

  // ---------- sums of weights ----------

  function StackSum<F>(stack: seq<F>, weight: F -> nat): nat
  {
    if stack == [] then 0 else StackSum(stack[..|stack| - 1], weight) + weight(stack[|stack| - 1])
  }

  function Sum<F>(stacks: seq<seq<F>>, weight: F -> nat): nat
  {
    if stacks == [] then 0 else Sum(stacks[..|stacks| - 1], weight) + StackSum(stacks[|stacks| - 1], weight)
  }

  lemma {:induction false} SumUpdate<F>(stacks: seq<seq<F>>, t: nat, stack: seq<F>, weight: F -> nat)
    requires t < |stacks|
    ensures Sum(stacks[t := stack], weight) + StackSum(stacks[t], weight)
         == Sum(stacks, weight) + StackSum(stack, weight)
  {
    var n := |stacks| - 1;
    if t < n {
      assert stacks[t := stack][..n] == stacks[..n][t := stack];
      SumUpdate(stacks[..n], t, stack, weight);
    } else {
      assert stacks[t := stack][..n] == stacks[..n];
    }
  }

  lemma SumSetTop<F>(stacks: seq<seq<F>>, t: nat, f: F, weight: F -> nat)
    requires t < |stacks| && stacks[t] != []
    ensures Sum(SetTop(stacks, t, f), weight) + weight(Top(stacks, t)) == Sum(stacks, weight) + weight(f)
  {
    var stack := stacks[t];
    var changed := stack[|stack| - 1 := f];
    assert changed[..|stack| - 1] == stack[..|stack| - 1];
    SumUpdate(stacks, t, changed, weight);
  }

  lemma SumPush<F>(stacks: seq<seq<F>>, t: nat, f: F, weight: F -> nat)
    requires t < |stacks|
    ensures Sum(Push(stacks, t, f), weight) == Sum(stacks, weight) + weight(f)
  {
    var pushed := stacks[t] + [f];
    assert pushed[..|pushed| - 1] == stacks[t];
    SumUpdate(stacks, t, pushed, weight);
  }

  lemma SumPop<F>(stacks: seq<seq<F>>, t: nat, weight: F -> nat)
    requires t < |stacks| && stacks[t] != []
    ensures Sum(Pop(stacks, t), weight) + weight(Top(stacks, t)) == Sum(stacks, weight)
  {
    SumUpdate(stacks, t, stacks[t][..|stacks[t]| - 1], weight);
  }

  lemma {:induction false} SumIdle<F>(n: nat, weight: F -> nat)
    ensures Sum(Idle<F>(n), weight) == 0
  {
    if n > 0 {
      assert Idle<F>(n)[..n - 1] == Idle<F>(n - 1);
      SumIdle<F>(n - 1, weight);
    }
  }

  lemma {:induction false} StackSumPositive<F>(stack: seq<F>, d: nat, weight: F -> nat)
    requires d < |stack|
    ensures StackSum(stack, weight) >= weight(stack[d])
  {
    if d < |stack| - 1 {
      StackSumPositive(stack[..|stack| - 1], d, weight);
    }
  }

  /** One frame's weight never exceeds the sum. */
  lemma {:induction false} SumCovers<F>(stacks: seq<seq<F>>, t: nat, d: nat, weight: F -> nat)
    requires t < |stacks| && d < |stacks[t]|
    ensures Sum(stacks, weight) >= weight(stacks[t][d])
  {
    var n := |stacks| - 1;
    if t < n {
      SumCovers(stacks[..n], t, d, weight);
    } else {
      StackSumPositive(stacks[t], d, weight);
    }
  }

  lemma {:induction false} StackSumScaled<F(!new)>(stack: seq<F>, small: F -> nat, large: F -> nat, k: nat)
    requires forall f :: small(f) <= k * large(f)
    ensures StackSum(stack, small) <= k * StackSum(stack, large)
  {
    if stack != [] {
      var rest, last := stack[..|stack| - 1], stack[|stack| - 1];
      StackSumScaled(rest, small, large, k);
      Distribute(k, StackSum(rest, large), large(last));
    }
  }

  /** If `small` is at most `k` times `large` on every frame, so are the sums. */
  lemma {:induction false} SumScaled<F(!new)>(stacks: seq<seq<F>>, small: F -> nat, large: F -> nat, k: nat)
    requires forall f :: small(f) <= k * large(f)
    ensures Sum(stacks, small) <= k * Sum(stacks, large)
  {
    if stacks != [] {
      var n := |stacks| - 1;
      SumScaled(stacks[..n], small, large, k);
      StackSumScaled(stacks[n], small, large, k);
      Distribute(k, Sum(stacks[..n], large), StackSum(stacks[n], large));
    }
  }

  lemma Distribute(k: nat, x: nat, y: nat)
    ensures k * (x + y) == k * x + k * y
  {
  }

  // ---------- one number for each thread ----------

  function Total(ranks: seq<nat>): nat {
    if ranks == [] then 0 else Total(ranks[..|ranks| - 1]) + ranks[|ranks| - 1]
  }

  lemma {:induction false} TotalUpdate(ranks: seq<nat>, t: nat, r: nat)
    requires t < |ranks|
    ensures Total(ranks[t := r]) + ranks[t] == Total(ranks) + r
  {
    var n := |ranks| - 1;
    if t < n {
      assert ranks[t := r][..n] == ranks[..n][t := r];
      TotalUpdate(ranks[..n], t, r);
    } else {
      assert ranks[t := r][..n] == ranks[..n];
    }
  }

  lemma {:induction false} TotalOfZeros(ranks: seq<nat>)
    requires forall t :: 0 <= t < |ranks| ==> ranks[t] == 0
    ensures Total(ranks) == 0
  {
    if ranks != [] {
      TotalOfZeros(ranks[..|ranks| - 1]);
    }
  }
}
