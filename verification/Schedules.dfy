/** What happens along a schedule. The classes that have the form of the source are run against one: it
    says who acts next, and is arbitrary. `next` gives the moment after a step, which is the same moment
    if the step cannot happen. */
module Schedules {

  predicate StepAt<M(==), A>(next: (M, A) -> M, schedule: seq<A>, moments: seq<M>, k: nat)
    requires k < |schedule| && |moments| == |schedule| + 1
  {
    moments[k + 1] == next(moments[k], schedule[k])
  }

  /** `moments[k]` is what is the case after the first `k` steps of the schedule. */
  ghost predicate Recorded<M, A>(next: (M, A) -> M, schedule: seq<A>, moments: seq<M>) {
    && |moments| == |schedule| + 1
    && forall k :: 0 <= k < |schedule| ==> StepAt(next, schedule, moments, k)
  }

  /** Every schedule has its moments, */
  lemma {:induction false} Record<M, A>(next: (M, A) -> M, first: M, schedule: seq<A>) returns (moments: seq<M>)
    ensures Recorded(next, schedule, moments) && moments[0] == first
  {
    if schedule == [] {
      moments := [first];
    } else {
      var n := |schedule| - 1;
      var before := Record(next, first, schedule[..n]);
      moments := before + [next(before[n], schedule[n])];
      forall k | 0 <= k < |schedule| ensures StepAt(next, schedule, moments, k) {
        assert k < n ==> StepAt(next, schedule[..n], before, k);
      }
    }
  }

  /** and they are determined by how it begins. */
  lemma {:induction false} RecordedOnce<M, A>(next: (M, A) -> M, schedule: seq<A>, m: seq<M>, m': seq<M>, k: nat)
    requires Recorded(next, schedule, m) && Recorded(next, schedule, m') && m[0] == m'[0] && k <= |schedule|
    ensures m[k] == m'[k]
  {
    if k > 0 {
      RecordedOnce(next, schedule, m, m', k - 1);
      assert StepAt(next, schedule, m, k - 1) && StepAt(next, schedule, m', k - 1);
    }
  }
}
