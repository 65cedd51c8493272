/** What a reusable barrier for a fixed set of participants promises, round after round. */
module BarrierSpec {
  import opened Wrappers

  /** How many rounds each participant has entered and left. */
  datatype Rounds = Rounds(entered: seq<nat>, left: seq<nat>)

  datatype Event = Enter(i: nat) | Leave(i: nat)

  function Start(n: nat): Rounds {
    Rounds(seq(n, _ => 0), seq(n, _ => 0))
  }

  /** A participant leaves a round only after every participant has entered it. */
  predicate Permits(r: Rounds, e: Event) {
    && |r.entered| == |r.left| && e.i < |r.entered|
    && match e
       case Enter(i) => r.entered[i] == r.left[i]
       case Leave(i) =>
         r.entered[i] == r.left[i] + 1 && forall j :: 0 <= j < |r.entered| ==> r.entered[j] >= r.entered[i]
  }

  function After(r: Rounds, e: Event): Rounds
    requires |r.entered| == |r.left| && e.i < |r.entered|
  {
    match e
    case Enter(i) => r.(entered := r.entered[i := r.entered[i] + 1])
    case Leave(i) => r.(left := r.left[i := r.left[i] + 1])
  }

  /** The rounds after a history, or None if the barrier does not allow it. */
  function Play(n: nat, es: seq<Event>): Option<Rounds> {
    if es == [] then Some(Start(n))
    else
      var before := Play(n, es[..|es| - 1]);
      if before.Some? && Permits(before.value, es[|es| - 1]) then Some(After(before.value, es[|es| - 1])) else None
  }

  lemma PlayOne(n: nat, es: seq<Event>, e: Event)
    requires Play(n, es).Some? && Permits(Play(n, es).value, e)
    ensures Play(n, es + [e]) == Some(After(Play(n, es).value, e))
  {
    assert (es + [e])[..|es + [e]| - 1] == es;
  }

  lemma PlayTwo(n: nat, es: seq<Event>, e: Event, f: Event)
    requires Play(n, es).Some? && Permits(Play(n, es).value, e) && Permits(After(Play(n, es).value, e), f)
    ensures Play(n, es + [e, f]) == Some(After(After(Play(n, es).value, e), f))
  {
    PlayOne(n, es, e);
    PlayOne(n, es + [e], f);
    assert es + [e] + [f] == es + [e, f];
  }

  /** Over any history: nobody has left a round that somebody has not entered, and no two participants are
      more than one round apart. */
  lemma {:induction false} InStep(n: nat, es: seq<Event>, i: nat, j: nat)
    requires Play(n, es).Some? && i < n && j < n
    ensures
      var r := Play(n, es).value;
      && |r.entered| == |r.left| == n
      && r.left[i] <= r.entered[j]
      && r.left[i] <= r.entered[i] <= r.left[i] + 1
      && r.left[i] <= r.left[j] + 1
  {
    if es != [] {
      InStep(n, es[..|es| - 1], i, j);
      InStep(n, es[..|es| - 1], j, j);
    }
  }

  // ---------- counting arrivals ----------

  /** How many participants have entered round `k` (rounds are numbered from 0). */
  function Arrived(entered: seq<nat>, k: nat): nat {
    if entered == [] then 0
    else Arrived(entered[..|entered| - 1], k) + if entered[|entered| - 1] > k then 1 else 0
  }

  lemma {:induction false} ArrivedBound(entered: seq<nat>, k: nat)
    ensures Arrived(entered, k) <= |entered|
    ensures Arrived(entered, k) == |entered| <==> forall i :: 0 <= i < |entered| ==> entered[i] > k
    ensures (forall i :: 0 <= i < |entered| ==> entered[i] <= k) ==> Arrived(entered, k) == 0
  {
    if entered != [] {
      ArrivedBound(entered[..|entered| - 1], k);
    }
  }

  lemma {:induction false} OneMoreArrives(entered: seq<nat>, i: nat, k: nat)
    requires i < |entered| && entered[i] == k
    ensures Arrived(entered[i := k + 1], k) == Arrived(entered, k) + 1
  {
    var n := |entered| - 1;
    if i < n {
      OneMoreArrives(entered[..n], i, k);
      assert entered[i := k + 1][..n] == entered[..n][i := k + 1];
    } else {
      assert entered[i := k + 1][..n] == entered[..n];
    }
  }
}
