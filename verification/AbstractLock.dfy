/** What both signal-safe locks promise: one lock, taken by at most one call at a time, that refuses a
    call exactly when a call beneath it on the same thread already holds the lock. */
module AbstractLock {

  /** `Held(t, d)`: the call at depth `d` of thread `t` is inside its critical section. */
  datatype Owner = Nobody | Held(thread: nat, depth: nat)

  /** The lock and the counter it protects, as every user of the lock is meant to see them. */
  datatype Lock = Lock(owner: Owner, value: nat)

  datatype Event =
    | Silent
    | Acquired(thread: nat, depth: nat)
    | Released(thread: nat, depth: nat)
    | Refused(thread: nat, depth: nat)

  const UNLOCKED := Lock(Nobody, 0)

  /** The caller at depth `d` of thread `t` interrupted the holder. */
  predicate Beneath(owner: Owner, t: nat, d: nat) {
    owner.Held? && owner.thread == t && owner.depth < d
  }

  predicate Permits(lock: Lock, e: Event) {
    match e
    case Silent => true
    case Acquired(_, _) => lock.owner == Nobody
    case Released(t, d) => lock.owner == Held(t, d)
    case Refused(t, d) => Beneath(lock.owner, t, d)
  }

  /** A completed critical section adds one to the protected counter. */
  function After(lock: Lock, e: Event): Lock {
    match e
    case Silent => lock
    case Acquired(t, d) => lock.(owner := Held(t, d))
    case Released(_, _) => Lock(Nobody, lock.value + 1)
    case Refused(_, _) => lock
  }

  /** The lock after a history of events, the last event being the most recent. */
  function AfterAll(lock: Lock, es: seq<Event>): Lock {
    if es == [] then lock else After(AfterAll(lock, es[..|es| - 1]), es[|es| - 1])
  }

  lemma AfterOneMore(lock: Lock, es: seq<Event>, e: Event)
    ensures AfterAll(lock, es + [e]) == After(AfterAll(lock, es), e)
  {
    assert (es + [e])[..|es + [e]| - 1] == es;
  }

  predicate PermitsAll(lock: Lock, es: seq<Event>) {
    es == [] ||
    (PermitsAll(lock, es[..|es| - 1]) && Permits(AfterAll(lock, es[..|es| - 1]), es[|es| - 1]))
  }

  function Releases(es: seq<Event>): nat {
    if es == [] then 0 else Releases(es[..|es| - 1]) + if es[|es| - 1].Released? then 1 else 0
  }

  function Acquisitions(es: seq<Event>): nat {
    if es == [] then 0 else Acquisitions(es[..|es| - 1]) + if es[|es| - 1].Acquired? then 1 else 0
  }

  function InUse(lock: Lock): nat {
    if lock.owner == Nobody then 0 else 1
  }

  /** Acquisitions and releases alternate, whoever performs them, and the counter counts releases. */
  lemma {:induction false} OneHolderAtATime(lock: Lock, es: seq<Event>)
    requires PermitsAll(lock, es)
    ensures InUse(lock) + Acquisitions(es) == InUse(AfterAll(lock, es)) + Releases(es)
    ensures AfterAll(lock, es).value == lock.value + Releases(es)
  {
    if es != [] {
      OneHolderAtATime(lock, es[..|es| - 1]);
    }
  }

  /** A call with nothing beneath it is never refused, so `lock().unwrap()` outside a handler is safe. */
  lemma {:induction false} OutermostCallNeverRefused(lock: Lock, es: seq<Event>, i: nat)
    requires PermitsAll(lock, es) && i < |es| && es[i].Refused?
    ensures es[i].depth > 0
  {
    if i < |es| - 1 {
      OutermostCallNeverRefused(lock, es[..|es| - 1], i);
    }
  }

  /** How the running call `(t, d)` may change the lock and the counter. */
  predicate Moves(lock: Lock, counter: nat, lock': Lock, counter': nat, t: nat, d: nat) {
    || (lock' == lock && counter' == counter)
    || (lock.owner == Nobody && lock' == lock.(owner := Held(t, d)) && counter' == counter)
    || (lock.owner == Held(t, d) && lock' == lock && counter' == lock.value + 1)
    || (lock.owner == Held(t, d) && lock' == Lock(Nobody, lock.value + 1) && counter' == counter)
  }
}
