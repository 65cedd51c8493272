/** The futex that FutexLock is written for: a word, and a queue of threads, with wait comparing and
    enqueueing in one atomic action. */
module FutexObject {
  import opened Stacks
  import opened Wrappers
  import M = FutexMachine
  import S = FutexSafety

  datatype Futex<W> = Futex(word: W, sleepers: set<nat>)

  datatype Event<W> =
    | Nothing
    | SetWord(word: W)                // any atomic operation on the word, by anyone
    | Sleep(t: nat, val: W)           // wait(val): the word is val, and t is enqueued
    | Decline(t: nat, val: W)         // wait(val): the word is not val
    | Wake(t: nat)                    // wake_one removes t from the queue
    | WakeNobody                      // wake_one finds the queue empty
    | WakeUnasked(t: nat)             // a spurious wakeup, or a signal

  predicate Permits<W(==)>(x: Futex<W>, e: Event<W>) {
    match e
    case Sleep(t, val) => x.word == val && t !in x.sleepers
    case Decline(_, val) => x.word != val
    case Wake(t) => t in x.sleepers
    case WakeUnasked(t) => t in x.sleepers
    case WakeNobody => x.sleepers == {}
    case _ => true
  }

  function After<W>(x: Futex<W>, e: Event<W>): Futex<W> {
    match e
    case SetWord(word) => x.(word := word)
    case Sleep(t, _) => x.(sleepers := x.sleepers + {t})
    case Wake(t) => x.(sleepers := x.sleepers - {t})
    case WakeUnasked(t) => x.(sleepers := x.sleepers - {t})
    case _ => x
  }

  /** The futex after a history, or None if it does not permit it. */
  function Replay<W(==)>(x: Futex<W>, es: seq<Event<W>>): Option<Futex<W>> {
    if es == [] then Some(x)
    else
      var before := Replay(x, es[..|es| - 1]);
      if before.Some? && Permits(before.value, es[|es| - 1]) then Some(After(before.value, es[|es| - 1])) else None
  }

  lemma ReplayOneMore<W>(x: Futex<W>, es: seq<Event<W>>, e: Event<W>)
    requires Replay(x, es).Some? && Permits(Replay(x, es).value, e)
    ensures Replay(x, es + [e]) == Some(After(Replay(x, es).value, e))
  {
    assert (es + [e])[..|es + [e]| - 1] == es;
  }

  // ---------- FutexLock uses it ----------

  function View(s: M.State): Futex<M.Word> {
    Futex(s.word, set t | 0 <= t < |s.stacks| && M.Sleeping(s, t))
  }

  function FutexEvent(s: M.State, a: M.Step): Event<M.Word>
    requires M.Enabled(s, a)
  {
    match a
    case Call(_) => Nothing
    case Signal(t, _) => if M.Sleeping(s, t) then WakeUnasked(t) else Nothing
    case Misfire(t) => if M.Sleeping(s, t) then WakeUnasked(t) else Nothing
    case WakeOne(_, p) => Wake(p)
    case Run(t) =>
      match Top(s.stacks, t)
      case Wait(seen) => if s.word == seen then Sleep(t, seen) else Decline(t, seen)
      case Wake => WakeNobody
      case _ => SetWord(M.Apply(s, a).word)
  }

  lemma SleepersAfter(s: M.State, s': M.State, t: nat)
    requires |s.stacks| == |s'.stacks| && t < |s.stacks|
    requires forall u :: 0 <= u < |s.stacks| && u != t ==> s'.stacks[u] == s.stacks[u]
    ensures View(s').sleepers == if M.Sleeping(s', t) then View(s).sleepers + {t} else View(s).sleepers - {t}
  {
    forall u | 0 <= u < |s.stacks| && u != t ensures M.Sleeping(s', u) == M.Sleeping(s, u) {}
  }

  /** All that FutexLock does to its futex is what the object permits. */
  lemma LockUsesFutex(s: M.State, lock: S.AbstractLock.Lock, a: M.Step)
    requires S.CallsOk(s, lock) && M.Enabled(s, a)
    ensures Permits(View(s), FutexEvent(s, a))
    ensures View(M.Apply(s, a)) == After(View(s), FutexEvent(s, a))
  {
    var s' := M.Apply(s, a);
    if a.WakeOne? {
      var middle := s.(stacks := SetTop(s.stacks, a.sleeper, M.Reload));
      SleepersAfter(s, middle, a.sleeper);
      SleepersAfter(middle, s', a.t);
      assert !M.Sleeping(s', a.t) && a.t !in View(s).sleepers;
    } else {
      SleepersAfter(s, s', a.t);
    }
  }

  /** An answer of the futex to the call that thread t is making. A wait may end for no reason only as
      often as the supply of spurious events allows. */
  predicate Answers(s: M.State, t: nat, e: Event<M.Word>)
    requires M.Busy(s, t)
  {
    match Top(s.stacks, t)
    case Wait(seen) => e == Sleep(t, seen) || e == Decline(t, seen)
    case Asleep(_) => e == WakeUnasked(t) && s.spurious > 0
    case Wake => e.Wake? || e.WakeNobody?
    case _ => false
  }

  lemma SleepersShow(s: M.State)
    ensures M.AnySleeper(s) ==> View(s).sleepers != {}
  {
    if M.AnySleeper(s) {
      var p :| 0 <= p < |s.stacks| && M.Sleeping(s, p);
      assert p in View(s).sleepers;
    }
  }

  /** Conversely, whatever the object permits as an answer, the lock's machine has as a step. */
  lemma LockTakesEveryAnswer(s: M.State, lock: S.AbstractLock.Lock, t: nat, e: Event<M.Word>) returns (a: M.Step)
    requires S.CallsOk(s, lock) && M.Busy(s, t) && Answers(s, t, e) && Permits(View(s), e)
    ensures M.Enabled(s, a) && a.Misfire? == e.WakeUnasked? && a.t == t && FutexEvent(s, a) == e
  {
    if e.Wake? {
      a := M.WakeOne(t, e.t);
    } else if e.WakeUnasked? {
      a := M.Misfire(t);
    } else {
      a := M.Run(t);
      SleepersShow(s);
    }
  }
}
