/** FutexLock as a machine of atomic steps. Any number of threads, each a stack of calls, run the code
    of `raw_lock`, `raw_lock_contended`, `raw_unlock` and `raw_unlock_wake`; a signal may start another
    call on top of any running call, whatever that call was about to do.

    The futex word is read here as the pair it encodes; module FutexWord relates it to the packed bits. */
module FutexMachine {
  import opened Wrappers
  import opened Stacks
  import opened AbstractLock

  /** `Taken(holder, waiters)`: the holder's thread and the FUTEX_WAITERS bit. */
  datatype Word = Free | Taken(holder: nat, waiters: bool)

  /** What a call is about to do. Calls carry their local copy of the word. */
  datatype Frame =
    | Start                   // raw_lock: CAS 0 -> tid
    | Check(word: Word)       // head of the contended loop, branching on the local word
    | TakeFree                // CAS 0 -> tid | WAITERS
    | SetFlag(word: Word)     // CAS word -> word | WAITERS
    | Wait(word: Word)        // futex wait: compare the word and enqueue
    | Asleep(word: Word)      // enqueued in the kernel
    | Reload                  // returned from futex wait, about to load the word
    | Begin                   // the lock is held; about to read the protected counter
    | Update(seen: nat)       // the lock is held; about to write the counter
    | End                     // the lock is held; about to swap the word with 0
    | Wake                    // the swapped word had WAITERS set; about to wake one sleeper

  datatype State = State(
    word: Word,
    stacks: seq<seq<Frame>>,
    counter: nat,             // the protected item, updated by a plain read and a plain write
    calls: nat,               // how many more calls of `lock` will be made, by code or by handlers
    spurious: nat)            // how many more spurious CAS failures and spurious wakeups will happen

  datatype Step =
    | Call(t: nat)                     // a thread outside every call starts one
    | Signal(t: nat, restart: bool)    // a handler interrupts thread t and starts a call
    | Run(t: nat)                      // thread t's running call does its next action
    | Misfire(t: nat)                  // a weak CAS fails although the values match, or a wait returns early
    | WakeOne(t: nat, sleeper: nat)    // thread t's futex wake removes a sleeper from the queue

  function Init(threads: nat, calls: nat, spurious: nat): State {
    State(Free, Idle(threads), 0, calls, spurious)
  }

  predicate Busy(s: State, t: nat) {
    t < |s.stacks| && s.stacks[t] != []
  }

  predicate Sleeping(s: State, t: nat) {
    Busy(s, t) && Top(s.stacks, t).Asleep?
  }

  predicate AnySleeper(s: State) {
    exists t :: 0 <= t < |s.stacks| && Sleeping(s, t)
  }

  /** Where weak CAS and futex wait may fail for no visible reason. */
  predicate MayMisfire(word: Word, f: Frame) {
    match f
    case Start | TakeFree => word == Free
    case SetFlag(seen) => word == seen
    case Wait(_) | Asleep(_) => true
    case _ => false
  }

  predicate Enabled(s: State, a: Step) {
    match a
    case Call(t) => t < |s.stacks| && s.stacks[t] == [] && s.calls > 0
    case Signal(t, _) => Busy(s, t) && s.calls > 0
    case Run(t) => Busy(s, t) && !Top(s.stacks, t).Asleep? && !(Top(s.stacks, t).Wake? && AnySleeper(s))
    case Misfire(t) => Busy(s, t) && s.spurious > 0 && MayMisfire(s.word, Top(s.stacks, t))
    case WakeOne(t, p) => Busy(s, t) && Top(s.stacks, t).Wake? && Sleeping(s, p)
  }

  datatype Next = Goto(frame: Frame) | Return

  /** The running call of thread `t` acts on the word and the counter. */
  function Act(word: Word, counter: nat, t: nat, f: Frame): (Word, nat, Next) {
    match f
    case Start =>
      if word == Free then (Taken(t, false), counter, Goto(Begin)) else (word, counter, Goto(Check(word)))
    case Check(seen) =>
      if seen.Taken? && seen.holder == t then (word, counter, Return)    // Err(Recursive)
      else if seen == Free then (word, counter, Goto(TakeFree))
      else if !seen.waiters then (word, counter, Goto(SetFlag(seen)))
      else (word, counter, Goto(Wait(seen)))
    case TakeFree =>
      if word == Free then (Taken(t, true), counter, Goto(Begin)) else (word, counter, Goto(Check(word)))
    case SetFlag(seen) =>
      if word == seen && seen.Taken? then
        (Taken(seen.holder, true), counter, Goto(Wait(Taken(seen.holder, true))))
      else (word, counter, Goto(Check(word)))
    case Wait(seen) =>
      (word, counter, Goto(if word == seen then Asleep(seen) else Reload))
    case Asleep(seen) => (word, counter, Goto(f))
    case Reload => (word, counter, Goto(Check(word)))
    case Begin => (word, counter, Goto(Update(counter)))
    case Update(seen) => (word, seen + 1, Goto(End))
    case End =>
      (Free, counter, if word == Taken(t, false) then Return else Goto(Wake))
    case Wake => (word, counter, Return)
  }

  /** The kernel takes an interrupted sleeper off the queue before its handler runs; afterwards the wait
      is restarted or returns EINTR. */
  function Interrupted(f: Frame, restart: bool): Frame {
    if f.Asleep? then (if restart then Wait(f.word) else Reload) else f
  }

  function Misfired(word: Word, f: Frame): Frame {
    if f.Wait? || f.Asleep? then Reload else Check(word)
  }

  function Finish(stacks: seq<seq<Frame>>, t: nat, next: Next): seq<seq<Frame>>
    requires t < |stacks| && stacks[t] != []
  {
    if next.Goto? then SetTop(stacks, t, next.frame) else Pop(stacks, t)
  }

  function Apply(s: State, a: Step): State
    requires Enabled(s, a)
  {
    match a
    case Call(t) =>
      s.(stacks := Push(s.stacks, t, Start), calls := s.calls - 1)
    case Signal(t, restart) =>
      var handled := SetTop(s.stacks, t, Interrupted(Top(s.stacks, t), restart));
      s.(stacks := Push(handled, t, Start), calls := s.calls - 1)
    case Run(t) =>
      var (word, counter, next) := Act(s.word, s.counter, t, Top(s.stacks, t));
      s.(word := word, counter := counter, stacks := Finish(s.stacks, t, next))
    case Misfire(t) =>
      s.(stacks := SetTop(s.stacks, t, Misfired(s.word, Top(s.stacks, t))), spurious := s.spurious - 1)
    case WakeOne(t, p) =>
      s.(stacks := Pop(SetTop(s.stacks, p, Reload), t))
  }

  /** What users of the lock see of a step. */
  function EventOf(s: State, a: Step): Event
    requires Enabled(s, a)
  {
    if a.Run? then
      var d := |s.stacks[a.t]| - 1;
      var f := Top(s.stacks, a.t);
      match f
      case Start | TakeFree => if s.word == Free then Acquired(a.t, d) else Silent
      case Check(seen) => if seen.Taken? && seen.holder == a.t then Refused(a.t, d) else Silent
      case End => Released(a.t, d)
      case _ => Silent
    else Silent
  }

  // ---------- runs ----------

  /** The state after a run, or None if some step of it was not enabled. */
  function Exec(s: State, run: seq<Step>): Option<State> {
    if run == [] then Some(s)
    else
      var before := Exec(s, run[..|run| - 1]);
      if before.Some? && Enabled(before.value, run[|run| - 1])
      then Some(Apply(before.value, run[|run| - 1])) else None
  }

  function Trace(s: State, run: seq<Step>): seq<Event>
    requires Exec(s, run).Some?
  {
    if run == [] then []
    else Trace(s, run[..|run| - 1]) + [EventOf(Exec(s, run[..|run| - 1]).value, run[|run| - 1])]
  }

  lemma OneMoreStep(init: State, run: seq<Step>, a: Step)
    requires Exec(init, run).Some? && Enabled(Exec(init, run).value, a)
    ensures Exec(init, run + [a]) == Some(Apply(Exec(init, run).value, a))
    ensures Trace(init, run + [a]) == Trace(init, run) + [EventOf(Exec(init, run).value, a)]
  {
    assert (run + [a])[..|run + [a]| - 1] == run;
  }
}
