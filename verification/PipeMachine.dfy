/** PipeLock as a machine of atomic, sequentially consistent steps: the code of `lock`, `lock_contended`,
    `unlock` and `unlock_contended` over `holder_tid`, `waiters` and a pipe of any capacity, run by any
    number of threads that signals may interrupt anywhere, also while blocked in `read`. */
module PipeMachine {
  import opened Wrappers
  import opened Stacks
  import opened AbstractLock

  /** The value of `holder_tid`: 0, or the tid of a thread. */
  datatype Tid = Zero | Of(thread: nat)

  const U32_MAX: nat := 0xffff_ffff

  datatype Frame =
    | Start                                     // lock: CAS 0 -> tid
    | Pre(seen: Tid)                            // lock_contended: compare the holder seen with tid
    | Add                                       // waiters.fetch_add(1)
    | Cas                                       // head of the loop: CAS 0 -> tid
    | Eval(seen: Tid)                           // branching on the holder that made the CAS fail
    | Read                                      // in, or about to enter, read(2)
    | Sub                                       // the CAS succeeded; waiters.fetch_sub(1)
    | SubRecursive                              // in-loop Err(Recursive); waiters.fetch_sub(1)
    | Begin(contended: bool)                    // the lock is held; about to read the counter
    | Update(contended: bool, value: nat)       // the lock is held; about to write the counter
    | End(contended: bool)                      // the lock is held; about to swap holder_tid with 0
    | Load                                      // unlocked; about to load waiters
    | Write                                     // unlocked; about to write one byte

  datatype Shared = Shared(holder: Tid, waiters: nat, bytes: nat, counter: nat)

  datatype State = State(
    shared: Shared,
    capacity: nat,            // of the pipe, in bytes
    stacks: seq<seq<Frame>>,
    calls: nat,               // how many more calls of `lock` will be made
    spurious: nat)            // how many more spurious CAS failures and EINTRs will happen

  datatype Step =
    | Call(t: nat)            // a thread outside every call starts one
    | Signal(t: nat)          // a handler interrupts thread t and starts a call
    | Run(t: nat)             // thread t's running call does its next action
    | Misfire(t: nat)         // a weak CAS fails although the values match, or read or write returns EINTR

  function Init(threads: nat, capacity: nat, calls: nat, spurious: nat): State {
    State(Shared(Zero, 0, 0, 0), capacity, Idle(threads), calls, spurious)
  }

  function Each(): Frame -> nat {
    f => 1
  }

  /** Calls running or suspended. Memory is finite: `waiters` is 32 bits wide, and fewer calls than that
      are ever alive together. */
  function Live(s: State): nat {
    Sum(s.stacks, Each())
  }

  predicate Busy(s: State, t: nat) {
    t < |s.stacks| && s.stacks[t] != []
  }

  /** The thread waits for a byte that is not there. */
  predicate Blocked(s: State, t: nat) {
    Busy(s, t) && Top(s.stacks, t).Read? && s.shared.bytes == 0
  }

  predicate MayMisfire(holder: Tid, f: Frame) {
    match f
    case Start | Cas => holder == Zero
    case Read | Write => true
    case _ => false
  }

  predicate Enabled(s: State, a: Step) {
    match a
    case Call(t) => t < |s.stacks| && s.stacks[t] == [] && s.calls > 0 && Live(s) < U32_MAX
    case Signal(t) => Busy(s, t) && s.calls > 0 && Live(s) < U32_MAX
    case Run(t) => Busy(s, t) && !Blocked(s, t)
    case Misfire(t) => Busy(s, t) && s.spurious > 0 && MayMisfire(s.shared.holder, Top(s.stacks, t))
  }

  /** Wrapping 32-bit arithmetic. */
  function Increment(x: nat): nat {
    (x + 1) % (U32_MAX + 1)
  }

  function Decrement(x: nat): nat {
    (x + U32_MAX) % (U32_MAX + 1)
  }

  datatype Next = Goto(frame: Frame) | Return

  function Act(m: Shared, capacity: nat, t: nat, f: Frame): (Shared, Next) {
    match f
    case Start =>
      if m.holder == Zero then (m.(holder := Of(t)), Goto(Begin(false))) else (m, Goto(Pre(m.holder)))
    case Pre(seen) =>
      if seen == Of(t) then (m, Return) else (m, Goto(Add))             // Err(Recursive)
    case Add => (m.(waiters := Increment(m.waiters)), Goto(Cas))
    case Cas =>
      if m.holder == Zero then (m.(holder := Of(t)), Goto(Sub)) else (m, Goto(Eval(m.holder)))
    case Eval(seen) =>
      if seen == Of(t) then (m, Goto(SubRecursive)) else if seen == Zero then (m, Goto(Cas)) else (m, Goto(Read))
    case Read => (m.(bytes := if m.bytes > 0 then m.bytes - 1 else 0), Goto(Cas))
    case Sub => (m.(waiters := Decrement(m.waiters)), Goto(Begin(true)))
    case SubRecursive => (m.(waiters := Decrement(m.waiters)), Return)  // Err(Recursive)
    case Begin(contended) => (m, Goto(Update(contended, m.counter)))
    case Update(contended, value) => (m.(counter := value + 1), Goto(End(contended)))
    case End(contended) => (m.(holder := Zero), Goto(if contended then Write else Load))
    case Load => (m, if m.waiters > 0 then Goto(Write) else Return)
    case Write => (m.(bytes := if m.bytes < capacity then m.bytes + 1 else m.bytes), Return)
  }

  function Misfired(holder: Tid, f: Frame): Frame {
    match f
    case Start => Pre(holder)
    case Cas => Eval(holder)
    case Read => Cas
    case _ => f
  }

  function Finish(stacks: seq<seq<Frame>>, t: nat, next: Next): seq<seq<Frame>>
    requires t < |stacks| && stacks[t] != []
  {
    if next.Goto? then SetTop(stacks, t, next.frame) else Pop(stacks, t)
  }

  function Apply(s: State, a: Step): State
    requires Enabled(s, a)
  {
    match a
    case Call(t) => s.(stacks := Push(s.stacks, t, Start), calls := s.calls - 1)
    case Signal(t) => s.(stacks := Push(s.stacks, t, Start), calls := s.calls - 1)
    case Run(t) =>
      var (m, next) := Act(s.shared, s.capacity, t, Top(s.stacks, t));
      s.(shared := m, stacks := Finish(s.stacks, t, next))
    case Misfire(t) =>
      s.(stacks := SetTop(s.stacks, t, Misfired(s.shared.holder, Top(s.stacks, t))), spurious := s.spurious - 1)
  }

  /** What users of the lock see of a step. */
  function EventOf(s: State, a: Step): Event
    requires Enabled(s, a)
  {
    if a.Run? then
      var d := |s.stacks[a.t]| - 1;
      var f := Top(s.stacks, a.t);
      match f
      case Start | Cas => if s.shared.holder == Zero then Acquired(a.t, d) else Silent
      case Pre(seen) => if seen == Of(a.t) then Refused(a.t, d) else Silent
      case SubRecursive => Refused(a.t, d)
      case End(_) => Released(a.t, d)
      case _ => Silent
    else Silent
  }

  // ---------- runs ----------

  /** The state after a run, or None if some step of it was not enabled. */
  function Exec(s: State, run: seq<Step>): Option<State> {
    if run == [] then Some(s)
    else
      var before := Exec(s, run[..|run| - 1]);
      if before.Some? && Enabled(before.value, run[|run| - 1])
      then Some(Apply(before.value, run[|run| - 1])) else None
  }

  function Trace(s: State, run: seq<Step>): seq<Event>
    requires Exec(s, run).Some?
  {
    if run == [] then []
    else Trace(s, run[..|run| - 1]) + [EventOf(Exec(s, run[..|run| - 1]).value, run[|run| - 1])]
  }

  lemma OneMoreStep(init: State, run: seq<Step>, a: Step)
    requires Exec(init, run).Some? && Enabled(Exec(init, run).value, a)
    ensures Exec(init, run + [a]) == Some(Apply(Exec(init, run).value, a))
    ensures Trace(init, run + [a]) == Trace(init, run) + [EventOf(Exec(init, run).value, a)]
  {
    assert (run + [a])[..|run + [a]| - 1] == run;
  }
}
