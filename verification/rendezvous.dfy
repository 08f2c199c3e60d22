/** The delivery rendezvous as a protocol over atomic steps (internal/transport/loopback.go, internal/engine/engine.go):
    one driver, one worker per transport end, the cancellation watcher and the context's callbacks, in any
    interleaving. */
module Rendezvous {
  import opened Basics

  // ---- the work being coordinated ----

  /** What popping the scheduler yields: nothing, a callback for the driver, or a frame for a worker. */
  datatype Fired<S, F, Op> = Quiet | Inline(s: S, op: Op) | Deliver(s: S, end: nat, f: F)

  /** Shared state S, frames F and critical sections Op: what they do is left open. */
  datatype Machine<!S(!new), !F(!new), !Op(!new)> = Machine(
    ends: nat,
    fire: S -> Fired<S, F, Op>,
    react: (nat, F) -> Op,
    exec: (S, Op) -> (S, seq<Op>),
    rank: Op -> nat)
  {
    function Rank(ops: seq<Op>): nat {
      if ops == [] then 0 else rank(ops[0]) + Rank(ops[1..])
    }

    /** Sections end, and frames go to ends that exist. */
    ghost predicate Valid() {
      && (forall s, op :: Rank(exec(s, op).1) < rank(op))
      && (forall s :: fire(s).Deliver? ==> fire(s).end < ends)
    }
  }

  // ---- the sequential loop ----

  /** The state of a single-threaded loop: shared state and the sections still to run. */
  datatype Seq<S, Op> = Seq(s: S, ops: seq<Op>)

  predicate Halted<S(!new), F(!new), Op(!new)>(m: Machine<S, F, Op>, q: Seq<S, Op>) {
    q.ops == [] && m.fire(q.s).Quiet?
  }

  /** Run the next section, or fire the next event, running the consumer's reaction inline. */
  function SeqStep<S(!new), F(!new), Op(!new)>(m: Machine<S, F, Op>, q: Seq<S, Op>): Seq<S, Op> {
    if q.ops == [] then
      match m.fire(q.s)
      case Quiet => q
      case Inline(s, op) => Seq(s, [op])
      case Deliver(s, j, f) => Seq(s, [m.react(j, f)])
    else
      var (s, more) := m.exec(q.s, q.ops[0]);
      Seq(s, more + q.ops[1..])
  }

  function SeqRun<S(!new), F(!new), Op(!new)>(m: Machine<S, F, Op>, q: Seq<S, Op>, k: nat): Seq<S, Op> {
    if k == 0 then q else SeqStep(m, SeqRun(m, q, k - 1))
  }

  // ---- the threads ----

  datatype Worker<Op> =
    | Entering(woken: bool)     // in Recv, about to look at its end
    | Sleeping                  // in Recv, parked on the condition variable
    | Reacting(ops: seq<Op>)    // Recv returned a frame; its handler runs
    | Returning                 // Recv returned an error; the goroutine returns
    | Uncounted                 // live counter decremented
    | Gone                      // wait group signalled
  {
    predicate Alive() { Entering? || Sleeping? || Reacting? }
  }

  datatype Driver<F, Op> =
    | Checking                                    // top of the drive loop
    | Advancing                                   // context was fine; about to pop the scheduler
    | Running(ops: seq<Op>)                       // a callback runs on the driver
    | Offering(end: nat, f: F, asleep: bool)      // in deliver, waiting for the worker to park
    | Awaiting(end: nat, before: nat, asleep: bool) // in deliver, waiting for it to park again
    | Closing(next: nat)                          // the loop is over; closing the ends
    | Signalling
    | JoiningWatcher
    | JoiningWorkers
    | Finished
  {
    predicate InDeliver() { Offering? || Awaiting? }
    predicate TearingDown() { Closing? || Signalling? || JoiningWatcher? || JoiningWorkers? || Finished? }
    predicate Closed() { Signalling? || JoiningWatcher? || JoiningWorkers? || Finished? }
  }

  datatype Watcher = Watching | WatcherClosing(next: nat) | WatcherDone

  /** One transport end, with its worker and the callbacks its Recv calls registered on the context. */
  datatype End<F, Op> = End(
    pending: Option<F>,
    parked: bool,
    parkSeq: nat,
    closed: bool,
    cancelled: bool,
    worker: Worker<Op>,
    armed: bool,         // a context callback is registered
    stray: nat,          // context callbacks started but not yet run
    handed: seq<F>,      // frames deliver has put in pending
    got: seq<F>)         // frames Recv has returned

  datatype Conf<S, F, Op> = Conf(
    s: S,
    driver: Driver<F, Op>,
    watcher: Watcher,
    ends: seq<End<F, Op>>,
    ctxDone: bool,
    signalled: bool,
    live: int,
    wg: int)

  function NewEnd<F, Op>(): End<F, Op> {
    End(None, false, 0, false, false, Entering(false), true, 0, [], [])
  }

  /** All workers launched, nothing has run yet. */
  function Init<S(!new), F(!new), Op(!new)>(m: Machine<S, F, Op>, s: S): Conf<S, F, Op> {
    Conf(s, Checking, Watching, seq(m.ends, k => NewEnd()), false, false, m.ends, m.ends)
  }

  // ---- the critical sections of one end ----

  /** cond.Broadcast, as the worker feels it. */
  function Wake<F, Op>(e: End<F, Op>): End<F, Op> {
    if e.worker.Sleeping? then e.(worker := Entering(true)) else e
  }

  /** deliver's hand-off (loopback.go:130-134). */
  function HandOver<F, Op>(e: End<F, Op>, f: F): End<F, Op> {
    Wake(e.(pending := Some(f), parked := false, handed := e.handed + [f]))
  }

  /** Close (loopback.go:183-190). */
  function CloseEnd<F, Op>(e: End<F, Op>): End<F, Op> {
    Wake(e.(closed := true, parkSeq := e.parkSeq + 1))
  }

  datatype RecvOutcome = Takes | FindsClosed | FindsCancelled | Parks

  function RecvLooks<F, Op>(e: End<F, Op>, ctxDone: bool): RecvOutcome {
    if e.pending.Some? then Takes
    else if e.closed then FindsClosed
    else if ctxDone then FindsCancelled
    else Parks
  }

  /** One turn of Recv's loop (loopback.go:156-178), from taking the lock to releasing it. */
  function RecvSection<S(!new), F(!new), Op(!new)>(
      m: Machine<S, F, Op>, j: nat, e: End<F, Op>, ctxDone: bool): End<F, Op>
    requires e.worker.Entering?
  {
    var e1 := if e.worker.woken then e.(parked := false) else e;
    match RecvLooks(e1, ctxDone)
    case Takes =>
      var f := e1.pending.value;
      e1.(pending := None, worker := Reacting([m.react(j, f)]), armed := false, got := e1.got + [f])
    case FindsClosed => e1.(worker := Returning, armed := false)
    case FindsCancelled => e1.(worker := Returning, armed := false, cancelled := true)
    case Parks => e1.(parked := true, parkSeq := e1.parkSeq + 1, worker := Sleeping)
  }

  /** cond.Broadcast on end j, as the driver feels it. */
  function WakeDriver<F, Op>(d: Driver<F, Op>, j: nat): Driver<F, Op> {
    match d
    case Offering(k, f, true) => if k == j then Offering(k, f, false) else d
    case Awaiting(k, b, true) => if k == j then Awaiting(k, b, false) else d
    case _ => d
  }

  // ---- steps ----

  /** A section runs; once the context is done Send may refuse, so anything that makes progress may come of it. */
  ghost predicate Executes<S(!new), F(!new), Op(!new)>(
      m: Machine<S, F, Op>, ctxDone: bool, s: S, op: Op, s': S, more: seq<Op>)
  {
    if ctxDone then m.Rank(more) < m.rank(op) else (s', more) == m.exec(s, op)
  }

  ghost predicate DriverStep<S(!new), F(!new), Op(!new)>(m: Machine<S, F, Op>, c: Conf<S, F, Op>, c': Conf<S, F, Op>) {
    match c.driver
    case Checking => c' == c.(driver := if c.ctxDone then Closing(0) else Advancing)
    case Advancing =>
      (match m.fire(c.s)
       case Quiet => c' == c.(driver := Closing(0))
       case Inline(s, op) => c' == c.(s := s, driver := Running([op]))
       case Deliver(s, j, f) => c' == c.(s := s, driver := Offering(j, f, false)))
    case Running(ops) =>
      if ops == [] then c' == c.(driver := Checking)
      else exists more ::
             && Executes(m, c.ctxDone, c.s, ops[0], c'.s, more)
             && c' == c.(s := c'.s, driver := Running(more + ops[1..]))
    case Offering(j, f, asleep) =>
      && !asleep && j < |c.ends|
      && var e := c.ends[j];
         c' == (if e.closed || e.cancelled then c.(driver := Checking)
                else if !e.parked then c.(driver := Offering(j, f, true))
                else c.(driver := Awaiting(j, e.parkSeq, true), ends := c.ends[j := HandOver(e, f)]))
    case Awaiting(j, before, asleep) =>
      && !asleep && j < |c.ends|
      && var e := c.ends[j];
         c' == c.(driver := if e.parkSeq == before && !e.closed && !e.cancelled
                            then Awaiting(j, before, true) else Checking)
    case Closing(k) =>
      c' == (if k < |c.ends| then c.(driver := Closing(k + 1), ends := c.ends[k := CloseEnd(c.ends[k])])
             else c.(driver := Signalling))
    case Signalling => c' == c.(signalled := true, driver := JoiningWatcher)
    case JoiningWatcher => c.watcher.WatcherDone? && c' == c.(driver := JoiningWorkers)
    case JoiningWorkers => c.wg == 0 && c' == c.(driver := Finished)
    case Finished => false
  }

  ghost predicate WorkerStep<S(!new), F(!new), Op(!new)>(
      m: Machine<S, F, Op>, c: Conf<S, F, Op>, j: nat, c': Conf<S, F, Op>)
    requires j < |c.ends|
  {
    var e := c.ends[j];
    match e.worker
    case Entering(_) =>
      var e' := RecvSection(m, j, e, c.ctxDone);
      c' == c.(ends := c.ends[j := e'],
               driver := if e'.worker.Sleeping? || (e'.cancelled && !e.cancelled)
                         then WakeDriver(c.driver, j) else c.driver)
    case Sleeping => false
    case Reacting(ops) =>
      if ops == [] then c' == c.(ends := c.ends[j := e.(worker := Entering(false), armed := true)])
      else exists more :: Executes(m, c.ctxDone, c.s, ops[0], c'.s, more)
                          && c' == c.(s := c'.s, ends := c.ends[j := e.(worker := Reacting(more + ops[1..]))])
    case Returning => c' == c.(ends := c.ends[j := e.(worker := Uncounted)], live := c.live - 1)
    case Uncounted => c' == c.(ends := c.ends[j := e.(worker := Gone)], wg := c.wg - 1)
    case Gone => false
  }

  /** The context's callback for end j starts, or runs its broadcast (loopback.go:147-152). */
  ghost predicate CallbackStep<S, F, Op>(c: Conf<S, F, Op>, j: nat, c': Conf<S, F, Op>)
    requires j < |c.ends|
  {
    var e := c.ends[j];
    || (c.ctxDone && e.armed && c' == c.(ends := c.ends[j := e.(armed := false, stray := e.stray + 1)]))
    || (e.stray > 0 && c' == c.(ends := c.ends[j := Wake(e.(stray := e.stray - 1))], driver := WakeDriver(c.driver, j)))
  }

  ghost predicate WatcherStep<S, F, Op>(c: Conf<S, F, Op>, c': Conf<S, F, Op>) {
    match c.watcher
    case Watching =>
      || (c.ctxDone && c' == c.(watcher := WatcherClosing(0)))
      || (c.signalled && c' == c.(watcher := WatcherDone))
    case WatcherClosing(k) =>
      c' == (if k < |c.ends|
             then c.(watcher := WatcherClosing(k + 1), ends := c.ends[k := CloseEnd(c.ends[k])],
                     driver := WakeDriver(c.driver, k))
             else c.(watcher := WatcherDone))
    case WatcherDone => false
  }

  /** Some thread takes one step. */
  ghost predicate Next<S(!new), F(!new), Op(!new)>(m: Machine<S, F, Op>, c: Conf<S, F, Op>, c': Conf<S, F, Op>) {
    || DriverStep(m, c, c')
    || WatcherStep(c, c')
    || (exists j: nat :: j < |c.ends| && (WorkerStep(m, c, j, c') || CallbackStep(c, j, c')))
  }

  /** The context is cancelled. */
  ghost predicate Cancel<S, F, Op>(c: Conf<S, F, Op>, c': Conf<S, F, Op>) {
    !c.ctxDone && c' == c.(ctxDone := true)
  }
}
