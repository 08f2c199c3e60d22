/** Teardown: no state of the protocol is stuck, every run ends, and it ends with every worker gone. */
module RendezvousTeardown {
  import opened Basics
  import opened Sums
  import opened Rendezvous
  import opened RendezvousSafety
  import opened RendezvousRefines

  // ---- nobody is stuck ----

  lemma {:induction false} SomeoneNotGone<F, Op>(ends: seq<End<F, Op>>) returns (j: nat)
    requires SumOf(ends, WaitingOf()) != 0
    ensures j < |ends| && !ends[j].worker.Gone?
  {
    if !ends[0].worker.Gone? {
      j := 0;
    } else {
      var k := SomeoneNotGone(ends[1..]);
      j := k + 1;
    }
  }

  lemma {:induction false} NobodyWaits<F, Op>(ends: seq<End<F, Op>>)
    requires forall e | e in ends :: e.worker.Gone?
    ensures SumOf(ends, CountedOf()) == 0
  {
    if ends != [] {
      NobodyWaits(ends[1..]);
    }
  }

  lemma AllGone<F, Op>(ends: seq<End<F, Op>>)
    requires SumOf(ends, WaitingOf()) == 0
    ensures forall e | e in ends :: e.worker.Gone?
    ensures SumOf(ends, CountedOf()) == 0
  {
    SumBounds(ends, WaitingOf());
    forall e | e in ends ensures e.worker.Gone? {
      assert WaitingOf()(e) == Waiting(e);
    }
    NobodyWaits(ends);
  }

  /** What a section does when nothing refuses it. */
  function Executed<S(!new), F(!new), Op(!new)>(m: Machine<S, F, Op>, s: S, op: Op): (S, seq<Op>) { m.exec(s, op) }

  lemma WorkerCanMove<S(!new), F(!new), Op(!new)>(m: Machine<S, F, Op>, c: Conf<S, F, Op>, j: nat)
    returns (c': Conf<S, F, Op>)
    requires m.Valid() && j < |c.ends| && !c.ends[j].worker.Sleeping? && !c.ends[j].worker.Gone?
    ensures Next(m, c, c')
  {
    var e := c.ends[j];
    match e.worker {
    case Entering(_) =>
      var e' := RecvSection(m, j, e, c.ctxDone);
      c' := c.(ends := c.ends[j := e'],
               driver := if e'.worker.Sleeping? || (e'.cancelled && !e.cancelled)
                         then WakeDriver(c.driver, j) else c.driver);
    case Reacting(ops) =>
      if ops == [] {
        c' := c.(ends := c.ends[j := e.(worker := Entering(false), armed := true)]);
      } else {
        var (s, more) := Executed(m, c.s, ops[0]);
        c' := c.(s := s, ends := c.ends[j := e.(worker := Reacting(more + ops[1..]))]);
        assert Executes(m, c.ctxDone, c.s, ops[0], c'.s, more);
      }
    case Returning => c' := c.(ends := c.ends[j := e.(worker := Uncounted)], live := c.live - 1);
    case Uncounted => c' := c.(ends := c.ends[j := e.(worker := Gone)], wg := c.wg - 1);
    }
    assert WorkerStep(m, c, j, c');
  }

  /** The driver moves by itself, or is asleep in deliver, or waits for the watcher or the workers. */
  lemma DriverCanMove<S(!new), F(!new), Op(!new)>(m: Machine<S, F, Op>, c: Conf<S, F, Op>) returns (c': Conf<S, F, Op>)
    requires m.Valid() && Inv(m, c) && !c.driver.Finished?
    requires c.driver.InDeliver() ==> !c.driver.asleep
    requires !(c.driver.JoiningWatcher? && !c.watcher.WatcherDone?) && !(c.driver.JoiningWorkers? && c.wg != 0)
    ensures DriverStep(m, c, c')
  {
    match c.driver
    case Checking => c' := c.(driver := if c.ctxDone then Closing(0) else Advancing);
    case Advancing =>
      c' := match m.fire(c.s)
        case Quiet => c.(driver := Closing(0))
        case Inline(s, op) => c.(s := s, driver := Running([op]))
        case Deliver(s, j, f) => c.(s := s, driver := Offering(j, f, false));
    case Running(ops) =>
      if ops == [] { c' := c.(driver := Checking); } else {
        var (s, more) := Executed(m, c.s, ops[0]);
        c' := c.(s := s, driver := Running(more + ops[1..]));
        assert Executes(m, c.ctxDone, c.s, ops[0], c'.s, more);
      }
    case Offering(j, f, _) =>
      var e := c.ends[j];
      c' := if e.closed || e.cancelled then c.(driver := Checking)
            else if !e.parked then c.(driver := Offering(j, f, true))
            else c.(driver := Awaiting(j, e.parkSeq, true), ends := c.ends[j := HandOver(e, f)]);
    case Awaiting(j, before, _) =>
      var e := c.ends[j];
      c' := c.(driver := if e.parkSeq == before && !e.closed && !e.cancelled
                         then Awaiting(j, before, true) else Checking);
    case Closing(k) =>
      c' := if k < |c.ends| then c.(driver := Closing(k + 1), ends := c.ends[k := CloseEnd(c.ends[k])])
            else c.(driver := Signalling);
    case Signalling => c' := c.(signalled := true, driver := JoiningWatcher);
    case JoiningWatcher => c' := c.(driver := JoiningWorkers);
    case JoiningWorkers => c' := c.(driver := Finished);
  }

  /** While the driver sleeps in deliver, the worker it waits for is awake. */
  lemma AwaitedIsAwake<S(!new), F(!new), Op(!new)>(m: Machine<S, F, Op>, c: Conf<S, F, Op>)
    requires Inv(m, c) && c.driver.InDeliver() && c.driver.asleep
    ensures c.driver.end < |c.ends| && c.ends[c.driver.end].worker.Alive() && !c.ends[c.driver.end].worker.Sleeping?
  {
    assert EndOk(c.ends[c.driver.end], c.ctxDone);
  }

  /** No reachable state is stuck: until the driver has returned from Run, some thread can step. */
  lemma NeverStuck<S(!new), F(!new), Op(!new)>(m: Machine<S, F, Op>, c: Conf<S, F, Op>)
    requires m.Valid() && Inv(m, c) && !c.driver.Finished?
    ensures exists c' :: Next(m, c, c')
  {
    if c.driver.InDeliver() && c.driver.asleep {
      AwaitedIsAwake(m, c);
      var c' := WorkerCanMove(m, c, c.driver.end);
    } else if c.driver.JoiningWatcher? && !c.watcher.WatcherDone? {
      var c' := match c.watcher
        case Watching => c.(watcher := WatcherDone)
        case WatcherClosing(k) =>
          if k < |c.ends|
          then c.(watcher := WatcherClosing(k + 1), ends := c.ends[k := CloseEnd(c.ends[k])],
                  driver := WakeDriver(c.driver, k))
          else c.(watcher := WatcherDone);
      assert WatcherStep(c, c') && Next(m, c, c');
    } else if c.driver.JoiningWorkers? && c.wg != 0 {
      var j := SomeoneNotGone(c.ends);
      assert EndOk(c.ends[j], c.ctxDone);
      var c' := WorkerCanMove(m, c, j);
    } else {
      var c' := DriverCanMove(m, c);
      assert Next(m, c, c');
    }
  }

  /** A run that can go no further has returned: workers gone, live counter and wait group at zero, ends closed;
      and if it was never cancelled, it stopped exactly where the sequential loop halts. */
  lemma FinalState<S(!new), F(!new), Op(!new)>(m: Machine<S, F, Op>, s: S, cs: seq<Conf<S, F, Op>>)
    requires m.Valid() && Execution(m, s, cs) && forall c' :: !Next(m, Last(cs), c')
    ensures var c := Last(cs);
            && c.driver.Finished? && c.watcher.WatcherDone? && c.wg == 0 && c.live == 0
            && (forall e | e in c.ends :: e.worker.Gone? && e.closed)
            && (!c.ctxDone ==>
                  exists n: nat :: Halted(m, SeqRun(m, Seq(s, []), n)) && c.s == SeqRun(m, Seq(s, []), n).s)
  {
    var c := Last(cs);
    ExecutionKeeps(m, s, cs);
    if !c.driver.Finished? {
      NeverStuck(m, c);
    }
    AllGone(c.ends);
    if !c.ctxDone {
      var ks := FollowsSequential(m, s, cs);
      Quiescence(m, c);
      assert Abs(m, cs[|cs| - 1]) == SeqRun(m, Seq(s, []), ks[|ks| - 1]);
    }
  }

  /** wg.Wait returning means the live counter is back to zero. */
  lemma LiveIsZero<S(!new), F(!new), Op(!new)>(m: Machine<S, F, Op>, c: Conf<S, F, Op>)
    requires Inv(m, c) && c.wg == 0
    ensures c.live == 0 && forall e | e in c.ends :: e.worker.Gone?
  {
    AllGone(c.ends);
  }

  // ---- every run ends ----

  /** Steps a worker can still take by itself, and wake-ups it can still cause. */
  function WorkerWeight<S(!new), F(!new), Op(!new)>(m: Machine<S, F, Op>, w: Worker<Op>): nat {
    match w
    case Gone => 0
    case Uncounted => 1
    case Returning => 2
    case Sleeping => 3
    case Entering(_) => 10
    case Reacting(ops) => 25 + m.Rank(ops)
  }

  function EndWeight<S(!new), F(!new), Op(!new)>(m: Machine<S, F, Op>, j: nat, e: End<F, Op>): nat {
    WorkerWeight(m, e.worker)
    + (if e.pending.Some? then 25 + m.rank(m.react(j, e.pending.value)) else 0)
    + (if e.armed then 10 else 0) + 9 * e.stray
  }

  function EndsWeight<S(!new), F(!new), Op(!new)>(m: Machine<S, F, Op>, ends: seq<End<F, Op>>): nat {
    if ends == [] then 0
    else EndsWeight(m, ends[..|ends| - 1]) + EndWeight(m, |ends| - 1, ends[|ends| - 1])
  }

  function DriverWeight<S(!new), F(!new), Op(!new)>(m: Machine<S, F, Op>, n: nat, d: Driver<F, Op>): nat {
    match d
    case Running(ops) => m.Rank(ops)
    case Offering(j, f, asleep) => 33 + m.rank(m.react(j, f)) + (if asleep then 0 else 1)
    case Awaiting(_, _, asleep) => if asleep then 0 else 1
    case Closing(k) => (if k < n then 9 * (n - k) else 0) + 5
    case Signalling => 4
    case JoiningWatcher => 3
    case JoiningWorkers => 2
    case Finished => 1
    case _ => 0
  }

  function WatcherWeight(n: nat, w: Watcher): nat {
    match w
    case Watching => 9 * n + 2
    case WatcherClosing(k) => (if k < n then 9 * (n - k) else 0) + 1
    case WatcherDone => 0
  }

  function Weight<S(!new), F(!new), Op(!new)>(m: Machine<S, F, Op>, c: Conf<S, F, Op>): nat {
    EndsWeight(m, c.ends) + DriverWeight(m, |c.ends|, c.driver) + WatcherWeight(|c.ends|, c.watcher)
  }

  /** How far the driver is from leaving its loop; a cancelled loop ends at its next check. */
  function Phase<F, Op>(d: Driver<F, Op>, ctxDone: bool): nat {
    match d
    case Checking => if ctxDone then 1 else 2
    case Advancing => if ctxDone then 3 else 1
    case Running(_) => if ctxDone then 2 else 3
    case Offering(_, _, _) => if ctxDone then 2 else 3
    case Awaiting(_, _, _) => if ctxDone then 2 else 3
    case _ => 0
  }

  ghost predicate Drops<S(!new), F(!new), Op(!new)>(m: Machine<S, F, Op>, c: Conf<S, F, Op>, c': Conf<S, F, Op>) {
    || Phase(c'.driver, c.ctxDone) < Phase(c.driver, c.ctxDone)
    || (Phase(c'.driver, c.ctxDone) == Phase(c.driver, c.ctxDone) && Weight(m, c') < Weight(m, c))
  }

  lemma {:induction false} RankConcat<S(!new), F(!new), Op(!new)>(m: Machine<S, F, Op>, a: seq<Op>, b: seq<Op>)
    ensures m.Rank(a + b) == m.Rank(a) + m.Rank(b)
  {
    if a == [] {
      assert a + b == b;
    } else {
      assert (a + b)[1..] == a[1..] + b;
      RankConcat(m, a[1..], b);
    }
  }

  /** Running a section leaves less to run, refused or not. */
  lemma SectionDrops<S(!new), F(!new), Op(!new)>(
      m: Machine<S, F, Op>, ctxDone: bool, s: S, ops: seq<Op>, s': S, more: seq<Op>)
    requires m.Valid() && ops != [] && Executes(m, ctxDone, s, ops[0], s', more)
    ensures m.Rank(more + ops[1..]) < m.Rank(ops)
  {
    RankConcat(m, more, ops[1..]);
    assert m.Rank(m.exec(s, ops[0]).1) < m.rank(ops[0]);
  }

  lemma {:induction false} EndsWeightUpdate<S(!new), F(!new), Op(!new)>(
      m: Machine<S, F, Op>, ends: seq<End<F, Op>>, j: nat, e': End<F, Op>)
    requires j < |ends|
    ensures EndsWeight(m, ends[j := e']) == EndsWeight(m, ends) - EndWeight(m, j, ends[j]) + EndWeight(m, j, e')
  {
    var n := |ends| - 1;
    if j == n {
      assert ends[j := e'][..n] == ends[..n];
    } else {
      assert ends[j := e'][..n] == ends[..n][j := e'];
      EndsWeightUpdate(m, ends[..n], j, e');
    }
  }

  lemma WakeWeight<S(!new), F(!new), Op(!new)>(m: Machine<S, F, Op>, j: nat, e: End<F, Op>)
    ensures EndWeight(m, j, Wake(e)) <= EndWeight(m, j, e) + 7
  {}

  lemma WakeDriverWeight<S(!new), F(!new), Op(!new)>(m: Machine<S, F, Op>, n: nat, d: Driver<F, Op>, j: nat)
    ensures DriverWeight(m, n, WakeDriver(d, j)) <= DriverWeight(m, n, d) + 1
    ensures Phase(WakeDriver(d, j), true) == Phase(d, true) && Phase(WakeDriver(d, j), false) == Phase(d, false)
  {}

  lemma RecvDrops<S(!new), F(!new), Op(!new)>(m: Machine<S, F, Op>, j: nat, e: End<F, Op>, ctxDone: bool)
    requires e.worker.Entering?
    ensures EndWeight(m, j, RecvSection(m, j, e, ctxDone)) + 1 < EndWeight(m, j, e)
  {
    if e.pending.Some? {
      assert m.Rank([m.react(j, e.pending.value)]) == m.rank(m.react(j, e.pending.value)) + m.Rank([]);
    }
  }

  lemma ReactingDrops<S(!new), F(!new), Op(!new)>(m: Machine<S, F, Op>, c: Conf<S, F, Op>, j: nat, c': Conf<S, F, Op>)
    requires m.Valid() && j < |c.ends| && c.ends[j].worker.Reacting? && WorkerStep(m, c, j, c')
    ensures Drops(m, c, c')
  {
    var e, ops := c.ends[j], c.ends[j].worker.ops;
    EndsWeightUpdate(m, c.ends, j, c'.ends[j]);
    if ops != [] {
      var more :| Executes(m, c.ctxDone, c.s, ops[0], c'.s, more)
                  && c' == c.(s := c'.s, ends := c.ends[j := e.(worker := Reacting(more + ops[1..]))]);
      SectionDrops(m, c.ctxDone, c.s, ops, c'.s, more);
    }
  }

  lemma EnteringDrops<S(!new), F(!new), Op(!new)>(m: Machine<S, F, Op>, c: Conf<S, F, Op>, j: nat, c': Conf<S, F, Op>)
    requires j < |c.ends| && c.ends[j].worker.Entering? && WorkerStep(m, c, j, c')
    ensures Drops(m, c, c')
  {
    var e := c.ends[j];
    EndsWeightUpdate(m, c.ends, j, RecvSection(m, j, e, c.ctxDone));
    WakeDriverWeight(m, |c.ends|, c.driver, j);
    RecvDrops(m, j, e, c.ctxDone);
  }

  lemma WorkerDrops<S(!new), F(!new), Op(!new)>(m: Machine<S, F, Op>, c: Conf<S, F, Op>, j: nat, c': Conf<S, F, Op>)
    requires m.Valid() && j < |c.ends| && WorkerStep(m, c, j, c')
    ensures Drops(m, c, c')
  {
    if c.ends[j].worker.Reacting? { ReactingDrops(m, c, j, c'); }
    else if c.ends[j].worker.Entering? { EnteringDrops(m, c, j, c'); }
    else { EndsWeightUpdate(m, c.ends, j, c'.ends[j]); }
  }

  lemma CallbackDrops<S(!new), F(!new), Op(!new)>(m: Machine<S, F, Op>, c: Conf<S, F, Op>, j: nat, c': Conf<S, F, Op>)
    requires j < |c.ends| && CallbackStep(c, j, c')
    ensures Drops(m, c, c')
  {
    var e := c.ends[j];
    EndsWeightUpdate(m, c.ends, j, c'.ends[j]);
    WakeDriverWeight(m, |c.ends|, c.driver, j);
    if !(c.ctxDone && e.armed && c' == c.(ends := c.ends[j := e.(armed := false, stray := e.stray + 1)])) {
      WakeWeight(m, j, e.(stray := e.stray - 1));
    }
  }

  lemma CloseWeight<S(!new), F(!new), Op(!new)>(m: Machine<S, F, Op>, ends: seq<End<F, Op>>, k: nat)
    requires k < |ends|
    ensures EndsWeight(m, ends[k := CloseEnd(ends[k])]) <= EndsWeight(m, ends) + 7
  {
    EndsWeightUpdate(m, ends, k, CloseEnd(ends[k]));
    WakeWeight(m, k, ends[k].(closed := true, parkSeq := ends[k].parkSeq + 1));
  }

  lemma WatcherDrops<S(!new), F(!new), Op(!new)>(m: Machine<S, F, Op>, c: Conf<S, F, Op>, c': Conf<S, F, Op>)
    requires WatcherStep(c, c')
    ensures Drops(m, c, c')
  {
    if c.watcher.WatcherClosing? && c.watcher.next < |c.ends| {
      CloseWeight(m, c.ends, c.watcher.next);
      WakeDriverWeight(m, |c.ends|, c.driver, c.watcher.next);
    }
  }

  /** A section of the driver's own callback. */
  lemma RunningDrops<S(!new), F(!new), Op(!new)>(m: Machine<S, F, Op>, c: Conf<S, F, Op>, c': Conf<S, F, Op>)
    requires m.Valid() && c.driver.Running? && DriverStep(m, c, c')
    ensures Drops(m, c, c')
  {
    var ops := c.driver.ops;
    if ops != [] {
      var more :| Executes(m, c.ctxDone, c.s, ops[0], c'.s, more)
                  && c' == c.(s := c'.s, driver := Running(more + ops[1..]));
      SectionDrops(m, c.ctxDone, c.s, ops, c'.s, more);
    }
  }

  lemma OfferingDrops<S(!new), F(!new), Op(!new)>(m: Machine<S, F, Op>, c: Conf<S, F, Op>, c': Conf<S, F, Op>)
    requires c.driver.Offering? && DriverStep(m, c, c')
    requires c.ends[c.driver.end].parked ==> c.ends[c.driver.end].pending.None?
    ensures Drops(m, c, c')
  {
    var j, f := c.driver.end, c.driver.f;
    var e := c.ends[j];
    if !e.closed && !e.cancelled && e.parked {
      EndsWeightUpdate(m, c.ends, j, HandOver(e, f));
      WakeWeight(m, j, e.(pending := Some(f), parked := false, handed := e.handed + [f]));
    }
  }

  lemma ClosingDrops<S(!new), F(!new), Op(!new)>(m: Machine<S, F, Op>, c: Conf<S, F, Op>, c': Conf<S, F, Op>)
    requires c.driver.Closing? && DriverStep(m, c, c')
    ensures Drops(m, c, c')
  {
    if c.driver.next < |c.ends| {
      CloseWeight(m, c.ends, c.driver.next);
    }
  }

  lemma DriverDrops<S(!new), F(!new), Op(!new)>(m: Machine<S, F, Op>, c: Conf<S, F, Op>, c': Conf<S, F, Op>)
    requires m.Valid() && Inv(m, c) && DriverStep(m, c, c')
    ensures Drops(m, c, c') || (!c.ctxDone && !Halted(m, Abs(m, c)) && Abs(m, c') == SeqStep(m, Abs(m, c)))
  {
    if c.driver.Running? { RunningDrops(m, c, c'); }
    else if c.driver.Offering? {
      assert EndOk(c.ends[c.driver.end], c.ctxDone);
      OfferingDrops(m, c, c');
    }
    else if c.driver.Closing? { ClosingDrops(m, c, c'); }
    else { assert c'.ends == c.ends; }
  }

  /** Every step either moves the sequential loop on or makes the rest of the run shorter. */
  lemma NextDrops<S(!new), F(!new), Op(!new)>(m: Machine<S, F, Op>, c: Conf<S, F, Op>, c': Conf<S, F, Op>)
    requires m.Valid() && Inv(m, c) && Next(m, c, c')
    ensures Drops(m, c, c') || (!c.ctxDone && !Halted(m, Abs(m, c)) && Abs(m, c') == SeqStep(m, Abs(m, c)))
  {
    if DriverStep(m, c, c') { DriverDrops(m, c, c'); }
    else if WatcherStep(c, c') { WatcherDrops(m, c, c'); }
    else {
      var j: nat :| j < |c.ends| && (WorkerStep(m, c, j, c') || CallbackStep(c, j, c'));
      if WorkerStep(m, c, j, c') { WorkerDrops(m, c, j, c'); } else { CallbackDrops(m, c, j, c'); }
    }
  }

  /** Configuration c is k steps along the sequential loop, which halts after `last`; or the context is done. */
  ghost predicate Placed<S(!new), F(!new), Op(!new)>(m: Machine<S, F, Op>, s: S, c: Conf<S, F, Op>, k: nat, last: nat) {
    && Inv(m, c)
    && (!c.ctxDone ==> k <= last && Abs(m, c) == SeqRun(m, Seq(s, []), k) && Halted(m, SeqRun(m, Seq(s, []), last)))
  }

  function Remaining<S, F, Op>(c: Conf<S, F, Op>, k: nat, last: nat): nat {
    if c.ctxDone || last < k then 0 else last - k
  }

  /** The measure: cancellation still to come, sequential steps to go, phase, weight. */
  ghost predicate Declines<S(!new), F(!new), Op(!new)>(
      m: Machine<S, F, Op>, c: Conf<S, F, Op>, k: nat, c': Conf<S, F, Op>, k': nat, last: nat)
  {
    || (c'.ctxDone && !c.ctxDone)
    || (c'.ctxDone == c.ctxDone && Remaining(c', k', last) < Remaining(c, k, last))
    || (c'.ctxDone == c.ctxDone && Remaining(c', k', last) == Remaining(c, k, last) && Drops(m, c, c'))
  }

  lemma StepDeclines<S(!new), F(!new), Op(!new)>(
      m: Machine<S, F, Op>, s: S, c: Conf<S, F, Op>, c': Conf<S, F, Op>, k: nat, last: nat) returns (k': nat)
    requires m.Valid() && Placed(m, s, c, k, last) && Step(m, c, c')
    ensures Placed(m, s, c', k', last) && Declines(m, c, k, c', k', last)
  {
    k' := k;
    if Cancel(c, c') {
      CancelKeeps(m, c, c');
    } else if c.ctxDone {
      NextKeeps(m, c, c');
      NextDrops(m, c, c');
    } else {
      k' := NextDeclines(m, s, c, c', k, last);
    }
  }

  lemma NextDeclines<S(!new), F(!new), Op(!new)>(
      m: Machine<S, F, Op>, s: S, c: Conf<S, F, Op>, c': Conf<S, F, Op>, k: nat, last: nat) returns (k': nat)
    requires m.Valid() && Placed(m, s, c, k, last) && !c.ctxDone && Next(m, c, c')
    ensures Placed(m, s, c', k', last) && Declines(m, c, k, c', k', last)
  {
    NextMoves(m, c, c');
    k' := MovesDecline(m, s, c, c', k, last);
  }

  /** What a step does to the abstraction and to the measure. */
  ghost predicate Moves<S(!new), F(!new), Op(!new)>(m: Machine<S, F, Op>, c: Conf<S, F, Op>, c': Conf<S, F, Op>) {
    && Inv(m, c') && !c'.ctxDone && Follows(m, Abs(m, c), Abs(m, c'))
    && (Drops(m, c, c') || (!Halted(m, Abs(m, c)) && Abs(m, c') == SeqStep(m, Abs(m, c))))
  }

  lemma NextMoves<S(!new), F(!new), Op(!new)>(m: Machine<S, F, Op>, c: Conf<S, F, Op>, c': Conf<S, F, Op>)
    requires m.Valid() && Inv(m, c) && !c.ctxDone && Next(m, c, c')
    ensures Moves(m, c, c')
  {
    NextKeeps(m, c, c');
    NextDrops(m, c, c');
    NextFollows(m, c, c');
  }

  lemma MovesDecline<S(!new), F(!new), Op(!new)>(
      m: Machine<S, F, Op>, s: S, c: Conf<S, F, Op>, c': Conf<S, F, Op>, k: nat, last: nat) returns (k': nat)
    requires Placed(m, s, c, k, last) && !c.ctxDone && Moves(m, c, c')
    ensures Placed(m, s, c', k', last) && Declines(m, c, k, c', k', last)
  {
    assert SeqStep(m, SeqRun(m, Seq(s, []), k)) == SeqRun(m, Seq(s, []), k + 1);
    k' := if Abs(m, c') == Abs(m, c) && Drops(m, c, c') then k else k + 1;
  }

  /** There is no infinite run: tr, from configuration n on. */
  lemma {:induction false} RunsOut<S(!new), F(!new), Op(!new)>(
      m: Machine<S, F, Op>, s: S, tr: nat -> Conf<S, F, Op>, n: nat, k: nat, last: nat)
    requires m.Valid() && (forall i: nat :: Step(m, tr(i), tr(i + 1))) && Placed(m, s, tr(n), k, last)
    ensures false
    decreases if tr(n).ctxDone then 0 else 1, Remaining(tr(n), k, last),
              Phase(tr(n).driver, tr(n).ctxDone), Weight(m, tr(n))
  {
    var k' := StepDeclines(m, s, tr(n), tr(n + 1), k, last);
    RunsOut(m, s, tr, n + 1, k', last);
  }

  /** Once the context is done, whatever state the run was in, every schedule comes to an end. */
  lemma CancelledRunEnds<S(!new), F(!new), Op(!new)>(m: Machine<S, F, Op>, tr: nat -> Conf<S, F, Op>)
    requires m.Valid() && Inv(m, tr(0)) && tr(0).ctxDone
    ensures exists n: nat :: !Step(m, tr(n), tr(n + 1))
  {
    if forall i: nat :: Step(m, tr(i), tr(i + 1)) {
      RunsOut(m, tr(0).s, tr, 0, 0, 0);
    }
  }

  /** If the sequential loop halts, every schedule comes to an end, cancelled on the way or not. */
  lemma EveryRunEnds<S(!new), F(!new), Op(!new)>(m: Machine<S, F, Op>, s: S, tr: nat -> Conf<S, F, Op>, last: nat)
    requires m.Valid() && tr(0) == Init(m, s) && Halted(m, SeqRun(m, Seq(s, []), last))
    ensures exists n: nat :: !Step(m, tr(n), tr(n + 1))
  {
    InitOk(m, s);
    if forall i: nat :: Step(m, tr(i), tr(i + 1)) {
      RunsOut(m, s, tr, 0, 0, last);
    }
  }
}
