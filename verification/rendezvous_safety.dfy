/** What every reachable state of the rendezvous satisfies, under any interleaving, cancelled or not. */
module RendezvousSafety {
  import opened Basics
  import opened Sums
  import opened Rendezvous

  // ---- one end ----

  /** What one end keeps, whoever runs. */
  ghost predicate EndOk<F, Op>(e: End<F, Op>, ctxDone: bool) {
    && (e.parked ==> e.pending.None? && (e.worker.Sleeping? || e.worker == Entering(true)))
    && (e.worker.Sleeping? ==> e.parked && !e.closed && (e.armed || e.stray > 0))
    && (e.pending.Some? ==> e.worker.Entering?)
    && e.handed == e.got + (if e.pending.Some? then [e.pending.value] else [])
    && (if e.worker.Alive() then !e.cancelled else e.closed || e.cancelled)
    && (!ctxDone ==> e.stray == 0 && !e.cancelled && (e.worker.Entering? ==> e.armed))
  }

  function Waiting<F, Op>(e: End<F, Op>): int { if e.worker.Gone? then 0 else 1 }
  function Counted<F, Op>(e: End<F, Op>): int { if e.worker.Gone? || e.worker.Uncounted? then 0 else 1 }

  function WaitingOf<F, Op>(): End<F, Op> -> int { (e: End<F, Op>) => Waiting(e) }
  function CountedOf<F, Op>(): End<F, Op> -> int { (e: End<F, Op>) => Counted(e) }

  // ---- all ends ----

  /** What the driver may rely on at the end it is delivering to. */
  ghost predicate DriverOk<F, Op>(d: Driver<F, Op>, ends: seq<End<F, Op>>) {
    match d
    case Offering(j, _, asleep) =>
      j < |ends| && var e := ends[j]; asleep ==> !e.closed && !e.cancelled && !e.parked
    case Awaiting(j, before, asleep) => j < |ends| && AwaitOk(before, asleep, ends[j])
    case Closing(k) => ClosedUpTo(ends, k)
    case _ => d.Closed() ==> ClosedUpTo(ends, |ends|)
  }

  ghost predicate AwaitOk<F, Op>(before: nat, asleep: bool, e: End<F, Op>) {
    && before <= e.parkSeq
    && (asleep ==> e.parkSeq == before && !e.closed && !e.cancelled)
    && (e.parkSeq == before ==> !e.parked)
    && (e.parkSeq != before && !e.closed && !e.cancelled ==> e.parked)
  }

  ghost predicate ClosedUpTo<F, Op>(ends: seq<End<F, Op>>, k: nat) {
    forall i: nat | i < k && i < |ends| :: ends[i].closed
  }

  /** Until the context is done only the worker the driver awaits has anything to do. */
  ghost predicate SoloEnd<F, Op>(d: Driver<F, Op>, i: nat, e: End<F, Op>) {
    && (e.worker.Reacting? || e.pending.Some? ==> d.Awaiting? && d.end == i && d.before == e.parkSeq)
    && (e.closed ==> d.TearingDown())
  }

  ghost predicate EndsOk<F, Op>(d: Driver<F, Op>, ends: seq<End<F, Op>>, ctxDone: bool) {
    forall i: nat | i < |ends| :: EndOk(ends[i], ctxDone) && (ctxDone || SoloEnd(d, i, ends[i]))
  }

  ghost predicate CountsOk<S, F, Op>(c: Conf<S, F, Op>) {
    c.wg == SumOf(c.ends, WaitingOf()) && c.live == SumOf(c.ends, CountedOf())
  }

  /** The invariant of the whole protocol. */
  ghost predicate Inv<S(!new), F(!new), Op(!new)>(m: Machine<S, F, Op>, c: Conf<S, F, Op>) {
    && |c.ends| == m.ends
    && EndsOk(c.driver, c.ends, c.ctxDone)
    && DriverOk(c.driver, c.ends)
    && CountsOk(c)
    && (c.watcher.WatcherClosing? ==> c.ctxDone)
    && (c.driver.JoiningWatcher? || c.driver.JoiningWorkers? || c.driver.Finished? ==> c.signalled)
    && (c.driver.JoiningWorkers? || c.driver.Finished? ==> c.watcher.WatcherDone?)
    && (c.driver.Finished? ==> c.wg == 0)
  }

  lemma {:induction false} AllWaiting<F, Op>(ends: seq<End<F, Op>>)
    requires forall e | e in ends :: Waiting(e) == 1 && Counted(e) == 1
    ensures SumOf(ends, WaitingOf()) == |ends| && SumOf(ends, CountedOf()) == |ends|
  {
    if ends != [] {
      AllWaiting(ends[1..]);
    }
  }

  lemma InitOk<S(!new), F(!new), Op(!new)>(m: Machine<S, F, Op>, s: S)
    ensures Inv(m, Init(m, s))
  {
    AllWaiting(Init(m, s).ends);
  }

  // ---- one end changes ----

  /** Replacing end j by one the driver and the counters see the same way. */
  lemma CountsUpdate<F, Op>(ends: seq<End<F, Op>>, j: nat, e': End<F, Op>)
    requires j < |ends|
    ensures SumOf(ends[j := e'], WaitingOf()) == SumOf(ends, WaitingOf()) - Waiting(ends[j]) + Waiting(e')
    ensures SumOf(ends[j := e'], CountedOf()) == SumOf(ends, CountedOf()) - Counted(ends[j]) + Counted(e')
  {
    SumSplitAt(ends, j, e', WaitingOf());
    SumSplitAt(ends, j, e', CountedOf());
  }

  /** An end whose worker is not gone keeps the wait group up. */
  lemma SomeoneWaits<F, Op>(ends: seq<End<F, Op>>, j: nat)
    requires j < |ends| && !ends[j].worker.Gone?
    ensures SumOf(ends, WaitingOf()) > 0
  {
    SumBounds(ends, WaitingOf());
    assert ends[j] in ends;
  }

  /** A step of one end's worker, callback or closer, with the driver at most woken. */
  lemma EndChanges<S(!new), F(!new), Op(!new)>(
      m: Machine<S, F, Op>, c: Conf<S, F, Op>, j: nat, e': End<F, Op>, d': Driver<F, Op>, c': Conf<S, F, Op>)
    requires Inv(m, c) && j < |c.ends| && c'.ends == c.ends[j := e'] && c'.driver == d'
    requires d' == c.driver || d' == WakeDriver(c.driver, j)
    requires c'.ctxDone == c.ctxDone && c'.signalled == c.signalled
    requires c'.watcher == c.watcher
             || (c.ctxDone && c.watcher.WatcherClosing? && (c'.watcher.WatcherClosing? || c'.watcher.WatcherDone?))
    requires c'.live == c.live - Counted(c.ends[j]) + Counted(e') && c'.wg == c.wg - Waiting(c.ends[j]) + Waiting(e')
    requires EndOk(e', c.ctxDone) && (c.ctxDone || SoloEnd(d', j, e'))
    requires c.ends[j].closed ==> e'.closed
    requires c.driver.Offering? && c.driver.end == j && d'.asleep ==> !e'.closed && !e'.cancelled && !e'.parked
    requires c.driver.Awaiting? && c.driver.end == j ==> AwaitOk(c.driver.before, d'.asleep, e')
    requires c.ends[j].worker.Gone? ==> e'.worker.Gone?
    ensures Inv(m, c')
  {
    CountsUpdate(c.ends, j, e');
    if c.driver.Finished? && !c.ends[j].worker.Gone? {
      SomeoneWaits(c.ends, j);
    }
  }

  // ---- the worker ----

  lemma RecvSectionOk<S(!new), F(!new), Op(!new)>(m: Machine<S, F, Op>, j: nat, e: End<F, Op>, ctxDone: bool)
    requires e.worker.Entering? && EndOk(e, ctxDone)
    ensures var r := RecvSection(m, j, e, ctxDone);
            && EndOk(r, ctxDone) && r.closed == e.closed && r.parkSeq >= e.parkSeq
            && (r.worker.Sleeping? ==> r.parkSeq > e.parkSeq && r.parked && !r.closed && !r.cancelled)
            && (!r.worker.Sleeping? ==> r.parkSeq == e.parkSeq && !r.parked && !r.pending.Some?)
            && (r.worker.Reacting? ==> e.pending.Some? && e.cancelled == r.cancelled)
            && (r.pending.Some? ==> false)
            && Waiting(r) == 1 && Counted(r) == 1
  {}

  lemma WorkerEnters<S(!new), F(!new), Op(!new)>(m: Machine<S, F, Op>, c: Conf<S, F, Op>, j: nat, c': Conf<S, F, Op>)
    requires Inv(m, c) && j < |c.ends| && c.ends[j].worker.Entering? && WorkerStep(m, c, j, c')
    ensures Inv(m, c')
  {
    var e := c.ends[j];
    RecvSectionOk(m, j, e, c.ctxDone);
    EndChanges(m, c, j, RecvSection(m, j, e, c.ctxDone), c'.driver, c');
  }

  lemma WorkerReacts<S(!new), F(!new), Op(!new)>(m: Machine<S, F, Op>, c: Conf<S, F, Op>, j: nat, c': Conf<S, F, Op>)
    requires Inv(m, c) && j < |c.ends| && c.ends[j].worker.Reacting? && WorkerStep(m, c, j, c')
    ensures Inv(m, c')
  {
    var e := c.ends[j];
    var w := c'.ends[j].worker;
    assert w.Reacting? || w == Entering(false);
    assert c'.ends[j] == e.(worker := w, armed := w.Entering? || e.armed);
    EndChanges(m, c, j, c'.ends[j], c'.driver, c');
  }

  lemma WorkerLeaves<S(!new), F(!new), Op(!new)>(m: Machine<S, F, Op>, c: Conf<S, F, Op>, j: nat, c': Conf<S, F, Op>)
    requires Inv(m, c) && j < |c.ends| && (c.ends[j].worker.Returning? || c.ends[j].worker.Uncounted?)
    requires WorkerStep(m, c, j, c')
    ensures Inv(m, c')
  {
    EndChanges(m, c, j, c'.ends[j], c'.driver, c');
  }

  lemma WorkerKeeps<S(!new), F(!new), Op(!new)>(m: Machine<S, F, Op>, c: Conf<S, F, Op>, j: nat, c': Conf<S, F, Op>)
    requires Inv(m, c) && j < |c.ends| && WorkerStep(m, c, j, c')
    ensures Inv(m, c') && c'.ctxDone == c.ctxDone
  {
    if c.ends[j].worker.Entering? { WorkerEnters(m, c, j, c'); }
    else if c.ends[j].worker.Reacting? { WorkerReacts(m, c, j, c'); }
    else { WorkerLeaves(m, c, j, c'); }
  }

  lemma CallbackKeeps<S(!new), F(!new), Op(!new)>(m: Machine<S, F, Op>, c: Conf<S, F, Op>, j: nat, c': Conf<S, F, Op>)
    requires Inv(m, c) && j < |c.ends| && CallbackStep(c, j, c')
    ensures Inv(m, c') && c'.ctxDone == c.ctxDone
  {
    EndChanges(m, c, j, c'.ends[j], c'.driver, c');
  }

  // ---- the closers ----

  lemma CloseEndOk<F, Op>(e: End<F, Op>, ctxDone: bool)
    requires EndOk(e, ctxDone)
    ensures EndOk(CloseEnd(e), ctxDone)
    ensures CloseEnd(e).closed && CloseEnd(e).parkSeq == e.parkSeq + 1
    ensures CloseEnd(e).pending == e.pending && CloseEnd(e).parked == e.parked
    ensures Waiting(CloseEnd(e)) == Waiting(e) && Counted(CloseEnd(e)) == Counted(e)
    ensures CloseEnd(e).worker.Reacting? == e.worker.Reacting? && CloseEnd(e).worker.Gone? == e.worker.Gone?
  {}

  lemma WatcherKeeps<S(!new), F(!new), Op(!new)>(m: Machine<S, F, Op>, c: Conf<S, F, Op>, c': Conf<S, F, Op>)
    requires Inv(m, c) && WatcherStep(c, c')
    ensures Inv(m, c') && c'.ctxDone == c.ctxDone
  {
    if c.watcher.WatcherClosing? && c.watcher.next < |c.ends| {
      var k := c.watcher.next;
      CloseEndOk(c.ends[k], c.ctxDone);
      EndChanges(m, c, k, CloseEnd(c.ends[k]), c'.driver, c');
    }
  }

  // ---- the driver ----

  lemma HandOverOk<F, Op>(e: End<F, Op>, f: F, ctxDone: bool)
    requires EndOk(e, ctxDone) && e.parked && !e.closed && !e.cancelled
    ensures EndOk(HandOver(e, f), ctxDone)
    ensures AwaitOk(e.parkSeq, true, HandOver(e, f)) && HandOver(e, f).parkSeq == e.parkSeq && !HandOver(e, f).closed
    ensures Waiting(HandOver(e, f)) == Waiting(e) && Counted(HandOver(e, f)) == Counted(e)
  {}

  lemma DriverHandsOver<S(!new), F(!new), Op(!new)>(
      m: Machine<S, F, Op>, c: Conf<S, F, Op>, c': Conf<S, F, Op>, e': End<F, Op>)
    requires Inv(m, c) && c.driver.Offering? && c.driver.end < |c.ends|
    requires var e := c.ends[c.driver.end];
             EndOk(e', c.ctxDone) && AwaitOk(e.parkSeq, true, e') && e'.parkSeq == e.parkSeq && !e'.closed
             && Waiting(e') == Waiting(e) && Counted(e') == Counted(e)
    requires c' == c.(driver := Awaiting(c.driver.end, c.ends[c.driver.end].parkSeq, true),
                      ends := c.ends[c.driver.end := e'])
    ensures Inv(m, c')
  {
    CountsUpdate(c.ends, c.driver.end, e');
  }

  lemma DriverOffers<S(!new), F(!new), Op(!new)>(m: Machine<S, F, Op>, c: Conf<S, F, Op>, c': Conf<S, F, Op>)
    requires Inv(m, c) && c.driver.Offering? && DriverStep(m, c, c')
    ensures Inv(m, c')
  {
    var j, e := c.driver.end, c.ends[c.driver.end];
    if !e.closed && !e.cancelled && e.parked {
      HandOverOk(e, c.driver.f, c.ctxDone);
      DriverHandsOver(m, c, c', HandOver(e, c.driver.f));
    } else {
      assert c'.ends == c.ends;
    }
  }

  lemma DriverCloses<S(!new), F(!new), Op(!new)>(m: Machine<S, F, Op>, c: Conf<S, F, Op>, c': Conf<S, F, Op>)
    requires Inv(m, c) && c.driver.Closing? && DriverStep(m, c, c')
    ensures Inv(m, c')
  {
    var k := c.driver.next;
    if k < |c.ends| {
      CloseEndOk(c.ends[k], c.ctxDone);
      CountsUpdate(c.ends, k, CloseEnd(c.ends[k]));
    }
  }

  /** Changing only the shared state and the driver. */
  lemma DriverOnly<S(!new), F(!new), Op(!new)>(m: Machine<S, F, Op>, c: Conf<S, F, Op>, c': Conf<S, F, Op>)
    requires Inv(m, c) && c' == c.(s := c'.s, driver := c'.driver, signalled := c'.signalled)
    requires DriverOk(c'.driver, c.ends)
    requires c.driver.Awaiting? ==> c'.driver == c.driver.(asleep := true) || c'.driver.Checking?
    requires c'.driver.Checking? && c.driver.Awaiting? ==>
               forall i: nat | i < |c.ends| :: c.ctxDone || SoloEnd(c'.driver, i, c.ends[i])
    requires c.driver.TearingDown() ==> c'.driver.TearingDown()
    requires c'.driver.JoiningWatcher? || c'.driver.JoiningWorkers? || c'.driver.Finished? ==> c'.signalled
    requires c'.driver.JoiningWorkers? || c'.driver.Finished? ==> c.watcher.WatcherDone?
    requires c'.driver.Finished? ==> c.wg == 0
    ensures Inv(m, c')
  {}

  /** When deliver returns and the context is not done, its worker has parked again. */
  lemma DriverAwaits<S(!new), F(!new), Op(!new)>(m: Machine<S, F, Op>, c: Conf<S, F, Op>, c': Conf<S, F, Op>)
    requires Inv(m, c) && c.driver.Awaiting? && DriverStep(m, c, c')
    ensures Inv(m, c')
  {
    if c'.driver.Checking? && !c.ctxDone {
      forall i: nat | i < |c.ends| ensures SoloEnd(c'.driver, i, c.ends[i]) {
        assert SoloEnd(c.driver, i, c.ends[i]);
        assert EndOk(c.ends[i], c.ctxDone);
      }
    }
    DriverOnly(m, c, c');
  }

  lemma DriverMoves<S(!new), F(!new), Op(!new)>(m: Machine<S, F, Op>, c: Conf<S, F, Op>, c': Conf<S, F, Op>)
    requires m.Valid() && Inv(m, c) && !c.driver.InDeliver() && !c.driver.Closing? && DriverStep(m, c, c')
    ensures Inv(m, c')
  {
    assert c.driver.Advancing? && c'.driver.Offering? ==> c'.driver.end < m.ends;
    DriverOnly(m, c, c');
  }

  lemma DriverKeeps<S(!new), F(!new), Op(!new)>(m: Machine<S, F, Op>, c: Conf<S, F, Op>, c': Conf<S, F, Op>)
    requires m.Valid() && Inv(m, c) && DriverStep(m, c, c')
    ensures Inv(m, c') && c'.ctxDone == c.ctxDone
  {
    if c.driver.Offering? { DriverOffers(m, c, c'); }
    else if c.driver.Awaiting? { DriverAwaits(m, c, c'); }
    else if c.driver.Closing? { DriverCloses(m, c, c'); }
    else { DriverMoves(m, c, c'); }
  }

  // ---- every reachable state ----

  lemma CancelKeeps<S(!new), F(!new), Op(!new)>(m: Machine<S, F, Op>, c: Conf<S, F, Op>, c': Conf<S, F, Op>)
    requires Inv(m, c) && Cancel(c, c')
    ensures Inv(m, c')
  {}

  lemma NextKeeps<S(!new), F(!new), Op(!new)>(m: Machine<S, F, Op>, c: Conf<S, F, Op>, c': Conf<S, F, Op>)
    requires m.Valid() && Inv(m, c) && Next(m, c, c')
    ensures Inv(m, c') && c'.ctxDone == c.ctxDone
  {
    if DriverStep(m, c, c') { DriverKeeps(m, c, c'); }
    else if WatcherStep(c, c') { WatcherKeeps(m, c, c'); }
    else {
      var j: nat :| j < |c.ends| && (WorkerStep(m, c, j, c') || CallbackStep(c, j, c'));
      if WorkerStep(m, c, j, c') { WorkerKeeps(m, c, j, c'); } else { CallbackKeeps(m, c, j, c'); }
    }
  }
}
