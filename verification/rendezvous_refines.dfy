/** The rendezvous refines the sequential loop: without cancellation every interleaving runs the same sections on
    the same shared state in the same order. */
module RendezvousRefines {
  import opened Basics
  import opened Rendezvous
  import opened RendezvousSafety

  /** The sections a frame in the end's hands, or being handled, still has to run. */
  function EndOps<S(!new), F(!new), Op(!new)>(m: Machine<S, F, Op>, j: nat, e: End<F, Op>): seq<Op> {
    if e.pending.Some? then [m.react(j, e.pending.value)]
    else if e.worker.Reacting? then e.worker.ops
    else []
  }

  /** The sequential state a configuration stands for: work belongs to the driver or to the worker it awaits. */
  function Abs<S(!new), F(!new), Op(!new)>(m: Machine<S, F, Op>, c: Conf<S, F, Op>): Seq<S, Op> {
    match c.driver
    case Running(ops) => Seq(c.s, ops)
    case Offering(j, f, _) => Seq(c.s, [m.react(j, f)])
    case Awaiting(j, _, _) => Seq(c.s, if j < |c.ends| then EndOps(m, j, c.ends[j]) else [])
    case _ => Seq(c.s, [])
  }

  /** One step of the sequential loop, or none. */
  ghost predicate Follows<S(!new), F(!new), Op(!new)>(m: Machine<S, F, Op>, q: Seq<S, Op>, q': Seq<S, Op>) {
    q' == q || (!Halted(m, q) && q' == SeqStep(m, q))
  }

  lemma DriverFollows<S(!new), F(!new), Op(!new)>(m: Machine<S, F, Op>, c: Conf<S, F, Op>, c': Conf<S, F, Op>)
    requires m.Valid() && Inv(m, c) && !c.ctxDone && DriverStep(m, c, c')
    ensures Follows(m, Abs(m, c), Abs(m, c'))
  {
    match c.driver
    case Awaiting(j, before, _) =>
      assert SoloEnd(c.driver, j, c.ends[j]);
    case _ =>
  }

  lemma WorkerFollows<S(!new), F(!new), Op(!new)>(m: Machine<S, F, Op>, c: Conf<S, F, Op>, j: nat, c': Conf<S, F, Op>)
    requires Inv(m, c) && !c.ctxDone && j < |c.ends| && WorkerStep(m, c, j, c')
    ensures Follows(m, Abs(m, c), Abs(m, c'))
  {
    assert SoloEnd(c.driver, j, c.ends[j]);
    assert EndOk(c.ends[j], c.ctxDone);
  }

  lemma NoCallbackYet<S(!new), F(!new), Op(!new)>(m: Machine<S, F, Op>, c: Conf<S, F, Op>, j: nat, c': Conf<S, F, Op>)
    requires Inv(m, c) && !c.ctxDone && j < |c.ends|
    ensures !CallbackStep(c, j, c')
  {
    assert EndOk(c.ends[j], c.ctxDone);
  }

  /** Every atomic step of an uncancelled run is a step of the sequential loop, or invisible to it. */
  lemma NextFollows<S(!new), F(!new), Op(!new)>(m: Machine<S, F, Op>, c: Conf<S, F, Op>, c': Conf<S, F, Op>)
    requires m.Valid() && Inv(m, c) && !c.ctxDone && Next(m, c, c')
    ensures Follows(m, Abs(m, c), Abs(m, c'))
  {
    forall j: nat | j < |c.ends| ensures !CallbackStep(c, j, c') {
      NoCallbackYet(m, c, j, c');
    }
    if DriverStep(m, c, c') { DriverFollows(m, c, c'); }
    else if !WatcherStep(c, c') {
      var j: nat :| j < |c.ends| && WorkerStep(m, c, j, c');
      WorkerFollows(m, c, j, c');
    }
  }

  /** Whenever the driver looks at the scheduler, no worker is reacting and no frame is in flight. */
  lemma Quiescence<S(!new), F(!new), Op(!new)>(m: Machine<S, F, Op>, c: Conf<S, F, Op>)
    requires Inv(m, c) && !c.ctxDone && (c.driver.Checking? || c.driver.Advancing? || c.driver.TearingDown())
    ensures Abs(m, c) == Seq(c.s, [])
    ensures forall i: nat | i < |c.ends| :: c.ends[i].pending.None? && !c.ends[i].worker.Reacting?
    ensures m.fire(c.s).Quiet? <==> Halted(m, Abs(m, c))
  {
    forall i: nat | i < |c.ends| ensures c.ends[i].pending.None? && !c.ends[i].worker.Reacting? {
      assert SoloEnd(c.driver, i, c.ends[i]);
    }
  }

  // ---- hand-off ----

  /** deliver only ever fills an empty slot, of a parked worker, with its own frame. */
  lemma HandsOverOnce<S(!new), F(!new), Op(!new)>(m: Machine<S, F, Op>, c: Conf<S, F, Op>, c': Conf<S, F, Op>)
    requires Inv(m, c) && c.driver.Offering? && DriverStep(m, c, c') && c'.driver.Awaiting?
    ensures var j := c.driver.end;
            && j < |c.ends| && c.ends[j].pending.None? && c'.ends[j].pending == Some(c.driver.f)
            && c'.ends[j].handed == c.ends[j].handed + [c.driver.f]
            && forall i: nat | i < |c.ends| && i != j :: c'.ends[i] == c.ends[i]
  {
    assert EndOk(c.ends[c.driver.end], c.ctxDone);
  }

  /** When deliver returns from its second wait on an open, uncancelled end, everything handed over has been
      consumed, in order, and the worker is parked again. */
  lemma ReturnsConsumed<S(!new), F(!new), Op(!new)>(m: Machine<S, F, Op>, c: Conf<S, F, Op>, c': Conf<S, F, Op>)
    requires Inv(m, c) && c.driver.Awaiting? && DriverStep(m, c, c') && c'.driver.Checking?
    requires !c.ends[c.driver.end].closed && !c.ends[c.driver.end].cancelled
    ensures var e := c'.ends[c.driver.end];
            e.parked && e.pending.None? && e.got == e.handed && (e.worker.Sleeping? || e.worker == Entering(true))
  {
    assert EndOk(c.ends[c.driver.end], c.ctxDone);
  }

  /** Frames leave Recv in the order deliver put them in, none twice, at most the last one still waiting. */
  lemma HandedInOrder<S(!new), F(!new), Op(!new)>(m: Machine<S, F, Op>, c: Conf<S, F, Op>, j: nat)
    requires Inv(m, c) && j < |c.ends|
    ensures var e := c.ends[j];
            && e.got <= e.handed && |e.handed| <= |e.got| + 1
            && (e.pending.Some? <==> |e.handed| == |e.got| + 1)
            && (e.pending.Some? ==> e.pending.value == e.handed[|e.got|])
            && (e.parked ==> e.got == e.handed)
  {
    assert EndOk(c.ends[j], c.ctxDone);
  }

  // ---- whole executions ----

  ghost predicate Step<S(!new), F(!new), Op(!new)>(m: Machine<S, F, Op>, c: Conf<S, F, Op>, c': Conf<S, F, Op>) {
    Next(m, c, c') || Cancel(c, c')
  }

  /** A finite execution from the launch of the workers. */
  ghost predicate Execution<S(!new), F(!new), Op(!new)>(m: Machine<S, F, Op>, s: S, cs: seq<Conf<S, F, Op>>) {
    && cs != [] && cs[0] == Init(m, s)
    && forall i: nat | i + 1 < |cs| :: Step(m, cs[i], cs[i + 1])
  }

  function Last<T>(s: seq<T>): T
    requires s != []
  {
    s[|s| - 1]
  }

  /** Until the context is done, teardown only starts when nothing is left to fire. */
  ghost predicate StopsQuiet<S(!new), F(!new), Op(!new)>(m: Machine<S, F, Op>, c: Conf<S, F, Op>) {
    !c.ctxDone && c.driver.TearingDown() ==> m.fire(c.s).Quiet?
  }

  lemma TornDownIsStill<S(!new), F(!new), Op(!new)>(m: Machine<S, F, Op>, c: Conf<S, F, Op>, j: nat, c': Conf<S, F, Op>)
    requires Inv(m, c) && !c.ctxDone && c.driver.TearingDown() && j < |c.ends|
    requires WorkerStep(m, c, j, c') || CallbackStep(c, j, c')
    ensures c'.s == c.s
  {
    assert SoloEnd(c.driver, j, c.ends[j]);
  }

  lemma DriverStopsQuiet<S(!new), F(!new), Op(!new)>(m: Machine<S, F, Op>, c: Conf<S, F, Op>, c': Conf<S, F, Op>)
    requires StopsQuiet(m, c) && DriverStep(m, c, c')
    ensures StopsQuiet(m, c')
  {
    assert c'.driver.TearingDown() ==> c'.s == c.s;
  }

  lemma StopsQuietKeeps<S(!new), F(!new), Op(!new)>(m: Machine<S, F, Op>, c: Conf<S, F, Op>, c': Conf<S, F, Op>)
    requires Inv(m, c) && StopsQuiet(m, c) && Step(m, c, c')
    ensures StopsQuiet(m, c')
  {
    if c.ctxDone || Cancel(c, c') || WatcherStep(c, c') {
    } else if DriverStep(m, c, c') {
      DriverStopsQuiet(m, c, c');
    } else {
      var j: nat :| j < |c.ends| && (WorkerStep(m, c, j, c') || CallbackStep(c, j, c'));
      if c.driver.TearingDown() {
        TornDownIsStill(m, c, j, c');
      } else {
        assert !c'.driver.TearingDown();
      }
    }
  }

  lemma {:induction false} ExecutionKeeps<S(!new), F(!new), Op(!new)>(
      m: Machine<S, F, Op>, s: S, cs: seq<Conf<S, F, Op>>)
    requires m.Valid() && Execution(m, s, cs)
    ensures Inv(m, Last(cs)) && StopsQuiet(m, Last(cs))
    decreases |cs|
  {
    if |cs| == 1 {
      InitOk(m, s);
    } else {
      var before := cs[..|cs| - 1];
      ExecutionKeeps(m, s, before);
      assert Step(m, Last(before), Last(cs));
      StopsQuietKeeps(m, Last(before), Last(cs));
      if Next(m, Last(before), Last(cs)) {
        NextKeeps(m, Last(before), Last(cs));
      } else {
        CancelKeeps(m, Last(before), Last(cs));
      }
    }
  }

  lemma NeverUncancelled<S(!new), F(!new), Op(!new)>(m: Machine<S, F, Op>, c: Conf<S, F, Op>, c': Conf<S, F, Op>)
    requires m.Valid() && Inv(m, c) && Step(m, c, c') && !c'.ctxDone
    ensures !c.ctxDone && Next(m, c, c')
  {
    if Next(m, c, c') { NextKeeps(m, c, c'); }
  }

  /** ks says, state by state, how far along the sequential loop the execution cs is. */
  ghost predicate Matches<S(!new), F(!new), Op(!new)>(
      m: Machine<S, F, Op>, s: S, cs: seq<Conf<S, F, Op>>, ks: seq<nat>)
  {
    && |ks| == |cs| && (ks != [] ==> ks[0] == 0)
    && (forall i: nat | i + 1 < |ks| :: ks[i] <= ks[i + 1] <= ks[i] + 1)
    && (forall i: nat | i < |cs| :: Abs(m, cs[i]) == SeqRun(m, Seq(s, []), ks[i]))
  }

  lemma Extend<S(!new), F(!new), Op(!new)>(
      m: Machine<S, F, Op>, s: S, cs: seq<Conf<S, F, Op>>, ks: seq<nat>, c': Conf<S, F, Op>)
    returns (ks': seq<nat>)
    requires cs != [] && Matches(m, s, cs, ks) && Follows(m, Abs(m, Last(cs)), Abs(m, c'))
    ensures Matches(m, s, cs + [c'], ks')
  {
    var k := Last(ks);
    var k' := if Abs(m, c') == Abs(m, Last(cs)) then k else k + 1;
    assert Abs(m, c') == SeqRun(m, Seq(s, []), k') by {
      assert Abs(m, cs[|cs| - 1]) == SeqRun(m, Seq(s, []), ks[|ks| - 1]);
      assert SeqStep(m, SeqRun(m, Seq(s, []), k)) == SeqRun(m, Seq(s, []), k + 1);
    }
    ks' := ks + [k'];
    MatchesMore(m, s, cs, ks, c', k');
  }

  lemma MatchesMore<S(!new), F(!new), Op(!new)>(m: Machine<S, F, Op>, s: S, cs: seq<Conf<S, F, Op>>, ks: seq<nat>,
                                                c': Conf<S, F, Op>, k': nat)
    requires cs != [] && Matches(m, s, cs, ks) && Last(ks) <= k' <= Last(ks) + 1
             && Abs(m, c') == SeqRun(m, Seq(s, []), k')
    ensures Matches(m, s, cs + [c'], ks + [k'])
  {
    var cs', ks' := cs + [c'], ks + [k'];
    forall i: nat | i < |cs'| ensures Abs(m, cs'[i]) == SeqRun(m, Seq(s, []), ks'[i]) {
      if i < |cs| {
        assert cs'[i] == cs[i] && ks'[i] == ks[i];
      }
    }
    forall i: nat | i + 1 < |ks'| ensures ks'[i] <= ks'[i + 1] <= ks'[i] + 1 {
      if i + 1 < |ks| {
        assert ks[i] <= ks[i + 1] <= ks[i] + 1;
      }
    }
  }

  /** Schedule independence: an uncancelled execution visits the states of the one sequential run, in its order,
      skipping none. */
  lemma {:induction false} FollowsSequential<S(!new), F(!new), Op(!new)>(
      m: Machine<S, F, Op>, s: S, cs: seq<Conf<S, F, Op>>)
    returns (ks: seq<nat>)
    requires m.Valid() && Execution(m, s, cs) && !Last(cs).ctxDone
    ensures Matches(m, s, cs, ks)
    decreases |cs|
  {
    if |cs| == 1 {
      ks := [0];
    } else {
      var before := cs[..|cs| - 1];
      var c, c' := Last(before), Last(cs);
      ExecutionKeeps(m, s, before);
      assert Step(m, c, c');
      NeverUncancelled(m, c, c');
      var ks0 := FollowsSequential(m, s, before);
      NextFollows(m, c, c');
      ks := Extend(m, s, before, ks0, c');
      assert before + [c'] == cs;
    }
  }

  lemma {:induction false} HaltedStays<S(!new), F(!new), Op(!new)>(m: Machine<S, F, Op>, q: Seq<S, Op>, i: nat, k: nat)
    requires i <= k && Halted(m, SeqRun(m, q, i))
    ensures SeqRun(m, q, k) == SeqRun(m, q, i)
    decreases k
  {
    if i < k {
      HaltedStays(m, q, i, k - 1);
    }
  }

  /** Whatever the interleaving, uncancelled runs that reach teardown agree on the shared state: the one where the
      sequential loop halts. */
  lemma SameOutcome<S(!new), F(!new), Op(!new)>(m: Machine<S, F, Op>, s: S, cs: seq<Conf<S, F, Op>>, n: nat)
    requires m.Valid() && Execution(m, s, cs) && !Last(cs).ctxDone && Last(cs).driver.TearingDown()
    requires Halted(m, SeqRun(m, Seq(s, []), n))
    ensures Last(cs).s == SeqRun(m, Seq(s, []), n).s
  {
    ExecutionKeeps(m, s, cs);
    var ks := FollowsSequential(m, s, cs);
    var k := Last(ks);
    assert Abs(m, cs[|cs| - 1]) == SeqRun(m, Seq(s, []), ks[|ks| - 1]);
    if k <= n {
      HaltedStays(m, Seq(s, []), k, n);
    } else {
      HaltedStays(m, Seq(s, []), n, k);
    }
  }
}
