/** The engine's own threads: the rendezvous protocol run on the engine's scheduler, transport ends and sessions. */
module EngineThreads {
  import opened Basics
  import opened Clock
  import opened Scenarios
  import opened AgentProto
  import opened CallerSession
  import opened Engine
  import opened Runs
  import opened OfflineRun
  import opened Rendezvous
  import opened RendezvousRefines
  import opened RendezvousTeardown

  /** A critical section: session i handles a callback at the current time, or puts one event on the clock. */
  datatype Section = Handle(i: nat, cb: Callback) | Enqueue(i: nat, r: Request)

  /** End 2i is caller i's, end 2i + 1 its agent's. */
  function Pops(callers: nat, w: World): Fired<World, Callback, Section> {
    if w.heap == [] || Pop(w.heap).0.session >= callers then Quiet
    else
      var (e, rest) := Pop(w.heap);
      var w' := w.(now := Later(w.now, e.deliverAt), heap := rest);
      match e.fn
      case ToAgent(_) => Deliver(w', 2 * e.session + 1, e.fn)
      case ToCaller(_) => Deliver(w', 2 * e.session, e.fn)
      case _ => Inline(w', Handle(e.session, e.fn))
  }

  function Enqueues(i: nat, rs: seq<Request>): seq<Section> {
    seq(|rs|, k requires 0 <= k < |rs| => Enqueue(i, rs[k]))
  }

  function Enqueued(w: World, i: nat, r: Request): World {
    w.(heap := Push(w.heap, Stamp(w.now, i, r)))
  }

  function Execute(fire: Reaction, w: World, op: Section): (World, seq<Section>) {
    match op
    case Handle(i, cb) =>
      if i < |w.sess| then
        var r := fire(i, w.now, w.sess[i], cb);
        (w.(sess := w.sess[i := r.0]), Enqueues(i, r.1))
      else (w, [])
    case Enqueue(i, r) => (Enqueued(w, i, r), [])
  }

  /** The protocol over a reaction that makes at most `most` Schedule calls. */
  function Threads(fire: Reaction, callers: nat, most: nat): Machine<World, Callback, Section> {
    Machine(2 * callers,
            (w: World) => Pops(callers, w),
            (j: nat, cb: Callback) => Handle(j / 2, cb),
            (w: World, op: Section) => Execute(fire, w, op),
            (op: Section) => if op.Handle? then most + 1 else 1)
  }

  ghost predicate AtMost(fire: Reaction, most: nat) {
    forall i: nat, now: int, s: Sess, cb: Callback :: |fire(i, now, s, cb).1| <= most
  }

  lemma {:induction false} EnqueuesRank(m: Machine<World, Callback, Section>, i: nat, rs: seq<Request>)
    requires forall op: Section :: op.Enqueue? ==> m.rank(op) == 1
    ensures m.Rank(Enqueues(i, rs)) == |rs|
    decreases |rs|
  {
    if rs != [] {
      EnqueuesRank(m, i, rs[1..]);
      assert Enqueues(i, rs)[1..] == Enqueues(i, rs[1..]);
    }
  }

  lemma ExecuteRank(m: Machine<World, Callback, Section>, fire: Reaction, most: nat, w: World, op: Section)
    requires AtMost(fire, most) && forall o: Section :: m.rank(o) == if o.Handle? then most + 1 else 1
    ensures m.Rank(Execute(fire, w, op).1) < m.rank(op)
  {
    if op.Handle? && op.i < |w.sess| {
      EnqueuesRank(m, op.i, fire(op.i, w.now, w.sess[op.i], op.cb).1);
    }
  }

  lemma PopsEnds(callers: nat, w: World)
    ensures Pops(callers, w).Deliver? ==> Pops(callers, w).end < 2 * callers
  {}

  lemma ThreadsValid(fire: Reaction, callers: nat, most: nat)
    requires AtMost(fire, most)
    ensures Threads(fire, callers, most).Valid()
  {
    var m := Threads(fire, callers, most);
    forall w: World, op: Section ensures m.Rank(m.exec(w, op).1) < m.rank(op) {
      ExecuteRank(m, fire, most, w, op);
    }
    forall w: World ensures m.fire(w).Deliver? ==> m.fire(w).end < m.ends {
      PopsEnds(callers, w);
    }
  }

  // ---- small steps and turns of the drive loop ----

  lemma {:induction false} RunOn<S(!new), F(!new), Op(!new)>(m: Machine<S, F, Op>, q: Seq<S, Op>, a: nat, b: nat)
    ensures SeqRun(m, q, a + b) == SeqRun(m, SeqRun(m, q, a), b)
    decreases b
  {
    if b > 0 {
      RunOn(m, q, a, b - 1);
    }
  }

  lemma {:induction false} EnqueuesRun(m: Machine<World, Callback, Section>, w: World, i: nat, rs: seq<Request>)
    requires Enqueueing(m, i)
    ensures SeqRun(m, Seq(w, Enqueues(i, rs)), |rs|) == Seq(w.(heap := PushAll(w.heap, w.now, i, rs)), [])
    decreases |rs|
  {
    if rs == [] {
      assert Enqueues(i, rs) == [];
    } else {
      var w' := Enqueued(w, i, rs[0]);
      FirstEnqueue(m, w, w', i, rs);
      EnqueuesRun(m, w', i, rs[1..]);
      RunOn(m, Seq(w, Enqueues(i, rs)), 1, |rs| - 1);
    }
  }

  /** The Enqueue sections of session i do what they say. */
  ghost predicate Enqueueing(m: Machine<World, Callback, Section>, i: nat) {
    forall v: World, r: Request :: m.exec(v, Enqueue(i, r)) == (Enqueued(v, i, r), [])
  }

  lemma FirstEnqueue(m: Machine<World, Callback, Section>, w: World, w': World, i: nat, rs: seq<Request>)
    requires rs != [] && m.exec(w, Enqueue(i, rs[0])) == (w', [])
    ensures SeqRun(m, Seq(w, Enqueues(i, rs)), 1) == Seq(w', Enqueues(i, rs[1..]))
  {
    var q := Seq(w, Enqueues(i, rs));
    assert q.ops[0] == Enqueue(i, rs[0]);
    assert [] + q.ops[1..] == Enqueues(i, rs[1..]);
    assert SeqRun(m, q, 1) == SeqStep(m, SeqRun(m, q, 0));
  }

  /** The sequential loop gets from w to w', with no section left to run. */
  ghost predicate Reaches(m: Machine<World, Callback, Section>, w: World, w': World) {
    exists k: nat :: SeqRun(m, Seq(w, []), k) == Seq(w', [])
  }

  lemma TwoSteps<S(!new), F(!new), Op(!new)>(m: Machine<S, F, Op>, q: Seq<S, Op>)
    ensures SeqRun(m, q, 2) == SeqStep(m, SeqStep(m, q))
  {
    assert SeqRun(m, q, 1) == SeqStep(m, SeqRun(m, q, 0));
  }

  /** A popped event's section comes next, whichever thread runs it. */
  lemma PopStep(m: Machine<World, Callback, Section>, callers: nat, w: World)
    requires (forall v: World :: m.fire(v) == Pops(callers, v))
             && (forall j: nat, cb: Callback :: m.react(j, cb) == Handle(j / 2, cb))
    requires w.heap != [] && Pop(w.heap).0.session < callers
    ensures var (e, rest) := Pop(w.heap);
            SeqStep(m, Seq(w, [])) == Seq(w.(now := Later(w.now, e.deliverAt), heap := rest), [Handle(e.session, e.fn)])
  {
    PopsOwner(callers, w, Pop(w.heap).0, Pop(w.heap).1);
  }

  /** Either the driver runs the event's section or the end it goes to is its session's. */
  lemma PopsOwner(callers: nat, w: World, e: Pending, rest: seq<Pending>)
    requires w.heap != [] && Pop(w.heap) == (e, rest) && e.session < callers
    ensures var w1 := w.(now := Later(w.now, e.deliverAt), heap := rest);
            var f := Pops(callers, w);
            f == Inline(w1, Handle(e.session, e.fn))
              || (f.Deliver? && f.s == w1 && f.end / 2 == e.session && f.f == e.fn)
  {}

  lemma HandleStep(m: Machine<World, Callback, Section>, fire: Reaction, w: World, i: nat, cb: Callback)
    requires forall v: World, op: Section :: m.exec(v, op) == Execute(fire, v, op)
    requires i < |w.sess|
    ensures var r := fire(i, w.now, w.sess[i], cb);
            SeqStep(m, Seq(w, [Handle(i, cb)])) == Seq(w.(sess := w.sess[i := r.0]), Enqueues(i, r.1))
  {
    var r := fire(i, w.now, w.sess[i], cb);
    assert Enqueues(i, r.1) + [Handle(i, cb)][1..] == Enqueues(i, r.1);
  }

  /** Popping, reacting and enqueueing every request is one turn of the drive loop. */
  lemma SmallTurn(m: Machine<World, Callback, Section>, fire: Reaction, w: World, w1: World, w2: World)
    requires w.heap != [] && Owned(w)
    requires var (e, rest) := Pop(w.heap);
             && w1 == w.(now := Later(w.now, e.deliverAt), heap := rest)
             && var r := fire(e.session, w1.now, w1.sess[e.session], e.fn);
                && w2 == w1.(sess := w1.sess[e.session := r.0])
                && SeqRun(m, Seq(w, []), 2) == Seq(w2, Enqueues(e.session, r.1))
    requires forall i: nat :: Enqueueing(m, i)
    ensures Reaches(m, w, Advance(fire, w))
  {
    var e := Pop(w.heap).0;
    var rs := fire(e.session, w1.now, w1.sess[e.session], e.fn).1;
    EnqueuesRun(m, w2, e.session, rs);
    RunOn(m, Seq(w, []), 2, |rs|);
  }

  /** The machine's parts, without its unfolded definition. */
  ghost predicate IsEngine(m: Machine<World, Callback, Section>, fire: Reaction, callers: nat) {
    && (forall v: World :: m.fire(v) == Pops(callers, v))
    && (forall j: nat, cb: Callback :: m.react(j, cb) == Handle(j / 2, cb))
    && (forall v: World, op: Section :: m.exec(v, op) == Execute(fire, v, op))
  }

  lemma ThreadsRun(fire: Reaction, callers: nat, most: nat)
    ensures IsEngine(Threads(fire, callers, most), fire, callers)
  {}

  lemma TurnRun(m: Machine<World, Callback, Section>, fire: Reaction, callers: nat, w: World, e: Pending,
                rest: seq<Pending>)
    requires IsEngine(m, fire, callers) && w.heap != [] && Owned(w) && |w.sess| == callers && Pop(w.heap) == (e, rest)
    ensures Reaches(m, w, Advance(fire, w))
  {
    var w1 := w.(now := Later(w.now, e.deliverAt), heap := rest);
    var w2 := w1.(sess := w1.sess[e.session := fire(e.session, w1.now, w1.sess[e.session], e.fn).0]);
    PopStep(m, callers, w);
    HandleStep(m, fire, w1, e.session, e.fn);
    TwoSteps(m, Seq(w, []));
    assert w1.sess == w.sess;
    assert SeqStep(m, Seq(w, [])) == Seq(w1, [Handle(e.session, e.fn)]);
    assert SeqRun(m, Seq(w, []), 2)
           == Seq(w2, Enqueues(e.session, fire(e.session, w1.now, w1.sess[e.session], e.fn).1));
    forall i: nat ensures Enqueueing(m, i) {
      EngineEnqueues(m, fire, callers, i);
    }
    SmallTurn(m, fire, w, w1, w2);
  }

  lemma EngineEnqueues(m: Machine<World, Callback, Section>, fire: Reaction, callers: nat, i: nat)
    requires IsEngine(m, fire, callers)
    ensures Enqueueing(m, i)
  {}

  /** A turn of the loop, under the name it has in Drives. */
  lemma NamedTurnRun(m: Machine<World, Callback, Section>, fire: Reaction, callers: nat, w: World, w': World)
    requires IsEngine(m, fire, callers) && w.heap != [] && Owned(w) && |w.sess| == callers && w' == Advance(fire, w)
    ensures Reaches(m, w, w')
  {
    TurnRun(m, fire, callers, w, Pop(w.heap).0, Pop(w.heap).1);
  }

  lemma DryHalts(m: Machine<World, Callback, Section>, fire: Reaction, callers: nat, w: World)
    requires IsEngine(m, fire, callers) && w.heap == []
    ensures Halted(m, Seq(w, []))
  {}

  /** If every turn is a stretch of small steps, so is every number of turns. */
  lemma {:induction false} TurnsRun(m: Machine<World, Callback, Section>, turn: World -> World, w: World, n: nat)
    requires forall k: nat | k < n && Drives(turn, w, k).heap != [] ::
               Reaches(m, Drives(turn, w, k), turn(Drives(turn, w, k)))
    ensures Reaches(m, w, Drives(turn, w, n))
  {
    var q := Seq(w, []);
    if n == 0 {
      assert SeqRun(m, q, 0) == Seq(Drives(turn, w, n), []);
    } else {
      TurnsRun(m, turn, w, n - 1);
      var v := Drives(turn, w, n - 1);
      var k: nat :| SeqRun(m, q, k) == Seq(v, []);
      if v.heap != [] {
        var j: nat :| SeqRun(m, Seq(v, []), j) == Seq(turn(v), []);
        RunOn(m, q, k, j);
        assert SeqRun(m, q, k + j) == Seq(Drives(turn, w, n), []);
      }
    }
  }

  // ---- the engine's reaction makes boundedly many Schedule calls ----

  /** The longest scripted barge-in burst. */
  function LongestBurst(sc: Scenario, turns: seq<CallerTurn>): nat
    requires FrameMs(sc) != 0
  {
    if turns == [] then 0
    else
      var rest := LongestBurst(sc, turns[1..]);
      var own := if turns[0].bargeIn.Some? then BurstLen(sc, turns[0].bargeIn.value.durMs) else 0;
      if own > rest then own else rest
  }

  lemma {:induction false} BurstAtMost(sc: Scenario, turns: seq<CallerTurn>, k: nat)
    requires FrameMs(sc) != 0 && k < |turns| && turns[k].bargeIn.Some?
    ensures BurstLen(sc, turns[k].bargeIn.value.durMs) <= LongestBurst(sc, turns)
  {
    if k > 0 {
      BurstAtMost(sc, turns[1..], k - 1);
    }
  }

  function MostRequests(sc: Scenario): nat
    requires FrameMs(sc) != 0
  {
    LongestBurst(sc, sc.turns) + Frames(sc.Cfg()) + 2
  }

  lemma ReactorAtMost(sc: Scenario)
    requires FrameMs(sc) != 0
    ensures AtMost(Reactor(sc), MostRequests(sc))
  {
    forall i: nat, now: int, s: Sess, cb: Callback ensures |Reactor(sc)(i, now, s, cb).1| <= MostRequests(sc) {
      if cb.ToCaller? && cb.frame.kind.TurnStart? && ScriptedBargeIn(sc, s.caller.obsTurn + 1).Some? {
        BurstAtMost(sc, sc.turns, s.caller.obsTurn);
      }
    }
  }

  function EngineMachine(sc: Scenario): Machine<World, Callback, Section>
    requires FrameMs(sc) != 0
  {
    Threads(Reactor(sc), sc.callers, MostRequests(sc))
  }

  // ---- results ----

  /** A run of the engine's threads from the moment the workers are launched. */
  ghost predicate EngineRun(sc: Scenario, cs: seq<Conf<World, Callback, Section>>)
    requires FrameMs(sc) != 0
  {
    Execution(EngineMachine(sc), Start(sc), cs)
  }

  lemma EngineValid(sc: Scenario)
    requires FrameMs(sc) != 0
    ensures EngineMachine(sc).Valid()
  {
    ReactorAtMost(sc);
    ThreadsValid(Reactor(sc), sc.callers, MostRequests(sc));
  }

  /** Every turn of the drive loop is a stretch of small steps, and it is over when the machine halts. */
  ghost predicate Unrolls(m: Machine<World, Callback, Section>, turn: World -> World, callers: nat) {
    && (forall v: World | v.heap != [] && Owned(v) && |v.sess| == callers ::
          Reaches(m, v, turn(v)))
    && (forall v: World | v.heap == [] :: Halted(m, Seq(v, [])))
  }

  lemma EngineUnrolls(m: Machine<World, Callback, Section>, fire: Reaction, callers: nat)
    requires IsEngine(m, fire, callers)
    ensures Unrolls(m, Turn(fire), callers)
  {
    forall v: World | v.heap != [] && Owned(v) && |v.sess| == callers
      ensures Reaches(m, v, Turn(fire)(v))
    {
      NamedTurnRun(m, fire, callers, v, Turn(fire)(v));
    }
    forall v: World | v.heap == [] ensures Halted(m, Seq(v, [])) {
      DryHalts(m, fire, callers, v);
    }
  }

  lemma UnrollsAt(m: Machine<World, Callback, Section>, turn: World -> World, callers: nat, v: World)
    requires Unrolls(m, turn, callers) && v.heap != [] && Owned(v) && |v.sess| == callers
    ensures Reaches(m, v, turn(v))
  {}

  /** A drive loop that runs dry after n turns does so where the sequential loop halts. */
  lemma HaltsThere(m: Machine<World, Callback, Section>, callers: nat, turn: World -> World, w: World, n: nat)
    returns (k: nat)
    requires Unrolls(m, turn, callers) && Drives(turn, w, n).heap == []
    requires forall i: nat | i < n :: Owned(Drives(turn, w, i)) && |Drives(turn, w, i).sess| == callers
    ensures SeqRun(m, Seq(w, []), k) == Seq(Drives(turn, w, n), []) && Halted(m, Seq(Drives(turn, w, n), []))
  {
    forall i: nat | i < n && Drives(turn, w, i).heap != []
      ensures Reaches(m, Drives(turn, w, i), turn(Drives(turn, w, i)))
    {
      UnrollsAt(m, turn, callers, Drives(turn, w, i));
    }
    TurnsRun(m, turn, w, n);
    k :| SeqRun(m, Seq(w, []), k) == Seq(Drives(turn, w, n), []);
  }

  /** The drive loop's final state is where the sequential loop halts. */
  lemma HaltsAtEnd(sc: Scenario, m: Machine<World, Callback, Section>, w: World) returns (k: nat)
    requires sc.Valid() && FrameMs(sc) > 0 && m == EngineMachine(sc) && w == Start(sc)
    ensures SeqRun(m, Seq(w, []), k) == Seq(RunFor(sc, LoopBound(sc)), [])
    ensures Halted(m, SeqRun(m, Seq(w, []), k))
  {
    var turn := Turn(Reactor(sc));
    ThreadsRun(Reactor(sc), sc.callers, MostRequests(sc));
    RunTerminates(sc);
    forall i: nat | i < LoopBound(sc) ensures Owned(Drives(turn, w, i)) && |Drives(turn, w, i).sess| == sc.callers {
      RunKeeps(sc, i);
    }
    EngineUnrolls(m, Reactor(sc), sc.callers);
    k := HaltsThere(m, sc.callers, turn, w, LoopBound(sc));
  }

  /** Schedule independence: every interleaving, left to finish uncancelled, ends in the state of the sequential
      drive loop -- the same clock, the same sessions, the same logs -- with every goroutine gone. */
  lemma ScheduleIndependence(sc: Scenario, cs: seq<Conf<World, Callback, Section>>)
    requires sc.Valid() && FrameMs(sc) > 0
    requires EngineRun(sc, cs) && !Last(cs).ctxDone && forall c' :: !Next(EngineMachine(sc), Last(cs), c')
    ensures Last(cs).s == RunFor(sc, LoopBound(sc)) && Ended(sc, Last(cs).s)
    ensures Last(cs).wg == 0 && Last(cs).live == 0
  {
    EngineValid(sc);
    FinalState(EngineMachine(sc), Start(sc), cs);
    var k := HaltsAtEnd(sc, EngineMachine(sc), Start(sc));
    SameOutcome(EngineMachine(sc), Start(sc), cs, k);
    RunTerminates(sc);
  }

  /** Every run of the engine ends, cancelled at any point or not at all. */
  lemma EngineRunEnds(sc: Scenario, tr: nat -> Conf<World, Callback, Section>)
    requires sc.Valid() && FrameMs(sc) > 0 && tr(0) == Init(EngineMachine(sc), Start(sc))
    ensures exists n: nat :: !Step(EngineMachine(sc), tr(n), tr(n + 1))
  {
    EngineValid(sc);
    var k := HaltsAtEnd(sc, EngineMachine(sc), Start(sc));
    EveryRunEnds(EngineMachine(sc), Start(sc), tr, k);
  }

  /** And where it ends, cancelled or not, the driver has returned and no goroutine is left. */
  lemma EngineTearsDown(sc: Scenario, cs: seq<Conf<World, Callback, Section>>)
    requires FrameMs(sc) != 0 && EngineRun(sc, cs) && forall c' :: !Next(EngineMachine(sc), Last(cs), c')
    ensures Last(cs).driver.Finished? && Last(cs).wg == 0 && Last(cs).live == 0
    ensures forall e | e in Last(cs).ends :: e.worker.Gone? && e.closed
  {
    EngineValid(sc);
    FinalState(EngineMachine(sc), Start(sc), cs);
  }

  /** Frames for caller i go to its end, 2i, those for its agent to the agent's end, 2i + 1; the driver runs every other
      callback itself. */
  ghost predicate OwnEnd(cb: Callback, session: nat, f: Fired<World, Callback, Section>) {
    match f
    case Deliver(_, end, g) =>
      g == cb && ((cb.ToCaller? && end == 2 * session) || (cb.ToAgent? && end == 2 * session + 1))
    case Inline(_, op) => op == Handle(session, cb) && !cb.ToCaller? && !cb.ToAgent?
    case Quiet => false
  }

  lemma PopsOwnEnd(callers: nat, w: World, e: Pending, rest: seq<Pending>)
    requires w.heap != [] && Pop(w.heap) == (e, rest) && e.session < callers
    ensures OwnEnd(e.fn, e.session, Pops(callers, w))
  {}

  lemma EndsGetTheirOwn(sc: Scenario, w: World)
    requires FrameMs(sc) != 0 && w.heap != [] && Pop(w.heap).0.session < sc.callers
    ensures OwnEnd(Pop(w.heap).0.fn, Pop(w.heap).0.session, EngineMachine(sc).fire(w))
  {
    ThreadsRun(Reactor(sc), sc.callers, MostRequests(sc));
    PopsOwnEnd(sc.callers, w, Pop(w.heap).0, Pop(w.heap).1);
  }
}
