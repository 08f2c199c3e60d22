/** The offline run on real objects: build, prime, drive to quiescence (internal/engine/engine.go:87-163, 203-212). */
module EngineLoop {
  import opened Audio
  import opened Basics
  import opened Clock
  import opened Impair
  import opened EventLog
  import opened Scenarios
  import AgentProto
  import CallerSession
  import opened Engine
  import opened FakeAgents
  import opened Sessions
  import opened Rigs
  import opened Runs
  import opened OfflineRun

  /** No two rigs share an object. */
  ghost predicate Apart(rigs: seq<Rig>) {
    forall j, k | 0 <= j < k < |rigs| ::
      && rigs[j] != rigs[k] && rigs[j].agent != rigs[k].agent
      && rigs[j].caller != rigs[k].caller && rigs[j].downlink != rigs[k].downlink
  }

  ghost predicate Includes(objects: set<object>, r: Rig) {
    r in objects && r.agent in objects && r.caller in objects && r.downlink in objects
  }

  ghost predicate AllIn(objects: set<object>, rigs: seq<Rig>) {
    forall k | 0 <= k < |rigs| :: Includes(objects, rigs[k])
  }

  /** The rigs of one run, on one clock; `objects` holds everything they are made of. */
  ghost predicate Wired(sc: Scenario, clock: ManualClock<Callback>, rigs: seq<Rig>, objects: set<object>)
    reads clock, objects
  {
    && clock.Valid() && Apart(rigs) && AllIn(objects, rigs)
    && forall k | 0 <= k < |rigs| ::
         rigs[k].clock == clock && rigs[k].sc == sc && rigs[k].index == k && rigs[k].Valid()
  }

  /** The session states the objects stand for. */
  ghost function States(rigs: seq<Rig>, objects: set<object>): seq<Sess>
    requires AllIn(objects, rigs)
    reads objects
  {
    seq(|rigs|, k requires 0 <= k < |rigs| reads objects => rigs[k].State())
  }

  /** The sequential engine state the objects stand for. */
  ghost function WorldOf(clock: ManualClock<Callback>, rigs: seq<Rig>, objects: set<object>): World
    requires AllIn(objects, rigs)
    reads clock, objects
  {
    World(clock.now, clock.heap, States(rigs, objects))
  }

  // ---- one turn ----

  /** Handling an event changes its own session and the clock, nothing else. */
  method HandleAt(sc: Scenario, clock: ManualClock<Callback>, rigs: seq<Rig>, e: Pending, ghost objects: set<object>)
    requires Wired(sc, clock, rigs, objects) && e.session < |rigs| && CallerSession.FrameMs(sc) != 0
    modifies clock, objects
    ensures Wired(sc, clock, rigs, objects) && clock.now == old(clock.now)
    ensures var r := Fire(sc, e.session, clock.now, old(rigs[e.session].State()), e.fn);
            && rigs[e.session].State() == r.0
            && clock.history == old(clock.history) + Pushes(clock.now, e.session, r.1)
    ensures forall k: nat | k < |rigs| && k != e.session :: rigs[k].State() == old(rigs[k].State())
  {
    rigs[e.session].Handle(e.fn);
  }

  lemma AdvanceIs(fire: Reaction, w: World, w': World, e: Pending, rest: seq<Pending>, r: (Sess, seq<Request>))
    requires w.heap != [] && Owned(w) && Pop(w.heap) == (e, rest)
    requires r == fire(e.session, Later(w.now, e.deliverAt), w.sess[e.session], e.fn)
    requires w'.now == Later(w.now, e.deliverAt) && w'.heap == PushAll(rest, w'.now, e.session, r.1)
    requires w'.sess == w.sess[e.session := r.0]
    ensures w' == Advance(fire, w)
  {}

  /** Mentioned to look at a state's turn; proofs that only count turns are spared it. */
  ghost predicate Consider(w: World) { true }

  /** `turn` takes the sequential loop's turns. */
  ghost predicate IsTurn(fire: Reaction, turn: World -> World) {
    forall w: World {:trigger Consider(w)} ::
      Consider(w) && w.heap != [] && Owned(w) ==> turn(w) == Advance(fire, w)
  }

  lemma TurnIs(fire: Reaction, turn: World -> World, w: World, w': World, e: Pending, rest: seq<Pending>,
               r: (Sess, seq<Request>))
    requires IsTurn(fire, turn)
    requires w.heap != [] && Owned(w) && Pop(w.heap) == (e, rest) && w.now <= e.deliverAt == w'.now
    requires r == fire(e.session, w'.now, w.sess[e.session], e.fn)
    requires w'.heap == PushAll(rest, w'.now, e.session, r.1) && w'.sess == w.sess[e.session := r.0]
    ensures w' == turn(w)
  {
    assert Consider(w);
    AdvanceIs(fire, w, w', e, rest, r);
  }

  /** The popped event is handled. */
  method TurnOn(sc: Scenario, clock: ManualClock<Callback>, rigs: seq<Rig>, e: Pending,
                ghost sess: seq<Sess>, ghost objects: set<object>) returns (ghost r: (Sess, seq<Request>))
    requires Wired(sc, clock, rigs, objects) && CallerSession.FrameMs(sc) != 0 && e.session < |rigs|
    requires sess == States(rigs, objects)
    modifies clock, objects
    ensures Wired(sc, clock, rigs, objects) && r == Reactor(sc)(e.session, clock.now, sess[e.session], e.fn)
    ensures clock.now == old(clock.now) && clock.heap == PushAll(old(clock.heap), clock.now, e.session, r.1)
    ensures States(rigs, objects) == sess[e.session := r.0]
  {
    clock.HeapIsHistory();
    r := Fire(sc, e.session, clock.now, sess[e.session], e.fn);
    RebuildPushes(clock.history, clock.now, e.session, r.1);
    HandleAt(sc, clock, rigs, e, objects);
    clock.HeapIsHistory();
  }

  /** One turn of drive: pop, react, and tell whether there was anything to do. */
  method Turn(sc: Scenario, clock: ManualClock<Callback>, rigs: seq<Rig>,
              ghost turn: World -> World, ghost w: World, ghost objects: set<object>) returns (fired: bool)
    requires Wired(sc, clock, rigs, objects) && CallerSession.FrameMs(sc) != 0
    requires WorldOf(clock, rigs, objects) == w && Owned(w) && IsTurn(Reactor(sc), turn)
    modifies clock, objects
    ensures Wired(sc, clock, rigs, objects) && (fired <==> w.heap != [])
    ensures WorldOf(clock, rigs, objects) == if fired then turn(w) else w
  {
    var next := clock.Advance();
    fired := next.Some?;
    assert States(rigs, objects) == w.sess;
    if fired {
      ghost var rest := clock.heap;
      ghost var r := TurnOn(sc, clock, rigs, next.value, w.sess, objects);
      TurnIs(Reactor(sc), turn, w, WorldOf(clock, rigs, objects), next.value, rest, r);
    }
  }

  // ---- the loop ----

  lemma OneMoreTurn(turn: World -> World, w0: World, n: nat, b: nat)
    requires n <= b && Drives(turn, w0, n).heap != [] && Drives(turn, w0, b).heap == []
    ensures n < b && Drives(turn, w0, n + 1) == turn(Drives(turn, w0, n))
  {}

  /** The loop of drive (engine.go:203-212), following a sequential loop that starts at w0 and is known to run dry. */
  method DriveAlong(sc: Scenario, clock: ManualClock<Callback>, rigs: seq<Rig>,
                    ghost turn: World -> World, ghost w0: World, ghost b: nat, ghost objects: set<object>)
    returns (ghost n: nat)
    requires CallerSession.FrameMs(sc) != 0 && Wired(sc, clock, rigs, objects)
    requires WorldOf(clock, rigs, objects) == w0 && IsTurn(Reactor(sc), turn)
    requires Drives(turn, w0, b).heap == [] && forall k: nat :: Owned(Drives(turn, w0, k))
    modifies clock, objects
    ensures Wired(sc, clock, rigs, objects) && WorldOf(clock, rigs, objects) == Drives(turn, w0, n) && clock.heap == []
  {
    n := 0;
    var more := true;
    while more
      invariant Wired(sc, clock, rigs, objects) && WorldOf(clock, rigs, objects) == Drives(turn, w0, n) && n <= b
      invariant !more ==> clock.heap == []
      decreases b - n, more
    {
      ghost var w := WorldOf(clock, rigs, objects);
      more := Turn(sc, clock, rigs, turn, w, objects);
      if more {
        OneMoreTurn(turn, w0, n, b);
        n := n + 1;
      }
    }
  }

  lemma RunsAreOwned(sc: Scenario, turn: World -> World, w0: World)
    requires sc.Valid() && CallerSession.FrameMs(sc) > 0 && turn == Engine.Turn(Reactor(sc)) && w0 == Start(sc)
    ensures forall k: nat :: Owned(Drives(turn, w0, k))
  {
    forall k: nat ensures Owned(Drives(turn, w0, k)) {
      RunKeeps(sc, k);
    }
  }

  /** drive, from the primed state: it stops, in the one state where the sequential loop ends. */
  method Drive(sc: Scenario, clock: ManualClock<Callback>, rigs: seq<Rig>, ghost w0: World, ghost objects: set<object>)
    returns (ghost w: World)
    requires sc.Valid() && CallerSession.FrameMs(sc) > 0
    requires Wired(sc, clock, rigs, objects) && WorldOf(clock, rigs, objects) == w0 && w0 == Start(sc)
    modifies clock, objects
    ensures Wired(sc, clock, rigs, objects) && WorldOf(clock, rigs, objects) == w && Ended(sc, w)
  {
    ghost var turn := Engine.Turn(Reactor(sc));
    RunTerminates(sc);
    RunsAreOwned(sc, turn, w0);
    ghost var n := DriveAlong(sc, clock, rigs, turn, w0, LoopBound(sc), objects);
    w := WorldOf(clock, rigs, objects);
    assert w == RunFor(sc, n);
  }

  // ---- building and priming ----

  /** A session as its constructor leaves it. */
  function Blank(): Sess {
    Sess(AgentProto.IDLE_AGENT, CallerSession.Caller([], 0, 0, 0), FRESH_LINK, EMPTY_TRACE)
  }

  method Build(sc: Scenario, clock: ManualClock<Callback>) returns (rigs: seq<Rig>, ghost objects: set<object>)
    requires CallerSession.FrameMs(sc) != 0 && sc.profile.jitterMs >= 0 && clock.Valid()
    ensures |rigs| == sc.callers && Wired(sc, clock, rigs, objects) && fresh(objects)
    ensures forall k: nat | k < |rigs| :: rigs[k].State() == Blank()
  {
    rigs, objects := [], {};
    while |rigs| < sc.callers
      invariant |rigs| <= sc.callers && Wired(sc, clock, rigs, objects) && fresh(objects)
      invariant forall k: nat | k < |rigs| :: rigs[k].State() == Blank()
    {
      var r := new Rig(sc, |rigs|, clock);
      rigs := rigs + [r];
      objects := objects + {r, r.agent, r.caller, r.downlink};
    }
  }

  /** Priming schedules rs and leaves the session `primed`. */
  ghost predicate IsPriming(sc: Scenario, rs: seq<Request>, primed: Sess)
    requires CallerSession.FrameMs(sc) != 0
  {
    && rs == CallerSession.Prompts(sc, sc.turns, 0, BASE_CLOCK_MS)
    && primed == Blank().(caller := CallerSession.Caller([], |rs|, 0, BASE_CLOCK_MS))
  }

  method PrimeOne(sc: Scenario, clock: ManualClock<Callback>, rigs: seq<Rig>, i: nat,
                  ghost rs: seq<Request>, ghost primed: Sess, ghost objects: set<object>)
    requires CallerSession.FrameMs(sc) != 0 && i < |rigs| && IsPriming(sc, rs, primed)
    requires Wired(sc, clock, rigs, objects) && clock.now == BASE_CLOCK_MS && rigs[i].State() == Blank()
    modifies clock, objects
    ensures Wired(sc, clock, rigs, objects) && clock.now == old(clock.now) && rigs[i].State() == primed
    ensures clock.history == old(clock.history) + Pushes(BASE_CLOCK_MS, i, rs)
    ensures forall k: nat | k < |rigs| && k != i :: rigs[k].State() == old(rigs[k].State())
  {
    rigs[i].caller.Prime();
  }

  /** The pushes that prime the first n sessions. */
  function Primings(rs: seq<Request>, n: nat): seq<HeapOp<Callback>> {
    if n == 0 then [] else Primings(rs, n - 1) + Pushes(BASE_CLOCK_MS, n - 1, rs)
  }

  /** The state of the heap while priming: the history so far, and the heap it makes. */
  ghost predicate Primes(rs: seq<Request>, n: nat, ops: seq<HeapOp<Callback>>, h: seq<Pending>) {
    ops == Primings(rs, n) && h == PrimedHeap(rs, n)
  }

  lemma PrimesNext(rs: seq<Request>, n: nat, m: nat, ops: seq<HeapOp<Callback>>, h: seq<Pending>)
    returns (ops': seq<HeapOp<Callback>>, h': seq<Pending>)
    requires m == n + 1 && Primes(rs, n, ops, h) && Rebuild(ops) == h
    ensures Primes(rs, m, ops', h') && Rebuild(ops') == h'
  {
    ops', h' := ops + Pushes(BASE_CLOCK_MS, n, rs), PushAll(h, BASE_CLOCK_MS, n, rs);
    assert Rebuild(ops') == h' by { RebuildPushes(ops, BASE_CLOCK_MS, n, rs); }
    assert ops' == Primings(rs, m);
    assert h' == PrimedHeap(rs, m);
  }

  lemma {:induction false} PrimingsRebuild(rs: seq<Request>, n: nat)
    returns (ops: seq<HeapOp<Callback>>, h: seq<Pending>)
    ensures Primes(rs, n, ops, h) && Rebuild(ops) == h
  {
    if n == 0 {
      ops, h := [], [];
    } else {
      var ops0, h0 := PrimingsRebuild(rs, n - 1);
      ops, h := PrimesNext(rs, n - 1, n, ops0, h0);
    }
  }

  /** Prime every session before the clock moves (engine.go:99-101); each schedules rs and is left as `primed`. */
  method PrimeAll(sc: Scenario, clock: ManualClock<Callback>, rigs: seq<Rig>,
                  ghost rs: seq<Request>, ghost primed: Sess, ghost objects: set<object>)
    requires CallerSession.FrameMs(sc) != 0 && IsPriming(sc, rs, primed)
    requires Wired(sc, clock, rigs, objects) && clock.history == [] && clock.now == BASE_CLOCK_MS
    requires forall k: nat | k < |rigs| :: rigs[k].State() == Blank()
    modifies clock, objects
    ensures Wired(sc, clock, rigs, objects) && clock.now == BASE_CLOCK_MS && clock.history == Primings(rs, |rigs|)
    ensures forall k: nat | k < |rigs| :: rigs[k].State() == primed
  {
    var i: nat := 0;
    while i < |rigs|
      invariant i <= |rigs| && Wired(sc, clock, rigs, objects) && clock.now == BASE_CLOCK_MS
      invariant clock.history == Primings(rs, i)
      invariant forall k: nat | k < i :: rigs[k].State() == primed
      invariant forall k: nat | i <= k < |rigs| :: rigs[k].State() == Blank()
    {
      PrimeOne(sc, clock, rigs, i, rs, primed, objects);
      i := i + 1;
    }
  }

  /** The primed objects are in the engine's starting state. */
  lemma PrimedIsStart(sc: Scenario, w: World, rs: seq<Request>, primed: Sess)
    requires CallerSession.FrameMs(sc) != 0 && IsPriming(sc, rs, primed)
    requires w.now == BASE_CLOCK_MS && w.heap == PrimedHeap(rs, sc.callers)
    requires |w.sess| == sc.callers && forall k | 0 <= k < sc.callers :: w.sess[k] == primed
    ensures w == Start(sc)
  {
    assert primed == FreshSess(sc);
    assert w.sess == seq(sc.callers, k => FreshSess(sc));
  }

  /** Build the rigs on a new clock and prime them (engine.go:88-101). */
  method Assemble(sc: Scenario)
    returns (clock: ManualClock<Callback>, rigs: seq<Rig>, ghost objects: set<object>, ghost w: World)
    requires CallerSession.FrameMs(sc) != 0 && sc.profile.jitterMs >= 0
    ensures |rigs| == sc.callers && Wired(sc, clock, rigs, objects) && fresh(clock) && fresh(objects)
    ensures WorldOf(clock, rigs, objects) == w && w == Start(sc)
  {
    clock := new ManualClock<Callback>(BASE_CLOCK_MS);
    rigs, objects := Build(sc, clock);
    ghost var rs := CallerSession.Prompts(sc, sc.turns, 0, BASE_CLOCK_MS);
    ghost var primed := Blank().(caller := CallerSession.Caller([], |rs|, 0, BASE_CLOCK_MS));
    PrimeAll(sc, clock, rigs, rs, primed, objects);
    clock.HeapIsHistory();
    ghost var ops, h := PrimingsRebuild(rs, |rigs|);
    w := WorldOf(clock, rigs, objects);
    PrimedIsStart(sc, w, rs, primed);
  }

  // ---- the whole run ----

  /** Drop entries for the frames the queue dropped: stamped with the frame's own time, under no turn. */
  function DropEntries(frames: seq<Frame>): seq<Entry> {
    seq(|frames|, k requires 0 <= k < |frames| => Entry(Drop, frames[k].ts, 0, frames[k]))
  }

  /** The log a session hands over: what it recorded and what its downlink dropped, in canonical order. */
  function FinalLog(s: Sess): seq<Entry> {
    SortedLog(s.caller.log + DropEntries(s.link.dropped))
  }

  /** Fold one session's drops into its log (engine.go:152-161). */
  method Collect(rig: Rig) returns (events: seq<Entry>)
    requires rig.Valid()
    ensures events == FinalLog(rig.State())
  {
    var log := new Log(rig.index);
    log.events := rig.caller.log;
    var dropped := rig.downlink.Dropped();
    var k := 0;
    while k < |dropped|
      invariant 0 <= k <= |dropped| && log.events == rig.caller.log + DropEntries(dropped[..k])
      invariant rig.Valid() && dropped == rig.downlink.dropped
    {
      log.Append(Entry(Drop, dropped[k].ts, 0, dropped[k]));
      k := k + 1;
    }
    assert dropped[..k] == dropped;
    log.Sort();
    events := log.events;
  }

  method CollectAll(sc: Scenario, clock: ManualClock<Callback>, rigs: seq<Rig>, ghost objects: set<object>)
    returns (logs: seq<seq<Entry>>)
    requires Wired(sc, clock, rigs, objects)
    ensures |logs| == |rigs| && forall k: nat | k < |logs| :: logs[k] == FinalLog(States(rigs, objects)[k])
  {
    logs := [];
    while |logs| < |rigs|
      invariant |logs| <= |rigs| && Wired(sc, clock, rigs, objects)
      invariant forall k: nat | k < |logs| :: logs[k] == FinalLog(States(rigs, objects)[k])
    {
      var events := Collect(rigs[|logs|]);
      logs := logs + [events];
    }
  }

  /** Run (engine.go:87-163), uncancelled: the logs are those of the one state in which the sequential loop ends. */
  method Run(sc: Scenario) returns (logs: seq<seq<Entry>>)
    requires sc.Valid() && CallerSession.FrameMs(sc) > 0
    ensures |logs| == sc.callers == |RunFor(sc, LoopBound(sc)).sess|
    ensures forall k: nat | k < |logs| :: logs[k] == FinalLog(RunFor(sc, LoopBound(sc)).sess[k])
  {
    var clock, rigs;
    ghost var objects, w0;
    clock, rigs, objects, w0 := Assemble(sc);
    ghost var w := Drive(sc, clock, rigs, w0, objects);
    EndIsUnique(sc, w);
    logs := CollectAll(sc, clock, rigs, objects);
  }
}
