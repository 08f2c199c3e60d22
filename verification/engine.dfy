/** The offline engine as a sequential event loop (internal/engine/engine.go, internal/transport/loopback.go). */
module Engine {
  import opened Audio
  import opened Basics
  import opened Clock
  import opened Impair
  import opened Scenarios
  import opened AgentProto
  import opened CallerSession

  const BASE_CLOCK_MS := 1_000_000

  /** What is remembered about a started turn: its timers' numbering and how far it got. */
  datatype TurnRec = TurnRec(t0: int, stop: Option<int>, sched: int, started: bool, fired: nat)

  /** Observations of a session that no component reads: frames sent, kept, delivered, and turns started. */
  datatype Trace = Trace(
    sent: seq<Frame>,   // handed to Send by the agent
    sentAt: seq<int>,   // when
    kept: seq<Frame>,   // of those, not dropped
    due: seq<int>,      // delivery times of the kept frames
    got: seq<Frame>,    // received by the caller
    gotAt: seq<int>,    // when
    heard: seq<Frame>,  // received by the agent
    heardAt: seq<int>,  // when
    turns: seq<TurnRec>,
    fired: nat)         // events of this session fired so far

  datatype Sess = Sess(agent: Agent, caller: Caller, link: Link, trace: Trace)

  const EMPTY_TRACE := Trace([], [], [], [], [], [], [], [], [], 0)

  type Pending = Event<Callback>

  /** The agent end's Send: the impairment queue decides when, or whether, the frame arrives. */
  function SendDown(sc: Scenario, i: nat, now: int, s: Sess, f: Frame): (Sess, seq<Request>) {
    var (link, due) := Delay(sc.profile, sc.rngs(i), s.link, f, now);
    var t := s.trace.(sent := s.trace.sent + [f], sentAt := s.trace.sentAt + [now]);
    match due
    case None => (s.(link := link, trace := t), [])
    case Some(at) =>
      (s.(link := link, trace := t.(kept := t.kept + [f], due := t.due + [at])),
       [Request(at, f.seqNo, ToCaller(f))])
  }

  function SendIfAny(sc: Scenario, i: nat, now: int, s: Sess, f: Option<Frame>): (Sess, seq<Request>) {
    if f.None? then (s, []) else SendDown(sc, i, now, s, f.value)
  }

  function NoteLast(t: Trace, r: TurnRec): Trace
    requires t.turns != []
  {
    t.(turns := t.turns[|t.turns| - 1 := r])
  }

  function LastTurn(t: Trace): TurnRec
    requires t.turns != []
  {
    t.turns[|t.turns| - 1]
  }

  function HearFrame(sc: Scenario, now: int, s: Sess, f: Frame): (Sess, seq<Request>) {
    var t := s.trace.(heard := s.trace.heard + [f], heardAt := s.trace.heardAt + [now]);
    if f.kind != Speech then (s.(trace := t), [])
    else
      var (a, rs) := OnCallerSpeech(sc.Cfg(), s.agent, now);
      var t2 := if a.interrupted && !s.agent.interrupted && t.turns != []
                then NoteLast(t, LastTurn(t).(stop := Some(a.stopAt))) else t;
      (s.(agent := a, trace := t2), rs)
  }

  function RecvFrame(sc: Scenario, now: int, s: Sess, f: Frame): (Sess, seq<Request>)
    requires FrameMs(sc) != 0
  {
    var (c, rs) := OnRecv(sc, s.caller, f, now);
    (s.(caller := c, trace := s.trace.(got := s.trace.got + [f], gotAt := s.trace.gotAt + [now])), rs)
  }

  function StartTurn(sc: Scenario, s: Sess, gen: int, at: int): (Sess, seq<Request>) {
    var (a, rs) := MaybeRespond(sc.Cfg(), s.agent, gen, at);
    var t := if Responds(s.agent, gen)
             then s.trace.(turns := s.trace.turns + [TurnRec(at, None, s.agent.schedSeq, false, 0)]) else s.trace;
    (s.(agent := a, trace := t), rs)
  }

  /** A Respond timer touches only the agent and the record of turns, and arms only timers. */
  lemma StartTouches(sc: Scenario, s: Sess, gen: int, at: int)
    ensures var (s', rs) := StartTurn(sc, s, gen, at);
            && s' == s.(agent := s'.agent, trace := s.trace.(turns := s'.trace.turns))
            && forall r | r in rs :: r.fn.IsTimer()
  {}

  /** The current turn's TurnStart went out. */
  function MarkStarted(t: Trace): Trace {
    if t.turns != [] then NoteLast(t, LastTurn(t).(started := true)) else t
  }

  /** A frame timer of the turn being spoken went off. */
  function MarkFired(t: Trace, a: Agent, turn: int): Trace {
    if a.turn == turn && a.talking && t.turns != []
    then NoteLast(t, LastTurn(t).(fired := LastTurn(t).fired + 1)) else t
  }

  function OpenTurnNow(sc: Scenario, i: nat, now: int, s: Sess, seqNo: int, ts: int): (Sess, seq<Request>) {
    SendDown(sc, i, now, s.(trace := MarkStarted(s.trace)), Control(TurnStart, seqNo, ts))
  }

  function EmitFrameNow(sc: Scenario, i: nat, now: int, s: Sess, turn: int, ts: int): (Sess, seq<Request>) {
    var (a, f) := EmitAgentFrame(sc.Cfg(), s.agent, turn, ts);
    SendIfAny(sc, i, now, s.(agent := a, trace := MarkFired(s.trace, s.agent, turn)), f)
  }

  function EmitEndNow(sc: Scenario, i: nat, now: int, s: Sess, turn: int, endTs: int): (Sess, seq<Request>) {
    var (a, f) := EmitTurnEnd(s.agent, turn, endTs);
    SendIfAny(sc, i, now, s.(agent := a), f)
  }

  /** A callback of session i runs to completion at virtual time now, its consumer's reaction included. */
  function React(sc: Scenario, i: nat, now: int, s: Sess, cb: Callback): (Sess, seq<Request>)
    requires FrameMs(sc) != 0
  {
    match cb
    case CallerSpeaks(f, b) => (s.(caller := OnSpeak(s.caller, f, b)), [Request(now, f.seqNo, ToAgent(f))])
    case ToAgent(f) => HearFrame(sc, now, s, f)
    case ToCaller(f) => RecvFrame(sc, now, s, f)
    case Respond(gen, at) => StartTurn(sc, s, gen, at)
    case OpenTurn(seqNo, ts) => OpenTurnNow(sc, i, now, s, seqNo, ts)
    case EmitFrame(turn, _, ts) => EmitFrameNow(sc, i, now, s, turn, ts)
    case EmitEnd(turn, endTs) => EmitEndNow(sc, i, now, s, turn, endTs)
  }

  /** React, counting the fired event. */
  function Fire(sc: Scenario, i: nat, now: int, s: Sess, cb: Callback): (Sess, seq<Request>)
    requires FrameMs(sc) != 0
  {
    var (s', rs) := React(sc, i, now, s, cb);
    (s'.(trace := s'.trace.(fired := s'.trace.fired + 1)), rs)
  }

  // ---- the shared clock ----

  /** Schedule: clamp to now and push (internal/clock/clock.go:124-136). */
  function Stamp(now: int, i: nat, r: Request): Pending {
    Event(if r.at < now then now else r.at, r.seqNo, i, r.fn)
  }

  function Stamped(now: int, i: nat, rs: seq<Request>): seq<Pending> {
    seq(|rs|, k requires 0 <= k < |rs| => Stamp(now, i, rs[k]))
  }

  function PushAll(h: seq<Pending>, now: int, i: nat, rs: seq<Request>): seq<Pending>
    decreases |rs|
  {
    if rs == [] then h else PushAll(Push(h, Stamp(now, i, rs[0])), now, i, rs[1..])
  }

  datatype World = World(now: int, heap: seq<Pending>, sess: seq<Sess>)

  ghost predicate Owned(w: World) {
    forall e | e in w.heap :: e.session < |w.sess|
  }

  function Later(a: int, b: int): int { if b > a then b else a }

  /** How a session reacts to one of its events: its next state and what it schedules. */
  type Reaction = (nat, int, Sess, Callback) -> (Sess, seq<Request>)

  function Reactor(sc: Scenario): Reaction
    requires FrameMs(sc) != 0
  {
    (i: nat, now: int, s: Sess, cb: Callback) => Fire(sc, i, now, s, cb)
  }

  /** ManualClock.Advance with the callback and the consumer's reaction run inline. */
  function Advance(fire: Reaction, w: World): World
    requires w.heap != [] && Owned(w)
  {
    var (e, rest) := Pop(w.heap);
    var now := Later(w.now, e.deliverAt);
    var r := fire(e.session, now, w.sess[e.session], e.fn);
    World(now, PushAll(rest, now, e.session, r.1), w.sess[e.session := r.0])
  }

  function FreshSess(sc: Scenario): Sess
    requires FrameMs(sc) != 0
  {
    Sess(IDLE_AGENT, Prime(sc, BASE_CLOCK_MS).0, FRESH_LINK, EMPTY_TRACE)
  }

  /** The heap after priming the first n sessions, each with the requests rs. */
  function PrimedHeap(rs: seq<Request>, n: nat): seq<Pending> {
    if n == 0 then [] else PushAll(PrimedHeap(rs, n - 1), BASE_CLOCK_MS, n - 1, rs)
  }

  /** The state Run has built when the event loop starts (internal/engine/engine.go:88-101). */
  function Start(sc: Scenario): World
    requires FrameMs(sc) != 0
  {
    World(BASE_CLOCK_MS, PrimedHeap(Prime(sc, BASE_CLOCK_MS).1, sc.callers), seq(sc.callers, k => FreshSess(sc)))
  }

  lemma StampedFirst(now: int, i: nat, rs: seq<Request>)
    requires rs != []
    ensures multiset(Stamped(now, i, rs)) == multiset{Stamp(now, i, rs[0])} + multiset(Stamped(now, i, rs[1..]))
  {
    assert Stamped(now, i, rs) == [Stamp(now, i, rs[0])] + Stamped(now, i, rs[1..]);
  }

  lemma {:induction false} PushAllMultiset(h: seq<Pending>, now: int, i: nat, rs: seq<Request>)
    ensures multiset(PushAll(h, now, i, rs)) == multiset(h) + multiset(Stamped(now, i, rs))
    decreases |rs|
  {
    if rs == [] {
      assert Stamped(now, i, rs) == [];
    } else {
      var h' := Push(h, Stamp(now, i, rs[0]));
      assert multiset(h') == multiset(h) + multiset{Stamp(now, i, rs[0])};
      PushAllMultiset(h', now, i, rs[1..]);
      StampedFirst(now, i, rs);
    }
  }

  lemma {:induction false} PushAllOrdered(h: seq<Pending>, now: int, i: nat, rs: seq<Request>)
    requires Ordered(h, |h|)
    ensures Ordered(PushAll(h, now, i, rs), |PushAll(h, now, i, rs)|)
    decreases |rs|
  {
    if rs != [] {
      PushKeepsOrder(h, Stamp(now, i, rs[0]));
      PushAllOrdered(Push(h, Stamp(now, i, rs[0])), now, i, rs[1..]);
    }
  }

  lemma PushedFrom(h: seq<Pending>, now: int, i: nat, rs: seq<Request>, e: Pending)
    requires e in PushAll(h, now, i, rs)
    ensures e in h || e in Stamped(now, i, rs)
  {
    PushAllMultiset(h, now, i, rs);
    assert e in multiset(PushAll(h, now, i, rs));
  }

  lemma PushAllOwned(h: seq<Pending>, now: int, i: nat, rs: seq<Request>, n: nat)
    requires i < n && forall e | e in h :: e.session < n
    ensures forall e | e in PushAll(h, now, i, rs) :: e.session < n
  {
    forall e | e in PushAll(h, now, i, rs) ensures e.session < n {
      PushedFrom(h, now, i, rs, e);
    }
  }

  lemma AdvanceOwned(fire: Reaction, w: World)
    requires w.heap != [] && Owned(w)
    ensures Owned(Advance(fire, w)) && |Advance(fire, w).sess| == |w.sess|
  {
    var (e, rest) := Pop(w.heap);
    var now := Later(w.now, e.deliverAt);
    assert forall x | x in rest :: x in multiset(w.heap);
    PushAllOwned(rest, now, e.session, fire(e.session, now, w.sess[e.session], e.fn).1, |w.sess|);
  }

  /** One turn of the drive loop, as a function of the whole state. */
  ghost function Turn(fire: Reaction): World -> World {
    (w: World) => if w.heap != [] && Owned(w) then Advance(fire, w) else w
  }

  /** n turns of a loop that stops on an empty heap (engine.go:203-212). */
  ghost function Drives(turn: World -> World, w: World, n: nat): World {
    if n == 0 then w
    else
      var v := Drives(turn, w, n - 1);
      if v.heap == [] then v else turn(v)
  }

  /** The state after n turns of the drive loop. */
  ghost function RunFor(sc: Scenario, n: nat): World
    requires FrameMs(sc) != 0
  {
    Drives(Turn(Reactor(sc)), Start(sc), n)
  }

  lemma {:induction false} PrimedOwned(rs: seq<Request>, n: nat)
    ensures forall e | e in PrimedHeap(rs, n) :: e.session < n
  {
    if n > 0 {
      PrimedOwned(rs, n - 1);
      PushAllOwned(PrimedHeap(rs, n - 1), BASE_CLOCK_MS, n - 1, rs, n);
    }
  }

  lemma {:induction false} PrimedOrdered(rs: seq<Request>, n: nat)
    ensures Ordered(PrimedHeap(rs, n), |PrimedHeap(rs, n)|)
  {
    if n > 0 {
      PrimedOrdered(rs, n - 1);
      PushAllOrdered(PrimedHeap(rs, n - 1), BASE_CLOCK_MS, n - 1, rs);
    }
  }
}
