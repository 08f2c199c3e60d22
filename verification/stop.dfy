/** With a transparent downlink the agent falls silent within its stop latency, as the caller's log shows. */
module StopBound {
  import opened Audio
  import opened Basics
  import opened Impair
  import opened Clock
  import opened EventLog
  import opened Scenarios
  import opened AgentProto
  import opened CallerSession
  import opened Engine
  import opened SessionView
  import opened Soundness
  import opened TurnProtocol
  import opened Conservation
  import opened FifoDownlink

  /** No loss, no delay, no bandwidth limit: the zero profile and its like. */
  predicate Transparent(p: Profile) {
    p.Lossless() && p.addedLatencyMs == 0 && p.jitterMs == 0 && p.reorderProb <= 0.0 && p.bandwidthBps == 0
  }

  lemma TransparentDelay(p: Profile, g: Rng, q: Link, f: Frame, now: int)
    requires Transparent(p)
    ensures Delay(p, g, q, f, now) == (q, Some(now))
  {}

  /** Caller and link sequence numbers stay below the agent's timer band. */
  predicate SmallSeqs(s: Sess) {
    s.caller.callerSeq <= TIMER_SEQ_BASE && s.agent.seqNo <= TIMER_SEQ_BASE
  }

  // ---- turns are counted alike on both ends ----

  lemma {:induction false} StartsConcat(a: seq<Frame>, b: seq<Frame>)
    ensures Starts(a + b) == Starts(a) + Starts(b)
  {
    if b == [] {
      assert a + b == a;
    } else {
      assert (a + b)[..|a + b| - 1] == a + b[..|b| - 1];
      StartsConcat(a, b[..|b| - 1]);
    }
  }

  lemma {:induction false} NoStarts(fs: seq<Frame>)
    requires forall f | f in fs :: !f.kind.TurnStart?
    ensures Starts(fs) == 0
  {
    if fs != [] {
      NoStarts(fs[..|fs| - 1]);
    }
  }

  lemma OpeningStarts(c: AgentConfig, tss: seq<int>, s0: int, t0: int, rest: seq<Frame>)
    requires forall f | f in rest :: !f.kind.TurnStart?
    ensures Starts([Control(TurnStart, s0, t0)] + Voice(c, tss, s0 + 1) + rest) == 1
  {
    var head := [Control(TurnStart, s0, t0)];
    StartsConcat(head + Voice(c, tss, s0 + 1), rest);
    StartsConcat(head, Voice(c, tss, s0 + 1));
    NoStarts(Voice(c, tss, s0 + 1));
    NoStarts(rest);
    assert head[..0] == [];
  }

  lemma {:induction false} ConversationStarts(c: AgentConfig, turns: seq<TurnRec>)
    ensures Starts(Conversation(c, turns)) == |turns|
  {
    if turns != [] {
      var before := Conversation(c, turns[..|turns| - 1]);
      var r := turns[|turns| - 1];
      ConversationStarts(c, turns[..|turns| - 1]);
      StartsConcat(before, TurnScript(c, r, |before|));
      var tss := SpokenTs(c, r.t0, r.stop, Frames(c));
      OpeningStarts(c, tss, |before|, r.t0, [Control(TurnEnd, |before| + 1 + |tss|, EndTs(c, r))]);
    }
  }

  predicate Unopened(a: Agent, turns: seq<TurnRec>) {
    a.talking && turns != [] && !Last(turns).started
  }

  /** The TurnStarts sent so far number the turns, but for one not yet announced. */
  lemma SentStarts(c: AgentConfig, now: int, a: Agent, sent: seq<Frame>, turns: seq<TurnRec>)
    requires TurnShape(c, now, a, sent, turns)
    ensures Starts(sent) == a.turn - (if Unopened(a, turns) then 1 else 0)
  {
    if a.talking {
      var r := Last(turns);
      var before := Conversation(c, Before(turns));
      ConversationStarts(c, Before(turns));
      StartsConcat(before, SoFar(c, r, |before|));
      if r.started {
        var tss := SpokenTs(c, r.t0, r.stop, r.fired);
        OpeningStarts(c, tss, |before|, r.t0, []);
        assert SoFar(c, r, |before|) == [Control(TurnStart, |before|, r.t0)] + Voice(c, tss, |before| + 1) + [];
      }
    } else {
      ConversationStarts(c, turns);
    }
  }

  // ---- the invariant ----

  predicate IsSpeech(e: Pending) { e.fn.CallerSpeaks? || e.fn.ToAgent? }

  /** Downlink frames arrive in the instant they are sent, one at a time. */
  ghost predicate Instant(l: Local) {
    && |l.s.trace.kept| <= |l.s.trace.got| + 1
    && (forall e | e in l.m && e.fn.ToCaller? :: e.deliverAt == l.now)
  }

  /** While a TurnStart is yet to reach the caller, no speech is due at this instant. */
  ghost predicate Window(l: Local) {
    && (Unopened(l.s.agent, l.s.trace.turns) ==> |l.s.trace.kept| == |l.s.trace.got|)
    && (Unopened(l.s.agent, l.s.trace.turns)
        || (exists e :: e in l.m && e.fn.ToCaller? && e.fn.frame.kind.TurnStart?) ==>
          forall e | e in l.m && IsSpeech(e) :: e.deliverAt > l.now)
  }

  predicate IsBarge(b: Entry) { b.typ.BargedIn? }

  predicate IsHeard(r: Entry) { r.typ.Recv? && r.frame.kind.AgentAudio? }

  ghost predicate LogPast(c: Caller, now: int) {
    forall x | x in c.log && (IsBarge(x) || IsHeard(x)) :: x.ts <= now && x.turn <= c.obsTurn
  }

  /** A barge-in into the turn being spoken set the deadline, or is about to be heard this instant. */
  ghost predicate Deadline(sc: Scenario, l: Local) {
    var a := l.s.agent;
    && (a.talking && a.interrupted ==> a.stopAt <= l.now + sc.agent.stopLatencyMs)
    && (a.talking && a.turn == l.s.caller.obsTurn ==>
          forall b | b in l.s.caller.log && IsBarge(b) && b.turn == a.turn ::
            || (a.interrupted && a.stopAt <= b.ts + sc.agent.stopLatencyMs)
            || (b.ts == l.now && exists e :: e in l.m && e.fn.ToAgent?))
  }

  /** A frame about to arrive respects every barge-in logged for its turn. */
  ghost predicate Arriving(sc: Scenario, l: Local) {
    forall e, b | e in l.m && e.fn.ToCaller? && e.fn.frame.kind.AgentAudio?
                  && b in l.s.caller.log && IsBarge(b) && b.turn == l.s.caller.obsTurn ::
      l.now <= b.ts + sc.agent.stopLatencyMs
  }

  /** No agent frame in the log comes later than the stop latency after a barge-in of its turn. */
  ghost predicate StopsInTime(sc: Scenario, log: seq<Entry>) {
    forall b, r | b in log && r in log && IsBarge(b) && IsHeard(r) && b.turn == r.turn ::
      r.ts <= b.ts + sc.agent.stopLatencyMs
  }

  ghost predicate StopInv(sc: Scenario, l: Local) {
    && Instant(l) && Window(l) && LogPast(l.s.caller, l.now)
    && Deadline(sc, l) && Arriving(sc, l) && StopsInTime(sc, l.s.caller.log)
  }

  /** What the other invariants give here. */
  ghost predicate Setting(sc: Scenario, i: nat, l: Local) {
    && sc.Valid() && Transparent(sc.profile) && !sc.agent.ignoreBargeIn
    && Sound(sc, i, l) && TurnsOk(sc, i, l) && Fifo(sc, i, l) && Balanced(l) && l.s.trace.kept == l.s.trace.sent
    && SmallSeqs(l.s)
  }

  /** A timer only fires when nothing else is due at its instant. */
  lemma TimerIsQuiet(sc: Scenario, i: nat, l: Local, e: Pending)
    requires Setting(sc, i, l) && Instant(l) && Enabled(l, e) && e.fn.IsTimer()
    ensures forall x | x in l.m && !x.fn.IsTimer() :: x.fn.CallerSpeaks? && x.deliverAt > e.deliverAt
    ensures |l.s.trace.got| == |l.s.trace.kept|
  {
    assert SoundEvent(sc, i, l.now, l.s, e);
    forall x | x in l.m && !x.fn.IsTimer() ensures x.fn.CallerSpeaks? && x.deliverAt > e.deliverAt {
      assert SoundEvent(sc, i, l.now, l.s, x);
      assert !Less(x, e);
    }
    NextInFlight(i, l.s.trace, l.m);
  }

  /** While a turn is not announced, the timer that announces it is pending. */
  lemma OpenIsPending(sc: Scenario, i: nat, l: Local)
    requires TurnsOk(sc, i, l)
    ensures Unopened(l.s.agent, l.s.trace.turns) ==> OpenEvent(i, Last(l.s.trace.turns), l.s.agent.seqNo - 1) in l.m
  {}

  /** Waiting: nothing that is due now can be waited past. */
  lemma StopWait(sc: Scenario, i: nat, l: Local, t: int)
    requires Setting(sc, i, l) && StopInv(sc, l) && Waits(l, t)
    ensures StopInv(sc, l.(now := t))
  {
    assert forall x | x in l.m && x.fn.ToAgent? :: SoundEvent(sc, i, l.now, l.s, x);
    OpenIsPending(sc, i, l);
    Overtakes(sc, i, l, t);
  }

  lemma Overtakes(sc: Scenario, i: nat, l: Local, t: int)
    requires StopInv(sc, l) && Waits(l, t)
    requires forall x | x in l.m && x.fn.ToAgent? :: x.deliverAt == l.now
    requires Unopened(l.s.agent, l.s.trace.turns) ==> exists x :: x in l.m && x.deliverAt == l.now
    ensures StopInv(sc, l.(now := t))
  {}

  // ---- each callback keeps it ----

  /** The invariant after session i went to s' at e, scheduling rs. */
  ghost predicate StopAfter(sc: Scenario, i: nat, l: Local, e: Pending, s': Sess, rs: seq<Request>) {
    StopInv(sc, Replaced(sc.Cfg(), i, l, e, s', Stamped(e.deliverAt, i, rs)))
  }

  /** Membership after a step, without counting. */
  lemma Members(sc: Scenario, i: nat, l: Local, e: Pending, s': Sess, rs: seq<Request>)
    requires e in l.m
    ensures var l' := Replaced(sc.Cfg(), i, l, e, s', Stamped(e.deliverAt, i, rs));
            && l'.now == e.deliverAt && l'.s == s'
            && (forall x | x in l'.m :: x in l.m || x in Stamped(e.deliverAt, i, rs))
            && (forall x | x in l.m && x != e :: x in l'.m)
            && (forall x | x in Stamped(e.deliverAt, i, rs) :: x in l'.m)
  {
    Changes(l.m, e, Stamped(e.deliverAt, i, rs));
  }

  lemma Changes(m: multiset<Pending>, e: Pending, added: seq<Pending>)
    requires e in m
    ensures var m' := m - multiset{e} + multiset(added);
            && (forall x | x in m' :: x in m || x in added)
            && (forall x | x in m && x != e :: x in m')
            && (forall x | x in added :: x in m')
  {
    assert forall x | x in multiset(added) :: x in added;
  }

  /** Speech due at this instant means no TurnStart is still to reach the caller. */
  lemma SpeechIsOutsideWindow(sc: Scenario, i: nat, l: Local, e: Pending)
    requires Setting(sc, i, l) && StopInv(sc, l) && Enabled(l, e) && IsSpeech(e)
    ensures !Unopened(l.s.agent, l.s.trace.turns)
    ensures forall x | x in l.m && x.fn.ToCaller? :: !x.fn.frame.kind.TurnStart? && e.deliverAt == l.now
    ensures forall x | x in l.m && x.fn.ToAgent? :: e.deliverAt == l.now
  {
    assert SoundEvent(sc, i, l.now, l.s, e);
    OpenIsPending(sc, i, l);
    forall x | x in l.m && (x.fn.ToCaller? || x.fn.ToAgent?) ensures e.deliverAt == l.now {
      assert SoundEvent(sc, i, l.now, l.s, x);
      assert !Less(x, e);
    }
  }

  lemma SpeakLog(c: Caller, f: Frame, bargeIn: bool)
    ensures forall x | x in OnSpeak(c, f, bargeIn).log && IsHeard(x) :: x in c.log
    ensures forall x | x in OnSpeak(c, f, bargeIn).log && IsBarge(x) ::
              x in c.log || (x.ts == f.ts && x.turn == c.obsTurn)
    ensures OnSpeak(c, f, bargeIn).obsTurn == c.obsTurn
  {}

  lemma SpokenInTime(sc: Scenario, c: Caller, f: Frame, bargeIn: bool, now: int)
    requires LogPast(c, now) && StopsInTime(sc, c.log) && now <= f.ts && sc.agent.stopLatencyMs >= 0
    ensures LogPast(OnSpeak(c, f, bargeIn), f.ts) && StopsInTime(sc, OnSpeak(c, f, bargeIn).log)
  {
    SpeakLog(c, f, bargeIn);
  }

  lemma SpokenDeadline(sc: Scenario, l: Local, l': Local, f: Frame, bargeIn: bool)
    requires Deadline(sc, l) && l.now <= l'.now == f.ts && l'.s == l.s.(caller := OnSpeak(l.s.caller, f, bargeIn))
    requires exists x :: x in l'.m && x.fn.ToAgent?
    requires forall x | x in l.m && x.fn.ToAgent? :: l'.now == l.now
    ensures Deadline(sc, l')
  {
    SpeakLog(l.s.caller, f, bargeIn);
  }

  lemma SpokenArrival(sc: Scenario, l: Local, l': Local, f: Frame, bargeIn: bool)
    requires Arriving(sc, l) && l'.now == f.ts && l'.s == l.s.(caller := OnSpeak(l.s.caller, f, bargeIn))
    requires sc.agent.stopLatencyMs >= 0
    requires forall x | x in l'.m && x.fn.ToCaller? :: x in l.m && l'.now == l.now
    ensures Arriving(sc, l')
  {
    SpeakLog(l.s.caller, f, bargeIn);
  }

  lemma SpokenStops(sc: Scenario, l: Local, l': Local, f: Frame, bargeIn: bool, heard: Pending)
    requires StopInv(sc, l) && l.now <= l'.now == f.ts && sc.agent.stopLatencyMs >= 0
    requires l'.s == l.s.(caller := OnSpeak(l.s.caller, f, bargeIn)) && !Unopened(l.s.agent, l.s.trace.turns)
    requires heard in l'.m && heard.fn.ToAgent?
    requires forall x | x in l'.m && x.fn.ToCaller? :: x in l.m && !x.fn.frame.kind.TurnStart? && l'.now == l.now
    requires forall x | x in l.m && x.fn.ToAgent? :: l'.now == l.now
    ensures StopInv(sc, l')
  {
    SpokenInTime(sc, l.s.caller, f, bargeIn, l.now);
    SpokenDeadline(sc, l, l', f, bargeIn);
    SpokenArrival(sc, l, l', f, bargeIn);
  }

  lemma SpeakMoves(sc: Scenario, i: nat, l: Local, e: Pending, s': Sess, f: Frame, bargeIn: bool)
    requires StopInv(sc, l) && e in l.m && l.now <= e.deliverAt == f.ts && sc.agent.stopLatencyMs >= 0
    requires s' == l.s.(caller := OnSpeak(l.s.caller, f, bargeIn)) && !Unopened(l.s.agent, l.s.trace.turns)
    requires forall x | x in l.m && x.fn.ToCaller? :: !x.fn.frame.kind.TurnStart? && e.deliverAt == l.now
    requires forall x | x in l.m && x.fn.ToAgent? :: e.deliverAt == l.now
    ensures StopAfter(sc, i, l, e, s', [Request(e.deliverAt, f.seqNo, ToAgent(f))])
  {
    var rs := [Request(e.deliverAt, f.seqNo, ToAgent(f))];
    var heard := Stamp(e.deliverAt, i, rs[0]);
    assert Stamped(e.deliverAt, i, rs) == [heard];
    Members(sc, i, l, e, s', rs);
    SpokenStops(sc, l, Replaced(sc.Cfg(), i, l, e, s', Stamped(e.deliverAt, i, rs)), f, bargeIn, heard);
  }

  lemma SpeakStops(sc: Scenario, i: nat, l: Local, e: Pending, s': Sess)
    requires Setting(sc, i, l) && StopInv(sc, l) && Enabled(l, e) && e.fn.CallerSpeaks?
    requires s' == l.s.(caller := OnSpeak(l.s.caller, e.fn.frame, e.fn.bargeIn))
    ensures StopAfter(sc, i, l, e, s', [Request(e.deliverAt, e.fn.frame.seqNo, ToAgent(e.fn.frame))])
  {
    assert SoundEvent(sc, i, l.now, l.s, e);
    SpeechIsOutsideWindow(sc, i, l, e);
    SpeakMoves(sc, i, l, e, s', e.fn.frame, e.fn.bargeIn);
  }

  // ToAgent: a barge-in is heard.

  lemma HearShape(sc: Scenario, now: int, s: Sess, f: Frame)
    requires f.kind.Speech? && !sc.agent.ignoreBargeIn
    ensures var (s', rs) := HearFrame(sc, now, s, f);
            && s'.caller == s.caller && s'.trace.kept == s.trace.kept && s'.trace.got == s.trace.got
            && (forall r | r in rs :: r.fn.IsTimer())
            && s'.agent.talking == s.agent.talking && s'.agent.turn == s.agent.turn
            && (s.agent.talking ==> s'.agent.interrupted)
            && (s.agent.talking ==>
                  s'.agent.stopAt == if s.agent.interrupted then s.agent.stopAt else now + sc.agent.stopLatencyMs)
            && (s.trace.turns != [] ==>
                  s'.trace.turns != [] && Last(s'.trace.turns).started == Last(s.trace.turns).started)
            && (s.trace.turns == [] ==> s'.trace.turns == [])
  {}

  lemma TimersAdded(now: int, i: nat, rs: seq<Request>)
    requires forall r | r in rs :: r.fn.IsTimer()
    ensures forall x | x in Stamped(now, i, rs) :: x.fn.IsTimer()
  {
    forall x | x in Stamped(now, i, rs) ensures x.fn.IsTimer() {
      StampedIn(now, i, rs, x);
    }
  }

  lemma HeardDeadline(sc: Scenario, l: Local, l': Local, f: Frame)
    requires Deadline(sc, l) && l'.now == l.now && l'.s == HearFrame(sc, l.now, l.s, f).0
    requires f.kind.Speech? && !sc.agent.ignoreBargeIn
    ensures Deadline(sc, l')
  {
    HearShape(sc, l.now, l.s, f);
  }

  lemma HeardRest(sc: Scenario, l: Local, l': Local)
    requires Instant(l) && Window(l) && Arriving(sc, l) && l'.now == l.now
    requires l'.s.caller == l.s.caller && l'.s.trace.kept == l.s.trace.kept && l'.s.trace.got == l.s.trace.got
    requires Unopened(l'.s.agent, l'.s.trace.turns) ==> Unopened(l.s.agent, l.s.trace.turns)
    requires forall x | x in l'.m && !x.fn.IsTimer() :: x in l.m
    ensures Instant(l') && Window(l') && Arriving(sc, l')
  {}

  lemma HearStops(sc: Scenario, i: nat, l: Local, e: Pending)
    requires Setting(sc, i, l) && StopInv(sc, l) && Enabled(l, e) && e.fn.ToAgent?
    ensures var r := HearFrame(sc, e.deliverAt, l.s, e.fn.frame); StopAfter(sc, i, l, e, r.0, r.1)
  {
    assert SoundEvent(sc, i, l.now, l.s, e);
    var (s', rs) := HearFrame(sc, e.deliverAt, l.s, e.fn.frame);
    HearShape(sc, e.deliverAt, l.s, e.fn.frame);
    TimersAdded(e.deliverAt, i, rs);
    Members(sc, i, l, e, s', rs);
    var l' := Replaced(sc.Cfg(), i, l, e, s', Stamped(e.deliverAt, i, rs));
    HeardDeadline(sc, l, l', e.fn.frame);
    HeardRest(sc, l, l');
  }

  // Timers: nothing else is due, and at most one frame goes out, to arrive at once.

  /** Nothing but timers is due by now, except the frame just sent. */
  ghost predicate OnlyArriving(l: Local, f: Option<Frame>) {
    forall x | x in l.m && !x.fn.IsTimer() ::
      || (x.fn.CallerSpeaks? && x.deliverAt > l.now)
      || (f.Some? && x.fn == ToCaller(f.value) && x.deliverAt == l.now)
  }

  /** Between the two states the caller saw nothing and the agent kept its promise for this turn. */
  ghost predicate AgentMoved(sc: Scenario, l: Local, l': Local) {
    var a, a' := l.s.agent, l'.s.agent;
    && l'.s.caller == l.s.caller && l.now <= l'.now
    && (a'.talking && a'.interrupted ==> a.talking && a.interrupted && a'.stopAt == a.stopAt)
    && (a'.talking && a'.turn == l.s.caller.obsTurn ==>
          a.talking && a.turn == a'.turn && a'.interrupted == a.interrupted && a'.stopAt == a.stopAt)
  }

  lemma TimerDeadline(sc: Scenario, l: Local, l': Local)
    requires Deadline(sc, l) && AgentMoved(sc, l, l') && forall x | x in l.m :: !x.fn.ToAgent?
    ensures Deadline(sc, l')
  {}

  lemma TimerStops(sc: Scenario, l: Local, l': Local, f: Option<Frame>)
    requires StopInv(sc, l) && AgentMoved(sc, l, l') && OnlyArriving(l', f)
    requires forall x | x in l.m :: !x.fn.ToAgent?
    requires |l'.s.trace.kept| == |l'.s.trace.got| + (if f.Some? then 1 else 0)
    requires Unopened(l'.s.agent, l'.s.trace.turns) ==> f.None?
    requires f.Some? && f.value.kind.AgentAudio? ==>
               forall b | b in l.s.caller.log && IsBarge(b) && b.turn == l.s.caller.obsTurn ::
                 l'.now <= b.ts + sc.agent.stopLatencyMs
    ensures StopInv(sc, l')
  {
    TimerDeadline(sc, l, l');
  }

  /** A timer that schedules only timers and at most one delivery, at once, leaves nothing else due. */
  lemma TimerLeavesQuiet(sc: Scenario, i: nat, l: Local, e: Pending, s': Sess, rs: seq<Request>, f: Option<Frame>)
    requires Setting(sc, i, l) && Instant(l) && Enabled(l, e) && e.fn.IsTimer()
    requires forall r | r in rs ::
               r.fn.IsTimer() || (f.Some? && r == Request(e.deliverAt, f.value.seqNo, ToCaller(f.value)))
    ensures OnlyArriving(Replaced(sc.Cfg(), i, l, e, s', Stamped(e.deliverAt, i, rs)), f)
    ensures forall x | x in l.m :: !x.fn.ToAgent?
    ensures l.now <= e.deliverAt && |l.s.trace.kept| == |l.s.trace.got|
  {
    assert SoundEvent(sc, i, l.now, l.s, e);
    TimerIsQuiet(sc, i, l, e);
    StaysQuiet(sc, i, l, e, s', rs, f);
  }

  lemma StaysQuiet(sc: Scenario, i: nat, l: Local, e: Pending, s': Sess, rs: seq<Request>, f: Option<Frame>)
    requires e in l.m && forall x | x in l.m && !x.fn.IsTimer() :: x.fn.CallerSpeaks? && x.deliverAt > e.deliverAt
    requires forall r | r in rs ::
               r.fn.IsTimer() || (f.Some? && r == Request(e.deliverAt, f.value.seqNo, ToCaller(f.value)))
    ensures OnlyArriving(Replaced(sc.Cfg(), i, l, e, s', Stamped(e.deliverAt, i, rs)), f)
  {
    var l' := Replaced(sc.Cfg(), i, l, e, s', Stamped(e.deliverAt, i, rs));
    Members(sc, i, l, e, s', rs);
    forall x | x in l'.m && !x.fn.IsTimer()
      ensures (x.fn.CallerSpeaks? && x.deliverAt > l'.now)
              || (f.Some? && x.fn == ToCaller(f.value) && x.deliverAt == l'.now)
    {
      if x !in l.m {
        StampedIn(e.deliverAt, i, rs, x);
      }
    }
  }

  lemma TransparentSend(sc: Scenario, i: nat, now: int, s: Sess, f: Frame)
    requires Transparent(sc.profile)
    ensures var (s', rs) := SendDown(sc, i, now, s, f);
            && s'.agent == s.agent && s'.caller == s.caller && rs == [Request(now, f.seqNo, ToCaller(f))]
            && |s'.trace.kept| == |s.trace.kept| + 1 && s'.trace.got == s.trace.got && s'.trace.turns == s.trace.turns
  {
    TransparentDelay(sc.profile, sc.rngs(i), s.link, f, now);
  }

  /** A timer that sends frame f. */
  lemma SendStops(sc: Scenario, i: nat, l: Local, e: Pending, s: Sess, f: Frame)
    requires Setting(sc, i, l) && StopInv(sc, l) && Enabled(l, e) && e.fn.IsTimer()
    requires s.caller == l.s.caller && s.trace.kept == l.s.trace.kept && s.trace.got == l.s.trace.got
    requires AgentMoved(sc, l, l.(now := e.deliverAt, s := s))
    requires !Unopened(s.agent, s.trace.turns)
    requires f.kind.AgentAudio? ==> forall b | b in l.s.caller.log && IsBarge(b) && b.turn == l.s.caller.obsTurn ::
                                      e.deliverAt <= b.ts + sc.agent.stopLatencyMs
    ensures var r := SendDown(sc, i, e.deliverAt, s, f); StopAfter(sc, i, l, e, r.0, r.1)
  {
    TransparentSend(sc, i, e.deliverAt, s, f);
    var (s', rs) := SendDown(sc, i, e.deliverAt, s, f);
    TimerLeavesQuiet(sc, i, l, e, s', rs, Some(f));
    TimerStops(sc, l, Replaced(sc.Cfg(), i, l, e, s', Stamped(e.deliverAt, i, rs)), Some(f));
  }

  /** A timer that sends nothing. */
  lemma SilentStops(sc: Scenario, i: nat, l: Local, e: Pending, s': Sess, rs: seq<Request>)
    requires Setting(sc, i, l) && StopInv(sc, l) && Enabled(l, e) && e.fn.IsTimer()
    requires s'.caller == l.s.caller && s'.trace.kept == l.s.trace.kept && s'.trace.got == l.s.trace.got
    requires AgentMoved(sc, l, l.(now := e.deliverAt, s := s')) && forall r | r in rs :: r.fn.IsTimer()
    ensures StopAfter(sc, i, l, e, s', rs)
  {
    TimerLeavesQuiet(sc, i, l, e, s', rs, None);
    TimerStops(sc, l, Replaced(sc.Cfg(), i, l, e, s', Stamped(e.deliverAt, i, rs)), None);
  }

  /** With nothing in flight the caller has seen exactly the turns announced. */
  lemma TurnsSeen(sc: Scenario, i: nat, l: Local)
    requires Setting(sc, i, l) && |l.s.trace.got| == |l.s.trace.kept|
    ensures l.s.caller.obsTurn == l.s.agent.turn - (if Unopened(l.s.agent, l.s.trace.turns) then 1 else 0)
  {
    assert l.s.trace.got == l.s.trace.sent;
    SentStarts(sc.Cfg(), l.now, l.s.agent, l.s.trace.sent, l.s.trace.turns);
  }

  lemma RespondStops(sc: Scenario, i: nat, l: Local, e: Pending)
    requires Setting(sc, i, l) && StopInv(sc, l) && Enabled(l, e) && e.fn.Respond?
    ensures var r := StartTurn(sc, l.s, e.fn.gen, e.fn.at); StopAfter(sc, i, l, e, r.0, r.1)
  {
    var (s', rs) := StartTurn(sc, l.s, e.fn.gen, e.fn.at);
    assert SoundEvent(sc, i, l.now, l.s, e);
    TimerIsQuiet(sc, i, l, e);
    TurnsSeen(sc, i, l);
    SilentStops(sc, i, l, e, s', rs);
  }

  lemma OpenStops(sc: Scenario, i: nat, l: Local, e: Pending)
    requires Setting(sc, i, l) && StopInv(sc, l) && Enabled(l, e) && e.fn.OpenTurn?
    ensures var r := OpenTurnNow(sc, i, e.deliverAt, l.s, e.fn.seqNo, e.fn.ts); StopAfter(sc, i, l, e, r.0, r.1)
  {
    assert SoundEvent(sc, i, l.now, l.s, e);
    SendStops(sc, i, l, e, l.s.(trace := MarkStarted(l.s.trace)), Control(TurnStart, e.fn.seqNo, e.fn.ts));
  }

  /** A frame that goes out respects every barge-in of its turn. */
  lemma EmittedInTime(sc: Scenario, i: nat, l: Local, e: Pending)
    requires Setting(sc, i, l) && StopInv(sc, l) && Enabled(l, e) && e.fn.EmitFrame?
    requires Emits(l.s.agent, e.fn.turn, e.fn.ts)
    ensures l.s.trace.turns != [] && Last(l.s.trace.turns).started
    ensures forall b | b in l.s.caller.log && IsBarge(b) && b.turn == l.s.caller.obsTurn ::
              e.deliverAt <= b.ts + sc.agent.stopLatencyMs
  {
    ValidIsTimely(sc);
    assert SoundEvent(sc, i, l.now, l.s, e);
    TimerIsQuiet(sc, i, l, e);
    FrameIsNext(sc.Cfg(), i, l.s.agent, Last(l.s.trace.turns), l.m, e);
    TurnsSeen(sc, i, l);
  }

  lemma EmitFrameStops(sc: Scenario, i: nat, l: Local, e: Pending)
    requires Setting(sc, i, l) && StopInv(sc, l) && Enabled(l, e) && e.fn.EmitFrame?
    ensures var r := EmitFrameNow(sc, i, e.deliverAt, l.s, e.fn.turn, e.fn.ts); StopAfter(sc, i, l, e, r.0, r.1)
  {
    assert SoundEvent(sc, i, l.now, l.s, e);
    var (a, f) := EmitAgentFrame(sc.Cfg(), l.s.agent, e.fn.turn, e.fn.ts);
    var s := l.s.(agent := a, trace := MarkFired(l.s.trace, l.s.agent, e.fn.turn));
    if f.Some? {
      EmittedInTime(sc, i, l, e);
      SendStops(sc, i, l, e, s, f.value);
    } else {
      SilentStops(sc, i, l, e, s, []);
    }
  }

  lemma EmitEndStops(sc: Scenario, i: nat, l: Local, e: Pending)
    requires Setting(sc, i, l) && StopInv(sc, l) && Enabled(l, e) && e.fn.EmitEnd?
    ensures var r := EmitEndNow(sc, i, e.deliverAt, l.s, e.fn.turn, e.fn.endTs); StopAfter(sc, i, l, e, r.0, r.1)
  {
    assert SoundEvent(sc, i, l.now, l.s, e);
    var (a, f) := EmitTurnEnd(l.s.agent, e.fn.turn, e.fn.endTs);
    if f.Some? {
      SendStops(sc, i, l, e, l.s.(agent := a), f.value);
    } else {
      SilentStops(sc, i, l, e, l.s.(agent := a), []);
    }
  }

  // ToCaller: the caller sees a turn start, a frame or a turn end.

  lemma RecvShape(sc: Scenario, c: Caller, f: Frame, now: int)
    requires FrameMs(sc) != 0
    ensures var (c', rs) := OnRecv(sc, c, f, now);
            && c'.log == c.log + [Received(f, now, c'.obsTurn)]
            && c'.obsTurn == c.obsTurn + (if f.kind.TurnStart? then 1 else 0)
            && (forall r | r in rs :: r.fn.CallerSpeaks?)
  {}

  lemma SeenInTime(sc: Scenario, l: Local, c': Caller, f: Frame, now: int)
    requires FrameMs(sc) != 0 && LogPast(l.s.caller, l.now) && StopsInTime(sc, l.s.caller.log) && now == l.now
    requires c' == OnRecv(sc, l.s.caller, f, now).0
    requires f.kind.AgentAudio? ==> forall b | b in l.s.caller.log && IsBarge(b) && b.turn == l.s.caller.obsTurn ::
                                      now <= b.ts + sc.agent.stopLatencyMs
    ensures LogPast(c', now) && StopsInTime(sc, c'.log)
  {
    RecvShape(sc, l.s.caller, f, now);
    assert forall x | x in c'.log :: x in l.s.caller.log || x == Received(f, now, c'.obsTurn);
  }

  lemma SeenDeadline(sc: Scenario, l: Local, l': Local, f: Frame)
    requires FrameMs(sc) != 0 && Deadline(sc, l) && l'.now == l.now && LogPast(l.s.caller, l.now)
    requires l'.s.agent == l.s.agent && l'.s.caller == OnRecv(sc, l.s.caller, f, l.now).0
    requires forall x | x in l.m && x.fn.ToAgent? :: x in l'.m
    ensures Deadline(sc, l')
  {
    RecvShape(sc, l.s.caller, f, l.now);
    var c' := l'.s.caller;
    assert forall x | x in c'.log && IsBarge(x) :: x in l.s.caller.log;
  }

  lemma RecvStops(sc: Scenario, i: nat, l: Local, e: Pending)
    requires Setting(sc, i, l) && StopInv(sc, l) && Enabled(l, e) && e.fn.ToCaller? && FrameMs(sc) != 0
    ensures var r := RecvFrame(sc, e.deliverAt, l.s, e.fn.frame); StopAfter(sc, i, l, e, r.0, r.1)
  {
    var f := e.fn.frame;
    var (s', rs) := RecvFrame(sc, e.deliverAt, l.s, f);
    RecvShape(sc, l.s.caller, f, e.deliverAt);
    Members(sc, i, l, e, s', rs);
    var l' := Replaced(sc.Cfg(), i, l, e, s', Stamped(e.deliverAt, i, rs));
    SeenInTime(sc, l, s'.caller, f, e.deliverAt);
    SeenDeadline(sc, l, l', f);
    NothingLeftInFlight(sc, i, l, e, s', rs);
  }

  /** The one frame in flight has landed. */
  lemma NothingLeftInFlight(sc: Scenario, i: nat, l: Local, e: Pending, s': Sess, rs: seq<Request>)
    requires Setting(sc, i, l) && StopInv(sc, l) && Enabled(l, e) && e.fn.ToCaller?
    requires s'.agent == l.s.agent && s'.trace.turns == l.s.trace.turns
    requires s'.trace.kept == l.s.trace.kept && |s'.trace.got| == |l.s.trace.got| + 1
    requires forall r | r in rs :: r.fn.CallerSpeaks?
    ensures var l' := Replaced(sc.Cfg(), i, l, e, s', Stamped(e.deliverAt, i, rs));
            Instant(l') && Window(l') && Arriving(sc, l')
  {
    OldestArrives(i, l.s.trace, l.m, e);
    NoDeliveries(e.deliverAt, i, rs);
    var l' := Replaced(sc.Cfg(), i, l, e, s', Stamped(e.deliverAt, i, rs));
    Members(sc, i, l, e, s', rs);
    DeliveriesMoveBy(i, l.s.trace, l.m, e, Stamped(e.deliverAt, i, rs));
    forall x | x in l.m && x.fn.ToCaller? ensures x == e {
      var k: nat :| |l.s.trace.got| <= k < |l.s.trace.kept| && x == Flight(i, l.s.trace.kept, l.s.trace.due, k);
      assert k == |l.s.trace.got|;
    }
  }

  lemma CallbackStops(sc: Scenario, i: nat, l: Local, e: Pending)
    requires Setting(sc, i, l) && StopInv(sc, l) && Enabled(l, e) && FrameMs(sc) != 0
    ensures var r := React(sc, i, e.deliverAt, l.s, e.fn); StopAfter(sc, i, l, e, r.0, r.1)
  {
    if e.fn.CallerSpeaks? {
      SpeakStops(sc, i, l, e, React(sc, i, e.deliverAt, l.s, e.fn).0);
    } else if e.fn.ToAgent? {
      HearStops(sc, i, l, e);
    } else if e.fn.ToCaller? {
      RecvStops(sc, i, l, e);
    } else if e.fn.Respond? {
      RespondStops(sc, i, l, e);
    } else if e.fn.OpenTurn? {
      OpenStops(sc, i, l, e);
    } else if e.fn.EmitFrame? {
      EmitFrameStops(sc, i, l, e);
    } else {
      EmitEndStops(sc, i, l, e);
    }
  }

  lemma StopFire(sc: Scenario, i: nat, l: Local, e: Pending)
    requires Setting(sc, i, l) && StopInv(sc, l) && Enabled(l, e) && FrameMs(sc) != 0
    ensures StopInv(sc, FireLocal(Reactor(sc), sc.Cfg(), i, l, e))
  {
    CallbackStops(sc, i, l, e);
    var r := React(sc, i, e.deliverAt, l.s, e.fn);
    StopCounts(sc, Replaced(sc.Cfg(), i, l, e, r.0, Stamped(e.deliverAt, i, r.1)), l.s.trace.fired);
  }

  lemma StopCounts(sc: Scenario, l: Local, n: nat)
    requires StopInv(sc, l)
    ensures StopInv(sc, l.(s := l.s.(trace := l.s.trace.(fired := n))))
  {}
}
