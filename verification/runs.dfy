/** Every run of the offline engine, from priming to quiescence. */
module Runs {
  import opened Audio
  import opened Impair
  import opened Clock
  import opened EventLog
  import opened Scenarios
  import opened AgentProto
  import opened CallerSession
  import opened Engine
  import opened SessionView
  import opened Sums
  import opened Soundness
  import opened RunBound
  import opened TurnProtocol
  import opened TurnTimes
  import opened Precision
  import opened Arrivals
  import opened Streams
  import opened Endpointing
  import opened Conservation
  import opened FifoDownlink
  import opened StopBound

  /** The stop bound applies: nothing shapes the downlink, and no counter has reached the agent's timer band. */
  ghost predicate StopApplies(sc: Scenario, s: Sess) {
    Transparent(sc.profile) && !sc.agent.ignoreBargeIn && SmallSeqs(s)
  }

  /** Everything a session keeps. */
  ghost predicate SessionInv(sc: Scenario, i: nat, l: Local)
    requires FrameMs(sc) != 0
  {
    && Sound(sc, i, l) && Bounded(sc, l) && Voiced(sc, l) && AnsweredBy(sc, l) && TurnsOk(sc, i, l) && SpacedBy(sc, l)
    && Balanced(l) && AllKept(sc, l) && ArrivedBy(l) && Streamed(sc, i, l) && EndpointedBy(sc, l)
    && (OrderingLink(sc) ==> Fifo(sc, i, l))
    && (StopApplies(sc, l.s) ==> StopInv(sc, l))
  }

  lemma ProductBounds(p: nat, b: nat, c: nat)
    requires p >= 1
    ensures p * (b + c) == p * b + p * c && p * b >= 0 && p * c >= c
  {
    assert p * c == c + (p - 1) * c;
  }

  lemma FiredWithin(sc: Scenario, l: Local)
    requires FrameMs(sc) != 0 && Bounded(sc, l)
    ensures l.s.trace.fired + l.weight <= EventBudget(sc)
  {
    ProductBounds(PerFrame(sc), BargeFrames(sc, l.s.caller.obsTurn), SpeechFrames(sc));
  }

  /** The stream counters: the caller numbers its C speech frames, the agent F + 2 frames for each at most. */
  lemma SeqsWithin(sc: Scenario, l: Local)
    requires FrameMs(sc) != 0 && Bounded(sc, l) && Voiced(sc, l)
    ensures l.s.caller.callerSeq <= SpeechFrames(sc) && l.s.agent.seqNo <= VoiceBudget(sc)
  {
    ProductBounds(PerTurn(sc), BargeFrames(sc, l.s.caller.obsTurn), SpeechFrames(sc));
  }

  /** Where the stop bound applies, its setting holds. */
  lemma SettingHolds(sc: Scenario, i: nat, l: Local)
    requires sc.Valid() && FrameMs(sc) != 0 && StopApplies(sc, l.s) && SessionInv(sc, i, l)
    ensures Setting(sc, i, l) && StopInv(sc, l)
  {}

  /** Counters only grow. */
  lemma SmallBefore(sc: Scenario, i: nat, l: Local, e: Pending)
    requires FrameMs(sc) != 0 && Bounded(sc, l)
    requires StopApplies(sc, FireLocal(Reactor(sc), sc.Cfg(), i, l, e).s)
    ensures StopApplies(sc, l.s)
  {
    CallbackPays(sc, i, e.deliverAt, l.s, e.fn);
  }

  /** A session's own event keeps its invariant. */
  lemma FireKeeps(sc: Scenario, i: nat, l: Local, e: Pending)
    requires sc.Valid() && FrameMs(sc) != 0 && SessionInv(sc, i, l) && Enabled(l, e)
    requires DownFrame(e.fn) <= l.down && UpFrame(e.fn) <= l.up && Weight(sc.Cfg(), e.fn) <= l.weight
    requires Voices(sc.Cfg(), e.fn) <= l.voices && Cues(e.fn) <= l.cues
    ensures SessionInv(sc, i, FireLocal(Reactor(sc), sc.Cfg(), i, l, e))
  {
    ValidIsTimely(sc);
    SoundFire(sc, i, l, e);
    BoundedFire(sc, i, l, e);
    VoicedFire(sc, i, l, e);
    AnsweredFire(sc, i, l, e);
    TurnsFire(sc, i, l, e);
    SpacedFire(sc, i, l, e);
    BalancedFire(sc, i, l, e);
    ArrivedFire(sc, i, l, e);
    StreamedFire(sc, i, l, e);
    EndpointedFire(sc, i, l, e);
    AllKeptFire(sc, i, l, e);
    if OrderingLink(sc) {
      FifoFire(sc, i, l, e);
    }
    if StopApplies(sc, FireLocal(Reactor(sc), sc.Cfg(), i, l, e).s) {
      SmallBefore(sc, i, l, e);
      SettingHolds(sc, i, l);
      StopFire(sc, i, l, e);
    }
  }

  lemma WaitIdle(sc: Scenario, l: Local, t: int)
    requires FrameMs(sc) != 0 && Bounded(sc, l) && Voiced(sc, l) && AnsweredBy(sc, l) && Balanced(l) && AllKept(sc, l)
    ensures var l' := l.(now := t);
            Bounded(sc, l') && Voiced(sc, l') && AnsweredBy(sc, l') && Balanced(l') && AllKept(sc, l')
  {}

  lemma FifoWaits(sc: Scenario, i: nat, l: Local, t: int)
    requires sc.Valid() && FrameMs(sc) != 0 && SessionInv(sc, i, l) && Waits(l, t)
    ensures OrderingLink(sc) ==> Fifo(sc, i, l.(now := t))
  {
    if OrderingLink(sc) {
      FifoWait(sc, i, l, t);
    }
  }

  lemma StopWaits(sc: Scenario, i: nat, l: Local, t: int)
    requires sc.Valid() && FrameMs(sc) != 0 && SessionInv(sc, i, l) && Waits(l, t)
    ensures StopApplies(sc, l.s) ==> StopInv(sc, l.(now := t))
  {
    if StopApplies(sc, l.s) {
      SettingHolds(sc, i, l);
      StopWait(sc, i, l, t);
    }
  }

  /** Another session's event keeps it too. */
  lemma WaitKeeps(sc: Scenario, i: nat, l: Local, t: int)
    requires sc.Valid() && FrameMs(sc) != 0 && SessionInv(sc, i, l) && Waits(l, t)
    ensures SessionInv(sc, i, l.(now := t))
  {
    SoundWait(sc, i, l, t);
    WaitIdle(sc, l, t);
    TurnsWait(sc, i, l, t);
    SpacedWait(sc, l, t);
    ArrivedWait(l, t);
    EndpointedWait(sc, l, t);
    FifoWaits(sc, i, l, t);
    StopWaits(sc, i, l, t);
  }

  // ---- the start ----

  lemma {:induction false} PromptsShape(sc: Scenario, turns: seq<CallerTurn>, s: int, startMs: int, k: nat)
    requires FrameMs(sc) > 0 && (forall t | t in turns :: t.atMs >= 0)
    requires k < |Prompts(sc, turns, s, startMs)|
    ensures var r := Prompts(sc, turns, s, startMs)[k];
            && r.fn.CallerSpeaks? && r.fn == CallerSpeaks(SpeechFrame(sc, s + k, r.at, r.fn.frame.payloadLen), false)
            && r.seqNo == s + k && r.at >= startMs
    decreases |turns|
  {
    var t := turns[0];
    var n := BurstLen(sc, t.durMs);
    if k < n {
      assert k * FrameMs(sc) >= 0;
    } else {
      PromptsShape(sc, turns[1..], s + n, startMs, k - n);
    }
  }

  lemma {:induction false} PromptsCount(sc: Scenario, turns: seq<CallerTurn>, s: int, startMs: int)
    requires FrameMs(sc) != 0
    ensures |Prompts(sc, turns, s, startMs)| == PromptFrames(sc, turns)
    ensures forall r | r in Prompts(sc, turns, s, startMs) :: r.fn.CallerSpeaks?
    decreases |turns|
  {
    if turns != [] {
      PromptsCount(sc, turns[1..], s + BurstLen(sc, turns[0].durMs), startMs);
    }
  }

  /** The session as it is primed. */
  ghost function Primed(sc: Scenario, i: nat): Local
    requires FrameMs(sc) != 0
  {
    var st := Stamped(BASE_CLOCK_MS, i, Prime(sc, BASE_CLOCK_MS).1);
    Local(BASE_CLOCK_MS, FreshSess(sc), multiset(st), multiset{}, multiset{},
          SumOf(st, WeightOf(sc.Cfg(), i)), SumOf(st, VoicesOf(sc.Cfg(), i)), BagOf(st, CuesOf(i)))
  }

  lemma PromptIsSound(sc: Scenario, i: nat, k: nat)
    requires sc.Valid() && FrameMs(sc) > 0 && k < |Prime(sc, BASE_CLOCK_MS).1|
    ensures var e := Stamp(BASE_CLOCK_MS, i, Prime(sc, BASE_CLOCK_MS).1[k]);
            SoundEvent(sc, i, BASE_CLOCK_MS, FreshSess(sc), e) && e.fn.CallerSpeaks?
  {
    PromptsShape(sc, sc.turns, 0, BASE_CLOCK_MS, k);
  }

  lemma PromptsAreSound(sc: Scenario, i: nat)
    requires sc.Valid() && FrameMs(sc) > 0
    ensures forall e | e in Stamped(BASE_CLOCK_MS, i, Prime(sc, BASE_CLOCK_MS).1) ::
              SoundEvent(sc, i, BASE_CLOCK_MS, FreshSess(sc), e) && e.fn.CallerSpeaks?
  {
    var rs := Prime(sc, BASE_CLOCK_MS).1;
    forall e | e in Stamped(BASE_CLOCK_MS, i, rs)
      ensures SoundEvent(sc, i, BASE_CLOCK_MS, FreshSess(sc), e) && e.fn.CallerSpeaks?
    {
      StampedIn(BASE_CLOCK_MS, i, rs, e);
      var k :| 0 <= k < |rs| && e == Stamp(BASE_CLOCK_MS, i, rs[k]);
      PromptIsSound(sc, i, k);
    }
  }

  lemma SpeechIsSound(sc: Scenario, i: nat, l: Local)
    requires forall e | e in l.m :: SoundEvent(sc, i, l.now, l.s, e) && e.fn.CallerSpeaks?
    requires l.s.agent == IDLE_AGENT && l.s.caller.callerSeq >= 0
    ensures Sound(sc, i, l)
  {}

  lemma PrimedSound(sc: Scenario, i: nat)
    requires sc.Valid() && FrameMs(sc) > 0
    ensures Sound(sc, i, Primed(sc, i))
    ensures forall e | e in Primed(sc, i).m :: e.fn.CallerSpeaks?
  {
    PromptsAreSound(sc, i);
    SpeechIsSound(sc, i, Primed(sc, i));
  }

  lemma PrimedBounded(sc: Scenario, i: nat)
    requires FrameMs(sc) != 0
    ensures Bounded(sc, Primed(sc, i))
  {
    var rs := Prime(sc, BASE_CLOCK_MS).1;
    PromptsCount(sc, sc.turns, 0, BASE_CLOCK_MS);
    StampedCost(Weighing(sc.Cfg()), WeightOf(sc.Cfg(), i), BASE_CLOCK_MS, i, rs);
    CostUniform(Weighing(sc.Cfg()), rs, PerFrame(sc));
    ProductBounds(PerFrame(sc), |rs|, BargeFrames(sc, 0));
    assert Primed(sc, i).weight == |rs| * PerFrame(sc) == PerFrame(sc) * |rs|;
  }

  lemma PrimedVoiced(sc: Scenario, i: nat)
    requires FrameMs(sc) != 0
    ensures Voiced(sc, Primed(sc, i))
  {
    var rs := PrimedVoices(sc, i);
    ProductBounds(PerTurn(sc), |rs|, BargeFrames(sc, 0));
  }

  lemma PrimedVoices(sc: Scenario, i: nat) returns (rs: seq<Request>)
    requires FrameMs(sc) != 0
    ensures rs == Prime(sc, BASE_CLOCK_MS).1 && |rs| == PromptFrames(sc, sc.turns)
    ensures Primed(sc, i).voices == PerTurn(sc) * |rs|
  {
    rs := Prime(sc, BASE_CLOCK_MS).1;
    PromptsCount(sc, sc.turns, 0, BASE_CLOCK_MS);
    StampedCost(Voicing(sc.Cfg()), VoicesOf(sc.Cfg(), i), BASE_CLOCK_MS, i, rs);
    CostUniform(Voicing(sc.Cfg()), rs, PerTurn(sc));
  }

  lemma PrimedAnswered(sc: Scenario, i: nat)
    requires sc.Valid() && FrameMs(sc) > 0
    ensures AnsweredBy(sc, Primed(sc, i))
  {
    var rs := Prime(sc, BASE_CLOCK_MS).1;
    var numbered := PromptsCues(sc, sc.turns, 0, BASE_CLOCK_MS, BargeAt(0));
    forall x ensures BagOf(Stamped(BASE_CLOCK_MS, i, rs), CuesOf(i))[x] == ScriptCues(sc, [], x) {
      var prompts := PromptsCues(sc, sc.turns, 0, BASE_CLOCK_MS, x);
      StampedCues(BASE_CLOCK_MS, i, rs, x);
    }
  }

  lemma PrimedIsQuiet(sc: Scenario, i: nat)
    requires FrameMs(sc) > 0 && forall e | e in Primed(sc, i).m :: e.fn.CallerSpeaks?
    ensures var l := Primed(sc, i);
            && TurnsOk(sc, i, l) && SpacedBy(sc, l) && Balanced(l) && AllKept(sc, l) && ArrivedBy(l)
            && Streamed(sc, i, l) && EndpointedBy(sc, l)
            && (OrderingLink(sc) ==> Fifo(sc, i, l))
  {}

  lemma PrimedStops(sc: Scenario, i: nat)
    requires FrameMs(sc) > 0 && Sound(sc, i, Primed(sc, i)) && forall e | e in Primed(sc, i).m :: e.fn.CallerSpeaks?
    ensures StopInv(sc, Primed(sc, i))
  {}

  lemma PrimedKeeps(sc: Scenario, i: nat)
    requires sc.Valid() && FrameMs(sc) > 0
    ensures SessionInv(sc, i, Primed(sc, i))
  {
    PrimedSound(sc, i);
    PrimedIsQuiet(sc, i);
    PrimedStops(sc, i);
    PrimedBounded(sc, i);
    PrimedVoiced(sc, i);
    PrimedAnswered(sc, i);
  }

  /** What session i sees of the requests of session j. */
  lemma StampedBags(c: AgentConfig, rs: seq<Request>, j: nat, i: nat)
    requires forall r | r in rs :: !r.fn.IsDelivery()
    ensures var st := Stamped(BASE_CLOCK_MS, j, rs);
            && BagOf(st, MineOf(i)) == (if i == j then multiset(st) else multiset{})
            && BagOf(st, DownOf(i)) == multiset{} && BagOf(st, UpOf(i)) == multiset{}
            && SumOf(st, WeightOf(c, i)) == (if i == j then SumOf(st, WeightOf(c, j)) else 0)
            && SumOf(st, VoicesOf(c, i)) == (if i == j then SumOf(st, VoicesOf(c, j)) else 0)
            && BagOf(st, CuesOf(i)) == (if i == j then BagOf(st, CuesOf(j)) else multiset{})
  {
    var st := Stamped(BASE_CLOCK_MS, j, rs);
    if i == j {
      MineIsAll(st, i);
      Framesless(BASE_CLOCK_MS, i, rs);
    } else {
      OthersAreNothing(c, st, i);
    }
  }

  lemma AddNothing<U>(x: multiset<U>)
    ensures x + multiset{} == x && multiset{} + x == x
  {}

  /** Heap h holds the primed requests of the first n sessions, as session i sees it. */
  ghost predicate SeenPrimed(c: AgentConfig, rs: seq<Request>, h: seq<Pending>, n: nat, i: nat) {
    var st := Stamped(BASE_CLOCK_MS, i, rs);
    && BagOf(h, MineOf(i)) == (if i < n then multiset(st) else multiset{})
    && BagOf(h, DownOf(i)) == multiset{} && BagOf(h, UpOf(i)) == multiset{}
    && SumOf(h, WeightOf(c, i)) == (if i < n then SumOf(st, WeightOf(c, i)) else 0)
    && SumOf(h, VoicesOf(c, i)) == (if i < n then SumOf(st, VoicesOf(c, i)) else 0)
    && BagOf(h, CuesOf(i)) == (if i < n then BagOf(st, CuesOf(i)) else multiset{})
  }

  ghost predicate Carries(p: nat -> bool, k: nat) { p(k) ==> p(k + 1) }

  lemma {:induction false} Inductively(p: nat -> bool, n: nat)
    requires p(0) && forall k: nat :: Carries(p, k)
    ensures p(n)
  {
    if n > 0 {
      Inductively(p, n - 1);
      assert Carries(p, n - 1);
    }
  }

  /** h is g with the requests of session k on it. */
  ghost predicate GrowsAt(g: seq<Pending>, h: seq<Pending>, rs: seq<Request>, k: nat) {
    multiset(h) == multiset(g) + multiset(Stamped(BASE_CLOCK_MS, k, rs))
  }

  lemma PrimedStep(rs: seq<Request>, k: nat)
    ensures GrowsAt(PrimedHeap(rs, k), PrimedHeap(rs, k + 1), rs, k)
  {
    var g := PrimedHeap(rs, k);
    PushAllMultiset(g, BASE_CLOCK_MS, k, rs);
    assert PrimedHeap(rs, k + 1) == PushAll(g, BASE_CLOCK_MS, k, rs);
  }

  lemma GrownView(c: AgentConfig, rs: seq<Request>, heaps: nat -> seq<Pending>, n: nat, i: nat)
    requires heaps(0) == [] && forall k: nat :: GrowsAt(heaps(k), heaps(k + 1), rs, k)
    requires forall r | r in rs :: !r.fn.IsDelivery()
    ensures SeenPrimed(c, rs, heaps(n), n, i)
  {
    var seen := (k: nat) => SeenPrimed(c, rs, heaps(k), k, i);
    forall k: nat ensures Carries(seen, k) {
      assert GrowsAt(heaps(k), heaps(k + 1), rs, k);
      if seen(k) {
        if i == k {
          PrimedOwn(c, rs, heaps(k), heaps(k + 1), i);
        } else {
          PrimedOther(c, rs, heaps(k), heaps(k + 1), k, i);
        }
      }
    }
    Inductively(seen, n);
  }

  lemma PrimedView(c: AgentConfig, rs: seq<Request>, n: nat, i: nat)
    requires forall r | r in rs :: !r.fn.IsDelivery()
    ensures SeenPrimed(c, rs, PrimedHeap(rs, n), n, i)
  {
    var heaps := (k: nat) => PrimedHeap(rs, k);
    forall k: nat ensures GrowsAt(heaps(k), heaps(k + 1), rs, k) {
      PrimedStep(rs, k);
    }
    GrownView(c, rs, heaps, n, i);
  }

  lemma PrimedOwn(c: AgentConfig, rs: seq<Request>, g: seq<Pending>, h: seq<Pending>, i: nat)
    requires (forall r | r in rs :: !r.fn.IsDelivery()) && GrowsAt(g, h, rs, i) && SeenPrimed(c, rs, g, i, i)
    ensures SeenPrimed(c, rs, h, i + 1, i)
  {
    var st := Stamped(BASE_CLOCK_MS, i, rs);
    HeapGrows(c, g, st, h, i);
    StampedBags(c, rs, i, i);
    AddNothing(BagOf(st, MineOf(i)));
    AddNothing(BagOf(st, CuesOf(i)));
  }

  lemma PrimedOther(c: AgentConfig, rs: seq<Request>, g: seq<Pending>, h: seq<Pending>, j: nat, i: nat)
    requires (forall r | r in rs :: !r.fn.IsDelivery()) && GrowsAt(g, h, rs, j) && SeenPrimed(c, rs, g, j, i) && i != j
    ensures SeenPrimed(c, rs, h, j + 1, i)
  {
    HeapGrows(c, g, Stamped(BASE_CLOCK_MS, j, rs), h, i);
    StampedBags(c, rs, j, i);
    AddNothing(BagOf(g, MineOf(i)));
    AddNothing(BagOf(g, DownOf(i)));
    AddNothing(BagOf(g, UpOf(i)));
    AddNothing(BagOf(g, CuesOf(i)));
  }

  lemma HeapGrows(c: AgentConfig, g: seq<Pending>, st: seq<Pending>, h: seq<Pending>, i: nat)
    requires multiset(h) == multiset(g) + multiset(st)
    ensures BagOf(h, MineOf(i)) == BagOf(g, MineOf(i)) + BagOf(st, MineOf(i))
    ensures BagOf(h, DownOf(i)) == BagOf(g, DownOf(i)) + BagOf(st, DownOf(i))
    ensures BagOf(h, UpOf(i)) == BagOf(g, UpOf(i)) + BagOf(st, UpOf(i))
    ensures SumOf(h, WeightOf(c, i)) == SumOf(g, WeightOf(c, i)) + SumOf(st, WeightOf(c, i))
    ensures SumOf(h, VoicesOf(c, i)) == SumOf(g, VoicesOf(c, i)) + SumOf(st, VoicesOf(c, i))
    ensures BagOf(h, CuesOf(i)) == BagOf(g, CuesOf(i)) + BagOf(st, CuesOf(i))
  {
    assert multiset(h) == multiset(g + st);
    BagPermutation(h, g + st, CuesOf(i));
    BagConcat(g, st, CuesOf(i));
    SumPermutation(h, g + st, VoicesOf(c, i));
    SumConcat(g, st, VoicesOf(c, i));
    BagPermutation(h, g + st, MineOf(i));
    BagPermutation(h, g + st, DownOf(i));
    BagPermutation(h, g + st, UpOf(i));
    SumPermutation(h, g + st, WeightOf(c, i));
    BagConcat(g, st, MineOf(i));
    BagConcat(g, st, DownOf(i));
    BagConcat(g, st, UpOf(i));
    SumConcat(g, st, WeightOf(c, i));
  }

  lemma StartSeen(sc: Scenario, i: nat)
    requires sc.Valid() && FrameMs(sc) > 0 && i < sc.callers
    ensures View(sc.Cfg(), Start(sc), i) == Primed(sc, i)
  {
    var rs := Prime(sc, BASE_CLOCK_MS).1;
    PromptsCount(sc, sc.turns, 0, BASE_CLOCK_MS);
    PrimedView(sc.Cfg(), rs, sc.callers, i);
  }

  // ---- every turn of the drive loop ----

  /** The state of the engine between two turns of the drive loop. */
  ghost predicate RunInv(sc: Scenario, w: World)
    requires FrameMs(sc) != 0
  {
    && Owned(w) && |w.sess| == sc.callers && Ordered(w.heap, |w.heap|)
    && forall i: nat | i < sc.callers :: SessionInv(sc, i, View(sc.Cfg(), w, i))
  }

  lemma BagHolds<U>(h: seq<Pending>, e: Pending, f: Pending -> multiset<U>, part: multiset<U>)
    requires e in h && f(e) == part
    ensures part <= BagOf(h, f)
  {
    var k :| 0 <= k < |h| && h[k] == e;
    BagRemove(h, k, f);
  }

  lemma SumHolds(h: seq<Pending>, e: Pending, f: Pending -> int, part: int)
    requires e in h && f(e) == part && forall x | x in h :: f(x) >= 0
    ensures part <= SumOf(h, f)
  {
    SumBounds(h, f);
  }

  /** What an event contributes is contained in its session's totals. */
  lemma EventCounted(c: AgentConfig, w: World, i: nat, e: Pending)
    requires i < |w.sess| && e in w.heap && e.session == i
    ensures var l := View(c, w, i);
            && e in l.m && DownFrame(e.fn) <= l.down && UpFrame(e.fn) <= l.up && Weight(c, e.fn) <= l.weight
            && Voices(c, e.fn) <= l.voices && Cues(e.fn) <= l.cues
  {
    MineMember(w.heap, i, e);
    BagHolds(w.heap, e, DownOf(i), DownFrame(e.fn));
    BagHolds(w.heap, e, UpOf(i), UpFrame(e.fn));
    BagHolds(w.heap, e, CuesOf(i), Cues(e.fn));
    SumHolds(w.heap, e, WeightOf(c, i), Weight(c, e.fn));
    SumHolds(w.heap, e, VoicesOf(c, i), Voices(c, e.fn));
  }

  lemma NothingOverdue(sc: Scenario, w: World)
    requires FrameMs(sc) != 0 && RunInv(sc, w)
    ensures forall e | e in w.heap :: e.deliverAt >= w.now
  {
    forall e | e in w.heap ensures e.deliverAt >= w.now {
      EventCounted(sc.Cfg(), w, e.session, e);
      assert SoundEvent(sc, e.session, w.now, w.sess[e.session], e);
    }
  }

  lemma AdvanceOrdered(fire: Reaction, w: World)
    requires w.heap != [] && Owned(w) && Ordered(w.heap, |w.heap|)
    ensures Ordered(Advance(fire, w).heap, |Advance(fire, w).heap|)
  {
    var (e, rest) := Pop(w.heap);
    PopTakesLeast(w.heap);
    var now := Later(w.now, e.deliverAt);
    PushAllOrdered(rest, now, e.session, fire(e.session, now, w.sess[e.session], e.fn).1);
  }

  lemma AdvanceKeeps(sc: Scenario, w: World)
    requires sc.Valid() && FrameMs(sc) != 0 && RunInv(sc, w) && w.heap != []
    ensures RunInv(sc, Advance(Reactor(sc), w))
  {
    var fire := Reactor(sc);
    NothingOverdue(sc, w);
    AdvanceOwned(fire, w);
    AdvanceOrdered(fire, w);
    var e := Pop(w.heap).0;
    EventCounted(sc.Cfg(), w, e.session, e);
    forall i: nat | i < sc.callers ensures SessionInv(sc, i, View(sc.Cfg(), Advance(fire, w), i)) {
      if e.session == i {
        AdvanceOwn(fire, sc.Cfg(), w, i);
        FireKeeps(sc, i, View(sc.Cfg(), w, i), e);
      } else {
        AdvanceOther(fire, sc.Cfg(), w, i);
        WaitKeeps(sc, i, View(sc.Cfg(), w, i), e.deliverAt);
      }
    }
  }

  lemma StartKeeps(sc: Scenario)
    requires sc.Valid() && FrameMs(sc) > 0
    ensures RunInv(sc, Start(sc))
  {
    PrimedOwned(Prime(sc, BASE_CLOCK_MS).1, sc.callers);
    PrimedOrdered(Prime(sc, BASE_CLOCK_MS).1, sc.callers);
    forall i: nat | i < sc.callers ensures SessionInv(sc, i, View(sc.Cfg(), Start(sc), i)) {
      StartSeen(sc, i);
      PrimedKeeps(sc, i);
    }
  }

  ghost predicate Preserves(sc: Scenario, turn: World -> World)
    requires FrameMs(sc) != 0
  {
    forall w: World | RunInv(sc, w) && w.heap != [] :: RunInv(sc, turn(w))
  }

  lemma {:induction false} DrivesKeep(sc: Scenario, turn: World -> World, w: World, n: nat)
    requires FrameMs(sc) != 0 && Preserves(sc, turn) && RunInv(sc, w)
    ensures RunInv(sc, Drives(turn, w, n))
  {
    if n > 0 {
      DrivesKeep(sc, turn, w, n - 1);
    }
  }

  /** Every state the drive loop passes through satisfies every session's invariant. */
  lemma RunKeeps(sc: Scenario, n: nat)
    requires sc.Valid() && FrameMs(sc) > 0
    ensures RunInv(sc, RunFor(sc, n)) && |RunFor(sc, n).sess| == sc.callers
  {
    StartKeeps(sc);
    var turn := Turn(Reactor(sc));
    forall w: World | RunInv(sc, w) && w.heap != [] ensures RunInv(sc, turn(w)) {
      AdvanceKeeps(sc, w);
    }
    DrivesKeep(sc, turn, Start(sc), n);
  }
}
