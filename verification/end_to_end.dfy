/** From scenario to metrics: what the numbers of a run can be. */
module EndToEnd {
  import opened Audio
  import opened Sums
  import opened Sorting
  import opened Clock
  import opened Impair
  import opened EventLog
  import opened Scenarios
  import CallerSession
  import opened Engine
  import opened Conservation
  import opened FifoDownlink
  import opened StopBound
  import opened Runs
  import opened OfflineRun
  import opened EngineLoop
  import Metrics
  import MetricsMeaning
  import Attribution
  import opened Rendezvous
  import Refines = RendezvousRefines
  import opened EngineThreads

  // ---- what is in a final log ----

  lemma FinalMembers(s: Sess, e: Entry)
    ensures e in FinalLog(s) <==> e in s.caller.log || e in DropEntries(s.link.dropped)
  {
    var all := s.caller.log + DropEntries(s.link.dropped);
    LogOrder();
    StableSortSorts(all, LogLess());
    assert e in FinalLog(s) <==> e in multiset(all);
  }

  lemma FinalSorted(s: Sess)
    ensures Sorted(FinalLog(s), LogLess()) && SortedLog(FinalLog(s)) == FinalLog(s)
  {
    LogOrder();
    StableSortSorts(s.caller.log + DropEntries(s.link.dropped), LogLess());
    Metrics.SortedIsSort(FinalLog(s), LogLess());
  }

  // ---- time to stop ----

  lemma StopTimeBounded(sc: Scenario, s: Sess, t: int)
    requires StopsInTime(sc, s.caller.log) && sc.agent.stopLatencyMs >= 0
    ensures 0 <= Metrics.StopTime(FinalLog(s), t) <= sc.agent.stopLatencyMs
  {
    var events := FinalLog(s);
    MetricsMeaning.StopTimesNonNegative(events, t);
    if Metrics.StopTime(events, t) > 0 {
      var b, r :| b in events && r in events && b.typ.BargedIn? && Metrics.IsAgent(r) && b.turn == t == r.turn
                  && Metrics.StopTime(events, t) == r.ts - b.ts;
      FinalMembers(s, b);
      FinalMembers(s, r);
      assert IsBarge(b) && IsHeard(r);
    }
  }

  /** Through a transparent downlink, every time-to-stop the metrics report for a run is between zero and the agent's
      stop latency, whatever the script and however prompts and barge-ins collide. */
  lemma TimeToStopBounded(sc: Scenario, w: World, i: nat, threshold: int)
    requires sc.Valid() && CallerSession.FrameMs(sc) > 0 && Ended(sc, w) && i < |w.sess|
    requires Transparent(sc.profile) && !sc.agent.ignoreBargeIn && SmallSeqs(w.sess[i])
    ensures forall v | v in Metrics.Compute(i, FinalLog(w.sess[i]), threshold).timeToStopMs ::
              0 <= v <= sc.agent.stopLatencyMs
  {
    AgentStopsInTime(sc, w, i);
    var s := w.sess[i];
    FinalSorted(s);
    var out := Metrics.TimeToStop(FinalLog(s));
    forall v | v in out ensures 0 <= v <= sc.agent.stopLatencyMs {
      var k: nat :| k < |out| && out[k] == v;
      StopTimeBounded(sc, s, Metrics.TurnsOf(FinalLog(s), Metrics.IsBarge())[k]);
    }
  }

  // ---- reordering ----

  /** Times and numbers of the agent's audio frames, in the order they were received. */
  function ArrivalKeys(got: seq<Frame>, at: seq<int>): seq<(int, int)>
    requires |got| == |at|
  {
    if got == [] then []
    else
      var n := |got| - 1;
      ArrivalKeys(got[..n], at[..n]) + (if got[n].kind.AgentAudio? then [(at[n], got[n].seqNo)] else [])
  }

  /** Numbers of the agent's audio frames, in the order they were received. */
  function ArrivalSeqs(got: seq<Frame>): seq<int> {
    if got == [] then []
    else
      var n := |got| - 1;
      ArrivalSeqs(got[..n]) + (if got[n].kind.AgentAudio? then [got[n].seqNo] else [])
  }

  lemma {:induction false} KeysToSeqs(got: seq<Frame>, at: seq<int>)
    requires |got| == |at|
    ensures Metrics.Map(ArrivalKeys(got, at), Metrics.Second()) == ArrivalSeqs(got)
  {
    if got != [] {
      var n := |got| - 1;
      KeysToSeqs(got[..n], at[..n]);
      MapAppend(ArrivalKeys(got[..n], at[..n]), (at[n], got[n].seqNo), Metrics.Second());
    }
  }

  lemma MapAppend<T, U>(s: seq<T>, x: T, f: T -> U)
    ensures Metrics.Map(s + [x], f) == Metrics.Map(s, f) + [f(x)]
  {}

  lemma {:induction false} AgentReceipts(log: seq<Entry>)
    ensures Filter(log, Metrics.IsAgentEntry()) == Filter(Receipts(log), Metrics.IsAgentEntry())
  {
    if log != [] {
      var n, rs := |log| - 1, Receipts(log);
      AgentReceipts(log[..n]);
      if IsReceipt(log[n]) {
        assert rs[..|rs| - 1] == Receipts(log[..n]) && rs[|rs| - 1] == log[n];
      } else {
        assert rs == Receipts(log[..n]) && !Metrics.IsAgentEntry()(log[n]);
      }
    }
  }

  lemma {:induction false} ReplayKeys(got: seq<Frame>, at: seq<int>)
    requires |got| == |at|
    ensures Metrics.Map(Filter(Replay(got, at), Metrics.IsAgentEntry()), Metrics.Key()) == ArrivalKeys(got, at)
  {
    if got != [] {
      var n := |got| - 1;
      ReplayKeys(got[..n], at[..n]);
      var log, e := Replay(got[..n], at[..n]), CallerSession.Received(got[n], at[n], Starts(got));
      assert Replay(got, at) == log + [e] && (log + [e])[..|log|] == log;
      MapAppend(Filter(log, Metrics.IsAgentEntry()), e, Metrics.Key());
    }
  }

  lemma {:induction false} KeyFrom(got: seq<Frame>, at: seq<int>, k: nat) returns (j: nat)
    requires |got| == |at| && k < |ArrivalKeys(got, at)|
    ensures j < |got| && ArrivalKeys(got, at)[k] == (at[j], got[j].seqNo) && |ArrivalKeys(got[..j], at[..j])| == k
  {
    var n := |got| - 1;
    if k < |ArrivalKeys(got[..n], at[..n])| {
      j := KeyFrom(got[..n], at[..n], k);
      assert got[..n][..j] == got[..j] && at[..n][..j] == at[..j];
    } else {
      j := n;
    }
  }

  lemma {:induction false} KeysGrow(got: seq<Frame>, at: seq<int>, i: nat, j: nat)
    requires |got| == |at| && i <= j <= |got|
    ensures |ArrivalKeys(got[..i], at[..i])| <= |ArrivalKeys(got[..j], at[..j])|
    decreases j
  {
    if i < j {
      KeysGrow(got, at, i, j - 1);
      assert got[..j][..j - 1] == got[..j - 1] && at[..j][..j - 1] == at[..j - 1];
    }
  }

  /** Frame k of the arrivals came before frame m. */
  lemma KeysInOrder(got: seq<Frame>, at: seq<int>, k: nat, m: nat) returns (i: nat, j: nat)
    requires |got| == |at| && k < m < |ArrivalKeys(got, at)|
    ensures i < j < |got|
    ensures ArrivalKeys(got, at)[k] == (at[i], got[i].seqNo) && ArrivalKeys(got, at)[m] == (at[j], got[j].seqNo)
  {
    i := KeyFrom(got, at, k);
    j := KeyFrom(got, at, m);
    if j <= i {
      KeysGrow(got, at, j, i);
    }
  }

  lemma KeysSorted(t: Trace)
    requires ByTimeAndNumber(t)
    ensures Sorted(ArrivalKeys(t.got, t.gotAt), Metrics.KeyLess())
  {
    var keys := ArrivalKeys(t.got, t.gotAt);
    forall k, m | 0 <= k < m < |keys| ensures !Metrics.KeyLess()(keys[m], keys[k]) {
      var i, j := KeysInOrder(t.got, t.gotAt, k, m);
    }
  }

  lemma FinalAgents(s: Sess)
    ensures multiset(Filter(FinalLog(s), Metrics.IsAgentEntry()))
            == multiset(Filter(s.caller.log, Metrics.IsAgentEntry()))
  {
    var drops := DropEntries(s.link.dropped);
    LogOrder();
    StableSortSorts(s.caller.log + drops, LogLess());
    Metrics.FilterPermutes(FinalLog(s), s.caller.log + drops, Metrics.IsAgentEntry());
    FilterConcat(s.caller.log, drops, Metrics.IsAgentEntry());
    NoneFiltered(drops, Metrics.IsAgentEntry());
    assert Filter(s.caller.log, Metrics.IsAgentEntry()) + [] == Filter(s.caller.log, Metrics.IsAgentEntry());
  }

  lemma MapPermutes<T, U>(a: seq<T>, b: seq<T>, f: T -> U)
    requires multiset(a) == multiset(b)
    ensures multiset(Metrics.Map(a, f)) == multiset(Metrics.Map(b, f))
  {
    Metrics.MapBag(a, f);
    Metrics.MapBag(b, f);
    BagPermutation(a, b, Metrics.OneOf(f));
  }

  /** Sorting the log leaves the agent's audio frames in the order they were received. */
  lemma FinalSeqs(s: Sess)
    requires ByTimeAndNumber(s.trace) && Receipts(s.caller.log) == Replay(s.trace.got, s.trace.gotAt)
    ensures Metrics.AgentSeqs(FinalLog(s)) == ArrivalSeqs(s.trace.got)
  {
    var t := s.trace;
    var sorted, came := Filter(FinalLog(s), Metrics.IsAgentEntry()), Filter(s.caller.log, Metrics.IsAgentEntry());
    FinalSorted(s);
    Metrics.AgentsOnly(FinalLog(s));
    Metrics.KeysSorted(sorted);
    AgentReceipts(s.caller.log);
    ReplayKeys(t.got, t.gotAt);
    KeysSorted(t);
    FinalAgents(s);
    MapPermutes(sorted, came, Metrics.Key());
    Metrics.KeyOrder();
    Metrics.SortedPermutationsAgree(Metrics.Map(sorted, Metrics.Key()), Metrics.Map(came, Metrics.Key()),
                                    Metrics.KeyLess());
    Metrics.SeqsAreKeys(FinalLog(s));
    KeysToSeqs(t.got, t.gotAt);
  }

  /** On any link the metrics report exactly the audio frames the caller received after one with a greater number. */
  lemma ReorderedAsReceived(sc: Scenario, w: World, i: nat, threshold: int)
    requires sc.Valid() && CallerSession.FrameMs(sc) > 0 && Ended(sc, w) && i < |w.sess|
    ensures var s := w.sess[i];
            && Metrics.AgentSeqs(FinalLog(s)) == ArrivalSeqs(s.trace.got)
            && Metrics.Compute(i, FinalLog(s), threshold).reorderedFrames
               == |MetricsMeaning.Late(ArrivalSeqs(s.trace.got))|
  {
    var s := w.sess[i];
    ArrivesByTimeAndNumber(sc, w, i);
    Attribution.ReceiptsAreReplay(sc, w, i);
    FinalSorted(s);
    FinalSeqs(s);
    MetricsMeaning.OvertakenCounts(ArrivalSeqs(s.trace.got));
  }

  lemma {:induction false} ArrivalFrom(got: seq<Frame>, x: int) returns (j: nat)
    requires x in ArrivalSeqs(got)
    ensures j < |got| && got[j].seqNo == x
  {
    j := |got| - 1;
    if got[j].seqNo != x {
      j := ArrivalFrom(got[..j], x);
    }
  }

  lemma {:induction false} SeqsRise(got: seq<Frame>)
    requires forall j, k | 0 <= j < k < |got| :: got[j].seqNo < got[k].seqNo
    ensures MetricsMeaning.Rising(ArrivalSeqs(got))
  {
    if got != [] {
      var n := |got| - 1;
      SeqsRise(got[..n]);
      forall x | x in ArrivalSeqs(got[..n]) ensures x <= got[n].seqNo {
        var j := ArrivalFrom(got[..n], x);
      }
      RisingAppend(ArrivalSeqs(got[..n]), got[n].seqNo);
    }
  }

  lemma RisingAppend(ns: seq<int>, x: int)
    requires MetricsMeaning.Rising(ns) && forall y | y in ns :: y <= x
    ensures MetricsMeaning.Rising(ns + [x])
  {
    var r := ns + [x];
    forall i, j | 0 <= i < j < |r| ensures r[i] <= r[j] {
      assert r[i] == ns[i] && ns[i] in ns;
    }
  }

  /** Through an ordering link the metrics never see a reordered frame. */
  lemma NoneReordered(sc: Scenario, w: World, i: nat, threshold: int)
    requires sc.Valid() && CallerSession.FrameMs(sc) > 0 && Ended(sc, w) && i < |w.sess| && OrderingLink(sc)
    ensures Metrics.Compute(i, FinalLog(w.sess[i]), threshold).reorderedFrames == 0
  {
    ReorderedAsReceived(sc, w, i, threshold);
    DownlinkIsFifo(sc, w, i);
    NoneLate(w.sess[i].trace);
  }

  lemma NoneLate(t: Trace)
    requires ReceivedInOrder(t)
    ensures |MetricsMeaning.Late(ArrivalSeqs(t.got))| == 0
  {
    SeqsRise(t.got);
    MetricsMeaning.OvertakenCounts(ArrivalSeqs(t.got));
    MetricsMeaning.NothingReordered(ArrivalSeqs(t.got));
  }

  // ---- conservation ----

  predicate Records(c: CallerSession.Caller) { forall e | e in c.log :: !e.typ.Drop? }

  /** A session never logs a drop itself. */
  lemma ReactRecords(sc: Scenario, i: nat, now: int, s: Sess, cb: Callback)
    requires CallerSession.FrameMs(sc) != 0 && Records(s.caller)
    ensures Records(Reactor(sc)(i, now, s, cb).0.caller)
  {}

  ghost predicate AllRecord(w: World) { forall s | s in w.sess :: Records(s.caller) }

  lemma AdvanceRecords(sc: Scenario, w: World)
    requires CallerSession.FrameMs(sc) != 0 && AllRecord(w) && w.heap != [] && Owned(w)
    ensures AllRecord(Advance(Reactor(sc), w))
  {
    var e := Pop(w.heap).0;
    ReactRecords(sc, e.session, Engine.Later(w.now, e.deliverAt), w.sess[e.session], e.fn);
  }

  lemma {:induction false} RunsRecord(turn: World -> World, w: World, n: nat)
    requires AllRecord(w) && forall v: World | AllRecord(v) && v.heap != [] :: AllRecord(turn(v))
    ensures AllRecord(Drives(turn, w, n))
  {
    if n > 0 {
      RunsRecord(turn, w, n - 1);
    }
  }

  lemma ReachedRecords(sc: Scenario, w: World)
    requires CallerSession.FrameMs(sc) != 0 && Reached(sc, w)
    ensures AllRecord(w)
  {
    var n: nat :| w == RunFor(sc, n);
    var turn := Engine.Turn(Reactor(sc));
    forall v: World | AllRecord(v) && v.heap != [] ensures AllRecord(turn(v)) {
      if Owned(v) {
        AdvanceRecords(sc, v);
      }
    }
    RunsRecord(turn, Start(sc), n);
  }

  function Receipt(): Entry -> bool { (e: Entry) => IsReceipt(e) }
  function Dropping(): Entry -> bool { (e: Entry) => e.typ.Drop? }

  lemma {:induction false} ReceiptsFilter(log: seq<Entry>)
    ensures Filter(log, Receipt()) == Receipts(log)
  {
    if log != [] {
      ReceiptsFilter(log[..|log| - 1]);
    }
  }

  lemma {:induction false} NoneFiltered(log: seq<Entry>, p: Entry -> bool)
    requires forall e | e in log :: !p(e)
    ensures Filter(log, p) == []
  {
    if log != [] {
      NoneFiltered(log[..|log| - 1], p);
    }
  }

  lemma {:induction false} AllFiltered(log: seq<Entry>, p: Entry -> bool)
    requires forall e | e in log :: p(e)
    ensures Filter(log, p) == log
  {
    if log != [] {
      var n := |log| - 1;
      assert log[n] in log;
      AllFiltered(log[..n], p);
    }
  }

  lemma {:induction false} DropsCounted(log: seq<Entry>)
    ensures Metrics.Dropped(log) == |Filter(log, Dropping())|
  {
    if log != [] {
      DropsCounted(log[..|log| - 1]);
      SumLast(log, Metrics.IsDrop());
    }
  }

  lemma FilterFinal(s: Sess, p: Entry -> bool)
    ensures |Filter(FinalLog(s), p)| == |Filter(s.caller.log, p)| + |Filter(DropEntries(s.link.dropped), p)|
  {
    var all := s.caller.log + DropEntries(s.link.dropped);
    LogOrder();
    StableSortSorts(all, LogLess());
    Metrics.FilterPermutes(FinalLog(s), all, p);
    FilterConcat(s.caller.log, DropEntries(s.link.dropped), p);
    assert |multiset(Filter(FinalLog(s), p))| == |multiset(Filter(all, p))|;
  }

  /** Conservation, as the log shows it: every frame the agent sent is one TurnStarted, TurnEnded or Recv entry, or
      one Drop entry, which the metrics count. */
  lemma LogConserves(sc: Scenario, w: World, i: nat, threshold: int)
    requires sc.Valid() && CallerSession.FrameMs(sc) > 0 && Ended(sc, w) && i < |w.sess|
    ensures var s := w.sess[i];
            && Metrics.Compute(i, FinalLog(s), threshold).droppedFrames == |s.link.dropped|
            && |s.trace.sent| == |Filter(FinalLog(s), Receipt())|
               + Metrics.Compute(i, FinalLog(s), threshold).droppedFrames
  {
    var s := w.sess[i];
    FramesAreConserved(sc, w, i);
    ReachedRecords(sc, w);
    assert s in w.sess;
    FinalSorted(s);
    FilterFinal(s, Receipt());
    FilterFinal(s, Dropping());
    ReceiptsFilter(s.caller.log);
    NoneFiltered(DropEntries(s.link.dropped), Receipt());
    NoneFiltered(s.caller.log, Dropping());
    AllFiltered(DropEntries(s.link.dropped), Dropping());
    DropsCounted(FinalLog(s));
  }

  /** A Drop entry records a frame the downlink dropped, stamped with that frame's time and filed under no turn. */
  lemma DropsAreStamped(sc: Scenario, w: World, i: nat, e: Entry)
    requires sc.Valid() && CallerSession.FrameMs(sc) > 0 && Reached(sc, w) && i < |w.sess|
    requires e in FinalLog(w.sess[i]) && e.typ.Drop?
    ensures e.ts == e.frame.ts && e.turn == 0 && e.frame in w.sess[i].link.dropped
  {
    ReachedRecords(sc, w);
    assert w.sess[i] in w.sess;
    FinalMembers(w.sess[i], e);
  }

  /** What a log can show of a frame: turn markers are logged without theirs. */
  datatype Sight = Opened | Closed | Voice(frame: Frame)

  function SightOf(f: Frame): Sight {
    match f.kind
    case TurnStart => Opened
    case TurnEnd => Closed
    case _ => Voice(f)
  }

  function Seen(): Frame -> multiset<Sight> { (f: Frame) => multiset{SightOf(f)} }

  /** The agent frame an entry records, received or dropped. */
  function EntrySight(e: Entry): multiset<Sight> {
    match e.typ
    case Recv => multiset{Voice(e.frame)}
    case TurnStarted => multiset{Opened}
    case TurnEnded => multiset{Closed}
    case Drop => multiset{SightOf(e.frame)}
    case _ => multiset{}
  }

  function Shown(): Entry -> multiset<Sight> { (e: Entry) => EntrySight(e) }

  lemma {:induction false} ReceiptsShow(log: seq<Entry>)
    requires forall e | e in log :: !e.typ.Drop?
    ensures BagOf(log, Shown()) == BagOf(Receipts(log), Shown())
  {
    if log != [] {
      var n, rs := |log| - 1, Receipts(log);
      ReceiptsShow(log[..n]);
      BagLast(log, Shown());
      assert log[n] in log;
      if IsReceipt(log[n]) {
        assert rs[..|rs| - 1] == Receipts(log[..n]);
        BagLast(rs, Shown());
      } else {
        assert rs == Receipts(log[..n]) && Shown()(log[n]) == multiset{};
        AddNothing(BagOf(rs, Shown()));
      }
    }
  }

  lemma {:induction false} ReplayShows(got: seq<Frame>, at: seq<int>)
    requires |got| == |at|
    ensures BagOf(Replay(got, at), Shown()) == BagOf(got, Seen())
  {
    if got != [] {
      var n := |got| - 1;
      ReplayShows(got[..n], at[..n]);
      BagLast(got, Seen());
      var log := Replay(got, at);
      assert log[..|log| - 1] == Replay(got[..n], at[..n]);
      BagLast(log, Shown());
      assert Shown()(log[|log| - 1]) == Seen()(got[n]);
    }
  }

  lemma {:induction false} DropsShow(dropped: seq<Frame>)
    ensures BagOf(DropEntries(dropped), Shown()) == BagOf(dropped, Seen())
  {
    if dropped != [] {
      DropsShow(dropped[1..]);
      assert DropEntries(dropped)[1..] == DropEntries(dropped[1..]);
    }
  }

  lemma LogShows(s: Sess)
    ensures BagOf(FinalLog(s), Shown()) == BagOf(s.caller.log, Shown()) + BagOf(DropEntries(s.link.dropped), Shown())
  {
    var drops := DropEntries(s.link.dropped);
    LogOrder();
    StableSortSorts(s.caller.log + drops, LogLess());
    BagPermutation(FinalLog(s), s.caller.log + drops, Shown());
    BagConcat(s.caller.log, drops, Shown());
  }

  lemma PartsSeen(sent: seq<Frame>, dropped: seq<Frame>, got: seq<Frame>)
    requires multiset(sent) == multiset(dropped) + multiset(got)
    ensures BagOf(sent, Seen()) == BagOf(got, Seen()) + BagOf(dropped, Seen())
  {
    assert multiset(sent) == multiset(got + dropped);
    BagPermutation(sent, got + dropped, Seen());
    BagConcat(got, dropped, Seen());
  }

  /** The final log of a session shows what it received and what was dropped. */
  lemma FinalShows(s: Sess)
    requires Records(s.caller) && |s.trace.got| == |s.trace.gotAt|
    requires Receipts(s.caller.log) == Replay(s.trace.got, s.trace.gotAt)
    requires multiset(s.trace.sent) == multiset(s.link.dropped) + multiset(s.trace.got)
    ensures BagOf(FinalLog(s), Shown()) == BagOf(s.trace.sent, Seen())
  {
    LogShows(s);
    ReceiptsShow(s.caller.log);
    ReplayShows(s.trace.got, s.trace.gotAt);
    DropsShow(s.link.dropped);
    PartsSeen(s.trace.sent, s.link.dropped, s.trace.got);
  }

  /** Conservation, frame by frame: the final log shows exactly the frames the agent sent, each once. An audio frame is
      itself in one Recv or Drop entry; a turn marker is one TurnStarted or TurnEnded entry, or
      itself in a Drop entry. */
  lemma LogShowsEveryFrame(sc: Scenario, w: World, i: nat)
    requires sc.Valid() && CallerSession.FrameMs(sc) > 0 && Ended(sc, w) && i < |w.sess|
    ensures BagOf(w.sess[i].trace.sent, Seen()) == BagOf(FinalLog(w.sess[i]), Shown())
  {
    FramesAreConserved(sc, w, i);
    ReachedRecords(sc, w);
    assert w.sess[i] in w.sess;
    Attribution.ReceiptsAreReplay(sc, w, i);
    FinalShows(w.sess[i]);
  }

  // ---- replay ----

  /** The logs a finished run hands over. */
  function FinalLogs(sess: seq<Sess>): seq<LogRecord> {
    seq(|sess|, k requires 0 <= k < |sess| => LogRecord(k, FinalLog(sess[k])))
  }

  /** Two uncancelled runs of one scenario merge to the same log, whatever their goroutines' interleavings. */
  lemma ReplayIsIdentical(sc: Scenario, cs: seq<Conf<World, Callback, Section>>,
                          ds: seq<Conf<World, Callback, Section>>)
    requires sc.Valid() && CallerSession.FrameMs(sc) > 0
    requires EngineRun(sc, cs) && !Refines.Last(cs).ctxDone
             && forall c' :: !Next(EngineMachine(sc), Refines.Last(cs), c')
    requires EngineRun(sc, ds) && !Refines.Last(ds).ctxDone
             && forall c' :: !Next(EngineMachine(sc), Refines.Last(ds), c')
    ensures MergedLogs(FinalLogs(Refines.Last(cs).s.sess)) == MergedLogs(FinalLogs(Refines.Last(ds).s.sess))
  {
    ScheduleIndependence(sc, cs);
    ScheduleIndependence(sc, ds);
  }
}
