/** Under which turn a frame is logged when frames are lost, and so which silences count as stalls
    (internal/session/session.go:138-153, internal/metrics/metrics.go:175-216). */
module Silence {
  import opened Audio
  import opened Basics
  import opened Sorting
  import opened EventLog
  import opened Scenarios
  import opened AgentProto
  import opened CallerSession
  import opened Engine
  import opened TurnProtocol
  import opened Conservation
  import opened FifoDownlink
  import opened StopBound
  import opened Streams
  import opened OfflineRun
  import opened EngineLoop
  import Metrics
  import Replays
  import Attribution
  import EndToEnd

  // ---- the agent's own turns ----

  /** The frame belongs to turn t of the conversation. */
  ghost predicate OfTurn(c: AgentConfig, turns: seq<TurnRec>, t: int, f: Frame) {
    1 <= t <= |turns| && f in TurnScript(c, turns[t - 1], |Conversation(c, turns[..t - 1])|)
  }

  lemma ScriptOpens(c: AgentConfig, r: TurnRec, s0: int, k: nat)
    requires k < |TurnScript(c, r, s0)|
    ensures Starts(TurnScript(c, r, s0)[..k + 1]) == 1
  {
    var script := TurnScript(c, r, s0);
    var head := [script[0]];
    assert script[..k + 1] == head + script[1..k + 1];
    assert head[..0] == [];
    StartsConcat(head, script[1..k + 1]);
    NoStarts(script[1..k + 1]);
  }

  lemma InEarlierTurn(c: AgentConfig, turns: seq<TurnRec>, t: int, f: Frame)
    requires turns != [] && OfTurn(c, turns[..|turns| - 1], t, f)
    ensures OfTurn(c, turns, t, f)
  {
    assert turns[..|turns| - 1][..t - 1] == turns[..t - 1];
  }

  lemma InLastTurn(c: AgentConfig, turns: seq<TurnRec>, before: seq<Frame>, script: seq<Frame>, k: nat)
    requires turns != [] && before == Conversation(c, turns[..|turns| - 1])
    requires script == TurnScript(c, turns[|turns| - 1], |before|) && k < |script|
    ensures Starts((before + script)[..|before| + k + 1]) == |turns| && OfTurn(c, turns, |turns|, script[k])
  {
    assert (before + script)[..|before| + k + 1] == before + script[..k + 1];
    StartsConcat(before, script[..k + 1]);
    ConversationStarts(c, turns[..|turns| - 1]);
    ScriptOpens(c, turns[|turns| - 1], |before|, k);
  }

  /** Frame q belongs to the turn whose TurnStart is the latest up to it. */
  lemma {:induction false} InItsTurn(c: AgentConfig, turns: seq<TurnRec>, q: nat)
    requires q < |Conversation(c, turns)|
    ensures OfTurn(c, turns, Starts(Conversation(c, turns)[..q + 1]), Conversation(c, turns)[q])
  {
    var last := |turns| - 1;
    var before := Conversation(c, turns[..last]);
    var script := TurnScript(c, turns[last], |before|);
    assert Conversation(c, turns) == before + script;
    if q < |before| {
      InItsTurn(c, turns[..last], q);
      assert (before + script)[..q + 1] == before[..q + 1];
      InEarlierTurn(c, turns, Starts(before[..q + 1]), before[q]);
    } else {
      InLastTurn(c, turns, before, script, q - |before|);
    }
  }

  // ---- the turn a frame is logged under ----

  /** Every frame received was sent under its number, and they were received in the order of their numbers. */
  ghost predicate Picked(sent: seq<Frame>, got: seq<Frame>) {
    && (forall k | 0 <= k < |got| :: 0 <= got[k].seqNo < |sent| && sent[got[k].seqNo] == got[k])
    && (forall j, k | 0 <= j < k < |got| :: got[j].seqNo < got[k].seqNo)
  }

  /** Every turn opened among the first q frames sent was seen to start. */
  ghost predicate StartsSeen(sent: seq<Frame>, got: seq<Frame>, q: nat)
    requires q <= |sent|
  {
    forall p: nat | p < q && sent[p].kind.TurnStart? :: sent[p] in got
  }

  lemma OneMoreSent(sent: seq<Frame>, p: nat)
    requires p < |sent|
    ensures Starts(sent[..p + 1]) == Starts(sent[..p]) + (if sent[p].kind.TurnStart? then 1 else 0)
  {
    assert sent[..p + 1][..p] == sent[..p];
  }

  lemma SeenUntil(sent: seq<Frame>, got: seq<Frame>, p: nat)
    requires p < |sent|
    ensures StartsSeen(sent, got, p + 1) <==> StartsSeen(sent, got, p) && (sent[p].kind.TurnStart? ==> sent[p] in got)
  {}

  lemma SeenWithLast(sent: seq<Frame>, before: seq<Frame>, p: nat)
    requires p < |sent| && InSequence(sent)
    ensures StartsSeen(sent, before + [sent[p]], p + 1) <==> StartsSeen(sent, before, p)
  {
    forall m: nat | m < p ensures sent[m] in before + [sent[p]] <==> sent[m] in before {
      assert sent[m] != sent[p];
    }
    SeenUntil(sent, before + [sent[p]], p);
  }

  /** Among frames all sent before the q-th, there are as many TurnStarts as were sent exactly when none was lost. */
  lemma {:induction false} StartsCounted(sent: seq<Frame>, got: seq<Frame>, q: nat)
    requires Picked(sent, got) && q <= |sent| && InSequence(sent) && forall k | 0 <= k < |got| :: got[k].seqNo < q
    ensures Starts(got) <= Starts(sent[..q])
    ensures Starts(got) == Starts(sent[..q]) <==> StartsSeen(sent, got, q)
    decreases q
  {
    if q == 0 {
      assert got == [];
    } else {
      var p, n := q - 1, |got| - 1;
      OneMoreSent(sent, p);
      if got != [] && got[n].seqNo == p {
        StartsCounted(sent, got[..n], p);
        assert got == got[..n] + [sent[p]];
        SeenWithLast(sent, got[..n], p);
      } else {
        LastIsEarlier(got, p);
        StartsCounted(sent, got, p);
        SeenUntil(sent, got, p);
      }
    }
  }

  lemma LastIsEarlier(got: seq<Frame>, p: nat)
    requires forall j, k | 0 <= j < k < |got| :: got[j].seqNo < got[k].seqNo
    requires got != [] ==> got[|got| - 1].seqNo < p
    ensures forall f | f in got :: f.seqNo < p
  {
    forall k | 0 <= k < |got| ensures got[k].seqNo < p {
      assert k < |got| - 1 ==> got[k].seqNo < got[|got| - 1].seqNo;
    }
  }

  lemma PickedFrom(sent: seq<Frame>, got: seq<Frame>, lost: seq<Frame>)
    requires InSequence(sent) && multiset(sent) == multiset(lost) + multiset(got)
    requires forall j, k | 0 <= j < k < |got| :: got[j].seqNo < got[k].seqNo
    ensures Picked(sent, got)
  {
    forall k | 0 <= k < |got| ensures 0 <= got[k].seqNo < |sent| && sent[got[k].seqNo] == got[k] {
      assert got[k] in multiset(got);
      assert got[k] in multiset(sent);
      var q: nat :| q < |sent| && sent[q] == got[k];
    }
  }

  /** On an ordering link the received frames are picked from the conversation. */
  lemma ReceivedIsPicked(sc: Scenario, w: World, i: nat)
    requires sc.Valid() && FrameMs(sc) > 0 && Ended(sc, w) && i < |w.sess| && OrderingLink(sc)
    ensures var t := w.sess[i].trace;
            t.sent == Conversation(sc.Cfg(), t.turns) && Picked(t.sent, t.got) && |t.gotAt| == |t.got|
              && InSequence(t.sent)
  {
    TurnsAreWhole(sc, w, i);
    DownlinkIsFifo(sc, w, i);
    FramesAreConserved(sc, w, i);
    Replays.LinkIsFolded(sc, w, i);
    PickedFrom(w.sess[i].trace.sent, w.sess[i].trace.got, w.sess[i].link.dropped);
  }

  /** What a session's log is made from on an ordering link. */
  ghost predicate Recorded(c: AgentConfig, s: Sess) {
    var t := s.trace;
    && t.sent == Conversation(c, t.turns) && InSequence(t.sent) && Picked(t.sent, t.got)
    && |t.gotAt| == |t.got| == |Receipts(s.caller.log)| && Receipts(s.caller.log) == Replay(t.got, t.gotAt)
  }

  lemma EndedIsRecorded(sc: Scenario, w: World, i: nat)
    requires sc.Valid() && FrameMs(sc) > 0 && Ended(sc, w) && i < |w.sess| && OrderingLink(sc)
    ensures Recorded(sc.Cfg(), w.sess[i])
  {
    ReceivedIsPicked(sc, w, i);
    Attribution.ReceiptsAreReplay(sc, w, i);
    ReplayLength(w.sess[i].trace.got, w.sess[i].trace.gotAt);
  }

  /** Receipt n is logged under no later turn than its frame's own, and under its own exactly when none of the
      TurnStarts sent up to it was lost. */
  ghost predicate LoggedFairly(c: AgentConfig, s: Sess, n: nat)
    requires n < |s.trace.got| && Recorded(c, s)
  {
    var t, f := s.trace, s.trace.got[n];
    var logged, own := Starts(t.got[..n + 1]), Starts(t.sent[..f.seqNo + 1]);
    && Receipts(s.caller.log)[n] == Received(f, t.gotAt[n], logged)
    && OfTurn(c, t.turns, own, f)
    && logged <= own && (logged == own <==> StartsSeen(t.sent, t.got, f.seqNo + 1))
  }

  lemma ReceiptLogged(c: AgentConfig, s: Sess, n: nat)
    requires n < |s.trace.got| && Recorded(c, s)
    ensures LoggedFairly(c, s, n)
  {
    var t := s.trace;
    var q := t.got[n].seqNo;
    Attribution.ReplayAt(t.got, t.gotAt, n);
    InItsTurn(c, t.turns, q);
    StartsCounted(t.sent, t.got[..n + 1], q + 1);
    SeenSoFar(t.sent, t.got, n);
  }

  /** On an ordering link every frame received is logged under no later turn than its own, and under its own exactly
      when none of the TurnStarts sent up to it was lost. */
  lemma LoggedTurn(sc: Scenario, w: World, i: nat, n: nat)
    requires sc.Valid() && FrameMs(sc) > 0 && Ended(sc, w) && i < |w.sess| && OrderingLink(sc)
    requires n < |w.sess[i].trace.got|
    ensures Recorded(sc.Cfg(), w.sess[i]) && LoggedFairly(sc.Cfg(), w.sess[i], n)
  {
    EndedIsRecorded(sc, w, i);
    ReceiptLogged(sc.Cfg(), w.sess[i], n);
  }

  /** What was sent before the n-th frame received was received before it, or not at all. */
  lemma SeenSoFar(sent: seq<Frame>, got: seq<Frame>, n: nat)
    requires Picked(sent, got) && n < |got| && InSequence(sent)
    ensures StartsSeen(sent, got[..n + 1], got[n].seqNo + 1) <==> StartsSeen(sent, got, got[n].seqNo + 1)
  {
    forall p: nat | p < got[n].seqNo + 1 ensures sent[p] in got[..n + 1] <==> sent[p] in got {
      if sent[p] in got {
        var k :| 0 <= k < |got| && got[k] == sent[p];
        assert k <= n;
        assert got[..n + 1][k] == got[k];
      }
    }
  }

  // ---- which gaps count ----

  lemma {:induction false} ReceiptIn(log: seq<Entry>, e: Entry)
    requires e in log && IsReceipt(e)
    ensures e in Receipts(log)
  {
    var n := |log| - 1;
    if e != log[n] {
      assert e in log[..n];
      ReceiptIn(log[..n], e);
    }
  }

  lemma EntryInItsTurn(c: AgentConfig, s: Sess, e: Entry)
    requires Recorded(c, s) && StartsSeen(s.trace.sent, s.trace.got, |s.trace.sent|)
    requires e in FinalLog(s) && Metrics.IsAgent(e)
    ensures OfTurn(c, s.trace.turns, e.turn, e.frame)
  {
    EndToEnd.FinalMembers(s, e);
    ReceiptIn(s.caller.log, e);
    var n: nat :| n < |Receipts(s.caller.log)| && Receipts(s.caller.log)[n] == e;
    ReceiptLogged(c, s, n);
  }

  /** When every TurnStart came through, every audio frame in the log is under the turn that spoke it. */
  lemma LoggedInItsTurn(sc: Scenario, w: World, i: nat, e: Entry)
    requires sc.Valid() && FrameMs(sc) > 0 && Ended(sc, w) && i < |w.sess| && OrderingLink(sc)
    requires StartsSeen(w.sess[i].trace.sent, w.sess[i].trace.got, |w.sess[i].trace.sent|)
    requires e in FinalLog(w.sess[i]) && Metrics.IsAgent(e)
    ensures OfTurn(sc.Cfg(), w.sess[i].trace.turns, e.turn, e.frame)
  {
    EndedIsRecorded(sc, w, i);
    EntryInItsTurn(sc.Cfg(), w.sess[i], e);
  }

  lemma {:induction false} HeardFrom(events: seq<Entry>, t: int, x: int) returns (e: Entry)
    requires x in Metrics.Times(events, Metrics.AgentOf(t))
    ensures e in events && Metrics.IsAgent(e) && e.turn == t && e.ts == x
  {
    e := events[|events| - 1];
    if x !in Metrics.AgentOf(t)(e) {
      e := HeardFrom(events[..|events| - 1], t, x);
    }
  }

  lemma HeardIs(events: seq<Entry>, t: int, k: nat) returns (e: Entry)
    requires k < |Metrics.HeardAt(events, t)|
    ensures e in events && Metrics.IsAgent(e) && e.turn == t && e.ts == Metrics.HeardAt(events, t)[k]
  {
    var ts := Metrics.Times(events, Metrics.AgentOf(t));
    StableSortSorts(ts, Metrics.IntLess());
    assert Metrics.HeardAt(events, t)[k] in multiset(ts);
    e := HeardFrom(events, t, Metrics.HeardAt(events, t)[k]);
  }

  /** So every gap that can count as a stall lies between two frames of one turn of the agent: silence between turns
      never counts. */
  lemma GapsStayInTurn(sc: Scenario, w: World, i: nat, t: int, k: nat) returns (a: Entry, b: Entry)
    requires sc.Valid() && FrameMs(sc) > 0 && Ended(sc, w) && i < |w.sess| && OrderingLink(sc)
    requires StartsSeen(w.sess[i].trace.sent, w.sess[i].trace.got, |w.sess[i].trace.sent|)
    requires k + 1 < |Metrics.HeardAt(FinalLog(w.sess[i]), t)|
    ensures var log, turns := FinalLog(w.sess[i]), w.sess[i].trace.turns;
            && a in log && b in log && a.ts == Metrics.HeardAt(log, t)[k] && b.ts == Metrics.HeardAt(log, t)[k + 1]
            && OfTurn(sc.Cfg(), turns, t, a.frame) && OfTurn(sc.Cfg(), turns, t, b.frame)
  {
    var log := FinalLog(w.sess[i]);
    a := HeardIs(log, t, k);
    b := HeardIs(log, t, k + 1);
    LoggedInItsTurn(sc, w, i, a);
    LoggedInItsTurn(sc, w, i, b);
  }

  /** Without loss every TurnStart comes through. */
  lemma LosslessSeesStarts(sc: Scenario, w: World, i: nat)
    requires sc.Valid() && FrameMs(sc) > 0 && Ended(sc, w) && i < |w.sess| && OrderingLink(sc) && sc.profile.Lossless()
    ensures StartsSeen(w.sess[i].trace.sent, w.sess[i].trace.got, |w.sess[i].trace.sent|)
  {
    LosslessDelivery(sc, w, i);
  }

  // ---- when a TurnStart is lost ----

  /** Two turns of one frame each; the second one's TurnStart, number 3, was lost. */
  const RECEIVED := [Frame(0, 0, 0, TurnStart, 0), Frame(1, 0, 20, AgentAudio, 160), Frame(2, 20, 0, TurnEnd, 0),
                     Frame(4, 500, 20, AgentAudio, 160), Frame(5, 520, 0, TurnEnd, 0)]
  const RECEIVED_AT := [0, 0, 20, 500, 520]

  /** What the caller logs of them. */
  const LOGGED := [Entry(TurnStarted, 0, 1, NO_FRAME), Entry(Recv, 0, 1, RECEIVED[1]),
                   Entry(TurnEnded, 20, 1, NO_FRAME),
                   Entry(Recv, 500, 1, RECEIVED[3]), Entry(TurnEnded, 520, 1, NO_FRAME)]

  lemma OneStart(n: nat)
    requires n < |RECEIVED|
    ensures Starts(RECEIVED[..n + 1]) == 1
  {
    var head := [RECEIVED[0]];
    assert RECEIVED[..n + 1] == head + RECEIVED[1..n + 1];
    assert head[..0] == [];
    StartsConcat(head, RECEIVED[1..n + 1]);
    NoStarts(RECEIVED[1..n + 1]);
  }

  lemma LoggedIsReplay()
    ensures Replay(RECEIVED, RECEIVED_AT) == LOGGED
  {
    Attribution.ReplayAt(RECEIVED, RECEIVED_AT, 0);
    forall n: nat | n < |RECEIVED| ensures Replay(RECEIVED, RECEIVED_AT)[n] == LOGGED[n] {
      Attribution.ReplayAt(RECEIVED, RECEIVED_AT, n);
      OneStart(n);
    }
  }

  lemma TimesAppend(log: seq<Entry>, e: Entry)
    ensures Metrics.Times(log + [e], Metrics.AgentOf(1))
            == Metrics.Times(log, Metrics.AgentOf(1)) + Metrics.AgentOf(1)(e)
  {
    assert (log + [e])[..|log|] == log;
  }

  lemma LoggedTimes()
    ensures Metrics.HeardAt(LOGGED, 1) == [0, 500]
  {
    TimesAppend([], LOGGED[0]);
    assert [] + [LOGGED[0]] == LOGGED[..1];
    forall n: nat | 0 < n < |LOGGED|
      ensures Metrics.Times(LOGGED[..n + 1], Metrics.AgentOf(1))
              == Metrics.Times(LOGGED[..n], Metrics.AgentOf(1)) + Metrics.AgentOf(1)(LOGGED[n])
    {
      assert LOGGED[..n + 1] == LOGGED[..n] + [LOGGED[n]];
      TimesAppend(LOGGED[..n], LOGGED[n]);
    }
    assert Metrics.Times(LOGGED[..1], Metrics.AgentOf(1)) == [];
    assert Metrics.Times(LOGGED[..2], Metrics.AgentOf(1)) == [0];
    assert Metrics.Times(LOGGED[..3], Metrics.AgentOf(1)) == [0];
    assert Metrics.Times(LOGGED[..4], Metrics.AgentOf(1)) == [0, 500];
    assert Metrics.Times(LOGGED[..5], Metrics.AgentOf(1)) == [0, 500] && LOGGED[..5] == LOGGED;
    Metrics.SortedIsSort([0, 500], Metrics.IntLess());
  }

  lemma LoggedSpan()
    ensures Metrics.SpanOf(LOGGED, 1) == Metrics.TurnSpan(Some(0), Some(520))
  {
    Metrics.LatestIs(LOGGED, Metrics.StartOf(1));
    Metrics.LatestIs(LOGGED, Metrics.EndOf(1));
    assert LOGGED[0] in LOGGED && Metrics.StartOf(1)(LOGGED[0]);
    assert LOGGED[4] in LOGGED && Metrics.EndOf(1)(LOGGED[4]);
  }

  /** With that TurnStart lost both turns are logged under the first, which then ends with the second, and the silence
      between them counts as a stall. */
  lemma LostStartCountsSilence()
    ensures Replay(RECEIVED, RECEIVED_AT) == LOGGED
    ensures Metrics.TurnStalls(LOGGED, 1, 100) == (1, 500)
  {
    LoggedIsReplay();
    LoggedTimes();
    LoggedSpan();
    var ts := [0, 500];
    assert ts[..1] == [0];
  }
}
