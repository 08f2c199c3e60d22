/** On a lossless ordering link the log files every frame under the turn that spoke it. */
module Attribution {
  import opened Audio
  import opened Impair
  import opened EventLog
  import opened Scenarios
  import opened AgentProto
  import opened CallerSession
  import opened Engine
  import opened TurnProtocol
  import opened Conservation
  import opened FifoDownlink
  import opened StopBound
  import opened OfflineRun

  /** What receiving the frames fs at times `at` leaves, all of it under one turn. */
  function UnderTurn(turn: int, fs: seq<Frame>, at: seq<int>): seq<Entry>
    requires |fs| == |at|
  {
    seq(|fs|, k requires 0 <= k < |fs| => Received(fs[k], at[k], turn))
  }

  /** Turn after turn: TurnStarted, the turn's own frames, TurnEnded, all under the turn's number. */
  function Transcript(c: AgentConfig, turns: seq<TurnRec>, at: seq<int>): seq<Entry>
    requires |at| == |Conversation(c, turns)|
  {
    if turns == [] then []
    else
      var n := |Conversation(c, Before(turns))|;
      Transcript(c, Before(turns), at[..n]) + UnderTurn(|turns|, TurnScript(c, Last(turns), n), at[n..])
  }

  /** Frames after a TurnStart, up to the next one, belong to the turn it started. */
  lemma {:induction false} ReplayTurn(before: seq<Frame>, fs: seq<Frame>, at: seq<int>, atFs: seq<int>)
    requires |before| == |at| && |fs| == |atFs|
    requires fs != [] ==> fs[0].kind.TurnStart? && forall k | 1 <= k < |fs| :: !fs[k].kind.TurnStart?
    ensures Replay(before + fs, at + atFs) == Replay(before, at) + UnderTurn(Starts(before) + 1, fs, atFs)
    decreases |fs|
  {
    if fs == [] {
      assert before + fs == before && at + atFs == at;
    } else {
      var n := |fs| - 1;
      var all, times := before + fs, at + atFs;
      assert all[..|all| - 1] == before + fs[..n] && times[..|all| - 1] == at + atFs[..n];
      ReplayTurn(before, fs[..n], at, atFs[..n]);
      OneMoreStart(before, fs);
      assert UnderTurn(Starts(before) + 1, fs, atFs)
             == UnderTurn(Starts(before) + 1, fs[..n], atFs[..n]) + [Received(fs[n], atFs[n], Starts(before) + 1)];
    }
  }

  lemma OneMoreStart(before: seq<Frame>, fs: seq<Frame>)
    requires fs != [] && fs[0].kind.TurnStart? && forall k | 1 <= k < |fs| :: !fs[k].kind.TurnStart?
    ensures Starts(before + fs) == Starts(before) + 1
  {
    StartsConcat(before, fs);
    assert fs == [fs[0]] + fs[1..];
    StartsConcat([fs[0]], fs[1..]);
    NoStarts(fs[1..]);
    assert [fs[0]][..0] == [];
  }

  lemma {:induction false} ReplayIsTranscript(c: AgentConfig, turns: seq<TurnRec>, at: seq<int>)
    requires |at| == |Conversation(c, turns)|
    ensures Replay(Conversation(c, turns), at) == Transcript(c, turns, at)
  {
    if turns != [] {
      var before := Conversation(c, Before(turns));
      var n := |before|;
      var script := TurnScript(c, Last(turns), n);
      assert Conversation(c, turns) == before + script;
      assert at == at[..n] + at[n..];
      ReplayIsTranscript(c, Before(turns), at[..n]);
      ReplayTurn(before, script, at[..n], at[n..]);
      ConversationStarts(c, Before(turns));
    }
  }

  /** Every frame is logged under the turn that emitted it, after its TurnStart and before its TurnEnd in the order of
      recording: the receipts of the log are the transcript of the turns the agent spoke. */
  lemma LoggedUnderItsTurn(sc: Scenario, w: World, i: nat)
    requires sc.Valid() && FrameMs(sc) > 0 && Ended(sc, w) && i < |w.sess| && OrderingLink(sc) && sc.profile.Lossless()
    ensures var s := w.sess[i];
            && |s.trace.gotAt| == |Conversation(sc.Cfg(), s.trace.turns)|
            && Receipts(s.caller.log) == Transcript(sc.Cfg(), s.trace.turns, s.trace.gotAt)
  {
    LosslessDelivery(sc, w, i);
    ReceiptsAreReplay(sc, w, i);
    ReplayIsTranscript(sc.Cfg(), w.sess[i].trace.turns, w.sess[i].trace.gotAt);
  }

  /** Whatever the link does, the log's receipts are what replaying the received frames gives. */
  lemma ReceiptsAreReplay(sc: Scenario, w: World, i: nat)
    requires sc.Valid() && FrameMs(sc) > 0 && Reached(sc, w) && i < |w.sess|
    ensures var s := w.sess[i];
            |s.trace.gotAt| == |s.trace.got| && Receipts(s.caller.log) == Replay(s.trace.got, s.trace.gotAt)
  {
    SessionKeeps(sc, w, i);
  }

  /** A frame is logged under the number of TurnStarts received so far. */
  lemma {:induction false} ReplayAt(got: seq<Frame>, at: seq<int>, n: nat)
    requires |got| == |at| && n < |got|
    ensures |Replay(got, at)| == |got| && Replay(got, at)[n] == Received(got[n], at[n], Starts(got[..n + 1]))
  {
    var last := |got| - 1;
    ReplayLength(got, at);
    ReplayLength(got[..last], at[..last]);
    if n < last {
      ReplayAt(got[..last], at[..last], n);
      assert got[..last][..n + 1] == got[..n + 1];
    } else {
      assert got[..n + 1] == got;
    }
  }

  /** The entry records that frame f was received at time `at`, under the given turn; markers are logged without it. */
  predicate RecordsReceipt(e: Entry, f: Frame, at: int, turn: int) {
    && e.ts == at && e.turn == turn
    && (f.kind.TurnStart? ==> e.typ.TurnStarted? && e.frame == NO_FRAME)
    && (f.kind.TurnEnd? ==> e.typ.TurnEnded? && e.frame == NO_FRAME)
    && (!f.kind.TurnStart? && !f.kind.TurnEnd? ==> e.typ.Recv? && e.frame == f)
  }

  /** Whatever the link does, the k-th receipt in the log records the k-th frame received, when it was received, under
      the number of TurnStarts received so far. */
  lemma ReceiptsRecordArrivals(sc: Scenario, w: World, i: nat, k: nat)
    requires sc.Valid() && FrameMs(sc) > 0 && Reached(sc, w) && i < |w.sess| && k < |w.sess[i].trace.got|
    ensures var s := w.sess[i];
            && |Receipts(s.caller.log)| == |s.trace.got| == |s.trace.gotAt|
            && RecordsReceipt(Receipts(s.caller.log)[k], s.trace.got[k], s.trace.gotAt[k], Starts(s.trace.got[..k + 1]))
  {
    ReceiptsAreReplay(sc, w, i);
    ReplayAt(w.sess[i].trace.got, w.sess[i].trace.gotAt, k);
  }
}
