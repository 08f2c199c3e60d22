/** One session's share of the engine state, and how the shared event loop moves it. */
module SessionView {
  import opened Audio
  import opened Clock
  import opened Scenarios
  import opened AgentProto
  import opened Engine
  import opened Sums

  function MineOf(i: nat): Pending -> multiset<Pending> {
    (e: Pending) => if e.session == i then multiset{e} else multiset{}
  }

  /** The downlink frame a callback delivers, if it is a delivery to the caller. */
  function DownFrame(cb: Callback): multiset<Frame> {
    match cb case ToCaller(f) => multiset{f} case _ => multiset{}
  }

  function UpFrame(cb: Callback): multiset<Frame> {
    match cb case ToAgent(f) => multiset{f} case _ => multiset{}
  }

  function DownOf(i: nat): Pending -> multiset<Frame> {
    (e: Pending) => if e.session == i then DownFrame(e.fn) else multiset{}
  }

  function UpOf(i: nat): Pending -> multiset<Frame> {
    (e: Pending) => if e.session == i then UpFrame(e.fn) else multiset{}
  }

  /** How many more events a pending callback can still cause, itself included. */
  function Weight(c: AgentConfig, cb: Callback): nat {
    match cb
    case CallerSpeaks(_, _) => 2 * Frames(c) + 7
    case ToAgent(_) => 2 * Frames(c) + 6
    case Respond(_, _) => 2 * Frames(c) + 5
    case OpenTurn(_, _) => 2
    case EmitFrame(_, _, _) => 2
    case EmitEnd(_, _) => 2
    case ToCaller(_) => 1
  }

  function WeightOf(c: AgentConfig, i: nat): Pending -> int {
    (e: Pending) => if e.session == i then Weight(c, e.fn) else 0
  }

  /** How many frames the agent can still number because of a pending callback. */
  function Voices(c: AgentConfig, cb: Callback): nat {
    match cb
    case CallerSpeaks(_, _) => Frames(c) + 2
    case ToAgent(_) => Frames(c) + 2
    case Respond(_, _) => Frames(c) + 2
    case OpenTurn(_, _) => 0
    case EmitFrame(_, _, _) => 1
    case EmitEnd(_, _) => 1
    case ToCaller(_) => 0
  }

  function VoicesOf(c: AgentConfig, i: nat): Pending -> int {
    (e: Pending) => if e.session == i then Voices(c, e.fn) else 0
  }

  /** What a caller says: a speech frame, and that it barges in. */
  datatype Cue = Speaks(frame: Frame) | BargeAt(ts: int)

  /** The cues of a frame still to be sent. */
  function Cues(cb: Callback): multiset<Cue> {
    match cb
    case CallerSpeaks(f, b) =>
      multiset{Speaks(f)} + (if b then multiset{BargeAt(f.ts)} else multiset{})
    case _ => multiset{}
  }

  function CuesOf(i: nat): Pending -> multiset<Cue> {
    (e: Pending) => if e.session == i then Cues(e.fn) else multiset{}
  }

  /** A session as the event loop sees it: its pending events, and their in-flight frames, total weight, frames still
      to be numbered, and the cues of speech still to be sent. */
  datatype Local = Local(
    now: int, s: Sess, m: multiset<Pending>, down: multiset<Frame>, up: multiset<Frame>,
    weight: int, voices: int, cues: multiset<Cue>)

  function View(c: AgentConfig, w: World, i: nat): Local
    requires i < |w.sess|
  {
    Local(w.now, w.sess[i], BagOf(w.heap, MineOf(i)), BagOf(w.heap, DownOf(i)), BagOf(w.heap, UpOf(i)),
          SumOf(w.heap, WeightOf(c, i)), SumOf(w.heap, VoicesOf(c, i)), BagOf(w.heap, CuesOf(i)))
  }

  ghost predicate Enabled(l: Local, e: Pending) {
    e in l.m && forall x | x in l.m :: !Less(x, e)
  }

  /** Session i goes to s at event e, which is replaced by `added`. */
  ghost function Replaced(c: AgentConfig, i: nat, l: Local, e: Pending, s: Sess, added: seq<Pending>): Local {
    Local(e.deliverAt, s,
          l.m - multiset{e} + multiset(added),
          l.down - DownFrame(e.fn) + BagOf(added, DownOf(i)),
          l.up - UpFrame(e.fn) + BagOf(added, UpOf(i)),
          l.weight - Weight(c, e.fn) + SumOf(added, WeightOf(c, i)),
          l.voices - Voices(c, e.fn) + SumOf(added, VoicesOf(c, i)),
          l.cues - Cues(e.fn) + BagOf(added, CuesOf(i)))
  }

  /** Session i fires its least pending event e. */
  ghost function FireLocal(fire: Reaction, c: AgentConfig, i: nat, l: Local, e: Pending): Local {
    var r := fire(i, e.deliverAt, l.s, e.fn);
    Replaced(c, i, l, e, r.0, Stamped(e.deliverAt, i, r.1))
  }

  /** Another session's event moves the clock to t. */
  ghost predicate Waits(l: Local, t: int) {
    l.now <= t && forall x | x in l.m :: t <= x.deliverAt
  }

  lemma {:induction false} MineIsAll(h: seq<Pending>, i: nat)
    requires forall e | e in h :: e.session == i
    ensures BagOf(h, MineOf(i)) == multiset(h)
  {
    if h != [] {
      MineIsAll(h[1..], i);
      assert h == [h[0]] + h[1..];
    }
  }

  lemma {:induction false} NothingGathered<U>(h: seq<Pending>, f: Pending -> multiset<U>)
    requires forall e | e in h :: f(e) == multiset{}
    ensures BagOf(h, f) == multiset{}
  {
    if h != [] {
      NothingGathered(h[1..], f);
    }
  }

  lemma {:induction false} NothingSummed(h: seq<Pending>, f: Pending -> int)
    requires forall e | e in h :: f(e) == 0
    ensures SumOf(h, f) == 0
  {
    if h != [] {
      NothingSummed(h[1..], f);
    }
  }

  lemma OthersAreNothing(c: AgentConfig, h: seq<Pending>, i: nat)
    requires forall e | e in h :: e.session != i
    ensures BagOf(h, MineOf(i)) == multiset{} && BagOf(h, DownOf(i)) == multiset{} && BagOf(h, UpOf(i)) == multiset{}
    ensures SumOf(h, WeightOf(c, i)) == 0 && SumOf(h, VoicesOf(c, i)) == 0 && BagOf(h, CuesOf(i)) == multiset{}
  {
    NothingGathered(h, MineOf(i));
    NothingGathered(h, DownOf(i));
    NothingGathered(h, UpOf(i));
    NothingGathered(h, CuesOf(i));
    NothingSummed(h, WeightOf(c, i));
    NothingSummed(h, VoicesOf(c, i));
  }

  lemma MineMember(h: seq<Pending>, i: nat, e: Pending)
    ensures e in BagOf(h, MineOf(i)) <==> e in h && e.session == i
  {
    BagMember(h, MineOf(i), e);
    if e in h && e.session == i {
      assert e in MineOf(i)(e);
    }
  }

  /** Replacing event e by `added` in the heap changes whatever is gathered from it by exactly e and `added`. */
  lemma BagDelta<U>(h: seq<Pending>, e: Pending, rest: seq<Pending>, added: seq<Pending>, h': seq<Pending>,
                    f: Pending -> multiset<U>)
    requires multiset(h) == multiset(rest) + multiset{e}
    requires multiset(h') == multiset(rest) + multiset(added)
    ensures BagOf(h', f) == BagOf(h, f) - f(e) + BagOf(added, f)
  {
    assert multiset(h) == multiset([e] + rest) && multiset(h') == multiset(rest + added);
    assert ([e] + rest)[1..] == rest;
    BagPermutation(h, [e] + rest, f);
    BagPermutation(h', rest + added, f);
    BagConcat(rest, added, f);
    SwapPart(BagOf(h, f), f(e), BagOf(rest, f), BagOf(added, f), BagOf(h', f));
  }

  lemma SumDelta(h: seq<Pending>, e: Pending, rest: seq<Pending>, added: seq<Pending>, h': seq<Pending>,
                 f: Pending -> int)
    requires multiset(h) == multiset(rest) + multiset{e}
    requires multiset(h') == multiset(rest) + multiset(added)
    ensures SumOf(h', f) == SumOf(h, f) - f(e) + SumOf(added, f)
  {
    assert multiset(h) == multiset([e] + rest) && multiset(h') == multiset(rest + added);
    assert ([e] + rest)[1..] == rest;
    SumPermutation(h, [e] + rest, f);
    SumPermutation(h', rest + added, f);
    SumConcat(rest, added, f);
  }

  lemma SwapPart<U>(x: multiset<U>, a: multiset<U>, r: multiset<U>, n: multiset<U>, x': multiset<U>)
    requires x == a + r && x' == r + n
    ensures x' == x - a + n
  {}

  /** The heap as session i sees it when its event e is replaced by `added`. */
  lemma OwnDelta(c: AgentConfig, h: seq<Pending>, e: Pending, rest: seq<Pending>, added: seq<Pending>, h': seq<Pending>,
                 i: nat)
    requires multiset(h) == multiset(rest) + multiset{e}
    requires multiset(h') == multiset(rest) + multiset(added)
    requires e.session == i && forall x | x in added :: x.session == i
    ensures BagOf(h', MineOf(i)) == BagOf(h, MineOf(i)) - multiset{e} + multiset(added)
    ensures BagOf(h', DownOf(i)) == BagOf(h, DownOf(i)) - DownFrame(e.fn) + BagOf(added, DownOf(i))
    ensures BagOf(h', UpOf(i)) == BagOf(h, UpOf(i)) - UpFrame(e.fn) + BagOf(added, UpOf(i))
    ensures SumOf(h', WeightOf(c, i)) == SumOf(h, WeightOf(c, i)) - Weight(c, e.fn) + SumOf(added, WeightOf(c, i))
    ensures SumOf(h', VoicesOf(c, i)) == SumOf(h, VoicesOf(c, i)) - Voices(c, e.fn) + SumOf(added, VoicesOf(c, i))
    ensures BagOf(h', CuesOf(i)) == BagOf(h, CuesOf(i)) - Cues(e.fn) + BagOf(added, CuesOf(i))
  {
    BagDelta(h, e, rest, added, h', MineOf(i));
    MineIsAll(added, i);
    BagDelta(h, e, rest, added, h', DownOf(i));
    BagDelta(h, e, rest, added, h', UpOf(i));
    BagDelta(h, e, rest, added, h', CuesOf(i));
    SumDelta(h, e, rest, added, h', WeightOf(c, i));
    SumDelta(h, e, rest, added, h', VoicesOf(c, i));
  }

  lemma SameBag<U>(h: seq<Pending>, e: Pending, rest: seq<Pending>, added: seq<Pending>, h': seq<Pending>,
                   f: Pending -> multiset<U>)
    requires multiset(h) == multiset(rest) + multiset{e}
    requires multiset(h') == multiset(rest) + multiset(added)
    requires f(e) == multiset{} && forall x | x in added :: f(x) == multiset{}
    ensures BagOf(h', f) == BagOf(h, f)
  {
    BagDelta(h, e, rest, added, h', f);
    NothingGathered(added, f);
    SwapPart(BagOf(h, f), multiset{}, BagOf(h, f), multiset{}, BagOf(h, f));
  }

  lemma SameSum(h: seq<Pending>, e: Pending, rest: seq<Pending>, added: seq<Pending>, h': seq<Pending>,
                f: Pending -> int)
    requires multiset(h) == multiset(rest) + multiset{e}
    requires multiset(h') == multiset(rest) + multiset(added)
    requires f(e) == 0 && forall x | x in added :: f(x) == 0
    ensures SumOf(h', f) == SumOf(h, f)
  {
    SumDelta(h, e, rest, added, h', f);
    NothingSummed(added, f);
  }

  /** The heap as session i sees it when another session's event e is replaced by `added`. */
  lemma OtherDelta(c: AgentConfig, h: seq<Pending>, e: Pending, rest: seq<Pending>, added: seq<Pending>,
                   h': seq<Pending>, i: nat)
    requires multiset(h) == multiset(rest) + multiset{e}
    requires multiset(h') == multiset(rest) + multiset(added)
    requires e.session != i && forall x | x in added :: x.session != i
    ensures BagOf(h', MineOf(i)) == BagOf(h, MineOf(i))
    ensures BagOf(h', DownOf(i)) == BagOf(h, DownOf(i))
    ensures BagOf(h', UpOf(i)) == BagOf(h, UpOf(i))
    ensures SumOf(h', WeightOf(c, i)) == SumOf(h, WeightOf(c, i))
    ensures SumOf(h', VoicesOf(c, i)) == SumOf(h, VoicesOf(c, i))
    ensures BagOf(h', CuesOf(i)) == BagOf(h, CuesOf(i))
  {
    SameBag(h, e, rest, added, h', MineOf(i));
    SameBag(h, e, rest, added, h', DownOf(i));
    SameBag(h, e, rest, added, h', UpOf(i));
    SameBag(h, e, rest, added, h', CuesOf(i));
    SameSum(h, e, rest, added, h', WeightOf(c, i));
    SameSum(h, e, rest, added, h', VoicesOf(c, i));
  }

  lemma LeastIsEnabled(h: seq<Pending>, e: Pending, i: nat)
    requires IsLeast(e, h)
    ensures forall x | x in BagOf(h, MineOf(i)) :: x in h && !Less(x, e)
    ensures e.session == i ==> e in BagOf(h, MineOf(i))
  {
    forall x | x in BagOf(h, MineOf(i)) ensures x in h && !Less(x, e) {
      MineMember(h, i, x);
    }
    MineMember(h, i, e);
  }

  /** Advance takes event e off the heap and replaces it, in its own session only, by what it schedules. */
  lemma AdvanceShape(fire: Reaction, w: World, w': World, e: Pending, rest: seq<Pending>, r: (Sess, seq<Request>))
    requires w.heap != [] && Owned(w) && w' == Advance(fire, w)
    requires forall x | x in w.heap :: x.deliverAt >= w.now
    requires Pop(w.heap) == (e, rest) && r == fire(e.session, e.deliverAt, w.sess[e.session], e.fn)
    ensures w'.now == e.deliverAt && w'.sess == w.sess[e.session := r.0]
    ensures multiset(w'.heap) == multiset(rest) + multiset(Stamped(e.deliverAt, e.session, r.1))
  {
    PushAllMultiset(rest, e.deliverAt, e.session, r.1);
  }

  /** Session i's own event: it is i's least, and i fires it. */
  lemma AdvanceOwn(fire: Reaction, c: AgentConfig, w: World, i: nat)
    requires w.heap != [] && Owned(w) && i < |w.sess|
    requires Ordered(w.heap, |w.heap|) && forall e | e in w.heap :: e.deliverAt >= w.now
    requires Pop(w.heap).0.session == i && |Advance(fire, w).sess| == |w.sess|
    ensures Enabled(View(c, w, i), Pop(w.heap).0)
    ensures View(c, Advance(fire, w), i) == FireLocal(fire, c, i, View(c, w, i), Pop(w.heap).0)
  {
    PopTakesLeast(w.heap);
    var (e, rest) := Pop(w.heap);
    var r := fire(i, e.deliverAt, w.sess[i], e.fn);
    AdvanceShape(fire, w, Advance(fire, w), e, rest, r);
    FiresOwn(fire, c, w, Advance(fire, w), e, rest, r);
  }

  lemma FiresOwn(fire: Reaction, c: AgentConfig, w: World, w': World, e: Pending, rest: seq<Pending>,
                 r: (Sess, seq<Request>))
    requires IsLeast(e, w.heap)
    requires e.session < |w.sess| == |w'.sess| && w'.now == e.deliverAt && w'.sess == w.sess[e.session := r.0]
    requires multiset(w.heap) == multiset(rest) + multiset{e}
    requires multiset(w'.heap) == multiset(rest) + multiset(Stamped(e.deliverAt, e.session, r.1))
    requires r == fire(e.session, e.deliverAt, w.sess[e.session], e.fn)
    ensures Enabled(View(c, w, e.session), e)
    ensures View(c, w', e.session) == FireLocal(fire, c, e.session, View(c, w, e.session), e)
  {
    var i := e.session;
    LeastIsEnabled(w.heap, e, i);
    OwnStep(c, w, w', e, rest, r.0, Stamped(e.deliverAt, i, r.1));
  }

  /** The parts of session i's view after its event e was replaced. */
  lemma ReplacedIs(c: AgentConfig, i: nat, l: Local, e: Pending, s: Sess, added: seq<Pending>, l': Local)
    requires l'.now == e.deliverAt && l'.s == s
    requires l'.m == l.m - multiset{e} + multiset(added)
    requires l'.down == l.down - DownFrame(e.fn) + BagOf(added, DownOf(i))
    requires l'.up == l.up - UpFrame(e.fn) + BagOf(added, UpOf(i))
    requires l'.weight == l.weight - Weight(c, e.fn) + SumOf(added, WeightOf(c, i))
    requires l'.voices == l.voices - Voices(c, e.fn) + SumOf(added, VoicesOf(c, i))
    requires l'.cues == l.cues - Cues(e.fn) + BagOf(added, CuesOf(i))
    ensures l' == Replaced(c, i, l, e, s, added)
  {
    assert l' == Local(l'.now, l'.s, l'.m, l'.down, l'.up, l'.weight, l'.voices, l'.cues);
  }

  lemma OwnStep(c: AgentConfig, w: World, w': World, e: Pending, rest: seq<Pending>, s: Sess, added: seq<Pending>)
    requires e.session < |w.sess| == |w'.sess| && w'.now == e.deliverAt && w'.sess == w.sess[e.session := s]
    requires multiset(w.heap) == multiset(rest) + multiset{e} && multiset(w'.heap) == multiset(rest) + multiset(added)
    requires forall x | x in added :: x.session == e.session
    ensures View(c, w', e.session) == Replaced(c, e.session, View(c, w, e.session), e, s, added)
  {
    OwnDelta(c, w.heap, e, rest, added, w'.heap, e.session);
    ReplacedIs(c, e.session, View(c, w, e.session), e, s, added, View(c, w', e.session));
  }

  lemma OtherStep(c: AgentConfig, w: World, w': World, i: nat, e: Pending, rest: seq<Pending>, s: Sess,
                  added: seq<Pending>)
    requires e.session < |w.sess| == |w'.sess| && w'.now == e.deliverAt && w'.sess == w.sess[e.session := s]
    requires i < |w.sess| && e.session != i
    requires multiset(w.heap) == multiset(rest) + multiset{e} && multiset(w'.heap) == multiset(rest) + multiset(added)
    requires forall x | x in added :: x.session == e.session
    ensures View(c, w', i) == View(c, w, i).(now := e.deliverAt)
  {
    OtherDelta(c, w.heap, e, rest, added, w'.heap, i);
  }

  /** Another session's event: session i only sees the clock move, and not past its own events. */
  lemma AdvanceOther(fire: Reaction, c: AgentConfig, w: World, i: nat)
    requires w.heap != [] && Owned(w) && i < |w.sess|
    requires Ordered(w.heap, |w.heap|) && forall e | e in w.heap :: e.deliverAt >= w.now
    requires Pop(w.heap).0.session != i && |Advance(fire, w).sess| == |w.sess|
    ensures Waits(View(c, w, i), Pop(w.heap).0.deliverAt)
    ensures View(c, Advance(fire, w), i) == View(c, w, i).(now := Pop(w.heap).0.deliverAt)
  {
    PopTakesLeast(w.heap);
    var (e, rest) := Pop(w.heap);
    var r := fire(e.session, e.deliverAt, w.sess[e.session], e.fn);
    AdvanceShape(fire, w, Advance(fire, w), e, rest, r);
    FiresOther(c, w, Advance(fire, w), e, rest, r, i);
  }

  lemma FiresOther(c: AgentConfig, w: World, w': World, e: Pending, rest: seq<Pending>, r: (Sess, seq<Request>), i: nat)
    requires IsLeast(e, w.heap) && i < |w.sess| && i != e.session
    requires e.session < |w.sess| == |w'.sess| && w'.now == e.deliverAt && w'.sess == w.sess[e.session := r.0]
    requires multiset(w.heap) == multiset(rest) + multiset{e}
    requires multiset(w'.heap) == multiset(rest) + multiset(Stamped(e.deliverAt, e.session, r.1))
    requires forall x | x in w.heap :: x.deliverAt >= w.now
    ensures Waits(View(c, w, i), e.deliverAt)
    ensures View(c, w', i) == View(c, w, i).(now := e.deliverAt)
  {
    LeastIsEnabled(w.heap, e, i);
    OtherStep(c, w, w', i, e, rest, r.0, Stamped(e.deliverAt, e.session, r.1));
  }
}
