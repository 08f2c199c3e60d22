/** What a client makes of everything a server may send, byte by byte: how a Read ends in every case of its switch, and
    what a transport gives out of a whole stream (internal/transport/ws.go:332-461,
    internal/transport/ws_transport.go:53-85). */
module WsSessions {
  import opened Basics
  import Audio
  import opened WsFrames
  import opened WsConns
  import opened WsTransports

  // ---- one frame ----

  /** How readFrame ends on a complete frame, whatever it is: the first fault in this order, or the frame. */
  function Refusal(w: Wire, maxMsg: nat): Option<ReadError> {
    if w.rsv != 0 then Some(ReservedBits)
    else if w.mask.Some? then Some(MaskedFrame)
    else if |w.payload| > maxMsg then Some(TooLarge)
    else if w.opcode >= 8 && |w.payload| > 125 then Some(ControlTooLarge)
    else if w.opcode >= 8 && !w.fin then Some(FragmentedControl)
    else None
  }

  /** What readFrame sees of an encoded frame. */
  lemma Sees(w: Wire, rest: Bytes)
    requires w.Valid()
    ensures var b := w.Encode() + rest;
            && |b| >= 2 && b[0] / 16 % 8 == w.rsv && b[0] % 16 == w.opcode && (b[0] >= 128) == w.fin
            && (b[1] >= 128) == w.mask.Some? && b[1] % 128 == w.form.Marker(|w.payload|)
            && |b| >= 2 + w.form.Width()
            && b[2..][..w.form.Width()] == BigEndian(|w.payload|, w.form.Width())
  {
    var b := w.Encode() + rest;
    Layout(w, rest);
    HeadFields(w);
    assert b[2..][..w.form.Width()] == b[2..2 + w.form.Width()];
  }

  lemma ReadsOrRefuses(w: Wire, maxMsg: nat, rest: Bytes)
    requires w.Valid()
    ensures ReadFrame(w.Encode() + rest, maxMsg).0
            == match Refusal(w, maxMsg)
               case Some(e) => Err(e)
               case None => Ok(Frame(w.fin, w.opcode, w.payload))
    ensures Refusal(w, maxMsg).None? ==> ReadFrame(w.Encode() + rest, maxMsg).1 == rest
  {
    Sees(w, rest);
    LengthFields(w);
    if Refusal(w, maxMsg).None? {
      ReadsServerFrame(Frame(w.fin, w.opcode, w.payload), w.form, maxMsg, rest);
    }
  }

  // ---- what comes before ----

  /** The frames of a message that goes on: the first data frame carries the opcode, none of them FIN. */
  function OpenFrames(ps: seq<Piece>, op: nat, started: bool): seq<Frame> {
    if ps == [] then []
    else
      match ps[0]
      case Data(c) => [Frame(false, if started then OP_CONTINUATION else op, c)] + OpenFrames(ps[1..], op, true)
      case Ping(x) => [Frame(true, OP_PING, x)] + OpenFrames(ps[1..], op, started)
      case Pong(x) => [Frame(true, OP_PONG, x)] + OpenFrames(ps[1..], op, started)
  }

  /** The message so far, after the pieces. */
  function Joined(ps: seq<Piece>, op: nat, p: Partial): Partial {
    if NoData(ps) then p else Partial(p.buf + Contents(ps), op, true)
  }

  /** The pieces fit: opcode, limit, and no ping on a closed connection. */
  predicate Fits(ps: seq<Piece>, op: nat, p: Partial, maxMsg: nat, closed: bool) {
    && (op == OP_TEXT || op == OP_BINARY) && (p.started ==> p.op == op) && |p.buf| + |Contents(ps)| <= maxMsg
    && (closed ==> forall x | x in ps :: !x.Ping?)
  }

  predicate AllSendable(fs: seq<Frame>, forms: seq<Form>, maxMsg: nat) {
    |forms| == |fs| && forall k | 0 <= k < |fs| :: Sendable(fs[k], forms[k], maxMsg)
  }

  lemma FirstOpen(ps: seq<Piece>, op: nat, started: bool)
    requires ps != []
    ensures var fs := OpenFrames(ps, op, started);
            && fs != [] && fs[1..] == OpenFrames(ps[1..], op, started || ps[0].Data?)
            && fs[0] == match ps[0]
                        case Data(c) => Frame(false, if started then OP_CONTINUATION else op, c)
                        case Ping(x) => Frame(true, OP_PING, x)
                        case Pong(x) => Frame(true, OP_PONG, x)
  {}

  /** Dealing with one piece: it joins the message or is answered, and the Read goes on. */
  lemma PieceGoesOn(ps: seq<Piece>, op: nat, p: Partial, maxMsg: nat, closed: bool)
    returns (p': Partial, ys: seq<Reply>)
    requires ps != [] && Fits(ps, op, p, maxMsg, closed)
    ensures OnFrame(OpenFrames(ps, op, p.started)[0], p, maxMsg, closed) == Goes(p', ys)
    ensures Fits(ps[1..], op, p', maxMsg, closed) && p'.started == (p.started || ps[0].Data?)
    ensures Joined(ps[1..], op, p') == Joined(ps, op, p) && ys + Pongs(ps[1..]) == Pongs(ps)
  {
    FirstOpen(ps, op, p.started);
    PieceSplit(ps);
    if ps[0].Data? {
      p', ys := Partial(p.buf + ps[0].chunk, op, true), [];
      assert p.buf + ps[0].chunk + Contents(ps[1..]) == p.buf + (ps[0].chunk + Contents(ps[1..]));
      assert ps[0] in ps;
      if NoData(ps[1..]) {
        NoDataNoContents(ps[1..]);
      }
    } else {
      p', ys := p, if ps[0].Ping? then [Reply(OP_PONG, ps[0].payload)] else [];
      assert forall x | x in ps :: x == ps[0] || x in ps[1..];
      assert NoData(ps) <==> NoData(ps[1..]);
      assert [] + Contents(ps[1..]) == Contents(ps[1..]);
    }
    assert forall x | x in ps[1..] :: x in ps;
  }

  /** A Read runs as `left` once it has written `replies`. */
  ghost predicate Continues(run: ReadRun, replies: seq<Reply>, left: ReadRun) {
    run.r == left.r && run.rest == left.rest && run.closes == left.closes && run.replies == replies + left.replies
  }

  lemma OneFrameOn(bytes: Bytes, f: Frame, after: Bytes, p: Partial, maxMsg: nat, closed: bool, p': Partial,
                   ys: seq<Reply>)
    requires ReadFrame(bytes, maxMsg) == (Ok(f), after) && OnFrame(f, p, maxMsg, closed) == Goes(p', ys)
    ensures Continues(ReadMessage(bytes, p, maxMsg, closed), ys, ReadMessage(after, p', maxMsg, closed))
  {
    AcceptsExactly(bytes, maxMsg);
  }

  lemma ContinuesOn(run: ReadRun, ys: seq<Reply>, mid: ReadRun, zs: seq<Reply>, left: ReadRun, all: seq<Reply>)
    requires Continues(run, ys, mid) && Continues(mid, zs, left) && all == ys + zs
    ensures Continues(run, all, left)
  {
    assert ys + (zs + left.replies) == all + left.replies;
  }

  /** The first of the frames is read, and leaves the others. */
  lemma FirstSent(fs: seq<Frame>, forms: seq<Form>, maxMsg: nat, tail: Bytes) returns (after: Bytes)
    requires fs != [] && AllSendable(fs, forms, maxMsg)
    ensures AllEncodable(ServerFrames(fs, forms)) && AllEncodable(ServerFrames(fs[1..], forms[1..]))
    ensures AllSendable(fs[1..], forms[1..], maxMsg)
    ensures after == EncodeAll(ServerFrames(fs[1..], forms[1..])) + tail
    ensures ReadFrame(EncodeAll(ServerFrames(fs, forms)) + tail, maxMsg) == (Ok(fs[0]), after)
  {
    var ws := ServerFrames(fs, forms);
    assert ws[1..] == ServerFrames(fs[1..], forms[1..]);
    after := EncodeAll(ws[1..]) + tail;
    EncodeAllSplit(ws, tail);
    ReadsServerFrame(fs[0], forms[0], maxMsg, after);
  }

  /** After any pings, pongs and unfinished data that fit, a Read has answered the pings in order, joined the data, and
      goes on with what follows. */
  lemma {:induction false} GoesOn(ps: seq<Piece>, op: nat, p: Partial, forms: seq<Form>, maxMsg: nat, closed: bool,
                                  tail: Bytes)
    requires Fits(ps, op, p, maxMsg, closed) && AllSendable(OpenFrames(ps, op, p.started), forms, maxMsg)
    ensures AllEncodable(ServerFrames(OpenFrames(ps, op, p.started), forms))
    ensures var before := EncodeAll(ServerFrames(OpenFrames(ps, op, p.started), forms));
            Continues(ReadMessage(before + tail, p, maxMsg, closed), Pongs(ps),
                      ReadMessage(tail, Joined(ps, op, p), maxMsg, closed))
    decreases |ps|
  {
    var fs := OpenFrames(ps, op, p.started);
    var ws := ServerFrames(fs, forms);
    if ps == [] {
      assert EncodeAll(ws) + tail == tail;
      assert [] + ReadMessage(tail, p, maxMsg, closed).replies == ReadMessage(tail, p, maxMsg, closed).replies;
    } else {
      FirstOpen(ps, op, p.started);
      var p', ys := PieceGoesOn(ps, op, p, maxMsg, closed);
      var after := FirstSent(fs, forms, maxMsg, tail);
      OneFrameOn(EncodeAll(ws) + tail, fs[0], after, p, maxMsg, closed, p', ys);
      GoesOn(ps[1..], op, p', forms[1..], maxMsg, closed, tail);
      ContinuesOn(ReadMessage(EncodeAll(ws) + tail, p, maxMsg, closed), ys, ReadMessage(after, p', maxMsg, closed),
                  Pongs(ps[1..]), ReadMessage(tail, Joined(ps, op, p), maxMsg, closed), Pongs(ps));
    }
  }

  // ---- how a Read ends ----

  /** The bytes of the pieces, then of one more frame, then the rest. */
  ghost function PiecesThen(ps: seq<Piece>, op: nat, started: bool, forms: seq<Form>, f: Frame, form: Form, maxMsg: nat,
                            rest: Bytes): Bytes
    requires AllSendable(OpenFrames(ps, op, started), forms, maxMsg) && Sendable(f, form, maxMsg)
  {
    EncodeAll(ServerFrames(OpenFrames(ps, op, started), forms)) + (ServerFrame(f, form).Encode() + rest)
  }

  /** A Read that ends with frame f, after the pieces: with result r, the pongs and `more` written, closing or not, and
      what follows f unread. */
  ghost predicate EndsWith(ps: seq<Piece>, op: nat, p: Partial, forms: seq<Form>, f: Frame, form: Form, maxMsg: nat,
                           closed: bool, rest: Bytes, r: Result<Message>, more: seq<Reply>, closes: bool)
    requires AllSendable(OpenFrames(ps, op, p.started), forms, maxMsg) && Sendable(f, form, maxMsg)
  {
    var run := ReadMessage(PiecesThen(ps, op, p.started, forms, f, form, maxMsg, rest), p, maxMsg, closed);
    run.r == r && run.rest == rest && run.replies == Pongs(ps) + more && run.closes == closes
  }

  lemma EndsAfter(ps: seq<Piece>, op: nat, p: Partial, forms: seq<Form>, f: Frame, form: Form, maxMsg: nat,
                  closed: bool, rest: Bytes, r: Result<Message>, more: seq<Reply>, closes: bool)
    requires Fits(ps, op, p, maxMsg, closed) && AllSendable(OpenFrames(ps, op, p.started), forms, maxMsg)
    requires Sendable(f, form, maxMsg) && OnFrame(f, Joined(ps, op, p), maxMsg, closed) == Ends(r, more, closes)
    ensures EndsWith(ps, op, p, forms, f, form, maxMsg, closed, rest, r, more, closes)
  {
    GoesOn(ps, op, p, forms, maxMsg, closed, ServerFrame(f, form).Encode() + rest);
    ReadsServerFrame(f, form, maxMsg, rest);
  }

  /** A Close, whatever came before it: every ping is answered, the Close is echoed with its payload, the connection is
      closed, and the Read says so. */
  lemma ClosedByServer(ps: seq<Piece>, op: nat, p: Partial, forms: seq<Form>, payload: Bytes, form: Form, maxMsg: nat,
                       closed: bool, rest: Bytes)
    requires Fits(ps, op, p, maxMsg, closed) && AllSendable(OpenFrames(ps, op, p.started), forms, maxMsg)
    requires Sendable(Frame(true, OP_CLOSE, payload), form, maxMsg)
    ensures EndsWith(ps, op, p, forms, Frame(true, OP_CLOSE, payload), form, maxMsg, closed, rest,
                     Err(ServerClosed), [Reply(OP_CLOSE, payload)], true)
  {
    EndsAfter(ps, op, p, forms, Frame(true, OP_CLOSE, payload), form, maxMsg, closed, rest, Err(ServerClosed),
              [Reply(OP_CLOSE, payload)], true);
  }

  /** The last data frame of a message, in its place: the whole message. */
  lemma DeliveredWhole(ps: seq<Piece>, op: nat, p: Partial, forms: seq<Form>, chunk: Bytes, form: Form, maxMsg: nat,
                       closed: bool, rest: Bytes)
    requires Fits(ps, op, p, maxMsg, closed) && AllSendable(OpenFrames(ps, op, p.started), forms, maxMsg)
    requires var f := Frame(true, if Joined(ps, op, p).started then OP_CONTINUATION else op, chunk);
             Sendable(f, form, maxMsg) && |Joined(ps, op, p).buf| + |chunk| <= maxMsg
    ensures var f := Frame(true, if Joined(ps, op, p).started then OP_CONTINUATION else op, chunk);
            EndsWith(ps, op, p, forms, f, form, maxMsg, closed, rest,
                     Ok(Message(op == OP_BINARY, Joined(ps, op, p).buf + chunk)), [], false)
  {
    var f := Frame(true, if Joined(ps, op, p).started then OP_CONTINUATION else op, chunk);
    EndsAfter(ps, op, p, forms, f, form, maxMsg, closed, rest,
              Ok(Message(op == OP_BINARY, Joined(ps, op, p).buf + chunk)), [], false);
  }

  /** What frame f is out of place for: a message begun inside another, a continuation of none, an opcode that means
      nothing, a ping when the answer can no longer be written. */
  function Misplaced(f: Frame, started: bool, closed: bool): Option<ReadError> {
    if f.opcode == 0x1 || f.opcode == 0x2 then if started then Some(UnexpectedData) else None
    else if f.opcode == 0x0 then if started then None else Some(UnexpectedContinuation)
    else if f.opcode == 0x9 then if closed then Some(Closed) else None
    else if f.opcode == 0x8 || f.opcode == 0xA then None
    else Some(UnknownOpcode)
  }

  /** A frame out of place ends the Read with its error and closes nothing. */
  lemma MisplacedFrame(ps: seq<Piece>, op: nat, p: Partial, forms: seq<Form>, f: Frame, form: Form, maxMsg: nat,
                       closed: bool, rest: Bytes)
    requires Fits(ps, op, p, maxMsg, closed) && AllSendable(OpenFrames(ps, op, p.started), forms, maxMsg)
    requires Sendable(f, form, maxMsg) && Misplaced(f, p.started || !NoData(ps), closed).Some?
    ensures EndsWith(ps, op, p, forms, f, form, maxMsg, closed, rest,
                     Err(Misplaced(f, p.started || !NoData(ps), closed).value), [], false)
  {
    EndsAfter(ps, op, p, forms, f, form, maxMsg, closed, rest,
              Err(Misplaced(f, p.started || !NoData(ps), closed).value), [], false);
  }

  /** So does a frame that readFrame refuses, and the end of the stream. */
  lemma RefusedFrame(ps: seq<Piece>, op: nat, p: Partial, forms: seq<Form>, w: Wire, maxMsg: nat, closed: bool,
                     rest: Bytes)
    requires Fits(ps, op, p, maxMsg, closed) && AllSendable(OpenFrames(ps, op, p.started), forms, maxMsg)
    requires w.Valid() && Refusal(w, maxMsg).Some?
    ensures AllEncodable(ServerFrames(OpenFrames(ps, op, p.started), forms))
    ensures var before := EncodeAll(ServerFrames(OpenFrames(ps, op, p.started), forms));
            var run := ReadMessage(before + (w.Encode() + rest), p, maxMsg, closed);
            && run.r == Err(Refusal(w, maxMsg).value) && run.replies == Pongs(ps) && !run.closes
    ensures var before := EncodeAll(ServerFrames(OpenFrames(ps, op, p.started), forms));
            var run := ReadMessage(before + [], p, maxMsg, closed);
            run.r == Err(ShortRead) && run.replies == Pongs(ps) && !run.closes && run.rest == []
  {
    GoesOn(ps, op, p, forms, maxMsg, closed, w.Encode() + rest);
    ReadsOrRefuses(w, maxMsg, rest);
    GoesOn(ps, op, p, forms, maxMsg, closed, []);
  }

  // ---- whole streams ----

  /** One message as the server sends it: pieces of what comes before its last data frame, that frame, and the length
      forms. */
  datatype Sent = Sent(ps: seq<Piece>, op: nat, forms: seq<Form>, chunk: Bytes, form: Form) {
    function Final(): Frame { Frame(true, if NoData(ps) then op else OP_CONTINUATION, chunk) }

    predicate Valid(maxMsg: nat) {
      && (op == OP_TEXT || op == OP_BINARY) && |Contents(ps)| + |chunk| <= maxMsg
      && AllSendable(OpenFrames(ps, op, false), forms, maxMsg) && Sendable(Final(), form, maxMsg)
    }

    function Whole(): Message { Message(op == OP_BINARY, Contents(ps) + chunk) }
  }

  ghost predicate AllSent(ms: seq<Sent>, maxMsg: nat) { forall m | m in ms :: m.Valid(maxMsg) }

  ghost function MessageBytes(m: Sent, maxMsg: nat, rest: Bytes): Bytes
    requires m.Valid(maxMsg)
  {
    PiecesThen(m.ps, m.op, false, m.forms, m.Final(), m.form, maxMsg, rest)
  }

  /** Each put in front of what follows it. */
  function Chain<T>(ms: seq<T>, put: (T, Bytes) -> Bytes, tail: Bytes): Bytes {
    if ms == [] then tail else put(ms[0], Chain(ms[1..], put, tail))
  }

  ghost function Puts(maxMsg: nat): (Sent, Bytes) -> Bytes {
    (m: Sent, rest: Bytes) => if m.Valid(maxMsg) then MessageBytes(m, maxMsg, rest) else rest
  }

  /** The bytes of the messages, one after the other, then the tail. */
  ghost function StreamBytes(ms: seq<Sent>, maxMsg: nat, tail: Bytes): Bytes
    requires AllSent(ms, maxMsg)
  {
    Chain(ms, Puts(maxMsg), tail)
  }

  /** The frames the messages decode to, in order, up to the first that does not, and how that ends. */
  function Decoded(ms: seq<Sent>, codec: Codec, clock: nat -> int, k: nat, end: Failure): (seq<Audio.Frame>, Failure) {
    if ms == [] then ([], end)
    else
      match codec(ms[0].Whole(), clock(k))
      case None => ([], DecodeFailed)
      case Some(frames) =>
        var (more, why) := Decoded(ms[1..], codec, clock, k + 1, end);
        (frames + more, why)
  }

  lemma FirstMessage(m: Sent, maxMsg: nat, rest: Bytes)
    requires m.Valid(maxMsg)
    ensures var run := ReadMessage(MessageBytes(m, maxMsg, rest), EMPTY, maxMsg, false);
            run.r == Ok(m.Whole()) && run.rest == rest
  {
    assert EMPTY.buf + Contents(m.ps) == Contents(m.ps);
    NoDataOrNot(m.ps);
    DeliveredWhole(m.ps, m.op, EMPTY, m.forms, m.chunk, m.form, maxMsg, false, rest);
  }

  lemma NoDataOrNot(ps: seq<Piece>)
    ensures NoData(ps) ==> Contents(ps) == []
  {
    if NoData(ps) {
      NoDataNoContents(ps);
    }
  }

  /** A message that decodes gives its frames, ahead of what follows; one that does not ends the stream. */
  ghost predicate Stacks(frames: Option<seq<Audio.Frame>>, more: (seq<Audio.Frame>, Failure),
                         all: (seq<Audio.Frame>, Failure))
  {
    all == if frames.None? then ([], DecodeFailed) else (frames.value + more.0, more.1)
  }

  lemma OneMessage(bytes: Bytes, m: Message, rest: Bytes, maxMsg: nat, codec: Codec, clock: nat -> int, k: nat)
    requires var run := ReadMessage(bytes, EMPTY, maxMsg, false); run.r == Ok(m) && run.rest == rest
    ensures Stacks(codec(m, clock(k)), Upcoming(rest, maxMsg, false, codec, clock, k + 1),
                   Upcoming(bytes, maxMsg, false, codec, clock, k))
  {
    ReadBounds(bytes, EMPTY, maxMsg, false);
  }

  lemma OneDecoded(ms: seq<Sent>, codec: Codec, clock: nat -> int, k: nat, end: Failure)
    requires ms != []
    ensures Stacks(codec(ms[0].Whole(), clock(k)), Decoded(ms[1..], codec, clock, k + 1, end),
                   Decoded(ms, codec, clock, k, end))
  {}

  /** The bytes give out, from the k-th decode on, what the messages decode to. */
  ghost predicate GivesOut(bytes: Bytes, maxMsg: nat, ms: seq<Sent>, codec: Codec, clock: nat -> int, k: nat,
                           end: Failure)
  {
    Upcoming(bytes, maxMsg, false, codec, clock, k) == Decoded(ms, codec, clock, k, end)
  }

  lemma GivesOneMore(bytes: Bytes, rest: Bytes, maxMsg: nat, ms: seq<Sent>, codec: Codec, clock: nat -> int, k: nat,
                     end: Failure)
    requires ms != [] && GivesOut(rest, maxMsg, ms[1..], codec, clock, k + 1, end)
    requires var run := ReadMessage(bytes, EMPTY, maxMsg, false); run.r == Ok(ms[0].Whole()) && run.rest == rest
    ensures GivesOut(bytes, maxMsg, ms, codec, clock, k, end)
  {
    OneMessage(bytes, ms[0].Whole(), rest, maxMsg, codec, clock, k);
    OneDecoded(ms, codec, clock, k, end);
  }

  /** From what the later ones give follows what they give with one more before them. */
  ghost predicate StepsBack<T(!new)>(gives: (Bytes, seq<T>, nat) -> bool, put: (T, Bytes) -> Bytes, rest: Bytes,
                                     m: T, ms: seq<T>, k: nat)
  {
    gives(rest, ms, k + 1) ==> gives(put(m, rest), [m] + ms, k)
  }

  lemma {:induction false} OneByOne<T(!new)>(gives: (Bytes, seq<T>, nat) -> bool, put: (T, Bytes) -> Bytes, ms: seq<T>,
                                             tail: Bytes, k: nat)
    requires gives(tail, [], k + |ms|)
    requires forall m, rest: Bytes, xs: seq<T>, n: nat | m in ms :: StepsBack(gives, put, rest, m, xs, n)
    ensures gives(Chain(ms, put, tail), ms, k)
    decreases |ms|
  {
    if ms != [] {
      OneByOne(gives, put, ms[1..], tail, k + 1);
      assert StepsBack(gives, put, Chain(ms[1..], put, tail), ms[0], ms[1..], k);
      assert [ms[0]] + ms[1..] == ms;
    }
  }

  /** A whole stream: the transport gives out the frames its messages decode to, however each message was cut up and
      whatever control frames came in between, and then ends as what follows them does. */
  lemma StreamDecodes(ms: seq<Sent>, maxMsg: nat, tail: Bytes, codec: Codec, clock: nat -> int, k: nat, end: Failure)
    requires AllSent(ms, maxMsg) && GivesOut(tail, maxMsg, [], codec, clock, k + |ms|, end)
    ensures GivesOut(StreamBytes(ms, maxMsg, tail), maxMsg, ms, codec, clock, k, end)
  {
    var gives := (b: Bytes, xs: seq<Sent>, n: nat) => GivesOut(b, maxMsg, xs, codec, clock, n, end);
    forall m, rest: Bytes, xs: seq<Sent>, n: nat | m in ms ensures StepsBack(gives, Puts(maxMsg), rest, m, xs, n) {
      if gives(rest, xs, n + 1) {
        FirstMessage(m, maxMsg, rest);
        assert ([m] + xs)[1..] == xs;
        GivesOneMore(MessageBytes(m, maxMsg, rest), rest, maxMsg, [m] + xs, codec, clock, n, end);
      }
    }
    OneByOne(gives, Puts(maxMsg), ms, tail, k);
  }

  /** With a Close after it, it ends as closed; with anything else a Read fails on, as that failure. */
  lemma StreamEnds(bytes: Bytes, maxMsg: nat, codec: Codec, clock: nat -> int, k: nat)
    requires ReadMessage(bytes, EMPTY, maxMsg, false).r.Err?
    ensures var e := ReadMessage(bytes, EMPTY, maxMsg, false).r.error;
            Upcoming(bytes, maxMsg, false, codec, clock, k)
            == ([], if e == ServerClosed then EndOfStream else ReadFailed(e))
  {}

  lemma ClosesStream(ms: seq<Sent>, ps: seq<Piece>, op: nat, forms: seq<Form>, payload: Bytes, form: Form, maxMsg: nat,
                     rest: Bytes, codec: Codec, clock: nat -> int, k: nat)
    requires AllSent(ms, maxMsg) && Fits(ps, op, EMPTY, maxMsg, false)
    requires AllSendable(OpenFrames(ps, op, false), forms, maxMsg)
    requires Sendable(Frame(true, OP_CLOSE, payload), form, maxMsg)
    ensures var tail := PiecesThen(ps, op, false, forms, Frame(true, OP_CLOSE, payload), form, maxMsg, rest);
            GivesOut(StreamBytes(ms, maxMsg, tail), maxMsg, ms, codec, clock, k, EndOfStream)
  {
    var tail := PiecesThen(ps, op, false, forms, Frame(true, OP_CLOSE, payload), form, maxMsg, rest);
    ClosedByServer(ps, op, EMPTY, forms, payload, form, maxMsg, false, rest);
    StreamEnds(tail, maxMsg, codec, clock, k + |ms|);
    StreamDecodes(ms, maxMsg, tail, codec, clock, k, EndOfStream);
  }
}
