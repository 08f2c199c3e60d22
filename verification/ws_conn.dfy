/** Message reassembly and the connection object (internal/transport/ws.go:41-46, 300-385). */
module WsConns {
  import opened Basics
  import opened WsFrames

  datatype Message = Message(binary: bool, data: Bytes)

  /** A frame the client writes while reading. */
  datatype Reply = Reply(opcode: nat, payload: Bytes) {
    predicate Valid() { opcode < 16 && |payload| <= 125 }
  }

  /** The message being put together. */
  datatype Partial = Partial(buf: Bytes, op: nat, started: bool)

  const EMPTY := Partial([], 0, false)

  datatype Verdict =
    | Goes(p: Partial, replies: seq<Reply>)
    | Ends(r: Result<Message>, replies: seq<Reply>, closes: bool)

  /** A data frame joins the buffer: text, binary or continuation. */
  function Join(f: Frame, op: nat, p: Partial, maxMsg: nat): Verdict {
    var buf := p.buf + f.payload;
    if |buf| > maxMsg then Ends(Err(TooLarge), [], false)
    else if f.fin then Ends(Ok(Message(op == OP_BINARY, buf)), [], false)
    else Goes(Partial(buf, op, true), [])
  }

  /** One turn of Read's loop (ws.go:345-383). */
  function OnFrame(f: Frame, p: Partial, maxMsg: nat, closed: bool): Verdict {
    if f.opcode == OP_PING then
      if closed then Ends(Err(Closed), [], false) else Goes(p, [Reply(OP_PONG, f.payload)])
    else if f.opcode == OP_PONG then Goes(p, [])
    else if f.opcode == OP_CLOSE then Ends(Err(ServerClosed), [Reply(OP_CLOSE, f.payload)], true)
    else if f.opcode == OP_TEXT || f.opcode == OP_BINARY then
      if p.started then Ends(Err(UnexpectedData), [], false) else Join(f, f.opcode, p, maxMsg)
    else if f.opcode == OP_CONTINUATION then
      if !p.started then Ends(Err(UnexpectedContinuation), [], false) else Join(f, p.op, p, maxMsg)
    else Ends(Err(UnknownOpcode), [], false)
  }

  /** What a Read leaves: its result, unread bytes, replies in order, whether it closes, and the most it buffered. */
  datatype ReadRun = ReadRun(r: Result<Message>, rest: Bytes, replies: seq<Reply>, closes: bool, peak: nat)

  /** How many bytes the buffer holds while frame f is dealt with. */
  function Buffered(f: Frame, p: Partial): nat {
    if f.opcode == OP_TEXT || f.opcode == OP_BINARY || f.opcode == OP_CONTINUATION
    then |p.buf| + |f.payload| else |p.buf|
  }

  function Greater(a: nat, b: nat): nat { if a < b then b else a }

  function ReadMessage(bytes: Bytes, p: Partial, maxMsg: nat, closed: bool): ReadRun
    decreases |bytes|
  {
    match ReadFrame(bytes, maxMsg)
    case (Err(e), rest) => ReadRun(Err(e), rest, [], false, |p.buf|)
    case (Ok(f), rest) =>
      match OnFrame(f, p, maxMsg, closed)
      case Ends(r, replies, closes) => ReadRun(r, rest, replies, closes, Buffered(f, p))
      case Goes(p', replies) =>
        AcceptsExactly(bytes, maxMsg);
        var t := ReadMessage(rest, p', maxMsg, closed);
        ReadRun(t.r, t.rest, replies + t.replies, t.closes, Greater(Buffered(f, p), t.peak))
  }

  /** Replies are control frames, and a message never grows past its limit by more than one frame. */
  lemma {:induction false} ReadBounds(bytes: Bytes, p: Partial, maxMsg: nat, closed: bool)
    requires |p.buf| <= maxMsg
    ensures var run := ReadMessage(bytes, p, maxMsg, closed);
            && run.peak <= 2 * maxMsg
            && (run.r.Ok? ==> |run.r.value.data| <= maxMsg && |run.rest| < |bytes| && !run.closes)
            && (forall y | y in run.replies :: y.Valid() && (y.opcode == OP_PONG || y.opcode == OP_CLOSE))
            && |run.rest| <= |bytes|
    decreases |bytes|
  {
    AcceptsExactly(bytes, maxMsg);
    match ReadFrame(bytes, maxMsg)
    case (Err(e), rest) => ErrorConsumes(bytes, maxMsg);
    case (Ok(f), rest) =>
      AcceptedFrame(bytes, maxMsg);
      match OnFrame(f, p, maxMsg, closed)
      case Ends(_, _, _) =>
      case Goes(p', replies) =>
        ReadBounds(rest, p', maxMsg, closed);
  }

  /** A Read closes the connection exactly when the server did; every reply but the echo of that Close is a pong. */
  ghost predicate ClosesAsTold(run: ReadRun) {
    && (run.closes <==> run.r == Err(ServerClosed))
    && (run.closes ==> run.replies != [] && run.replies[|run.replies| - 1].opcode == OP_CLOSE)
    && forall k | 0 <= k < |run.replies| && !(run.closes && k == |run.replies| - 1) :: run.replies[k].opcode == OP_PONG
  }

  lemma {:induction false} ReplyKinds(bytes: Bytes, p: Partial, maxMsg: nat, closed: bool)
    ensures ClosesAsTold(ReadMessage(bytes, p, maxMsg, closed))
    decreases |bytes|
  {
    AcceptsExactly(bytes, maxMsg);
    match ReadFrame(bytes, maxMsg)
    case (Err(e), rest) => NotServerClosed(bytes, maxMsg);
    case (Ok(f), rest) =>
      match OnFrame(f, p, maxMsg, closed)
      case Ends(_, _, _) => EndsAsTold(f, p, maxMsg, closed, ReadMessage(bytes, p, maxMsg, closed));
      case Goes(p', replies) =>
        ReplyKinds(rest, p', maxMsg, closed);
        GoesAsTold(f, p, maxMsg, closed, ReadMessage(rest, p', maxMsg, closed), ReadMessage(bytes, p, maxMsg, closed));
  }

  lemma EndsAsTold(f: Frame, p: Partial, maxMsg: nat, closed: bool, run: ReadRun)
    requires var v := OnFrame(f, p, maxMsg, closed);
             v.Ends? && run.r == v.r && run.replies == v.replies && run.closes == v.closes
    ensures ClosesAsTold(run)
  {}

  lemma GoesAsTold(f: Frame, p: Partial, maxMsg: nat, closed: bool, left: ReadRun, run: ReadRun)
    requires OnFrame(f, p, maxMsg, closed).Goes? && ClosesAsTold(left)
    requires run.r == left.r && run.closes == left.closes
             && run.replies == OnFrame(f, p, maxMsg, closed).replies + left.replies
    ensures ClosesAsTold(run)
  {
    var ys := OnFrame(f, p, maxMsg, closed).replies;
    forall k | 0 <= k < |run.replies| && !(run.closes && k == |run.replies| - 1)
      ensures run.replies[k].opcode == OP_PONG
    {
      if k >= |ys| { assert run.replies[k] == left.replies[k - |ys|]; }
    }
  }

  lemma NotServerClosed(bytes: Bytes, maxMsg: nat)
    ensures ReadFrame(bytes, maxMsg).0 != Err(ServerClosed)
  {}

  lemma ErrorConsumes(bytes: Bytes, maxMsg: nat)
    ensures |ReadFrame(bytes, maxMsg).1| <= |bytes|
  {}

  lemma AcceptedFrame(bytes: Bytes, maxMsg: nat)
    requires ReadFrame(bytes, maxMsg).0.Ok?
    ensures var f := ReadFrame(bytes, maxMsg).0.value;
            f.opcode < 16 && |f.payload| <= maxMsg && (f.opcode >= 8 ==> |f.payload| <= 125)
  {}

  // ---- fragmentation ----

  /** What a server may send while delivering one message. */
  datatype Piece = Data(chunk: Bytes) | Ping(payload: Bytes) | Pong(payload: Bytes)

  predicate NoData(ps: seq<Piece>) { forall p | p in ps :: !p.Data? }

  /** The frames of a message cut into pieces: the first data frame carries the opcode, the last one FIN. */
  function FramesOf(ps: seq<Piece>, op: nat, started: bool): seq<Frame> {
    if ps == [] then []
    else
      match ps[0]
      case Data(c) => [Frame(NoData(ps[1..]), if started then OP_CONTINUATION else op, c)] + FramesOf(ps[1..], op, true)
      case Ping(x) => [Frame(true, OP_PING, x)] + FramesOf(ps[1..], op, started)
      case Pong(x) => [Frame(true, OP_PONG, x)] + FramesOf(ps[1..], op, started)
  }

  function Contents(ps: seq<Piece>): Bytes {
    if ps == [] then [] else (if ps[0].Data? then ps[0].chunk else []) + Contents(ps[1..])
  }

  function Pongs(ps: seq<Piece>): seq<Reply> {
    if ps == [] then [] else (if ps[0].Ping? then [Reply(OP_PONG, ps[0].payload)] else []) + Pongs(ps[1..])
  }

  /** A message of at most maxMsg bytes, in any number of pieces, control frames in between; its last frame is data. */
  predicate Deliverable(ps: seq<Piece>, maxMsg: nat) {
    && ps != [] && ps[|ps| - 1].Data?
    && (forall p | p in ps :: !p.Data? ==> |p.payload| <= 125 && |p.payload| <= maxMsg)
    && |Contents(ps)| <= maxMsg
  }

  lemma FirstFrame(ps: seq<Piece>, op: nat, started: bool)
    requires ps != []
    ensures var fs := FramesOf(ps, op, started);
            && |fs| == |FramesOf(ps[1..], op, started || ps[0].Data?)| + 1
            && fs[1..] == FramesOf(ps[1..], op, started || ps[0].Data?)
            && fs[0] == match ps[0]
                        case Data(c) => Frame(NoData(ps[1..]), if started then OP_CONTINUATION else op, c)
                        case Ping(x) => Frame(true, OP_PING, x)
                        case Pong(x) => Frame(true, OP_PONG, x)
  {}

  /** The last piece. */
  lemma LastVerdict(c: Bytes, op: nat, p: Partial, maxMsg: nat)
    requires |p.buf| + |c| <= maxMsg && (op == OP_TEXT || op == OP_BINARY) && (p.started ==> p.op == op)
    ensures OnFrame(Frame(true, if p.started then OP_CONTINUATION else op, c), p, maxMsg, false)
            == Ends(Ok(Message(op == OP_BINARY, p.buf + c)), [], false)
  {}

  /** A data piece with more to come. */
  lemma DataVerdict(c: Bytes, op: nat, p: Partial, maxMsg: nat)
    requires |p.buf| + |c| <= maxMsg && (op == OP_TEXT || op == OP_BINARY) && (p.started ==> p.op == op)
    ensures OnFrame(Frame(false, if p.started then OP_CONTINUATION else op, c), p, maxMsg, false)
            == Goes(Partial(p.buf + c, op, true), [])
  {}

  lemma PieceSplit(ps: seq<Piece>)
    requires ps != []
    ensures Contents(ps) == (if ps[0].Data? then ps[0].chunk else []) + Contents(ps[1..])
    ensures Pongs(ps) == (if ps[0].Ping? then [Reply(OP_PONG, ps[0].payload)] else []) + Pongs(ps[1..])
    ensures |ps| > 1 && ps[|ps| - 1].Data? ==> !NoData(ps[1..])
    ensures |ps| == 1 ==> Contents(ps[1..]) == [] && Pongs(ps[1..]) == [] && NoData(ps[1..])
  {
    assert |ps| > 1 ==> ps[|ps| - 1] in ps[1..];
  }

  /** Dealing with the first frame of a delivery. */
  lemma FirstVerdict(ps: seq<Piece>, op: nat, p: Partial, maxMsg: nat)
    requires ps != [] && ps[|ps| - 1].Data? && |p.buf| + |Contents(ps)| <= maxMsg && (op == OP_TEXT || op == OP_BINARY)
    requires p.started ==> p.op == op
    ensures var v := OnFrame(FramesOf(ps, op, p.started)[0], p, maxMsg, false);
            if |ps| == 1 then v == Ends(Ok(Message(op == OP_BINARY, p.buf + Contents(ps))), [], false)
            else
              && v.Goes? && v.p.started == (p.started || ps[0].Data?) && (v.p.started ==> v.p.op == op)
              && v.p.buf + Contents(ps[1..]) == p.buf + Contents(ps)
              && v.replies + Pongs(ps[1..]) == Pongs(ps)
  {
    FirstFrame(ps, op, p.started);
    PieceSplit(ps);
    if |ps| == 1 {
      LastVerdict(ps[0].chunk, op, p, maxMsg);
      assert ps[0].chunk + [] == Contents(ps) == ps[0].chunk;
    } else if ps[0].Data? {
      DataVerdict(ps[0].chunk, op, p, maxMsg);
      assert p.buf + ps[0].chunk + Contents(ps[1..]) == p.buf + (ps[0].chunk + Contents(ps[1..]));
    } else {
      assert [] + Contents(ps[1..]) == Contents(ps[1..]);
    }
  }

  /** Reassembly (sections 5.4 and 5.5): however a message is cut up and whatever pings and pongs are sent in between,
      Read returns it whole, answers every ping with a pong of the same payload, in order, and leaves what follows. */
  lemma {:induction false} Reassembles(ps: seq<Piece>, op: nat, p: Partial, maxMsg: nat, bytes: Bytes, rest: Bytes)
    requires Delivered(ps, op, p.started, maxMsg, bytes, rest)
    requires ps != [] && ps[|ps| - 1].Data? && |p.buf| + |Contents(ps)| <= maxMsg && (op == OP_TEXT || op == OP_BINARY)
    requires p.started ==> p.op == op
    ensures var run := ReadMessage(bytes, p, maxMsg, false);
            && run.r == Ok(Message(op == OP_BINARY, p.buf + Contents(ps)))
            && run.rest == rest && run.replies == Pongs(ps) && !run.closes
    decreases |ps|
  {
    var fs := FramesOf(ps, op, p.started);
    FirstFrame(ps, op, p.started);
    FirstVerdict(ps, op, p, maxMsg);
    var after := ReadFrame(bytes, maxMsg).1;
    if |ps| == 1 {
      assert FramesOf(ps[1..], op, p.started || ps[0].Data?) == [];
      assert Pongs(ps) == [] by { assert ps[1..] == []; }
    } else {
      var v := OnFrame(fs[0], p, maxMsg, false);
      assert ps[1..][|ps[1..]| - 1] == ps[|ps| - 1];
      Reassembles(ps[1..], op, v.p, maxMsg, after, rest);
    }
  }

  /** The bytes deliver the frames of the pieces one after the other, then rest. */
  predicate Delivered(ps: seq<Piece>, op: nat, started: bool, maxMsg: nat, bytes: Bytes, rest: Bytes)
    decreases |ps|
  {
    if ps == [] then bytes == rest
    else
      && ReadFrame(bytes, maxMsg).0 == Ok(FramesOf(ps, op, started)[0])
      && Delivered(ps[1..], op, started || ps[0].Data?, maxMsg, ReadFrame(bytes, maxMsg).1, rest)
  }

  /** Encoding the frames, in any length forms, delivers them. */
  lemma {:induction false} EncodingDelivers(ps: seq<Piece>, op: nat, started: bool, forms: seq<Form>, maxMsg: nat,
                                            rest: Bytes)
    requires |forms| == |FramesOf(ps, op, started)|
    requires forall k | 0 <= k < |forms| :: Sendable(FramesOf(ps, op, started)[k], forms[k], maxMsg)
    ensures AllEncodable(ServerFrames(FramesOf(ps, op, started), forms))
    ensures Delivered(ps, op, started, maxMsg, EncodeAll(ServerFrames(FramesOf(ps, op, started), forms)) + rest, rest)
    decreases |ps|
  {
    var fs := FramesOf(ps, op, started);
    var ws := ServerFrames(fs, forms);
    if ps == [] {
      assert EncodeAll(ws) + rest == rest;
    } else {
      FirstFrame(ps, op, started);
      assert ws[1..] == ServerFrames(fs[1..], forms[1..]);
      EncodingDelivers(ps[1..], op, started || ps[0].Data?, forms[1..], maxMsg, rest);
      EncodeAllSplit(ws, rest);
      ReadsServerFrame(fs[0], forms[0], maxMsg, EncodeAll(ws[1..]) + rest);
    }
  }

  /** So a fragmented message and the same message in one frame read alike. */
  lemma FragmentsReadAsWhole(ps: seq<Piece>, op: nat, forms: seq<Form>, form: Form, maxMsg: nat, rest: Bytes)
    requires Deliverable(ps, maxMsg) && (op == OP_TEXT || op == OP_BINARY)
    requires |forms| == |FramesOf(ps, op, false)|
    requires forall k | 0 <= k < |forms| :: Sendable(FramesOf(ps, op, false)[k], forms[k], maxMsg)
    requires Sendable(Frame(true, op, Contents(ps)), form, maxMsg)
    ensures AllEncodable(ServerFrames(FramesOf(ps, op, false), forms))
    ensures var pieces := ReadMessage(EncodeAll(ServerFrames(FramesOf(ps, op, false), forms)) + rest, EMPTY, maxMsg,
                                      false);
            var whole := ReadMessage(ServerFrame(Frame(true, op, Contents(ps)), form).Encode() + rest, EMPTY, maxMsg,
                                     false);
            && pieces.r == whole.r == Ok(Message(op == OP_BINARY, Contents(ps)))
            && pieces.rest == whole.rest == rest
            && pieces.replies == Pongs(ps) && whole.replies == []
  {
    EncodingDelivers(ps, op, false, forms, maxMsg, rest);
    Reassembles(ps, op, EMPTY, maxMsg, EncodeAll(ServerFrames(FramesOf(ps, op, false), forms)) + rest, rest);
    assert EMPTY.buf + Contents(ps) == Contents(ps);
    ReadsWhole(op, Contents(ps), form, maxMsg, rest);
  }

  lemma ReadsWhole(op: nat, data: Bytes, form: Form, maxMsg: nat, rest: Bytes)
    requires (op == OP_TEXT || op == OP_BINARY) && Sendable(Frame(true, op, data), form, maxMsg)
    ensures var run := ReadMessage(ServerFrame(Frame(true, op, data), form).Encode() + rest, EMPTY, maxMsg, false);
            run.r == Ok(Message(op == OP_BINARY, data)) && run.rest == rest && run.replies == []
  {
    ReadsServerFrame(Frame(true, op, data), form, maxMsg, rest);
    assert EMPTY.buf + data == data;
  }

  lemma {:induction false} NoDataNoContents(ps: seq<Piece>)
    requires NoData(ps)
    ensures Contents(ps) == []
  {
    if ps != [] {
      assert ps[0] in ps;
      NoDataNoContents(ps[1..]);
    }
  }

  /** A frame and a length form a server may send it in, whatever the client's limit. */
  predicate Fitting(f: Frame, form: Form) {
    && f.opcode < 16 && form.Fits(|f.payload|)
    && (f.opcode >= 8 ==> |f.payload| <= 125 && f.fin)
  }

  /** A frame over the limit is refused before its payload is read. */
  lemma RefusesLargeFrame(f: Frame, form: Form, maxMsg: nat, rest: Bytes)
    requires Fitting(f, form) && |f.payload| > maxMsg
    ensures ReadFrame(ServerFrame(f, form).Encode() + rest, maxMsg).0 == Err(TooLarge)
  {
    var w := ServerFrame(f, form);
    var b := w.Encode() + rest;
    Layout(w, rest);
    HeadFields(w);
    LengthFields(w);
    assert b[2..][..form.Width()] == b[2..2 + form.Width()];
  }

  /** The first frame off the wire: itself, or refused when it is over the limit. */
  lemma FirstOffWire(f: Frame, form: Form, maxMsg: nat, rest: Bytes)
    requires Fitting(f, form)
    ensures ReadFrame(ServerFrame(f, form).Encode() + rest, maxMsg)
            == if |f.payload| <= maxMsg then (Ok(f), rest)
               else (Err(TooLarge), ReadFrame(ServerFrame(f, form).Encode() + rest, maxMsg).1)
  {
    if |f.payload| <= maxMsg {
      ReadsServerFrame(f, form, maxMsg, rest);
    } else {
      RefusesLargeFrame(f, form, maxMsg, rest);
    }
  }

  /** The first piece of a message over the limit: it is refused, or what is left is still over the limit. */
  lemma FirstOfOversized(ps: seq<Piece>, op: nat, p: Partial, maxMsg: nat)
    requires ps != [] && |p.buf| <= maxMsg < |p.buf| + |Contents(ps)| && (op == OP_TEXT || op == OP_BINARY)
    requires p.started ==> p.op == op
    ensures var v := OnFrame(FramesOf(ps, op, p.started)[0], p, maxMsg, false);
            if v.Ends? then v.r == Err(TooLarge)
            else
              && |v.p.buf| <= maxMsg < |v.p.buf| + |Contents(ps[1..])|
              && v.p.started == (p.started || ps[0].Data?) && (v.p.started ==> v.p.op == op)
  {
    FirstFrame(ps, op, p.started);
    PieceSplit(ps);
    if ps[0].Data? && NoData(ps[1..]) {
      NoDataNoContents(ps[1..]);
    }
  }

  /** A frame that is refused, or ends a Read as refused, or leaves it to bytes that are. */
  lemma RefusedFirst(f: Frame, form: Form, bytes: Bytes, tail: Bytes, p: Partial, maxMsg: nat)
    requires Fitting(f, form) && bytes == ServerFrame(f, form).Encode() + tail
    requires |f.payload| <= maxMsg ==>
               var v := OnFrame(f, p, maxMsg, false);
               (if v.Ends? then v.r else ReadMessage(tail, v.p, maxMsg, false).r) == Err(TooLarge)
    ensures ReadMessage(bytes, p, maxMsg, false).r == Err(TooLarge)
  {
    FirstOffWire(f, form, maxMsg, tail);
  }

  /** A message over the limit is refused, however it is cut up: whatever its frames' sizes and length forms, the one
      frame of the uncut message included, and whatever control frames are sent in between. */
  lemma {:induction false} RefusesOversized(ps: seq<Piece>, op: nat, p: Partial, forms: seq<Form>, maxMsg: nat,
                                            rest: Bytes)
    requires |forms| == |FramesOf(ps, op, p.started)|
    requires forall k | 0 <= k < |forms| :: Fitting(FramesOf(ps, op, p.started)[k], forms[k])
    requires |p.buf| <= maxMsg < |p.buf| + |Contents(ps)| && (op == OP_TEXT || op == OP_BINARY)
    requires p.started ==> p.op == op
    ensures AllEncodable(ServerFrames(FramesOf(ps, op, p.started), forms))
    ensures ReadMessage(EncodeAll(ServerFrames(FramesOf(ps, op, p.started), forms)) + rest, p, maxMsg, false).r
            == Err(TooLarge)
    decreases |ps|
  {
    var fs := FramesOf(ps, op, p.started);
    var ws := ServerFrames(fs, forms);
    FirstFrame(ps, op, p.started);
    EncodeAllSplit(ws, rest);
    FirstOfOversized(ps, op, p, maxMsg);
    var v := OnFrame(fs[0], p, maxMsg, false);
    if |fs[0].payload| <= maxMsg && v.Goes? {
      assert ws[1..] == ServerFrames(fs[1..], forms[1..]);
      RefusesOversized(ps[1..], op, v.p, forms[1..], maxMsg, rest);
    }
    RefusedFirst(fs[0], forms[0], EncodeAll(ws) + rest, EncodeAll(ws[1..]) + rest, p, maxMsg);
  }

  /** So a message in pieces, its control payloads within the limit, is delivered when it is within the limit and
      refused when it is not. */
  lemma DeliveredExactly(ps: seq<Piece>, op: nat, forms: seq<Form>, maxMsg: nat, rest: Bytes)
    requires ps != [] && ps[|ps| - 1].Data? && (op == OP_TEXT || op == OP_BINARY)
    requires forall p | p in ps && !p.Data? :: |p.payload| <= 125 && |p.payload| <= maxMsg
    requires |forms| == |FramesOf(ps, op, false)|
    requires forall k | 0 <= k < |forms| :: Fitting(FramesOf(ps, op, false)[k], forms[k])
    ensures AllEncodable(ServerFrames(FramesOf(ps, op, false), forms))
    ensures ReadMessage(EncodeAll(ServerFrames(FramesOf(ps, op, false), forms)) + rest, EMPTY, maxMsg, false).r
            == if |Contents(ps)| <= maxMsg then Ok(Message(op == OP_BINARY, Contents(ps))) else Err(TooLarge)
  {
    if |Contents(ps)| <= maxMsg {
      PiecesFit(ps, op, false, forms, maxMsg);
      EncodingDelivers(ps, op, false, forms, maxMsg, rest);
      Reassembles(ps, op, EMPTY, maxMsg, EncodeAll(ServerFrames(FramesOf(ps, op, false), forms)) + rest, rest);
      assert EMPTY.buf + Contents(ps) == Contents(ps);
    } else {
      RefusesOversized(ps, op, EMPTY, forms, maxMsg, rest);
    }
  }

  /** No piece of a message within the limit is over it. */
  lemma {:induction false} PiecesFit(ps: seq<Piece>, op: nat, started: bool, forms: seq<Form>, maxMsg: nat)
    requires |Contents(ps)| <= maxMsg && forall p | p in ps && !p.Data? :: |p.payload| <= maxMsg
    requires |forms| == |FramesOf(ps, op, started)|
    requires forall k | 0 <= k < |forms| :: Fitting(FramesOf(ps, op, started)[k], forms[k])
    ensures forall k | 0 <= k < |forms| :: Sendable(FramesOf(ps, op, started)[k], forms[k], maxMsg)
    decreases |ps|
  {
    if ps != [] {
      FirstFrame(ps, op, started);
      PieceSplit(ps);
      assert ps[0] in ps;
      PiecesFit(ps[1..], op, started || ps[0].Data?, forms[1..], maxMsg);
      var fs := FramesOf(ps, op, started);
      assert forall k | 0 < k < |fs| :: fs[k] == fs[1..][k - 1] && forms[k] == forms[1..][k - 1];
    }
  }
}
