/** The connection as the code keeps it: bytes still to read, bytes written, buffers filled in place
    (internal/transport/ws.go:57-72, 238-294, 332-461, 529-580). */
module WsObjects {
  import opened Basics
  import opened WsFrames
  import opened WsConns

  /** The client frames that answer a Read, with the masks drawn for them. */
  function Wires(replies: seq<Reply>, masks: nat -> Mask, drawn: nat): seq<Wire> {
    if replies == [] then []
    else
      var n := |replies| - 1;
      Wires(replies[..n], masks, drawn) + [ClientFrame(replies[n].opcode, replies[n].payload, masks(drawn + n))]
  }

  ghost predicate AllValid(replies: seq<Reply>) { forall y | y in replies :: y.Valid() }

  lemma WiresOneMore(replies: seq<Reply>, y: Reply, masks: nat -> Mask, drawn: nat)
    ensures Wires(replies + [y], masks, drawn)
            == Wires(replies, masks, drawn) + [ClientFrame(y.opcode, y.payload, masks(drawn + |replies|))]
  {
    assert (replies + [y])[..|replies|] == replies;
  }

  /** The last of them answers the last reply. */
  lemma LastWire(replies: seq<Reply>, masks: nat -> Mask, drawn: nat)
    ensures |Wires(replies, masks, drawn)| == |replies|
    ensures replies != [] ==>
              var n := |replies| - 1;
              Wires(replies, masks, drawn)[n] == ClientFrame(replies[n].opcode, replies[n].payload, masks(drawn + n))
  {
    WireCount(replies, masks, drawn);
    if replies != [] {
      WireCount(replies[..|replies| - 1], masks, drawn);
    }
  }

  /** The last frame written is a client's Close, with the payload of the last reply. */
  ghost predicate EchoedClose(replies: seq<Reply>, sent: seq<Wire>) {
    && replies != [] && sent != []
    && sent[|sent| - 1].opcode == OP_CLOSE && sent[|sent| - 1].payload == replies[|replies| - 1].payload
    && sent[|sent| - 1].fin && sent[|sent| - 1].mask.Some?
  }

  lemma {:induction false} WireCount(replies: seq<Reply>, masks: nat -> Mask, drawn: nat)
    ensures |Wires(replies, masks, drawn)| == |replies|
  {
    if replies != [] {
      WireCount(replies[..|replies| - 1], masks, drawn);
    }
  }

  lemma ClientBytes(opcode: nat, payload: Bytes, mask: Mask)
    requires opcode < 16 && |payload| < 0x1_0000_0000_0000_0000
    ensures ClientFrame(opcode, payload, mask).Valid()
    ensures ClientFrame(opcode, payload, mask).Encode()
            == [128 + opcode, 128 + Minimal(|payload|).Marker(|payload|)]
              + BigEndian(|payload|, Minimal(|payload|).Width())
               + mask.All() + Masked(payload, mask)
  {
    var w := ClientFrame(opcode, payload, mask);
    ClientHead(opcode, payload, mask);
    FrontOf(w, 128 + opcode, 128 + Minimal(|payload|).Marker(|payload|));
    EncodeSplit(w, mask);
  }

  lemma ClientParts(opcode: nat, payload: Bytes, mask: Mask, header: Bytes, masked: Bytes)
    requires opcode < 16 && |payload| < 0x1_0000_0000_0000_0000 && masked == Masked(payload, mask)
    requires header == [128 + opcode, 128 + Minimal(|payload|).Marker(|payload|)]
                       + BigEndian(|payload|, Minimal(|payload|).Width()) + mask.All()
    ensures ClientFrame(opcode, payload, mask).Valid()
    ensures ClientFrame(opcode, payload, mask).Encode() == header + masked
    ensures payload == [] ==> masked == []
  {
    ClientBytes(opcode, payload, mask);
  }

  lemma ClientHead(opcode: nat, payload: Bytes, mask: Mask)
    requires opcode < 16 && |payload| < 0x1_0000_0000_0000_0000
    ensures var w := ClientFrame(opcode, payload, mask);
            w.Valid() && w.Head() == 128 + opcode && w.Second() == 128 + Minimal(|payload|).Marker(|payload|)
  {}

  lemma FrontOf(w: Wire, h: Byte, s: Byte)
    requires w.Valid() && w.Head() == h && w.Second() == s
    ensures w.Front() == [h, s] + BigEndian(|w.payload|, w.form.Width())
  {}

  lemma EncodeSplit(w: Wire, m: Mask)
    requires w.Valid() && w.mask == Some(m)
    ensures w.Encode() == w.Front() + m.All() + Masked(w.payload, m)
  {
    ConcatAssociates(w.Front(), m.All(), Masked(w.payload, m));
  }

  /** Mentioned to bring to mind what was written; proofs that only count frames are spared it. */
  ghost predicate Recollect(ws: seq<Wire>) { true }

  class WSConn {
    const maxMsg: nat
    const masks: nat -> Mask   // the random generator's output
    var inp: Bytes             // received, not yet consumed
    var out: Bytes             // written
    var drawn: nat             // masks used so far
    var closed: bool
    ghost var sent: seq<Wire>  // the frames written

    /** What is on the wire is the frames sent, one after the other. */
    ghost predicate Valid()
      reads this
    {
      && AllEncodable(sent)
      && (forall ws {:trigger Recollect(ws)} :: Recollect(ws) && ws == sent ==> out == EncodeAll(ws))
    }

    /** A server decodes everything written to exactly the frames sent, in order. */
    lemma OutputDecodes()
      requires Valid()
      ensures ParseFrames(out, |sent|) == Some((sent, []))
    {
      assert Recollect(sent);
      assert out + [] == out;
      ParsesConcatenation(sent, []);
    }

    constructor (maxMsg: nat, masks: nat -> Mask, inp: Bytes)
      ensures this.maxMsg == maxMsg && this.masks == masks && this.inp == inp && drawn == 0 && !closed
      ensures Valid() && sent == []
    {
      this.maxMsg, this.masks, this.inp := maxMsg, masks, inp;
      out, drawn, closed, sent := [], 0, false, [];
    }

    /** binary.BigEndian.PutUint16 and PutUint64. */
    static method PutBigEndian(header: array<Byte>, at: nat, n: nat, width: nat)
      requires at + width <= header.Length
      modifies header
      ensures header[at..at + width] == BigEndian(n, width)
      ensures header[..at] == old(header[..at]) && header[at + width..] == old(header[at + width..])
    {
      var i, left := width, n;
      while i > 0
        invariant 0 <= i <= width
        invariant BigEndian(left, i) + header[at + i..at + width] == BigEndian(n, width)
        invariant header[..at] == old(header[..at]) && header[at + width..] == old(header[at + width..])
      {
        i := i - 1;
        ghost var tail := header[at + i + 1..at + width];
        header[at + i] := left % 256;
        assert header[at + i..at + width] == [left % 256] + tail;
        left := left / 256;
      }
    }

    /** Masking the payload into a fresh buffer (ws.go:285-288). */
    static method MaskPayload(payload: Bytes, mask: Mask) returns (masked: Bytes)
      ensures masked == Masked(payload, mask)
    {
      var buf := new Byte[|payload|];
      var i := 0;
      while i < |payload|
        invariant 0 <= i <= |payload| && forall k | 0 <= k < i :: buf[k] == Xor(payload[k], mask.At(k))
      {
        buf[i] := Xor(payload[i], mask.At(i));
        i := i + 1;
      }
      masked := buf[..];
    }

    method DrawMask() returns (mask: Mask)
      modifies this`drawn
      ensures mask == masks(old(drawn)) && drawn == old(drawn) + 1
    {
      mask := masks(drawn);
      drawn := drawn + 1;
    }

    /** Header and mask of a final client frame (ws.go:255-279). */
    method FrameHeader(opcode: nat, pl: nat, mask: Mask) returns (h: Bytes)
      requires opcode < 16 && pl < 0x1_0000_0000_0000_0000
      ensures h == [128 + opcode, 128 + Minimal(pl).Marker(pl)] + BigEndian(pl, Minimal(pl).Width()) + mask.All()
    {
      var header := new Byte[14];
      header[0] := 128 + opcode;
      var n := 2;
      if pl <= 125 {
        header[1] := 128 + pl;
      } else if pl <= 0xFFFF {
        header[1] := 128 + 126;
        PutBigEndian(header, 2, pl, 2);
        n := 4;
      } else {
        header[1] := 128 + 127;
        PutBigEndian(header, 2, pl, 8);
        n := 10;
      }
      assert header[..2] == [128 + opcode, 128 + Minimal(pl).Marker(pl)];
      assert header[2..n] == BigEndian(pl, Minimal(pl).Width());
      ghost var front := header[..n];
      header[n], header[n + 1], header[n + 2], header[n + 3] := mask.b0, mask.b1, mask.b2, mask.b3;
      assert header[..n] == front && header[n..n + 4] == mask.All();
      h := header[..n + 4];
      assert h == front + mask.All() && front == header[..2] + header[2..n];
    }

    /** writeFrame (ws.go:238-294): one final, masked frame; false when the connection is closed. */
    method WriteFrame(opcode: nat, payload: Bytes) returns (ok: bool)
      requires Valid() && opcode < 16 && |payload| < 0x1_0000_0000_0000_0000
      modifies this`out, this`drawn, this`sent
      ensures Valid() && ok == !closed
      ensures ok ==> drawn == old(drawn) + 1 && sent == old(sent) + [ClientFrame(opcode, payload, masks(old(drawn)))]
      ensures !ok ==> drawn == old(drawn) && sent == old(sent) && out == old(out)
    {
      if closed {
        return false;
      }
      Put(opcode, payload);
      ok := true;
    }

    lemma OneMoreSent(w: Wire, header: Bytes, masked: Bytes)
      requires Valid() && w.Valid() && w.Encode() == header + masked
      ensures AllEncodable(sent + [w]) && EncodeAll(sent + [w]) == out + header + masked
    {
      assert Recollect(sent);
      EncodeAllAppend(sent, w);
      ConcatAssociates(out, header, masked);
    }

    /** Draw a mask and write header and payload, closed or not (ws.go:262-292 and 549-580). */
    method Put(opcode: nat, payload: Bytes)
      requires Valid() && opcode < 16 && |payload| < 0x1_0000_0000_0000_0000
      modifies this`out, this`drawn, this`sent
      ensures Valid() && drawn == old(drawn) + 1
              && sent == old(sent) + [ClientFrame(opcode, payload, masks(old(drawn)))]
    {
      var mask := DrawMask();
      var header := FrameHeader(opcode, |payload|, mask);
      var masked := MaskPayload(payload, mask);
      ghost var w := ClientFrame(opcode, payload, mask);
      ClientParts(opcode, payload, mask, header, masked);
      OneMoreSent(w, header, masked);
      out := out + header;
      if |payload| > 0 {
        out := out + masked;
      }
      sent := sent + [w];
    }

    /** io.ReadFull of n bytes. */
    method ReadFull(n: nat) returns (ok: bool, b: Bytes)
      modifies this`inp
      ensures ok == (|old(inp)| >= n)
      ensures ok ==> b == old(inp)[..n] && inp == old(inp)[n..]
      ensures !ok ==> inp == []
    {
      if |inp| < n {
        inp := [];
        return false, [];
      }
      ok, b := true, inp[..n];
      inp := inp[n..];
    }

    /** readFrame (ws.go:409-461). */
    method NextFrame() returns (r: Result<Frame>)
      modifies this`inp
      ensures (r, inp) == ReadFrame(old(inp), maxMsg)
    {
      var ok, h := ReadFull(2);
      if !ok {
        return Err(ShortRead);
      }
      var fin := h[0] >= 128;
      if h[0] / 16 % 8 != 0 {
        return Err(ReservedBits);
      }
      var opcode := h[0] % 16;
      if h[1] >= 128 {
        return Err(MaskedFrame);
      }
      var plen := h[1] % 128;
      if plen == 126 || plen == 127 {
        var ok', ext := ReadFull(if plen == 126 then 2 else 8);
        if !ok' {
          return Err(ShortRead);
        }
        plen := FromBigEndian(ext);
      }
      if plen > maxMsg {
        return Err(TooLarge);
      }
      if opcode >= 8 {
        if plen > 125 {
          return Err(ControlTooLarge);
        }
        if !fin {
          return Err(FragmentedControl);
        }
      }
      var ok'', payload := ReadFull(plen);
      if !ok'' {
        return Err(ShortRead);
      }
      r := Ok(Frame(fin, opcode, payload));
    }

    /** The pong of ws.go:347 and the close echo of ws.go:354. */
    method Answer(y: Reply, ghost done: seq<Reply>, ghost drawn0: nat, ghost sent0: seq<Wire>)
      requires Valid() && y.Valid() && AllValid(done)
      requires drawn == drawn0 + |done| && sent == sent0 + Wires(done, masks, drawn0)
      modifies this`out, this`drawn, this`sent
      ensures Valid() && AllValid(done + [y])
      ensures drawn == drawn0 + |done + [y]| && sent == sent0 + Wires(done + [y], masks, drawn0)
    {
      WiresOneMore(done, y, masks, drawn0);
      Put(y.opcode, y.payload);
    }

    /** The control cases of Read's switch (ws.go:345-356). */
    method OnControl(f: Frame, p: Partial, ghost done: seq<Reply>, ghost drawn0: nat, ghost sent0: seq<Wire>)
      returns (v: Verdict)
      requires f.opcode == OP_PING || f.opcode == OP_PONG || f.opcode == OP_CLOSE
      requires Valid() && |f.payload| <= 125 && AllValid(done)
      requires drawn == drawn0 + |done| && sent == sent0 + Wires(done, masks, drawn0)
      modifies this`out, this`drawn, this`sent, this`closed
      ensures v == OnFrame(f, p, maxMsg, old(closed)) && (v.Goes? ==> v.p == p)
      ensures closed == (old(closed) || (v.Ends? && v.closes))
      ensures Valid() && AllValid(done + v.replies)
      ensures drawn == drawn0 + |done + v.replies| && sent == sent0 + Wires(done + v.replies, masks, drawn0)
    {
      assert done + [] == done;
      if f.opcode == OP_PING {
        if closed {
          return Ends(Err(Closed), [], false);
        }
        Answer(Reply(OP_PONG, f.payload), done, drawn0, sent0);
        return Goes(p, [Reply(OP_PONG, f.payload)]);
      } else if f.opcode == OP_PONG {
        return Goes(p, []);
      }
      Answer(Reply(OP_CLOSE, f.payload), done, drawn0, sent0);
      closed := true;
      v := Ends(Err(ServerClosed), [Reply(OP_CLOSE, f.payload)], true);
    }

    /** Read's switch. */
    method OnNext(f: Frame, p: Partial, ghost done: seq<Reply>, ghost drawn0: nat, ghost sent0: seq<Wire>)
      returns (v: Verdict)
      requires |p.buf| <= maxMsg && |f.payload| <= maxMsg && (f.opcode >= 8 ==> |f.payload| <= 125)
      requires Valid() && AllValid(done)
      requires drawn == drawn0 + |done| && sent == sent0 + Wires(done, masks, drawn0)
      modifies this`out, this`drawn, this`sent, this`closed
      ensures v == OnFrame(f, p, maxMsg, old(closed)) && (v.Goes? ==> |v.p.buf| <= maxMsg)
      ensures closed == (old(closed) || (v.Ends? && v.closes))
      ensures Valid() && AllValid(done + v.replies)
      ensures drawn == drawn0 + |done + v.replies| && sent == sent0 + Wires(done + v.replies, masks, drawn0)
    {
      if f.opcode == OP_PING || f.opcode == OP_PONG || f.opcode == OP_CLOSE {
        v := OnControl(f, p, done, drawn0, sent0);
      } else {
        v := OnData(f, p);
        assert done + [] == done;
      }
    }

    /** Read (ws.go:300-385), without its deadlines: the run ReadMessage describes, its replies on the wire; when the
        server closed, the connection is closed and the last thing written is the echo of that Close. */
    method Read() returns (r: Result<Message>)
      requires Valid()
      modifies this
      ensures Valid()
      ensures var run := ReadMessage(old(inp), EMPTY, maxMsg, old(closed));
              && r == run.r && inp == run.rest && closed == (old(closed) || run.closes)
              && AllValid(run.replies) && drawn == old(drawn) + |run.replies|
              && sent == old(sent) + Wires(run.replies, masks, old(drawn))
              && ClosesAsTold(run) && (run.closes ==> EchoedClose(run.replies, sent))
    {
      ghost var run := ReadMessage(inp, EMPTY, maxMsg, closed);
      ReplyKinds(inp, EMPTY, maxMsg, closed);
      LastWire(run.replies, masks, drawn);
      r := ReadLoop();
    }

    /** Its loop. */
    method ReadLoop() returns (r: Result<Message>)
      requires Valid()
      modifies this
      ensures Valid()
      ensures var run := ReadMessage(old(inp), EMPTY, maxMsg, old(closed));
              && r == run.r && inp == run.rest && closed == (old(closed) || run.closes)
              && AllValid(run.replies) && drawn == old(drawn) + |run.replies|
              && sent == old(sent) + Wires(run.replies, masks, old(drawn))
    {
      ghost var run := ReadMessage(inp, EMPTY, maxMsg, closed);
      ghost var done: seq<Reply> := [];
      var p := EMPTY;
      while true
        invariant |p.buf| <= maxMsg && closed == old(closed) && AllValid(done)
        invariant Rest(run, done, ReadMessage(inp, p, maxMsg, closed))
        invariant Valid() && drawn == old(drawn) + |done| && sent == old(sent) + Wires(done, masks, old(drawn))
        decreases |inp|
      {
        ReadUnfolds(run, done, inp, p, maxMsg, closed);
        var next := NextFrame();
        if next.Err? {
          return Err(next.error);
        }
        var v := OnNext(next.value, p, done, old(drawn), old(sent));
        done := done + v.replies;
        if v.Ends? {
          return v.r;
        }
        p := v.p;
      }
    }

    /** The data cases of Read's switch (ws.go:357-382). */
    method OnData(f: Frame, p: Partial) returns (v: Verdict)
      requires |p.buf| <= maxMsg && |f.payload| <= maxMsg
      requires f.opcode != OP_PING && f.opcode != OP_PONG && f.opcode != OP_CLOSE
      ensures v == OnFrame(f, p, maxMsg, closed) && v.replies == []
      ensures v.Goes? ==> |v.p.buf| <= maxMsg
      ensures v.Ends? ==> !v.closes
    {
      if f.opcode == OP_TEXT || f.opcode == OP_BINARY || f.opcode == OP_CONTINUATION {
        if f.opcode == OP_CONTINUATION && !p.started {
          return Ends(Err(UnexpectedContinuation), [], false);
        }
        if f.opcode != OP_CONTINUATION && p.started {
          return Ends(Err(UnexpectedData), [], false);
        }
        var buf := p.buf + f.payload;
        assert |buf| <= 2 * maxMsg;
        if |buf| > maxMsg {
          return Ends(Err(TooLarge), [], false);
        }
        var op := if f.opcode == OP_CONTINUATION then p.op else f.opcode;
        if f.fin {
          return Ends(Ok(Message(op == OP_BINARY, buf)), [], false);
        }
        return Goes(Partial(buf, op, true), []);
      }
      v := Ends(Err(UnknownOpcode), [], false);
    }
  }

  /** One frame of a run, and the rest of it. */
  lemma ReadUnfolds(run: ReadRun, done: seq<Reply>, bytes: Bytes, p: Partial, maxMsg: nat, closed: bool)
    requires Rest(run, done, ReadMessage(bytes, p, maxMsg, closed))
    ensures var (r, rest) := ReadFrame(bytes, maxMsg);
            if r.Err? then run.r == Err(r.error) && run.rest == rest && run.replies == done && !run.closes
            else
              && |rest| < |bytes| && r.value.opcode < 16 && |r.value.payload| <= maxMsg
              && (r.value.opcode >= 8 ==> |r.value.payload| <= 125)
              && var v := OnFrame(r.value, p, maxMsg, closed);
                 if v.Ends? then run.r == v.r && run.rest == rest && run.replies == done + v.replies
                    && run.closes == v.closes
                 else Rest(run, done + v.replies, ReadMessage(rest, v.p, maxMsg, closed))
  {
    var mid := ReadMessage(bytes, p, maxMsg, closed);
    MessageUnfolds(bytes, p, maxMsg, closed);
    var (r, rest) := ReadFrame(bytes, maxMsg);
    if r.Ok? {
      var v := OnFrame(r.value, p, maxMsg, closed);
      if v.Goes? {
        RestGoes(run, done, mid, v.replies, ReadMessage(rest, v.p, maxMsg, closed));
      }
    }
  }

  lemma MessageUnfolds(bytes: Bytes, p: Partial, maxMsg: nat, closed: bool)
    ensures var (r, rest) := ReadFrame(bytes, maxMsg);
            var run := ReadMessage(bytes, p, maxMsg, closed);
            if r.Err? then run.r == Err(r.error) && run.rest == rest && run.replies == [] && !run.closes
            else
              && |rest| < |bytes| && r.value.opcode < 16 && |r.value.payload| <= maxMsg
              && (r.value.opcode >= 8 ==> |r.value.payload| <= 125)
              && var v := OnFrame(r.value, p, maxMsg, closed);
                 if v.Ends? then run.r == v.r && run.rest == rest && run.replies == v.replies && run.closes == v.closes
                 else Rest(run, v.replies, ReadMessage(rest, v.p, maxMsg, closed))
  {
    AcceptsExactly(bytes, maxMsg);
    if ReadFrame(bytes, maxMsg).0.Ok? {
      AcceptedFrame(bytes, maxMsg);
    }
  }

  /** After the replies already sent, a run goes on as `left` says. */
  ghost predicate Rest(run: ReadRun, done: seq<Reply>, left: ReadRun) {
    run.r == left.r && run.rest == left.rest && run.closes == left.closes && run.replies == done + left.replies
  }

  lemma RestGoes(run: ReadRun, done: seq<Reply>, mid: ReadRun, replies: seq<Reply>, left: ReadRun)
    requires Rest(run, done, mid) && Rest(mid, replies, left)
    ensures Rest(run, done + replies, left)
  {
    assert done + (replies + left.replies) == done + replies + left.replies;
  }
}
