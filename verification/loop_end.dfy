/** The critical sections of a transport end as methods on its fields (internal/transport/loopback.go:119-190); what
    runs between two of them is the protocol's business (module Rendezvous). */
module LoopEnds {
  import opened Basics
  import opened Rendezvous

  datatype Waiting = Wait | Leave | Handed(before: nat)

  class LoopEnd<F(!new)> {
    var pending: Option<F>
    var parked: bool
    var parkSeq: nat
    var closed: bool
    var cancelled: bool

    /** The object holds the shared fields of the protocol's end e. */
    ghost predicate Holds<Op>(e: End<F, Op>)
      reads this
    {
      pending == e.pending && parked == e.parked && parkSeq == e.parkSeq && closed == e.closed
        && cancelled == e.cancelled
    }

    constructor ()
      ensures Holds<int>(NewEnd())
    {
      pending, parked, parkSeq, closed, cancelled := None, false, 0, false, false;
    }

    /** deliver up to its second wait (loopback.go:120-134): one look at the end under its lock. */
    method DeliverLook<Op>(f: F, ghost e: End<F, Op>) returns (w: Waiting)
      requires Holds(e)
      modifies this
      ensures Holds(if w.Handed? then HandOver(e, f) else e)
      ensures w == if e.closed || e.cancelled then Leave else if !e.parked then Wait else Handed(e.parkSeq)
    {
      if !parked && !closed && !cancelled {
        return Wait;
      }
      if closed || cancelled {
        return Leave;
      }
      var before := parkSeq;
      pending := Some(f);
      parked := false;
      w := Handed(before);
    }

    /** One turn of Recv's loop (loopback.go:156-178): the frame it returns with, if it takes one. */
    method RecvLook<S(!new), Op(!new)>(woken: bool, ctxDone: bool,
                                       ghost m: Machine<S, F, Op>, ghost j: nat, ghost e: End<F, Op>)
                                         returns (f: Option<F>)
      requires Holds(e) && e.worker == Entering(woken)
      modifies this
      ensures Holds(RecvSection(m, j, e, ctxDone)) && f == e.pending
      ensures RecvSection(m, j, e, ctxDone).worker.Reacting? <==> f.Some?
    {
      if woken {
        parked := false;
      }
      f := pending;
      if pending.Some? {
        pending := None;
      } else if closed {
      } else if ctxDone {
        cancelled := true;
      } else {
        parked := true;
        parkSeq := parkSeq + 1;
      }
    }

    /** Close (loopback.go:183-190). */
    method Close<Op>(ghost e: End<F, Op>)
      requires Holds(e)
      modifies this
      ensures Holds(CloseEnd(e))
    {
      closed := true;
      parkSeq := parkSeq + 1;
    }
  }
}
