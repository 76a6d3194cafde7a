/** The server-sent-events wait loop of `pollOrderStatus` (handler_order.go).
    The keep-alive ticker (every 10 seconds), the expiry timer (2 hours), the
    request's cancellation and the broker's messages are abstracted into one
    sequence of events in arrival order; whether each write to the client
    succeeds is an oracle indexed by the number of the write. */
module OrderStream {
  import opened Common
  import opened Types

  datatype Event =
    | Tick                  // the keep-alive ticker fired
    | Expire                // the 2-hour timer fired
    | Cancel                // the request context was cancelled
    | Message(order: Order) // the broker delivered an order

  /** How the handler left the loop; `Waiting` means the events seen so far
      did not end it. */
  datatype Outcome = Delivered | Expired | ClientClosed | WriteFailed | Waiting

  /** The frames written to the client and how the loop ended. */
  datatype Trace = Trace(frames: seq<String>, outcome: Outcome)

  const ConnectedFrame: String := "event: connected\ndata: connected\n\n"
  const KeepAliveFrame: String := ": keep-alive\n\n"
  const ExpiredFrame: String := "event: expired\ndata: expired\n\n"

  function ReceivedFrame(orderID: String): String
  {
    "event: received\ndata: " + orderID + "\n\n"
  }

  /** A message is for this subscriber when both order id and owner match. */
  predicate Matches(o: Order, orderID: String, owner: String)
  {
    o.orderID == orderID && o.parentUsername == owner
  }

  /** An event that ends the loop (when its write, if any, succeeds). */
  predicate IsTerminal(e: Event, orderID: String, owner: String)
  {
    e.Expire? || e.Cancel? || (e.Message? && Matches(e.order, orderID, owner))
  }

  function Prepend(frame: String, t: Trace): Trace
  {
    Trace([frame] + t.frames, t.outcome)
  }

  /** The loop after the first `written` writes, over the remaining events. */
  function Loop(events: seq<Event>, orderID: String, owner: String, writeOk: nat -> bool, written: nat): Trace
    decreases |events|
  {
    if events == [] then Trace([], Waiting)
    else
      match events[0]
      case Tick =>
        if !writeOk(written) then Trace([], WriteFailed)
        else Prepend(KeepAliveFrame, Loop(events[1..], orderID, owner, writeOk, written + 1))
      case Expire =>
        if !writeOk(written) then Trace([], WriteFailed) else Trace([ExpiredFrame], Expired)
      case Cancel => Trace([], ClientClosed)
      case Message(o) =>
        if !Matches(o, orderID, owner) then Loop(events[1..], orderID, owner, writeOk, written)
        else if !writeOk(written) then Trace([], WriteFailed)
        else Trace([ReceivedFrame(o.orderID)], Delivered)
  }

  /** The whole handler: the "connected" frame first, then the loop. */
  function Poll(events: seq<Event>, orderID: String, owner: String, writeOk: nat -> bool): Trace
  {
    if !writeOk(0) then Trace([], WriteFailed)
    else Prepend(ConnectedFrame, Loop(events, orderID, owner, writeOk, 1))
  }

  /** `pollOrderStatus`: writes the frames of `Poll` and reports the status it
      returns: 500 after a failed write, 200 after a terminal event, none yet
      while it is still waiting. */
  method PollOrderStatus(orderID: String, owner: String, events: seq<Event>, writeOk: nat -> bool)
    returns (frames: seq<String>, outcome: Outcome, status: Option<int>)
    ensures Trace(frames, outcome) == Poll(events, orderID, owner, writeOk)
    ensures outcome == WriteFailed <==> status == Some(StatusInternalServerError)
    ensures outcome == Waiting <==> status.None?
    ensures outcome in {Delivered, Expired, ClientClosed} <==> status == Some(StatusOK)
  {
    if !writeOk(0) {
      return [], WriteFailed, Some(StatusInternalServerError);
    }
    frames := [ConnectedFrame];
    var written: nat := 1;
    var i := 0;
    outcome := Waiting;
    while i < |events|
      invariant 0 <= i <= |events|
      invariant outcome == Waiting
      invariant Poll(events, orderID, owner, writeOk)
                == Trace(frames + Loop(events[i..], orderID, owner, writeOk, written).frames,
                         Loop(events[i..], orderID, owner, writeOk, written).outcome)
    {
      assert events[i..][1..] == events[i + 1..];
      match events[i] {
        case Tick =>
          if !writeOk(written) {
            outcome := WriteFailed;
            break;
          }
          frames := frames + [KeepAliveFrame];
          written := written + 1;
        case Expire =>
          if !writeOk(written) {
            outcome := WriteFailed;
            break;
          }
          frames := frames + [ExpiredFrame];
          outcome := Expired;
          break;
        case Cancel =>
          outcome := ClientClosed;
          break;
        case Message(o) =>
          if Matches(o, orderID, owner) {
            if !writeOk(written) {
              outcome := WriteFailed;
              break;
            }
            frames := frames + [ReceivedFrame(o.orderID)];
            outcome := Delivered;
            break;
          }
      }
      i := i + 1;
    }
    status := if outcome == WriteFailed then Some(StatusInternalServerError)
              else if outcome == Waiting then None
              else Some(StatusOK);
  }

  /** The first frame, whenever anything is written, is "connected". */
  lemma PollBeginsConnected(events: seq<Event>, orderID: String, owner: String, writeOk: nat -> bool)
    ensures var t := Poll(events, orderID, owner, writeOk);
            (writeOk(0) ==> |t.frames| >= 1 && t.frames[0] == ConnectedFrame)
            && (!writeOk(0) ==> t == Trace([], WriteFailed))
  {
  }

  /** A message for another order or another owner is ignored: inserting it
      anywhere in the events changes neither the frames nor the outcome. */
  lemma {:induction false} LoopIgnoresOtherMessages(events: seq<Event>, at: nat, o: Order,
                                                    orderID: String, owner: String,
                                                    writeOk: nat -> bool, written: nat)
    requires at <= |events|
    requires !Matches(o, orderID, owner)
    ensures Loop(events[..at] + [Message(o)] + events[at..], orderID, owner, writeOk, written)
            == Loop(events, orderID, owner, writeOk, written)
    decreases at
  {
    var with := events[..at] + [Message(o)] + events[at..];
    if at == 0 {
      assert with[1..] == events;
    } else {
      assert with[0] == events[0];
      assert with[1..] == events[1..][..at - 1] + [Message(o)] + events[1..][at - 1..];
      match events[0]
      case Tick =>
        if writeOk(written) {
          LoopIgnoresOtherMessages(events[1..], at - 1, o, orderID, owner, writeOk, written + 1);
        }
      case Expire =>
      case Cancel =>
      case Message(m) =>
        if !Matches(m, orderID, owner) {
          LoopIgnoresOtherMessages(events[1..], at - 1, o, orderID, owner, writeOk, written);
        }
    }
  }

  /** Position of the first terminal event, or the length when there is none. */
  function FirstTerminal(events: seq<Event>, orderID: String, owner: String): (j: nat)
    ensures j <= |events|
    ensures forall i :: 0 <= i < j ==> !IsTerminal(events[i], orderID, owner)
    ensures j < |events| ==> IsTerminal(events[j], orderID, owner)
    decreases |events|
  {
    if events == [] then 0
    else if IsTerminal(events[0], orderID, owner) then 0
    else 1 + FirstTerminal(events[1..], orderID, owner)
  }

  /** The loop stops at the first terminal event: what follows it is never read. */
  lemma {:induction false} LoopStopsAtFirstTerminal(events: seq<Event>, more: seq<Event>,
                                                    orderID: String, owner: String,
                                                    writeOk: nat -> bool, written: nat)
    requires FirstTerminal(events, orderID, owner) < |events|
    ensures Loop(events + more, orderID, owner, writeOk, written) == Loop(events, orderID, owner, writeOk, written)
    decreases |events|
  {
    assert (events + more)[0] == events[0];
    assert (events + more)[1..] == events[1..] + more;
    if !IsTerminal(events[0], orderID, owner) {
      match events[0]
      case Tick =>
        if writeOk(written) {
          LoopStopsAtFirstTerminal(events[1..], more, orderID, owner, writeOk, written + 1);
        }
      case Message(m) =>
        LoopStopsAtFirstTerminal(events[1..], more, orderID, owner, writeOk, written);
    }
  }

  function CountTicks(events: seq<Event>): nat
  {
    if events == [] then 0 else (if events[0].Tick? then 1 else 0) + CountTicks(events[1..])
  }

  function KeepAlives(n: nat): (frames: seq<String>)
    ensures |frames| == n && forall i :: 0 <= i < n ==> frames[i] == KeepAliveFrame
  {
    seq(n, _ => KeepAliveFrame)
  }

  /** The frame a terminal event writes. */
  function FinalFrames(e: Event): seq<String>
  {
    match e
    case Expire => [ExpiredFrame]
    case Message(o) => [ReceivedFrame(o.orderID)]
    case _ => []
  }

  function FinalOutcome(e: Event): Outcome
  {
    match e
    case Expire => Expired
    case Cancel => ClientClosed
    case Message(_) => Delivered
    case Tick => Waiting
  }

  /** When every write succeeds, the loop writes one keep-alive per tick
      before the first terminal event, then that event's frame ("expired",
      "received" with the order id, or nothing on cancellation), and ends as
      that event says; with no terminal event it is still waiting. */
  lemma {:induction false} LoopWhenWritesSucceed(events: seq<Event>, orderID: String, owner: String,
                                                 writeOk: nat -> bool, written: nat)
    requires forall n :: writeOk(n)
    ensures var j := FirstTerminal(events, orderID, owner);
            Loop(events, orderID, owner, writeOk, written)
            == if j == |events| then Trace(KeepAlives(CountTicks(events)), Waiting)
               else Trace(KeepAlives(CountTicks(events[..j])) + FinalFrames(events[j]), FinalOutcome(events[j]))
    decreases |events|
  {
    if events != [] {
      var j := FirstTerminal(events, orderID, owner);
      if IsTerminal(events[0], orderID, owner) {
        assert j == 0 && events[..0] == [];
      } else {
        var tail := events[1..];
        LoopWhenWritesSucceed(tail, orderID, owner, writeOk, written + (if events[0].Tick? then 1 else 0));
        var jt := FirstTerminal(tail, orderID, owner);
        assert j == jt + 1;
        if j < |events| {
          assert events[..j][1..] == tail[..jt];
          assert events[..j][0] == events[0];
          assert events[j] == tail[jt];
        }
        if events[0].Tick? {
          assert KeepAlives(CountTicks(tail) + 1) == [KeepAliveFrame] + KeepAlives(CountTicks(tail));
          if j < |events| {
            assert KeepAlives(CountTicks(tail[..jt]) + 1) == [KeepAliveFrame] + KeepAlives(CountTicks(tail[..jt]));
          }
        }
      }
    }
  }

  /** Only a message for this subscriber's order and owner is ever delivered:
      a delivered trace ends with the "received" frame for `orderID`, and such
      a message occurs among the events. */
  lemma {:induction false} DeliveredOnlyOnMatch(events: seq<Event>, orderID: String, owner: String,
                                                writeOk: nat -> bool, written: nat)
    requires Loop(events, orderID, owner, writeOk, written).outcome == Delivered
    ensures var t := Loop(events, orderID, owner, writeOk, written);
            |t.frames| >= 1 && t.frames[|t.frames| - 1] == ReceivedFrame(orderID)
    ensures exists i :: 0 <= i < |events| && events[i].Message? && Matches(events[i].order, orderID, owner)
    decreases |events|
  {
    match events[0]
    case Tick =>
      DeliveredOnlyOnMatch(events[1..], orderID, owner, writeOk, written + 1);
      var i :| 0 <= i < |events[1..]| && events[1..][i].Message? && Matches(events[1..][i].order, orderID, owner);
      assert events[i + 1] == events[1..][i];
    case Message(o) =>
      if !Matches(o, orderID, owner) {
        DeliveredOnlyOnMatch(events[1..], orderID, owner, writeOk, written);
        var i :| 0 <= i < |events[1..]| && events[1..][i].Message? && Matches(events[1..][i].order, orderID, owner);
        assert events[i + 1] == events[1..][i];
      } else {
        assert events[0].Message? && Matches(events[0].order, orderID, owner);
      }
  }
}
