/**
 * `processGoRoutine` of package godobot (connector.go): how it handles one
 * message taken from `messageQueue`, with the `leftSpace` counter it keeps.
 *
 * A queued message goes out only while `leftSpace` is positive; at 0 the
 * routine first asks the device. Every reply then decrements the counter,
 * non-queued ones included, as a Go `uint32` decrement that wraps at 0.
 */
module GoProcess {
  import opened Bytes
  import opened Frame
  import opened Dispatch
  import Protocol

  /** `ProtocolQueuedCmdLeftSpace` in package godobot. */
  const LEFT_SPACE_ID: uint8 := 248

  lemma LeftSpaceIdFromTable()
    ensures LEFT_SPACE_ID == Protocol.GoId(Protocol.Queued(Protocol.QueuedCmdLeftSpace))
  {
    Protocol.GoLeftSpaceId();
  }

  /** Send the message and count the reply. */
  function SendCounted(l: Link, m: Message): (h: Handled)
    requires InboundWellFormed(l.inbound)
    ensures InboundWellFormed(h.link.inbound)
    ensures |h.answers| == 1 && h.after != Hang
    ensures h.after == Stop <==> h.answers == [Error(WriteFailed)]
  {
    var r := Exchange(l, m, LEFT_SPACE_ID, MAX_RETRIES);
    match r.outcome
    case WriteError => Handled(r.link, [Error(WriteFailed)], Stop)
    case Acked(ack) => Handled(r.link.(leftSpace := Decrement(r.link.leftSpace)), [Reply(ack)], Continue)
    case NoAck => Handled(r.link, [Error(TimedOut)], Continue)
  }

  /** One message from `messageQueue`. */
  function Handle(l: Link, m: Message): (h: Handled)
    requires InboundWellFormed(l.inbound)
    ensures InboundWellFormed(h.link.inbound)
  {
    if !m.isQueued || l.leftSpace > 0 then SendCounted(l, m)
    else
      var q := Exchange(l, Query(LEFT_SPACE_ID), LEFT_SPACE_ID, MAX_RETRIES);
      match q.outcome
      case WriteError => Handled(q.link, [Error(WriteFailed)], Stop)
      case NoAck => Handled(q.link, [], Continue)
      case Acked(ack) =>
        var refreshed := q.link.(leftSpace := LeUint32(ack.params));
        if refreshed.leftSpace == 0 then Handled(refreshed, [Error(LeftSpaceZero)], Continue)
        else SendCounted(refreshed, m)
  }

  /** The loop body of `processGoRoutine` for `case message := <-connector.messageQueue`. */
  method HandleMessage(c: Connector, out: OutMessage) returns (after: After)
    requires c.Valid() && c.leftSpaceId == LEFT_SPACE_ID
    modifies c, out
    ensures c.Valid()
    ensures var h := Handle(old(c.State()), out.message);
      c.State() == h.link && after == h.after && out.State() == NotifyAll(old(out.State()), h.answers)
  {
    var m := out.message;
    if !m.isQueued || c.leftSpace > 0 {
      after := SendAndCount(c, out);
    } else {
      ghost var l := c.State();
      var q := c.SendMessage(Query(c.leftSpaceId));
      match q
      case WriteError =>
        after := Stop;
        out.Error(WriteFailed);
        assert NotifyAll(old(out.State()), [Error(WriteFailed)]) == out.State();
      case NoAck =>
        after := Continue;
      case Acked(ack) =>
        c.leftSpace := LeUint32(ack.params);
        if c.leftSpace == 0 {
          out.Error(LeftSpaceZero);
          assert NotifyAll(old(out.State()), [Error(LeftSpaceZero)]) == out.State();
          after := Continue;
        } else {
          after := SendAndCount(c, out);
        }
    }
  }

  /** `sendMessage`, then `Reply` and `leftSpace--`, or `Error`. */
  method SendAndCount(c: Connector, out: OutMessage) returns (after: After)
    requires c.Valid() && c.leftSpaceId == LEFT_SPACE_ID
    modifies c, out
    ensures c.Valid()
    ensures var h := SendCounted(old(c.State()), out.message);
      c.State() == h.link && after == h.after && out.State() == NotifyAll(old(out.State()), h.answers)
  {
    var o := c.SendMessage(out.message);
    match o
    case WriteError =>
      after := Stop;
      out.Error(WriteFailed);
      assert NotifyAll(old(out.State()), [Error(WriteFailed)]) == out.State();
    case Acked(ack) =>
      out.Reply(ack);
      assert NotifyAll(old(out.State()), [Reply(ack)]) == out.State();
      c.leftSpace := Decrement(c.leftSpace);
      after := Continue;
    case NoAck =>
      out.Error(TimedOut);
      assert NotifyAll(old(out.State()), [Error(TimedOut)]) == out.State();
      after := Continue;
  }

  // ---------------------------------------------------------------------
  // Properties
  // ---------------------------------------------------------------------

  /**
   * The caller hears exactly one thing unless the left-space query went
   * unanswered; a reply carries the request's id; the routine stops exactly
   * when a write failed.
   */
  lemma HandleAnswers(l: Link, m: Message)
    requires InboundWellFormed(l.inbound)
    ensures var h := Handle(l, m);
      && |h.answers| <= 1
      && h.after != Hang
      && (h.after == Stop <==> h.answers == [Error(WriteFailed)])
      && (h.answers == [] ==> m.isQueued && l.leftSpace == 0)
      && (|h.answers| == 1 && h.answers[0].Reply? ==> h.answers[0].ack.id == m.id)
      && h.link.alarms == l.alarms
  {
    if !m.isQueued || l.leftSpace > 0 {
      ExchangeKeeps(l, m, LEFT_SPACE_ID, MAX_RETRIES);
    } else {
      var q := Exchange(l, Query(LEFT_SPACE_ID), LEFT_SPACE_ID, MAX_RETRIES);
      ExchangeKeeps(l, Query(LEFT_SPACE_ID), LEFT_SPACE_ID, MAX_RETRIES);
      if q.outcome.Acked? {
        var refreshed := q.link.(leftSpace := LeUint32(q.outcome.ack.params));
        ExchangeKeeps(refreshed, m, LEFT_SPACE_ID, MAX_RETRIES);
      }
    }
  }

  /** A queued message at `leftSpace == 0` starts with the left-space query. */
  lemma QueuedAtZeroAsksFirst(l: Link, m: Message)
    requires InboundWellFormed(l.inbound) && NoFailures(l.writeFails)
    requires m.isQueued && l.leftSpace == 0
    ensures l.sent + Encode(Query(LEFT_SPACE_ID)) <= Handle(l, m).link.sent
  {
    var q := Exchange(l, Query(LEFT_SPACE_ID), LEFT_SPACE_ID, MAX_RETRIES);
    FirstFrameWritten(l, Query(LEFT_SPACE_ID), LEFT_SPACE_ID, MAX_RETRIES);
    if q.outcome.Acked? {
      var refreshed := q.link.(leftSpace := LeUint32(q.outcome.ack.params));
      WritesAtMostThreeFrames(refreshed, m, LEFT_SPACE_ID);
    }
  }

  /**
   * When the device reports no space, the caller gets "left space is 0" and
   * the message itself is never written.
   */
  lemma ReportedZeroRefuses(l: Link, m: Message)
    requires InboundWellFormed(l.inbound) && l.writeFails == []
    requires m.isQueued && l.leftSpace == 0
    requires l.inbound != [] && Matches(l.inbound[0], LEFT_SPACE_ID) && LeUint32(l.inbound[0].msg.params) == 0
    ensures Handle(l, m) == Handled(l.(sent := l.sent + Encode(Query(LEFT_SPACE_ID)), inbound := l.inbound[1..]), [Error(LeftSpaceZero)], Continue)
  {
    ReplyAtOnce(l, Query(LEFT_SPACE_ID), LEFT_SPACE_ID, MAX_RETRIES);
  }

  /**
   * An unanswered left-space query leaves the caller without any answer
   * (`SendMessage` blocks), and the routine moves on.
   */
  lemma UnansweredQueryLeavesCallerWaiting(l: Link, m: Message)
    requires InboundWellFormed(l.inbound) && NoFailures(l.writeFails)
    requires m.isQueued && l.leftSpace == 0
    requires FirstMatch(l.inbound, LEFT_SPACE_ID, MAX_RETRIES).None?
    ensures Handle(l, m).answers == [] && Handle(l, m).after == Continue
  {
    ExchangeIsFirstMatch(l, Query(LEFT_SPACE_ID), LEFT_SPACE_ID, MAX_RETRIES);
    WriteErrorNeedsFailure(l, Query(LEFT_SPACE_ID), LEFT_SPACE_ID, MAX_RETRIES);
  }

  /**
   * Every reply decrements `leftSpace` as a `uint32`, whether the message was
   * queued or not. The counter decremented is the one the message went out
   * with: the cached one, or, for a queued message at 0, the positive room the
   * answered query reported. A reply to the left-space query itself is first
   * cached by `sendMessage`, so it is that reply's room that is decremented.
   */
  lemma EveryReplyDecrements(l: Link, m: Message)
    requires InboundWellFormed(l.inbound)
    ensures var h := Handle(l, m);
      var q := Exchange(l, Query(LEFT_SPACE_ID), LEFT_SPACE_ID, MAX_RETRIES);
      var direct := !m.isQueued || l.leftSpace > 0;
      h.answers != [] && h.answers[0].Reply? ==>
        && (!direct ==> q.outcome.Acked? && LeUint32(q.outcome.ack.params) > 0)
        && h.link.leftSpace == Decrement(
             if m.id == LEFT_SPACE_ID then LeUint32(h.answers[0].ack.params)
             else if direct then l.leftSpace
             else LeUint32(q.outcome.ack.params))
  {
    if !m.isQueued || l.leftSpace > 0 {
      ExchangeKeeps(l, m, LEFT_SPACE_ID, MAX_RETRIES);
    } else {
      var q := Exchange(l, Query(LEFT_SPACE_ID), LEFT_SPACE_ID, MAX_RETRIES);
      if q.outcome.Acked? {
        var refreshed := q.link.(leftSpace := LeUint32(q.outcome.ack.params));
        ExchangeKeeps(refreshed, m, LEFT_SPACE_ID, MAX_RETRIES);
      }
    }
  }

  /** So a non-queued reply at `leftSpace == 0` wraps the counter to 2^32 - 1. */
  lemma NonQueuedReplyWraps(l: Link, m: Message)
    requires InboundWellFormed(l.inbound) && l.writeFails == []
    requires !m.isQueued && l.leftSpace == 0 && m.id != LEFT_SPACE_ID
    requires l.inbound != [] && Matches(l.inbound[0], m.id)
    ensures Handle(l, m).answers == [Reply(l.inbound[0].msg)]
    ensures Handle(l, m).link.leftSpace == TWO_TO_32 - 1
  {
    ReplyAtOnce(l, m, LEFT_SPACE_ID, MAX_RETRIES);
  }

  /**
   * With the counter wrapped, a queued message goes out at once without
   * asking the device how much room it has.
   */
  lemma WrappedCounterSkipsQuery(l: Link, m: Message)
    requires InboundWellFormed(l.inbound) && NoFailures(l.writeFails)
    requires m.isQueued && l.leftSpace == TWO_TO_32 - 1
    ensures l.sent + Encode(m) <= Handle(l, m).link.sent
  {
    FirstFrameWritten(l, m, LEFT_SPACE_ID, MAX_RETRIES);
  }
}
