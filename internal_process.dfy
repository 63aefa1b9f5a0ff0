/**
 * `processGoRoutine` of package internal (internal/connector.go): the alarm
 * ticker, the alarm gate in front of every message, the left-space query
 * repeated until the device answers, and a `leftSpace` counter that only
 * queued messages decrement.
 */
module InternalProcess {
  import opened Bytes
  import opened Wrappers
  import opened Frame
  import opened Dispatch
  import Protocol
  import InternalProtocol
  import Decoder

  /** `ProtocolQueuedCmdLeftSpace` in package internal. */
  const LEFT_SPACE_ID: uint8 := 247
  /** `ProtocolAlarmsState` in package internal. */
  const ALARMS_STATE_ID: uint8 := 20

  lemma IdsFromTable()
    ensures LEFT_SPACE_ID == InternalProtocol.InternalId(Protocol.Queued(Protocol.QueuedCmdLeftSpace))
    ensures ALARMS_STATE_ID == InternalProtocol.InternalId(Protocol.Alarm(Protocol.AlarmsState))
  {
    InternalProtocol.InternalLeftSpaceId();
  }

  // ---------------------------------------------------------------------
  // The alarm gate
  // ---------------------------------------------------------------------

  /** The index of the first nonzero alarm byte, if there is one. */
  function FirstAlarm(alarms: seq<uint8>): (r: Option<nat>)
    ensures r.Some? ==> r.value < |alarms| && alarms[r.value] != 0
    ensures r.Some? ==> forall k :: 0 <= k < r.value ==> alarms[k] == 0
    ensures r.None? ==> forall k :: 0 <= k < |alarms| ==> alarms[k] == 0
  {
    if alarms == [] then None
    else if alarms[0] != 0 then Some(0)
    else match FirstAlarm(alarms[1..])
      case None => None
      case Some(j) => Some(j + 1)
  }

  /** The `for i, alarm := range connector.Alarms` loop, which stops at the first nonzero byte. */
  method FindAlarm(alarms: seq<uint8>) returns (r: Option<nat>)
    ensures r == FirstAlarm(alarms)
  {
    var i := 0;
    while i < |alarms|
      invariant 0 <= i <= |alarms|
      invariant forall k :: 0 <= k < i ==> alarms[k] == 0
    {
      if alarms[i] != 0 {
        FirstAlarmIsUnique(alarms, i);
        return Some(i);
      }
      i := i + 1;
    }
    return None;
  }

  /** A nonzero byte preceded only by zeros is the first alarm. */
  lemma FirstAlarmIsUnique(alarms: seq<uint8>, i: nat)
    requires i < |alarms| && alarms[i] != 0
    requires forall k :: 0 <= k < i ==> alarms[k] == 0
    ensures FirstAlarm(alarms) == Some(i)
  {
    var r := FirstAlarm(alarms);
    assert r.Some? && r.value >= i;
  }

  /** What the gate tells the caller before the message is sent: "alarm: i-v", or nothing. */
  function AlarmAnswers(alarms: seq<uint8>): (answers: seq<Answer>)
    ensures |answers| <= 1
    ensures answers == [] <==> forall k :: 0 <= k < |alarms| ==> alarms[k] == 0
  {
    match FirstAlarm(alarms)
    case None => []
    case Some(i) => [Error(Alarm(i, alarms[i]))]
  }

  // ---------------------------------------------------------------------
  // The send loop
  // ---------------------------------------------------------------------

  /** Whether the loop must ask for the queue's room before sending. */
  function Gate(l: Link, m: Message): nat
  {
    if !m.isQueued || l.leftSpace > 0 then 0 else 1
  }

  /**
   * The inner `for` loop: send when the message is not queued or there is
   * room; otherwise query the room and go round again. A query that is never
   * answered from an exhausted script repeats forever, which is `Hang`.
   */
  function SendLoop(l: Link, m: Message): (h: Handled)
    requires InboundWellFormed(l.inbound)
    ensures InboundWellFormed(h.link.inbound)
    decreases Measure(l), Gate(l, m)
  {
    if !m.isQueued || l.leftSpace > 0 then
      var r := Exchange(l, m, LEFT_SPACE_ID, MAX_RETRIES);
      match r.outcome
      case WriteError => Handled(r.link, [Error(WriteFailed)], Stop)
      case Acked(ack) =>
        Handled(if m.isQueued then r.link.(leftSpace := Decrement(r.link.leftSpace)) else r.link, [Reply(ack)], Continue)
      case NoAck => Handled(r.link, [Error(TimedOut)], Continue)
    else
      var q := Exchange(l, Query(LEFT_SPACE_ID), LEFT_SPACE_ID, MAX_RETRIES);
      ExchangeKeeps(l, Query(LEFT_SPACE_ID), LEFT_SPACE_ID, MAX_RETRIES);
      match q.outcome
      case WriteError => Handled(q.link, [Error(WriteFailed)], Stop)
      case Acked(ack) =>
        var refreshed := q.link.(leftSpace := LeUint32(ack.params));
        if refreshed.leftSpace == 0 then Handled(refreshed, [Error(LeftSpaceZero)], Continue)
        else SendLoop(refreshed, m)
      case NoAck =>
        if Measure(q.link) == 0 then Handled(q.link, [], Hang)
        else SendLoop(q.link, m)
  }

  /** One message from `sendingMessage`: the alarm gate, then the send loop. */
  function Handle(l: Link, m: Message): (h: Handled)
    requires InboundWellFormed(l.inbound)
    ensures InboundWellFormed(h.link.inbound)
    ensures AlarmAnswers(l.alarms) <= h.answers
  {
    var sent := SendLoop(l, m);
    Handled(sent.link, AlarmAnswers(l.alarms) + sent.answers, sent.after)
  }

  datatype Ticked = Ticked(link: Link, after: After)

  /** The request the ticker sends. */
  function AlarmsQuery(): (q: Message)
    ensures q.id == ALARMS_STATE_ID && !q.rw && !q.isQueued && q.params == []
  {
    Message(ALARMS_STATE_ID, false, false, [], 0)
  }

  /** `case <-alarmTicker.C`: read the alarm state into `Alarms`. */
  function Tick(l: Link): (t: Ticked)
    requires InboundWellFormed(l.inbound)
    ensures InboundWellFormed(t.link.inbound)
  {
    var r := Exchange(l, AlarmsQuery(), LEFT_SPACE_ID, MAX_RETRIES);
    match r.outcome
    case WriteError => Ticked(r.link, Stop)
    case Acked(ack) => Ticked(r.link.(alarms := Data(ack)), Continue)
    case NoAck => Ticked(r.link, Continue)
  }

  // ---------------------------------------------------------------------
  // The routine itself
  // ---------------------------------------------------------------------

  method AlarmTick(c: Connector) returns (after: After)
    requires c.Valid() && c.leftSpaceId == LEFT_SPACE_ID
    modifies c
    ensures c.Valid()
    ensures Ticked(c.State(), after) == Tick(old(c.State()))
  {
    var state := c.SendMessage(AlarmsQuery());
    match state
    case WriteError =>
      after := Stop;
    case Acked(ack) =>
      c.alarms := Data(ack);
      after := Continue;
    case NoAck =>
      after := Continue;
  }

  /** The loop body of `processGoRoutine` for `case outmsg := <-connector.sendingMessage`. */
  method HandleMessage(c: Connector, out: OutMessage) returns (after: After)
    requires c.Valid() && c.leftSpaceId == LEFT_SPACE_ID
    modifies c, out
    ensures c.Valid()
    ensures var h := Handle(old(c.State()), out.message);
      c.State() == h.link && after == h.after && out.State() == NotifyAll(old(out.State()), h.answers)
  {
    ghost var l := c.State();
    ghost var h0 := out.State();
    var alarm := FindAlarm(c.alarms);
    if alarm.Some? {
      out.Error(Alarm(alarm.value, c.alarms[alarm.value]));
    }
    assert out.State() == NotifyAll(h0, AlarmAnswers(l.alarms));
    ghost var h1 := out.State();
    after := RunSendLoop(c, out);
    NotifyAllConcat(h0, AlarmAnswers(l.alarms), SendLoop(l, out.message).answers);
  }

  lemma {:induction false} NotifyAllConcat(h: Handle, a: seq<Answer>, b: seq<Answer>)
    ensures NotifyAll(h, a + b) == NotifyAll(NotifyAll(h, a), b)
    decreases |a|
  {
    if a == [] {
      assert a + b == b;
    } else {
      assert (a + b)[1..] == a[1..] + b;
      NotifyAllConcat(Notify(h, a[0]), a[1..], b);
    }
  }

  /** The inner `for` loop. */
  method RunSendLoop(c: Connector, out: OutMessage) returns (after: After)
    requires c.Valid() && c.leftSpaceId == LEFT_SPACE_ID
    modifies c, out
    ensures c.Valid()
    ensures var h := SendLoop(old(c.State()), out.message);
      c.State() == h.link && after == h.after && out.State() == NotifyAll(old(out.State()), h.answers)
  {
    var m := out.message;
    while true
      invariant c.Valid() && c.leftSpaceId == LEFT_SPACE_ID
      invariant SendLoop(old(c.State()), m) == SendLoop(c.State(), m)
      invariant out.State() == old(out.State())
      decreases Measure(c.State()), Gate(c.State(), m)
    {
      if !m.isQueued || c.leftSpace > 0 {
        var o := c.SendMessage(m);
        match o
        case WriteError =>
          out.Error(WriteFailed);
          assert NotifyAll(old(out.State()), [Error(WriteFailed)]) == out.State();
          return Stop;
        case Acked(ack) =>
          if m.isQueued {
            c.leftSpace := Decrement(c.leftSpace);
          }
          out.Reply(ack);
          assert NotifyAll(old(out.State()), [Reply(ack)]) == out.State();
          return Continue;
        case NoAck =>
          out.Error(TimedOut);
          assert NotifyAll(old(out.State()), [Error(TimedOut)]) == out.State();
          return Continue;
      }
      ghost var before := c.State();
      var q := c.SendMessage(Query(c.leftSpaceId));
      ExchangeKeeps(before, Query(LEFT_SPACE_ID), LEFT_SPACE_ID, MAX_RETRIES);
      match q
      case WriteError =>
        out.Error(WriteFailed);
        assert NotifyAll(old(out.State()), [Error(WriteFailed)]) == out.State();
        return Stop;
      case Acked(ack) =>
        c.leftSpace := LeUint32(ack.params);
        if c.leftSpace == 0 {
          out.Error(LeftSpaceZero);
          assert NotifyAll(old(out.State()), [Error(LeftSpaceZero)]) == out.State();
          return Continue;
        }
      case NoAck =>
        if Measure(c.State()) == 0 {
          return Hang;
        }
    }
  }

  // ---------------------------------------------------------------------
  // Properties
  // ---------------------------------------------------------------------

  /**
   * A raised alarm is reported first, as "alarm: i-v" for the first nonzero
   * byte, and the message still goes through the send loop afterwards.
   */
  lemma AlarmThenSend(l: Link, m: Message)
    requires InboundWellFormed(l.inbound)
    requires FirstAlarm(l.alarms).Some?
    ensures var i := FirstAlarm(l.alarms).value;
      var h := Handle(l, m);
      && h.answers == [Error(Alarm(i, l.alarms[i]))] + SendLoop(l, m).answers
      && h.link == SendLoop(l, m).link
  {
  }

  /** So with an alarm raised and the device answering, the message is written and the reply delivered too. */
  lemma AlarmedMessageStillSent(l: Link, m: Message)
    requires InboundWellFormed(l.inbound) && l.writeFails == []
    requires FirstAlarm(l.alarms).Some? && !m.isQueued
    requires l.inbound != [] && Matches(l.inbound[0], m.id)
    ensures var i := FirstAlarm(l.alarms).value;
      && Handle(l, m).answers == [Error(Alarm(i, l.alarms[i])), Reply(l.inbound[0].msg)]
      && Handle(l, m).link.sent == l.sent + Encode(m)
  {
    ReplyAtOnce(l, m, LEFT_SPACE_ID, MAX_RETRIES);
  }

  /** Non-queued messages leave `leftSpace` as it was, whatever happens (unless they are the query itself). */
  lemma NonQueuedKeepsCounter(l: Link, m: Message)
    requires InboundWellFormed(l.inbound)
    requires !m.isQueued && m.id != LEFT_SPACE_ID
    ensures Handle(l, m).link.leftSpace == l.leftSpace
  {
    ExchangeKeeps(l, m, LEFT_SPACE_ID, MAX_RETRIES);
  }

  /** A reply to a queued message sent with room left takes one off, with no wrap-around. */
  lemma QueuedReplyDecrements(l: Link, m: Message)
    requires InboundWellFormed(l.inbound)
    requires m.isQueued && l.leftSpace > 0 && m.id != LEFT_SPACE_ID
    ensures var h := SendLoop(l, m);
      h.answers != [] && h.answers[0].Reply? ==> h.link.leftSpace == l.leftSpace - 1
  {
    ExchangeKeeps(l, m, LEFT_SPACE_ID, MAX_RETRIES);
  }

  /** A reported room of 0 produces `ErrLeftSpace`, and the message is not written. */
  lemma ReportedZeroRefuses(l: Link, m: Message)
    requires InboundWellFormed(l.inbound) && l.writeFails == []
    requires m.isQueued && l.leftSpace == 0
    requires l.inbound != [] && Matches(l.inbound[0], LEFT_SPACE_ID) && LeUint32(l.inbound[0].msg.params) == 0
    ensures SendLoop(l, m) == Handled(l.(sent := l.sent + Encode(Query(LEFT_SPACE_ID)), inbound := l.inbound[1..]), [Error(LeftSpaceZero)], Continue)
  {
    ReplyAtOnce(l, Query(LEFT_SPACE_ID), LEFT_SPACE_ID, MAX_RETRIES);
  }

  /** A reported room above 0 leads to the send on the next pass of the loop. */
  lemma ReportedRoomSends(l: Link, m: Message)
    requires InboundWellFormed(l.inbound) && l.writeFails == []
    requires m.isQueued && l.leftSpace == 0
    requires l.inbound != [] && Matches(l.inbound[0], LEFT_SPACE_ID) && LeUint32(l.inbound[0].msg.params) > 0
    ensures var next := l.(sent := l.sent + Encode(Query(LEFT_SPACE_ID)), inbound := l.inbound[1..],
                           leftSpace := LeUint32(l.inbound[0].msg.params));
      Gate(next, m) == 0 && SendLoop(l, m) == SendLoop(next, m)
  {
    ReplyAtOnce(l, Query(LEFT_SPACE_ID), LEFT_SPACE_ID, MAX_RETRIES);
  }

  /** Three timeouts in a row: the query is sent three times and the loop asks again. */
  lemma TimeoutsRepeatQuery(l: Link, m: Message, rest: seq<Event>)
    requires InboundWellFormed(rest) && l.writeFails == []
    requires m.isQueued && l.leftSpace == 0
    requires l.inbound == [Timeout, Timeout, Timeout] + rest && rest != []
    ensures var q := Encode(Query(LEFT_SPACE_ID));
      SendLoop(l, m) == SendLoop(l.(sent := l.sent + q + q + q, inbound := rest), m)
  {
    assert InboundWellFormed(l.inbound) by {
      forall k | 0 <= k < |l.inbound| && l.inbound[k].Arrive?
        ensures Decoder.WellFormed(l.inbound[k].msg)
      {
        assert l.inbound[k] == rest[k - 3];
      }
    }
    QueryTimesOutThrice(l, rest);
    assert Measure(l.(sent := l.sent, inbound := rest)) > 0;
  }

  /** The three tries of the left-space query all meet a timeout. */
  lemma QueryTimesOutThrice(l: Link, rest: seq<Event>)
    requires InboundWellFormed(l.inbound) && l.writeFails == []
    requires l.inbound == [Timeout, Timeout, Timeout] + rest
    ensures var q := Encode(Query(LEFT_SPACE_ID));
      Exchange(l, Query(LEFT_SPACE_ID), LEFT_SPACE_ID, MAX_RETRIES) == Exchanged(l.(sent := l.sent + q + q + q, inbound := rest), NoAck)
  {
    var q := Query(LEFT_SPACE_ID);
    var l1 := l.(sent := l.sent + Encode(q), inbound := l.inbound[1..]);
    var l2 := l1.(sent := l1.sent + Encode(q), inbound := l1.inbound[1..]);
    var l3 := l2.(sent := l2.sent + Encode(q), inbound := l2.inbound[1..]);
    AttemptTimesOut(l, q);
    AttemptTimesOut(l1, q);
    AttemptTimesOut(l2, q);
    assert l3.inbound == rest;
    assert Exchange(l3, q, LEFT_SPACE_ID, 0) == Exchanged(l3, NoAck);
    assert Exchange(l2, q, LEFT_SPACE_ID, 1) == Exchanged(l3, NoAck);
    assert Exchange(l1, q, LEFT_SPACE_ID, 2) == Exchanged(l3, NoAck);
  }

  /** With writes succeeding, a timeout next in line makes the attempt miss. */
  lemma AttemptTimesOut(l: Link, m: Message)
    requires InboundWellFormed(l.inbound) && l.writeFails == []
    requires l.inbound != [] && l.inbound[0] == Timeout
    ensures Attempt(l, m) == Missed(l.(sent := l.sent + Encode(m), inbound := l.inbound[1..]))
  {
    AttemptReads(l, m);
    AttemptWrites(l, m);
    assert NoFailures(l.writeFails);
  }

  /** With nothing more to come from the device, the loop never ends and the caller never hears back. */
  lemma SilentDeviceHangs(l: Link, m: Message)
    requires InboundWellFormed(l.inbound) && l.writeFails == [] && l.inbound == []
    requires m.isQueued && l.leftSpace == 0
    ensures SendLoop(l, m).after == Hang && SendLoop(l, m).answers == []
  {
    ExchangeIsFirstMatch(l, Query(LEFT_SPACE_ID), LEFT_SPACE_ID, MAX_RETRIES);
    WriteErrorNeedsFailure(l, Query(LEFT_SPACE_ID), LEFT_SPACE_ID, MAX_RETRIES);
    ExchangeKeeps(l, Query(LEFT_SPACE_ID), LEFT_SPACE_ID, MAX_RETRIES);
  }

  /** The send loop answers at most once, and stops the routine exactly on a write error. */
  lemma {:induction false} SendLoopAnswers(l: Link, m: Message)
    requires InboundWellFormed(l.inbound)
    ensures var h := SendLoop(l, m);
      && |h.answers| <= 1
      && (h.after == Stop <==> h.answers == [Error(WriteFailed)])
      && (h.after == Hang ==> h.answers == [])
    decreases Measure(l), Gate(l, m)
  {
    if m.isQueued && l.leftSpace == 0 {
      var q := Exchange(l, Query(LEFT_SPACE_ID), LEFT_SPACE_ID, MAX_RETRIES);
      ExchangeKeeps(l, Query(LEFT_SPACE_ID), LEFT_SPACE_ID, MAX_RETRIES);
      if q.outcome.Acked? {
        var refreshed := q.link.(leftSpace := LeUint32(q.outcome.ack.params));
        if refreshed.leftSpace != 0 {
          SendLoopAnswers(refreshed, m);
        }
      } else if q.outcome.NoAck? && Measure(q.link) != 0 {
        SendLoopAnswers(q.link, m);
      }
    }
  }

  /** A tick replaces `Alarms` with the data of the reply. */
  lemma TickReplacesAlarms(l: Link)
    requires InboundWellFormed(l.inbound) && l.writeFails == []
    requires l.inbound != [] && Matches(l.inbound[0], ALARMS_STATE_ID)
    ensures Tick(l).link.alarms == Data(l.inbound[0].msg) && Tick(l).after == Continue
  {
    ReplyAtOnce(l, AlarmsQuery(), LEFT_SPACE_ID, MAX_RETRIES);
  }

  /** A tick that gets no reply leaves `Alarms` as it was; a write error stops the routine. */
  lemma TickWithoutReply(l: Link)
    requires InboundWellFormed(l.inbound)
    ensures var t := Tick(l);
      var r := Exchange(l, AlarmsQuery(), LEFT_SPACE_ID, MAX_RETRIES);
      && (r.outcome.NoAck? ==> t.link.alarms == l.alarms && t.after == Continue)
      && (r.outcome.WriteError? ==> t.link.alarms == l.alarms && t.after == Stop)
  {
    ExchangeKeeps(l, AlarmsQuery(), LEFT_SPACE_ID, MAX_RETRIES);
  }
}
