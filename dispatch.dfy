/**
 * `writeMessage` and `sendMessage`, which both Go copies share (connector.go and
 * internal/connector.go), and the `outMessage` handle through which the
 * processing goroutine answers a caller.
 *
 * The port is a script of write outcomes plus the bytes it has accepted so
 * far; the reader goroutine is a script of what one wait in `sendMessage`
 * sees (a decoded message, or the 3-second timer). Calls past the end of a
 * script succeed (writes) or time out (waits).
 */
module Dispatch {
  import opened Bytes
  import opened Frame
  import opened Wrappers
  import Decoder

  /** `maxRetries` in `sendMessage`. */
  const MAX_RETRIES: nat := 3

  /** What one wait in `sendMessage` sees. */
  datatype Event = Arrive(msg: Message) | Timeout

  predicate Matches(e: Event, id: uint8)
  {
    e.Arrive? && e.msg.id == id
  }

  /** Messages reach `sendMessage` from the decoder, so they have its shape. */
  predicate InboundWellFormed(inbound: seq<Event>)
  {
    forall k :: 0 <= k < |inbound| && inbound[k].Arrive? ==> Decoder.WellFormed(inbound[k].msg)
  }

  /** No scripted write fails. */
  predicate NoFailures(writeFails: seq<bool>)
  {
    forall k :: 0 <= k < |writeFails| ==> !writeFails[k]
  }

  /**
   * The connector as these routines see it. `writeFails` scripts successive
   * `port.Write` calls (true for an error), `sent` is what the port accepted,
   * `inbound` scripts successive waits; `leftSpace` and `alarms` are the
   * connector's fields (package godobot has no `Alarms` and leaves it alone).
   */
  datatype Link = Link(writeFails: seq<bool>, sent: seq<uint8>, inbound: seq<Event>, leftSpace: uint32, alarms: seq<uint8>)

  /** How many scripted steps are left; every wait or write consumes one when there is one. */
  function Measure(l: Link): nat
  {
    |l.inbound| + |l.writeFails|
  }

  datatype Written = Written(link: Link, ok: bool)

  /** One `port.Write` call. */
  function WriteChunk(l: Link, chunk: seq<uint8>): (w: Written)
    ensures w.link.inbound == l.inbound && w.link.leftSpace == l.leftSpace && w.link.alarms == l.alarms
    ensures w.ok <==> (l.writeFails == [] || !l.writeFails[0])
    ensures w.link.sent == if w.ok then l.sent + chunk else l.sent
    ensures w.link.writeFails == if l.writeFails == [] then [] else l.writeFails[1..]
  {
    if l.writeFails == [] then Written(l.(sent := l.sent + chunk), true)
    else if l.writeFails[0] then Written(l.(writeFails := l.writeFails[1..]), false)
    else Written(l.(writeFails := l.writeFails[1..], sent := l.sent + chunk), true)
  }

  /** Successive writes, stopping at the first error. */
  function WriteAll(l: Link, cs: seq<seq<uint8>>): (w: Written)
    ensures w.link.inbound == l.inbound && w.link.leftSpace == l.leftSpace && w.link.alarms == l.alarms
    ensures |w.link.writeFails| <= |l.writeFails|
    ensures cs != [] && l.writeFails != [] ==> |w.link.writeFails| < |l.writeFails|
    ensures w.ok ==> w.link.sent == l.sent + Flatten(cs)
    decreases |cs|
  {
    if cs == [] then
      assert l.sent + [] == l.sent;
      Written(l, true)
    else
      var w := WriteChunk(l, cs[0]);
      if !w.ok then w
      else
        var r := WriteAll(w.link, cs[1..]);
        assert l.sent + Flatten(cs) == (l.sent + cs[0]) + Flatten(cs[1..]);
        r
  }

  /** `writeMessage`: the four chunks of the frame. */
  function WriteFrame(l: Link, m: Message): (w: Written)
    ensures w.link.inbound == l.inbound && w.link.leftSpace == l.leftSpace && w.link.alarms == l.alarms
    ensures |w.link.writeFails| <= |l.writeFails|
    ensures l.writeFails != [] ==> |w.link.writeFails| < |l.writeFails|
    ensures w.ok ==> w.link.sent == l.sent + Encode(m)
  {
    ChunksMakeFrame(m);
    WriteAll(l, Chunks(m))
  }

  /** A write only appends, and never more than the chunks hold. */
  lemma {:induction false} WriteAllAppends(l: Link, cs: seq<seq<uint8>>)
    ensures var w := WriteAll(l, cs);
      l.sent <= w.link.sent && |w.link.sent| <= |l.sent| + |Flatten(cs)|
    decreases |cs|
  {
    if cs != [] {
      var w := WriteChunk(l, cs[0]);
      if w.ok {
        WriteAllAppends(w.link, cs[1..]);
      }
    }
  }

  /** With no scripted failure, every write succeeds and none is left to come. */
  lemma {:induction false} WriteAllNoFailures(l: Link, cs: seq<seq<uint8>>)
    ensures NoFailures(l.writeFails) ==> WriteAll(l, cs).ok && NoFailures(WriteAll(l, cs).link.writeFails)
    decreases |cs|
  {
    if cs != [] && NoFailures(l.writeFails) {
      WriteAllNoFailures(WriteChunk(l, cs[0]).link, cs[1..]);
    }
  }

  /** How one attempt of `sendMessage` ends: a write error, the awaited ack, or neither. */
  datatype Attempted = Broken(link: Link) | Got(link: Link, ack: Message) | Missed(link: Link)

  /**
   * One attempt of `sendMessage`: write the frame, then wait once. A message
   * with another id is dropped; an exhausted script is the timer firing.
   */
  function Attempt(l: Link, m: Message): (a: Attempted)
    requires InboundWellFormed(l.inbound)
    ensures InboundWellFormed(a.link.inbound)
    ensures a.Got? ==> a.ack.id == m.id && Decoder.WellFormed(a.ack)
  {
    var w := WriteFrame(l, m);
    if !w.ok then Broken(w.link)
    else if w.link.inbound == [] then Missed(w.link)
    else
      var next := w.link.(inbound := w.link.inbound[1..]);
      match w.link.inbound[0]
      case Timeout => Missed(next)
      case Arrive(ack) =>
        assert Decoder.WellFormed(w.link.inbound[0].msg);
        if ack.id == m.id then Got(next, ack) else Missed(next)
  }

  /** What an attempt reads: nothing after a write error, otherwise one scripted wait. */
  lemma AttemptReads(l: Link, m: Message)
    requires InboundWellFormed(l.inbound)
    ensures var a := Attempt(l, m);
      && a.link.alarms == l.alarms && a.link.leftSpace == l.leftSpace
      && (a.Broken? ==> a.link.inbound == l.inbound)
      && (a.Got? ==> l.inbound != [] && l.inbound[0] == Arrive(a.ack) && a.link.inbound == l.inbound[1..])
      && (a.Missed? ==> l.inbound == [] || !Matches(l.inbound[0], m.id))
      && (a.Missed? ==> a.link.inbound == if l.inbound == [] then [] else l.inbound[1..])
      && Measure(a.link) <= Measure(l)
      && (Measure(l) > 0 ==> Measure(a.link) < Measure(l))
  {
    var w := WriteFrame(l, m);
    WriteAllNoFailures(l, Chunks(m));
    if w.ok && w.link.inbound != [] {
      assert |w.link.inbound[1..]| < |l.inbound|;
    }
  }

  /** What an attempt writes: the whole frame unless a write fails, and nothing else. */
  lemma AttemptWrites(l: Link, m: Message)
    requires InboundWellFormed(l.inbound)
    ensures var a := Attempt(l, m);
      && a.link.writeFails == WriteFrame(l, m).link.writeFails
      && (a.Broken? <==> !WriteFrame(l, m).ok)
      && (!a.Broken? ==> a.link.sent == l.sent + Encode(m))
      && l.sent <= a.link.sent && |a.link.sent| <= |l.sent| + |Encode(m)|
      && (NoFailures(l.writeFails) ==> !a.Broken? && NoFailures(a.link.writeFails))
  {
    ChunksMakeFrame(m);
    WriteAllNoFailures(l, Chunks(m));
    WriteAllAppends(l, Chunks(m));
  }

  /** What `sendMessage` returns: `(nil, err)`, `(ack, nil)` or `(nil, nil)`. */
  datatype Outcome = WriteError | Acked(ack: Message) | NoAck

  datatype Exchanged = Exchanged(link: Link, outcome: Outcome)

  /**
   * `sendMessage` with `tries` attempts left. An accepted reply to the
   * left-space query also refreshes the cached `leftSpace`.
   */
  function Exchange(l: Link, m: Message, leftSpaceId: uint8, tries: nat): (r: Exchanged)
    requires InboundWellFormed(l.inbound)
    ensures InboundWellFormed(r.link.inbound)
    ensures r.outcome.Acked? ==> r.outcome.ack.id == m.id && Decoder.WellFormed(r.outcome.ack)
    decreases tries
  {
    if tries == 0 then Exchanged(l, NoAck)
    else
      match Attempt(l, m)
      case Broken(next) => Exchanged(next, WriteError)
      case Got(next, ack) =>
        Exchanged(if ack.id == leftSpaceId then next.(leftSpace := LeUint32(ack.params)) else next, Acked(ack))
      case Missed(next) => Exchange(next, m, leftSpaceId, tries - 1)
  }

  /** One round of `sendMessage`'s loop, told by what its attempt met. */
  lemma ExchangeStep(l: Link, m: Message, leftSpaceId: uint8, tries: nat)
    requires InboundWellFormed(l.inbound) && tries > 0
    ensures var r := Exchange(l, m, leftSpaceId, tries);
      match Attempt(l, m)
      case Broken(next) => r == Exchanged(next, WriteError)
      case Got(next, ack) =>
        r == Exchanged(if ack.id == leftSpaceId then next.(leftSpace := LeUint32(ack.params)) else next, Acked(ack))
      case Missed(next) => r == Exchange(next, m, leftSpaceId, tries - 1)
  {
  }

  /**
   * `sendMessage` leaves `Alarms` alone, changes `leftSpace` only to cache an
   * accepted left-space reply, and consumes the scripts.
   */
  lemma {:induction false} ExchangeKeeps(l: Link, m: Message, leftSpaceId: uint8, tries: nat)
    requires InboundWellFormed(l.inbound)
    ensures var r := Exchange(l, m, leftSpaceId, tries);
      && r.link.alarms == l.alarms
      && (r.outcome.Acked? && m.id == leftSpaceId ==> r.link.leftSpace == LeUint32(r.outcome.ack.params))
      && (!(r.outcome.Acked? && m.id == leftSpaceId) ==> r.link.leftSpace == l.leftSpace)
      && Measure(r.link) <= Measure(l)
      && (tries > 0 && Measure(l) > 0 ==> Measure(r.link) < Measure(l))
    decreases tries
  {
    if tries > 0 {
      var a := Attempt(l, m);
      AttemptReads(l, m);
      if a.Missed? {
        assert Exchange(l, m, leftSpaceId, tries) == Exchange(a.link, m, leftSpaceId, tries - 1);
        ExchangeKeeps(a.link, m, leftSpaceId, tries - 1);
      }
    }
  }

  // ---------------------------------------------------------------------
  // Properties of sendMessage
  // ---------------------------------------------------------------------

  /**
   * Reference for the matching rule: the index of the first of the next
   * `limit` waits that delivers a message with the wanted id.
   */
  function FirstMatch(inbound: seq<Event>, id: uint8, limit: nat): (r: Option<nat>)
    ensures r.Some? ==> r.value < limit && r.value < |inbound| && Matches(inbound[r.value], id)
    ensures r.Some? ==> forall k :: 0 <= k < r.value ==> !Matches(inbound[k], id)
    ensures r.None? ==> forall k :: 0 <= k < limit && k < |inbound| ==> !Matches(inbound[k], id)
    decreases limit
  {
    if limit == 0 || inbound == [] then None
    else if Matches(inbound[0], id) then Some(0)
    else match FirstMatch(inbound[1..], id, limit - 1)
      case None => None
      case Some(j) => Some(j + 1)
  }

  /**
   * An accepted ack is the first message in the next `tries` waits whose id is
   * the request's; earlier ones, of other ids, were dropped.
   */
  lemma {:induction false} AckIsFirstMatch(l: Link, m: Message, leftSpaceId: uint8, tries: nat)
    requires InboundWellFormed(l.inbound)
    ensures var r := Exchange(l, m, leftSpaceId, tries);
      r.outcome.Acked? ==>
        FirstMatch(l.inbound, m.id, tries).Some? && l.inbound[FirstMatch(l.inbound, m.id, tries).value] == Arrive(r.outcome.ack)
    decreases tries
  {
    if tries > 0 {
      var a := Attempt(l, m);
      AttemptReads(l, m);
      ExchangeStep(l, m, leftSpaceId, tries);
      if a.Missed? {
        AckIsFirstMatch(a.link, m, leftSpaceId, tries - 1);
        var r := Exchange(a.link, m, leftSpaceId, tries - 1);
        if l.inbound != [] && r.outcome.Acked? {
          FirstMatchTail(l.inbound, m.id, tries);
          var j := FirstMatch(l.inbound[1..], m.id, tries - 1).value;
          assert l.inbound[j + 1] == Arrive(r.outcome.ack);
        }
      } else if a.Got? {
        assert FirstMatch(l.inbound, m.id, tries) == Some(0);
      }
    }
  }

  /**
   * With no write error, `sendMessage` returns exactly what the reference
   * rule picks: the first matching message of the next `tries` waits, or
   * `(nil, nil)` when there is none.
   */
  lemma {:induction false} ExchangeIsFirstMatch(l: Link, m: Message, leftSpaceId: uint8, tries: nat)
    requires InboundWellFormed(l.inbound) && NoFailures(l.writeFails)
    ensures var r := Exchange(l, m, leftSpaceId, tries);
      match FirstMatch(l.inbound, m.id, tries)
      case None => r.outcome == NoAck && r.link.leftSpace == l.leftSpace
      case Some(j) => r.outcome == Acked(l.inbound[j].msg)
    decreases tries
  {
    if tries > 0 {
      ExchangeUnfolds(l, m, leftSpaceId, tries);
      if l.inbound != [] && Matches(l.inbound[0], m.id) {
        assert FirstMatch(l.inbound, m.id, tries) == Some(0);
      } else {
        ExchangeIsFirstMatch(Attempt(l, m).link, m, leftSpaceId, tries - 1);
        if l.inbound != [] {
          FirstMatchTail(l.inbound, m.id, tries);
        }
      }
    }
  }

  /** Past a head that does not match, the reference rule looks one place further on. */
  lemma FirstMatchTail(inbound: seq<Event>, id: uint8, limit: nat)
    requires inbound != [] && limit > 0 && !Matches(inbound[0], id)
    ensures match FirstMatch(inbound[1..], id, limit - 1)
      case None => FirstMatch(inbound, id, limit) == None
      case Some(j) => FirstMatch(inbound, id, limit) == Some(j + 1) && inbound[j + 1] == inbound[1..][j]
  {
  }

  /** One attempt with a working port: the head of the script either answers or is dropped. */
  lemma ExchangeUnfolds(l: Link, m: Message, leftSpaceId: uint8, tries: nat)
    requires InboundWellFormed(l.inbound) && NoFailures(l.writeFails) && tries > 0
    ensures var a := Attempt(l, m);
      if l.inbound != [] && Matches(l.inbound[0], m.id) then
        Exchange(l, m, leftSpaceId, tries).outcome == Acked(l.inbound[0].msg)
      else
        && a.Missed?
        && Exchange(l, m, leftSpaceId, tries) == Exchange(a.link, m, leftSpaceId, tries - 1)
        && a.link.inbound == (if l.inbound == [] then [] else l.inbound[1..])
        && a.link.leftSpace == l.leftSpace
        && NoFailures(a.link.writeFails)
  {
    AttemptReads(l, m);
    AttemptWrites(l, m);
  }

  /** A write error is possible only when the script holds one. */
  lemma {:induction false} WriteErrorNeedsFailure(l: Link, m: Message, leftSpaceId: uint8, tries: nat)
    requires InboundWellFormed(l.inbound) && NoFailures(l.writeFails)
    ensures Exchange(l, m, leftSpaceId, tries).outcome != WriteError
    ensures NoFailures(Exchange(l, m, leftSpaceId, tries).link.writeFails)
    decreases tries
  {
    if tries > 0 {
      var a := Attempt(l, m);
      AttemptWrites(l, m);
      if a.Missed? {
        assert Exchange(l, m, leftSpaceId, tries) == Exchange(a.link, m, leftSpaceId, tries - 1);
        WriteErrorNeedsFailure(a.link, m, leftSpaceId, tries - 1);
      }
    }
  }

  /** A failing first write ends `sendMessage` at once: nothing is read and nothing is sent. */
  lemma FirstWriteFails(l: Link, m: Message, leftSpaceId: uint8, tries: nat)
    requires InboundWellFormed(l.inbound)
    requires tries > 0 && l.writeFails != [] && l.writeFails[0]
    ensures Exchange(l, m, leftSpaceId, tries) == Exchanged(l.(writeFails := l.writeFails[1..]), WriteError)
  {
    assert Chunks(m) != [];
    assert WriteFrame(l, m) == WriteChunk(l, Chunks(m)[0]);
  }

  /** Room for `tries` frames of `m`. */
  function Budget(m: Message, tries: nat): nat
  {
    if tries == 0 then 0 else |Encode(m)| + Budget(m, tries - 1)
  }

  /**
   * `sendMessage` writes at most one frame per attempt, and only appends to
   * what the port already carried.
   */
  lemma {:induction false} WritesAtMostOneFramePerTry(l: Link, m: Message, leftSpaceId: uint8, tries: nat)
    requires InboundWellFormed(l.inbound)
    ensures var r := Exchange(l, m, leftSpaceId, tries);
      l.sent <= r.link.sent && |r.link.sent| <= |l.sent| + Budget(m, tries)
    decreases tries
  {
    if tries > 0 {
      var a := Attempt(l, m);
      AttemptWrites(l, m);
      ExchangeStep(l, m, leftSpaceId, tries);
      if a.Missed? {
        WritesAtMostOneFramePerTry(a.link, m, leftSpaceId, tries - 1);
      }
    }
  }

  /** `sendMessage` writes at most three frames. */
  lemma WritesAtMostThreeFrames(l: Link, m: Message, leftSpaceId: uint8)
    requires InboundWellFormed(l.inbound)
    ensures var r := Exchange(l, m, leftSpaceId, MAX_RETRIES);
      l.sent <= r.link.sent && |r.link.sent| <= |l.sent| + 3 * |Encode(m)|
  {
    WritesAtMostOneFramePerTry(l, m, leftSpaceId, MAX_RETRIES);
    assert Budget(m, 1) == |Encode(m)| by {
      assert Budget(m, 0) == 0;
    }
    assert Budget(m, 2) == 2 * |Encode(m)|;
    assert Budget(m, 3) == 3 * |Encode(m)|;
  }

  /** With no write error, the request's frame is the first thing `sendMessage` writes. */
  lemma FirstFrameWritten(l: Link, m: Message, leftSpaceId: uint8, tries: nat)
    requires InboundWellFormed(l.inbound) && NoFailures(l.writeFails) && tries > 0
    ensures l.sent + Encode(m) <= Exchange(l, m, leftSpaceId, tries).link.sent
  {
    var a := Attempt(l, m);
    AttemptWrites(l, m);
    assert a.link.sent == l.sent + Encode(m);
    var r := Exchange(l, m, leftSpaceId, tries);
    if a.Missed? {
      assert r == Exchange(a.link, m, leftSpaceId, tries - 1);
      WritesAtMostOneFramePerTry(a.link, m, leftSpaceId, tries - 1);
    } else {
      assert r.link.sent == a.link.sent;
    }
  }

  /**
   * With every write succeeding and the awaited reply next in line, one
   * attempt suffices: one frame goes out and one message is consumed.
   */
  lemma ReplyAtOnce(l: Link, m: Message, leftSpaceId: uint8, tries: nat)
    requires InboundWellFormed(l.inbound) && l.writeFails == [] && tries > 0
    requires l.inbound != [] && Matches(l.inbound[0], m.id)
    ensures var ack := l.inbound[0].msg;
      var next := l.(sent := l.sent + Encode(m), inbound := l.inbound[1..]);
      Exchange(l, m, leftSpaceId, tries)
        == Exchanged(if m.id == leftSpaceId then next.(leftSpace := LeUint32(ack.params)) else next, Acked(ack))
  {
    var a := Attempt(l, m);
    assert NoFailures(l.writeFails);
    AttemptReads(l, m);
    AttemptWrites(l, m);
    assert a.link.writeFails == [];
  }

  /** Whether writes succeed depends only on the script and the number of chunks. */
  lemma {:induction false} WritesDependOnScript(l1: Link, l2: Link, a: seq<seq<uint8>>, b: seq<seq<uint8>>)
    requires |a| == |b| && l1.writeFails == l2.writeFails
    ensures WriteAll(l1, a).ok == WriteAll(l2, b).ok
    ensures WriteAll(l1, a).link.writeFails == WriteAll(l2, b).link.writeFails
    decreases |a|
  {
    if a != [] {
      WritesDependOnScript(WriteChunk(l1, a[0]).link, WriteChunk(l2, b[0]).link, a[1..], b[1..]);
    }
  }

  /** One attempt sees the same thing for two requests with the same id. */
  lemma AttemptOnlyId(l1: Link, l2: Link, m1: Message, m2: Message)
    requires InboundWellFormed(l1.inbound)
    requires l1.writeFails == l2.writeFails && l1.inbound == l2.inbound && l1.leftSpace == l2.leftSpace
    requires m1.id == m2.id
    ensures var a1 := Attempt(l1, m1);
      var a2 := Attempt(l2, m2);
      && (a1.Broken? <==> a2.Broken?) && (a1.Got? <==> a2.Got?)
      && (a1.Got? ==> a1.ack == a2.ack)
      && a1.link.writeFails == a2.link.writeFails && a1.link.inbound == a2.link.inbound
      && a1.link.leftSpace == a2.link.leftSpace
  {
    ChunksMakeFrame(m1);
    ChunksMakeFrame(m2);
    WritesDependOnScript(l1, l2, Chunks(m1), Chunks(m2));
  }

  /**
   * Only the id of the request is compared: two requests with the same id see
   * the same outcome from the same scripts, whatever their flags, parameters
   * or the bytes already sent.
   */
  lemma {:induction false} OnlyIdIsCompared(l1: Link, l2: Link, m1: Message, m2: Message, leftSpaceId: uint8, tries: nat)
    requires InboundWellFormed(l1.inbound)
    requires l1.writeFails == l2.writeFails && l1.inbound == l2.inbound && l1.leftSpace == l2.leftSpace
    requires m1.id == m2.id
    ensures var r1 := Exchange(l1, m1, leftSpaceId, tries);
      var r2 := Exchange(l2, m2, leftSpaceId, tries);
      r1.outcome == r2.outcome && r1.link.inbound == r2.link.inbound && r1.link.leftSpace == r2.link.leftSpace
      && r1.link.writeFails == r2.link.writeFails
    decreases tries
  {
    if tries > 0 {
      AttemptOnlyId(l1, l2, m1, m2);
      ExchangeStep(l1, m1, leftSpaceId, tries);
      ExchangeStep(l2, m2, leftSpaceId, tries);
      var a1 := Attempt(l1, m1);
      var a2 := Attempt(l2, m2);
      if a1.Missed? {
        assert a2.Missed?;
        OnlyIdIsCompared(a1.link, a2.link, m1, m2, leftSpaceId, tries - 1);
      } else if a1.Got? {
        assert a2.Got? && a1.ack == a2.ack;
      } else {
        assert a2.Broken?;
      }
    }
  }

  /** The read/write flag takes no part in matching: flipping it changes only the bytes written. */
  lemma RwIsNotCompared(l: Link, m: Message, leftSpaceId: uint8)
    requires InboundWellFormed(l.inbound)
    ensures var r1 := Exchange(l, m, leftSpaceId, MAX_RETRIES);
      var r2 := Exchange(l, m.(rw := !m.rw), leftSpaceId, MAX_RETRIES);
      r1.outcome == r2.outcome && r1.link.inbound == r2.link.inbound && r1.link.leftSpace == r2.link.leftSpace
  {
    OnlyIdIsCompared(l, l, m, m.(rw := !m.rw), leftSpaceId, MAX_RETRIES);
  }

  // ---------------------------------------------------------------------
  // What the processing goroutine tells a caller
  // ---------------------------------------------------------------------

  /** The errors the processing goroutine reports. */
  datatype Failure =
    | WriteFailed                      // the error `writeMessage` returned
    | TimedOut                         // "send message timeout max retries"
    | LeftSpaceZero                    // "left space is 0" / ErrLeftSpace
    | Alarm(index: nat, value: uint8)  // "alarm: i-v"

  /** A `MessageAck`: a reply, or an error with no message. */
  datatype Answer = Reply(ack: Message) | Error(reason: Failure)

  /** What `processGoRoutine` does after handling one message. */
  datatype After = Continue | Stop | Hang

  datatype Handled = Handled(link: Link, answers: seq<Answer>, after: After)

  /** The request both copies send to refresh `leftSpace`. */
  function Query(leftSpaceId: uint8): (q: Message)
    ensures q.id == leftSpaceId && !q.rw && !q.isQueued && q.params == []
  {
    Message(leftSpaceId, false, false, [], 0)
  }

  /** `connector.leftSpace--` on a uint32. */
  function Decrement(x: uint32): (y: uint32)
    ensures x > 0 ==> y == x - 1
    ensures x == 0 ==> y == TWO_TO_32 - 1
  {
    (x - 1) % TWO_TO_32
  }

  // ---------------------------------------------------------------------
  // The connector and the caller's handle
  // ---------------------------------------------------------------------

  class Connector {
    var writeFails: seq<bool>
    var sent: seq<uint8>
    var inbound: seq<Event>
    var leftSpace: uint32
    var alarms: seq<uint8>
    /** `ProtocolQueuedCmdLeftSpace` of the package the connector belongs to. */
    const leftSpaceId: uint8

    function State(): Link
      reads this
    {
      Link(writeFails, sent, inbound, leftSpace, alarms)
    }

    predicate Valid()
      reads this
    {
      InboundWellFormed(inbound)
    }

    /** `Open` with the port replaced by its scripts: `leftSpace` starts at 0. */
    constructor (leftSpaceId: uint8, writeFails: seq<bool>, inbound: seq<Event>)
      requires InboundWellFormed(inbound)
      ensures Valid() && this.leftSpaceId == leftSpaceId
      ensures State() == Link(writeFails, [], inbound, 0, [])
    {
      this.leftSpaceId := leftSpaceId;
      this.writeFails := writeFails;
      this.sent := [];
      this.inbound := inbound;
      this.leftSpace := 0;
      this.alarms := [];
    }

    /** `port.Write`. */
    method Write(chunk: seq<uint8>) returns (ok: bool)
      modifies this
      ensures Written(State(), ok) == WriteChunk(old(State()), chunk)
    {
      if writeFails != [] && writeFails[0] {
        writeFails := writeFails[1..];
        return false;
      }
      if writeFails != [] {
        writeFails := writeFails[1..];
      }
      sent := sent + chunk;
      return true;
    }

    /** `writeMessage`: the checksum loop, then four writes that stop at the first error. */
    method WriteMessage(m: Message) returns (ok: bool)
      modifies this
      ensures Written(State(), ok) == WriteFrame(old(State()), m)
    {
      var checksum := ComputeChecksum(m);
      var cs: seq<seq<uint8>> := Chunks(m);
      ghost var l0 := State();
      assert WriteFrame(l0, m) == WriteAll(l0, cs);
      ok := Write([SYNC_BYTE, SYNC_BYTE, LengthByte(m)]);
      assert Written(State(), ok) == WriteChunk(l0, cs[0]);
      if !ok {
        assert WriteAll(l0, cs) == WriteChunk(l0, cs[0]);
        return;
      }
      ghost var l1 := State();
      assert WriteAll(l0, cs) == WriteAll(l1, cs[1..]);
      ok := Write([m.id, Ctrl(m)]);
      assert Written(State(), ok) == WriteChunk(l1, cs[1..][0]);
      if !ok {
        assert WriteAll(l1, cs[1..]) == WriteChunk(l1, cs[1..][0]);
        return;
      }
      ghost var l2 := State();
      assert cs[1..][1..] == cs[2..];
      assert WriteAll(l1, cs[1..]) == WriteAll(l2, cs[2..]);
      ok := Write(m.params);
      assert Written(State(), ok) == WriteChunk(l2, cs[2..][0]);
      if !ok {
        assert WriteAll(l2, cs[2..]) == WriteChunk(l2, cs[2..][0]);
        return;
      }
      ghost var l3 := State();
      assert cs[2..][1..] == cs[3..];
      assert WriteAll(l2, cs[2..]) == WriteAll(l3, cs[3..]);
      ok := Write([checksum]);
      assert Written(State(), ok) == WriteChunk(l3, cs[3..][0]);
      assert |cs[3..][1..]| == 0;
      assert WriteAll(l3, cs[3..]) == WriteChunk(l3, cs[3..][0]);
    }

    /** One wait on the reader goroutine: the next scripted event, or the timer. */
    method Wait() returns (e: Event)
      requires Valid()
      modifies this
      ensures Valid()
      ensures old(inbound) == [] ==> e == Timeout && State() == old(State())
      ensures old(inbound) != [] ==> e == old(inbound[0]) && State() == old(State()).(inbound := old(inbound[1..]))
    {
      if inbound == [] {
        return Timeout;
      }
      e := inbound[0];
      inbound := inbound[1..];
    }

    /** One pass of the retry loop: write the frame, wait once, keep the message only if its id matches. */
    method AttemptOnce(m: Message) returns (a: Attempted)
      requires Valid()
      modifies this
      ensures Valid()
      ensures a == Attempt(old(State()), m) && State() == a.link
    {
      var ok := WriteMessage(m);
      if !ok {
        return Broken(State());
      }
      var e := Wait();
      if e.Arrive? && e.msg.id == m.id {
        return Got(State(), e.msg);
      }
      return Missed(State());
    }

    /** `sendMessage`. */
    method SendMessage(m: Message) returns (outcome: Outcome)
      requires Valid()
      modifies this
      ensures Valid()
      ensures Exchanged(State(), outcome) == Exchange(old(State()), m, leftSpaceId, MAX_RETRIES)
    {
      var retry := 0;
      while retry < MAX_RETRIES
        invariant 0 <= retry <= MAX_RETRIES
        invariant Valid()
        invariant Exchange(old(State()), m, leftSpaceId, MAX_RETRIES) == Exchange(State(), m, leftSpaceId, MAX_RETRIES - retry)
      {
        ghost var before := State();
        var a := AttemptOnce(m);
        match a
        case Broken(_) =>
          return WriteError;
        case Got(_, ack) =>
          if ack.id == leftSpaceId {
            leftSpace := LeUint32(ack.params);
          }
          return Acked(ack);
        case Missed(_) =>
          assert Exchange(before, m, leftSpaceId, MAX_RETRIES - retry) == Exchange(State(), m, leftSpaceId, MAX_RETRIES - retry - 1);
          retry := retry + 1;
      }
      return NoAck;
    }
  }

  /**
   * The caller's side of an `outMessage`: whether `done` is non-nil, whether it
   * has been closed, what has been sent on it, and whether a send hit the
   * closed channel (a panic in Go).
   */
  datatype Handle = Handle(done: bool, closed: bool, delivered: seq<Answer>, sentOnClosed: bool)

  /** `Reply` and `Error`: send on `done` when it is non-nil. */
  function Notify(h: Handle, a: Answer): (r: Handle)
    ensures !h.done ==> r == h
    ensures h.done && !h.closed ==> r == h.(delivered := h.delivered + [a])
    ensures h.done && h.closed ==> r == h.(sentOnClosed := true)
  {
    if !h.done then h
    else if h.closed then h.(sentOnClosed := true)
    else h.(delivered := h.delivered + [a])
  }

  function NotifyAll(h: Handle, answers: seq<Answer>): Handle
    decreases |answers|
  {
    if answers == [] then h else NotifyAll(Notify(h, answers[0]), answers[1..])
  }

  /** `Close`: closes `done`; in package internal it also sets `done` to nil. */
  function CloseHandle(h: Handle, clearsDone: bool): (r: Handle)
    ensures r.delivered == h.delivered && r.sentOnClosed == h.sentOnClosed
    ensures h.done ==> r.closed && r.done == !clearsDone
    ensures !h.done ==> r == h
  {
    if h.done then h.(closed := true, done := !clearsDone) else h
  }

  /** After the internal `Close`, `Reply` and `Error` do nothing. */
  lemma {:induction false} ClearedCloseSilences(h: Handle, answers: seq<Answer>)
    ensures NotifyAll(CloseHandle(h, true), answers) == CloseHandle(h, true)
    decreases |answers|
  {
    if answers != [] {
      ClearedCloseSilences(h, answers[1..]);
    }
  }

  /** After the godobot `Close`, any further send hits the closed channel. */
  lemma {:induction false} UnclearedCloseExposes(h: Handle, answers: seq<Answer>)
    requires h.done && answers != []
    ensures NotifyAll(CloseHandle(h, false), answers).sentOnClosed
    ensures NotifyAll(CloseHandle(h, false), answers).delivered == h.delivered
  {
    var c := CloseHandle(h, false);
    assert Notify(c, answers[0]) == c.(sentOnClosed := true);
    SendOnClosedStays(c.(sentOnClosed := true), answers[1..]);
  }

  lemma {:induction false} SendOnClosedStays(h: Handle, answers: seq<Answer>)
    requires h.done && h.closed && h.sentOnClosed
    ensures NotifyAll(h, answers) == h
    decreases |answers|
  {
    if answers != [] {
      SendOnClosedStays(h, answers[1..]);
    }
  }

  /** Before any close, every answer reaches the channel in order. */
  lemma {:induction false} OpenHandleDelivers(h: Handle, answers: seq<Answer>)
    requires h.done && !h.closed
    ensures NotifyAll(h, answers) == h.(delivered := h.delivered + answers)
    decreases |answers|
  {
    if answers == [] {
      assert h.delivered + [] == h.delivered;
    } else {
      OpenHandleDelivers(Notify(h, answers[0]), answers[1..]);
      assert h.delivered + answers == (h.delivered + [answers[0]]) + answers[1..];
    }
  }

  /** `outMessage`: the request and its `done` channel. */
  class OutMessage {
    const message: Message
    /** Whether `Close` sets `done` to nil, as the internal copy does. */
    const clearsDone: bool
    var done: bool
    var closed: bool
    var delivered: seq<Answer>
    var sentOnClosed: bool

    function State(): Handle
      reads this
    {
      Handle(done, closed, delivered, sentOnClosed)
    }

    /** `SendMessage` makes the handle with a fresh channel. */
    constructor (message: Message, clearsDone: bool)
      ensures this.message == message && this.clearsDone == clearsDone
      ensures State() == Handle(true, false, [], false)
    {
      this.message := message;
      this.clearsDone := clearsDone;
      done := true;
      closed := false;
      delivered := [];
      sentOnClosed := false;
    }

    method Reply(ack: Message)
      modifies this
      ensures State() == Notify(old(State()), Answer.Reply(ack))
    {
      if done {
        if closed {
          sentOnClosed := true;
        } else {
          delivered := delivered + [Answer.Reply(ack)];
        }
      }
    }

    method Error(reason: Failure)
      modifies this
      ensures State() == Notify(old(State()), Answer.Error(reason))
    {
      if done {
        if closed {
          sentOnClosed := true;
        } else {
          delivered := delivered + [Answer.Error(reason)];
        }
      }
    }

    method Close()
      modifies this
      ensures State() == CloseHandle(old(State()), clearsDone)
    {
      if done {
        closed := true;
        if clearsDone {
          done := false;
        }
      }
    }
  }
}
