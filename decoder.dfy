/**
 * The frame decoder of `receiveGoRoutine` (both Go copies), read as a function
 * from the byte stream to the messages it delivers.
 *
 * The loop reads a byte at a time: it waits for `AA`, then a second `AA`
 * (a different byte restarts the search after it), then the length byte n.
 * A length byte of 0xAA or more is dropped. Otherwise the next n + 1 bytes
 * (id, ctrl, parameters, checksum) must sum to 0 mod 256; if not, three bytes
 * are discarded and the search resumes. A frame that passes becomes a message
 * with a fresh 167-byte parameter buffer whose first n - 2 bytes are filled.
 * The loop ends at the first read that runs past the end of the stream.
 *
 * For n = 0 or 1 the Go code computes `AckLen = n - 2` in a byte, which wraps
 * to 254 or 255, and slicing the 167-byte buffer that far panics. `ScanFrom`
 * takes a flag: with `rejectShort` false it is the code as written (the scan
 * ends in a panic), with it true it is the corrected decoder, which drops such
 * a frame like an over-long one.
 */
module Decoder {
  import opened Bytes
  import opened Frame

  /** The messages delivered, and whether the loop ended in a panic. */
  datatype Scanned = Scanned(msgs: seq<Message>, panicked: bool)

  function Prepend(m: Message, r: Scanned): Scanned
  {
    Scanned([m] + r.msgs, r.panicked)
  }

  /** The message built from a frame carrying `payload` (AckLen = n - 2 >= 0). */
  function Received(id: uint8, ctrl: uint8, payload: seq<uint8>): Message
    requires |payload| <= RECEIVE_PARAMS_SIZE
  {
    SetCtrl(Message(id, false, false, payload + Zeros(RECEIVE_PARAMS_SIZE - |payload|), |payload|), ctrl)
  }

  /** One pass of the receive loop from position i: what it does next. */
  datatype Action = Stop | Panic | Skip(next: nat) | Deliver(msg: Message, next: nat)

  /** The pass of the receive loop that starts at stream position i. */
  function Step(s: seq<uint8>, i: nat, rejectShort: bool): (a: Action)
    ensures (a.Skip? || a.Deliver?) ==> i < a.next <= |s|
    ensures a.Deliver? ==> i + 6 <= a.next
  {
    if i + 1 > |s| then Stop
    else if s[i] != SYNC_BYTE then Skip(i + 1)
    else if i + 2 > |s| then Stop
    else if s[i + 1] != SYNC_BYTE then Skip(i + 2)
    else if i + 3 > |s| then Stop
    else
      var n := s[i + 2];
      if n >= SYNC_BYTE then Skip(i + 3)
      else if i + 4 + n > |s| then Stop
      else if Sum(s[i + 3..i + 4 + n]) % 256 != 0 then
        if i + 6 > |s| then Stop else Skip(i + 6)
      else if n < 2 then
        if rejectShort then Skip(i + 3) else Panic
      else
        Deliver(Received(s[i + 3], s[i + 4], s[i + 5..i + 3 + n]), i + 4 + n)
  }

  /** What the receive loop delivers from stream position i on. */
  function ScanFrom(s: seq<uint8>, i: nat, rejectShort: bool): (r: Scanned)
    ensures i <= |s| ==> 6 * |r.msgs| <= |s| - i
    ensures i > |s| ==> r == Scanned([], false)
    decreases |s| - i
  {
    match Step(s, i, rejectShort)
    case Stop => Scanned([], false)
    case Panic => Scanned([], true)
    case Skip(next) => ScanFrom(s, next, rejectShort)
    case Deliver(msg, next) => Prepend(msg, ScanFrom(s, next, rejectShort))
  }

  /** The receive loop as written. */
  function DecodeAsWritten(s: seq<uint8>): (r: Scanned)
    ensures 6 * |r.msgs| <= |s|
    ensures !r.panicked ==> r.msgs == Decode(s)
  {
    CorrectionAgreesUnlessPanic(s, 0);
    ScanFrom(s, 0, false)
  }

  /** The corrected receive loop. */
  function Decode(s: seq<uint8>): (r: seq<Message>)
    ensures 6 * |r| <= |s|
    ensures forall m :: m in r ==> WellFormed(m)
  {
    ScanWellFormed(s, 0, true);
    ScanFrom(s, 0, true).msgs
  }

  /** What a receiver holds after a frame for `m`: the parameters padded to the buffer size. */
  function Delivered(m: Message): Message
    requires |m.params| <= RECEIVE_PARAMS_SIZE
  {
    Message(m.id, m.rw, m.isQueued, m.params + Zeros(RECEIVE_PARAMS_SIZE - |m.params|), |m.params|)
  }

  /** A received message: a full buffer, zero past the bytes the frame carried. */
  predicate WellFormed(m: Message)
  {
    && |m.params| == RECEIVE_PARAMS_SIZE
    && m.ackLen as int <= RECEIVE_PARAMS_SIZE
    && forall k :: m.ackLen as int <= k < RECEIVE_PARAMS_SIZE ==> m.params[k] == 0
  }

  // ---------------------------------------------------------------------
  // The loop itself
  // ---------------------------------------------------------------------

  /** `reader.Read(message.Params[:AckLen])` into a fresh zeroed buffer. */
  method ReadParams(s: seq<uint8>, start: nat, count: nat) returns (params: seq<uint8>)
    requires start + count <= |s| && count <= RECEIVE_PARAMS_SIZE
    ensures params == s[start..start + count] + Zeros(RECEIVE_PARAMS_SIZE - count)
  {
    var buffer := new uint8[RECEIVE_PARAMS_SIZE](_ => 0);
    var k := 0;
    while k < count
      invariant 0 <= k <= count
      invariant forall j :: 0 <= j < k ==> buffer[j] == s[start + j]
      invariant forall j :: k <= j < RECEIVE_PARAMS_SIZE ==> buffer[j] == 0
    {
      buffer[k] := s[start + k];
      k := k + 1;
    }
    params := buffer[..];
  }

  /** The checksum loop over the peeked bytes `s[from..to]`. */
  method PeekSum(s: seq<uint8>, from: nat, to: nat) returns (checksum: uint8)
    requires from <= to <= |s|
    ensures checksum == Sum(s[from..to]) % 256
  {
    checksum := 0;
    ghost var total: nat := 0;
    var k := from;
    assert s[from..k] == [];
    while k < to
      invariant from <= k <= to
      invariant total == Sum(s[from..k])
      invariant checksum == total % 256
    {
      SumSliceSnoc(s, from, k);
      WrappingAdd(checksum, total, s[k]);
      checksum := (checksum + s[k]) % 256;
      total := total + s[k];
      k := k + 1;
    }
  }

  /**
   * One pass of the loop body of `receiveGoRoutine`: the reads from the
   * sync bytes to the end of one frame, or to the point where it gives up.
   */
  method ReadFrame(s: seq<uint8>, i: nat, rejectShort: bool) returns (a: Action)
    ensures a == Step(s, i, rejectShort)
  {
    if i + 1 > |s| {
      return Stop;
    }
    if s[i] != SYNC_BYTE {
      return Skip(i + 1);
    }
    if i + 2 > |s| {
      return Stop;
    }
    if s[i + 1] != SYNC_BYTE {
      return Skip(i + 2);
    }
    if i + 3 > |s| {
      return Stop;
    }
    var n := s[i + 2];
    if n >= SYNC_BYTE {
      return Skip(i + 3);
    }
    if i + 4 + n > |s| {
      return Stop;
    }
    var checksum := PeekSum(s, i + 3, i + 4 + n);
    if checksum != 0 {
      if i + 6 > |s| {
        return Stop;
      }
      return Skip(i + 6);
    }
    if n < 2 {
      if rejectShort {
        return Skip(i + 3);
      }
      return Panic;
    }
    var params := ReadParams(s, i + 5, n - 2);
    var message := SetCtrl(Message(s[i + 3], false, false, params, n - 2), s[i + 4]);
    return Deliver(message, i + 4 + n);
  }

  /**
   * `receiveGoRoutine` over a finite stream: the messages it sends to the
   * dispatcher, in order, and whether it stopped by panicking.
   */
  method ReceiveAll(s: seq<uint8>, rejectShort: bool) returns (msgs: seq<Message>, panicked: bool)
    ensures Scanned(msgs, panicked) == ScanFrom(s, 0, rejectShort)
  {
    msgs := [];
    panicked := false;
    var i: nat := 0;
    while true
      invariant i <= |s|
      invariant ScanFrom(s, 0, rejectShort) == Scanned(msgs + ScanFrom(s, i, rejectShort).msgs, ScanFrom(s, i, rejectShort).panicked)
      decreases |s| - i
    {
      var a := ReadFrame(s, i, rejectShort);
      match a
      case Stop =>
        assert msgs + [] == msgs;
        return;
      case Panic =>
        assert msgs + [] == msgs;
        panicked := true;
        return;
      case Skip(next) =>
        i := next;
      case Deliver(message, next) =>
        assert msgs + ([message] + ScanFrom(s, next, rejectShort).msgs) == (msgs + [message]) + ScanFrom(s, next, rejectShort).msgs;
        msgs := msgs + [message];
        i := next;
    }
  }

  // ---------------------------------------------------------------------
  // Properties
  // ---------------------------------------------------------------------

  function ShiftAction(a: Action, d: nat): Action
  {
    match a
    case Skip(next) => Skip(next + d)
    case Deliver(msg, next) => Deliver(msg, next + d)
    case _ => a
  }

  /** A slice of `r` is the same slice of `p + r`, shifted by `|p|`. */
  lemma SliceShift(p: seq<uint8>, r: seq<uint8>, lo: nat, hi: nat)
    requires lo <= hi <= |r|
    ensures (p + r)[|p| + lo..|p| + hi] == r[lo..hi]
  {
    var s := p + r;
    forall k | 0 <= k < hi - lo
      ensures s[|p| + lo..|p| + hi][k] == r[lo..hi][k]
    {
      assert s[|p| + lo..|p| + hi][k] == s[|p| + lo + k];
    }
  }

  /** A pass of the loop reads only the bytes from its own position on. */
  lemma StepShift(p: seq<uint8>, r: seq<uint8>, j: nat, f: bool)
    ensures Step(p + r, |p| + j, f) == ShiftAction(Step(r, j, f), |p|)
  {
    var s := p + r;
    var i := |p| + j;
    if j + 3 <= |r| {
      assert s[i] == r[j] && s[i + 1] == r[j + 1] && s[i + 2] == r[j + 2];
      var n := r[j + 2];
      if j + 4 + n <= |r| {
        SliceShift(p, r, j + 3, j + 4 + n);
        if n >= 2 {
          assert s[i + 3] == r[j + 3] && s[i + 4] == r[j + 4];
          SliceShift(p, r, j + 5, j + 3 + n);
        }
      }
    } else if j + 2 <= |r| {
      assert s[i] == r[j] && s[i + 1] == r[j + 1];
    } else if j + 1 <= |r| {
      assert s[i] == r[j];
    }
  }

  /** Decoding depends only on the bytes from the current position on. */
  lemma {:induction false} ScanShift(p: seq<uint8>, r: seq<uint8>, j: nat, f: bool)
    ensures ScanFrom(p + r, |p| + j, f) == ScanFrom(r, j, f)
    decreases |r| - j
  {
    StepShift(p, r, j, f);
    match Step(r, j, f)
    case Skip(next) =>
      assert Step(p + r, |p| + j, f) == Skip(|p| + next);
      ScanShift(p, r, next, f);
    case Deliver(msg, next) =>
      assert Step(p + r, |p| + j, f) == Deliver(msg, |p| + next);
      ScanShift(p, r, next, f);
    case _ =>
  }

  /** One pass of the loop over an encoded frame delivers it and moves past it. */
  lemma FrameStep(m: Message, rest: seq<uint8>, f: bool)
    requires |m.params| <= RECEIVE_PARAMS_SIZE
    ensures Step(Encode(m) + rest, 0, f) == Deliver(Delivered(m), |Encode(m)|)
  {
    var e := Encode(m);
    EncodeLayout(m);
    var s := e + rest;
    var n := |m.params| + 2;
    assert s[0] == SYNC_BYTE && s[1] == SYNC_BYTE && s[2] == n;
    assert s[3..4 + n] == e[3..];
    assert s[3] == m.id && s[4] == Ctrl(m);
    assert s[5..3 + n] == m.params;
    SetCtrlInvertsCtrl(m, Message(m.id, false, false, m.params + Zeros(RECEIVE_PARAMS_SIZE - |m.params|), |m.params|));
    assert Received(s[3], s[4], s[5..3 + n]) == Delivered(m);
  }

  /** A frame produced by the encoder is delivered whole, ahead of whatever follows it. */
  lemma FrameThenRest(m: Message, rest: seq<uint8>, f: bool)
    requires |m.params| <= RECEIVE_PARAMS_SIZE
    ensures ScanFrom(Encode(m) + rest, 0, f) == Prepend(Delivered(m), ScanFrom(rest, 0, f))
  {
    FrameStep(m, rest, f);
    ScanShift(Encode(m), rest, 0, f);
  }

  /**
   * Round trip: the decoder returns the encoded message with its id and flags,
   * AckLen equal to the parameter count, and `Data()` equal to the parameters.
   */
  lemma RoundTrip(m: Message)
    requires |m.params| <= RECEIVE_PARAMS_SIZE
    ensures Decode(Encode(m)) == [Delivered(m)]
    ensures DecodeAsWritten(Encode(m)) == Scanned([Delivered(m)], false)
    ensures Delivered(m).id == m.id && Delivered(m).rw == m.rw && Delivered(m).isQueued == m.isQueued
    ensures Delivered(m).ackLen as int == |m.params| && Data(Delivered(m)) == m.params
  {
    assert Encode(m) + [] == Encode(m);
    FrameThenRest(m, [], true);
    FrameThenRest(m, [], false);
    assert Delivered(m).params[..|m.params|] == m.params;
  }

  /** Frames sent back to back are decoded in order. */
  lemma {:induction false} DecodeAll(ms: seq<Message>)
    requires forall k :: 0 <= k < |ms| ==> |ms[k].params| <= RECEIVE_PARAMS_SIZE
    ensures Decode(EncodeAll(ms)) == DeliveredAll(ms)
  {
    if ms != [] {
      FrameThenRest(ms[0], EncodeAll(ms[1..]), true);
      DecodeAll(ms[1..]);
    }
  }

  function EncodeAll(ms: seq<Message>): seq<uint8>
  {
    if ms == [] then [] else Encode(ms[0]) + EncodeAll(ms[1..])
  }

  function DeliveredAll(ms: seq<Message>): seq<Message>
    requires forall k :: 0 <= k < |ms| ==> |ms[k].params| <= RECEIVE_PARAMS_SIZE
  {
    if ms == [] then [] else [Delivered(ms[0])] + DeliveredAll(ms[1..])
  }

  /** A length byte of 0xAA or more drops the candidate frame after the length byte. */
  lemma LongLengthSkipped(s: seq<uint8>, i: nat, f: bool)
    requires i + 3 <= |s| && s[i] == SYNC_BYTE && s[i + 1] == SYNC_BYTE && s[i + 2] >= SYNC_BYTE
    ensures ScanFrom(s, i, f) == ScanFrom(s, i + 3, f)
  {
  }

  /** A checksum mismatch discards exactly the three bytes after the length byte. */
  lemma ChecksumMismatchSkipsThree(s: seq<uint8>, i: nat, f: bool)
    requires i + 3 <= |s| && s[i] == SYNC_BYTE && s[i + 1] == SYNC_BYTE && s[i + 2] < SYNC_BYTE
    requires i + 4 + s[i + 2] <= |s| && Sum(s[i + 3..i + 4 + s[i + 2]]) % 256 != 0
    ensures ScanFrom(s, i, f) == if i + 6 <= |s| then ScanFrom(s, i + 6, f) else Scanned([], false)
  {
  }

  /** Bytes other than the sync byte ahead of the stream change nothing. */
  lemma JunkPrefixSkipped(junk: seq<uint8>, s: seq<uint8>, f: bool)
    requires forall k :: 0 <= k < |junk| ==> junk[k] != SYNC_BYTE
    ensures ScanFrom(junk + s, 0, f) == ScanFrom(s, 0, f)
  {
    JunkSkippedFrom(junk, s, 0, f);
    ScanShift(junk, s, 0, f);
  }

  lemma {:induction false} JunkSkippedFrom(junk: seq<uint8>, s: seq<uint8>, k: nat, f: bool)
    requires k <= |junk|
    requires forall j :: 0 <= j < |junk| ==> junk[j] != SYNC_BYTE
    ensures ScanFrom(junk + s, k, f) == ScanFrom(junk + s, |junk|, f)
    decreases |junk| - k
  {
    if k < |junk| {
      assert (junk + s)[k] == junk[k];
      JunkSkippedFrom(junk, s, k + 1, f);
    }
  }

  lemma StepWellFormed(s: seq<uint8>, i: nat, f: bool)
    ensures Step(s, i, f).Deliver? ==> WellFormed(Step(s, i, f).msg)
  {
  }

  /** Every delivered message has a full, zero-padded buffer. */
  lemma {:induction false} ScanWellFormed(s: seq<uint8>, i: nat, f: bool)
    ensures forall m :: m in ScanFrom(s, i, f).msgs ==> WellFormed(m)
    decreases |s| - i
  {
    StepWellFormed(s, i, f);
    match Step(s, i, f)
    case Skip(next) => ScanWellFormed(s, next, f);
    case Deliver(_, next) => ScanWellFormed(s, next, f);
    case _ =>
  }

  /** The corrected decoder never panics. */
  lemma {:induction false} CorrectedNeverPanics(s: seq<uint8>, i: nat)
    ensures !ScanFrom(s, i, true).panicked
    decreases |s| - i
  {
    match Step(s, i, true)
    case Skip(next) => CorrectedNeverPanics(s, next);
    case Deliver(_, next) => CorrectedNeverPanics(s, next);
    case _ =>
  }

  /** Wherever the code as written does not panic, the correction changes nothing. */
  lemma {:induction false} CorrectionAgreesUnlessPanic(s: seq<uint8>, i: nat)
    ensures !ScanFrom(s, i, false).panicked ==> ScanFrom(s, i, true) == ScanFrom(s, i, false)
    decreases |s| - i
  {
    match Step(s, i, false)
    case Skip(next) => CorrectionAgreesUnlessPanic(s, next);
    case Deliver(_, next) => CorrectionAgreesUnlessPanic(s, next);
    case _ =>
  }

  /**
   * A frame with length byte 0 whose single id byte is 0 passes the checksum,
   * and the code as written panics on it.
   */
  lemma ShortFramePanics()
    ensures DecodeAsWritten([0xAA, 0xAA, 0x00, 0x00]).panicked
    ensures DecodeAsWritten([0xAA, 0xAA, 0x01, 0x00, 0x00]).panicked
  {
    var s0: seq<uint8> := [0xAA, 0xAA, 0x00, 0x00];
    assert s0[3..4] == [0];
    SumSingle(0);
    var s1: seq<uint8> := [0xAA, 0xAA, 0x01, 0x00, 0x00];
    assert s1[3..5] == [0] + [0];
    SumConcat([0], [0]);
  }

  /**
   * One stray sync byte in front of any frame makes the receiver take the
   * frame's second sync byte for an over-long length byte and then skip the
   * frame's length byte: the scan resumes at the frame's id byte, with the
   * frame's whole header consumed.
   */
  lemma StraySyncLosesFrame(m: Message, rest: seq<uint8>, rejectShort: bool)
    requires |m.params| <= RECEIVE_PARAMS_SIZE
    ensures var s := [SYNC_BYTE] + Encode(m) + rest;
      ScanFrom(s, 0, rejectShort) == ScanFrom(s, 4, rejectShort)
  {
    var e := Encode(m);
    var s := [SYNC_BYTE] + e + rest;
    EncodeLayout(m);
    assert s[0] == SYNC_BYTE && s[1] == e[0] && s[2] == e[1] && s[3] == e[2];
    assert LengthByte(m) < SYNC_BYTE;
    assert Step(s, 0, rejectShort) == Skip(3);
    assert Step(s, 3, rejectShort) == Skip(4);
    assert ScanFrom(s, 0, rejectShort) == ScanFrom(s, 3, rejectShort);
  }

  /** For the empty message behind a stray sync byte nothing at all is delivered. */
  lemma StraySyncExample()
    ensures Decode([SYNC_BYTE] + Encode(Message(10, false, false, [], 0))) == []
  {
    var m := Message(10, false, false, [], 0);
    var s := [SYNC_BYTE] + Encode(m);
    StraySyncLosesFrame(m, [], true);
    assert s + [] == s;
    assert Ctrl(m) == 0;
    EncodeLayout(m);
    assert s == [0xAA, 0xAA, 0xAA, 2, 10, 0, 246];
    assert ScanFrom(s, 4, true) == ScanFrom(s, 5, true);
    assert ScanFrom(s, 5, true) == ScanFrom(s, 6, true);
    assert ScanFrom(s, 6, true) == ScanFrom(s, 7, true);
  }
}
