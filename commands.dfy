/**
 * The `Dobot` methods of package godobot (dobot.go), split at the call of
 * `SendMessage`: the request each one builds, and what it makes of the answer
 * `SendMessage` hands back (a reply, or the error the processing routine
 * reported). Struct arguments are their packed little-endian bytes.
 */
module Commands {
  import opened Bytes
  import opened Wrappers
  import opened Frame
  import opened Protocol
  import Dispatch
  import Decoder

  /** Why a call returns an error, or panics. */
  datatype Fault =
    | Transport(reason: Dispatch.Failure)  // the error `SendMessage` returned
    | EmptyArgument                         // "invalid params: empty ..."
    | NilArgument                           // "invalid params: ... is nil"
    | InvalidResponse                       // "invalid response"
    | IndexOutOfRange                       // a Go runtime panic while reading the reply

  // ---------------------------------------------------------------------
  // Packed struct sizes (types.go)
  // ---------------------------------------------------------------------

  datatype Field = F32 | U8 | U16 | U32 | Array(count: nat, elem: Field)

  /** The bytes `binary.Write` spends on a field. */
  function FieldSize(f: Field): nat
  {
    match f
    case F32 => 4
    case U8 => 1
    case U16 => 2
    case U32 => 4
    case Array(n, e) => n * FieldSize(e)
  }

  function PackedSize(fs: seq<Field>): nat
  {
    if fs == [] then 0 else FieldSize(fs[0]) + PackedSize(fs[1..])
  }

  const HOME_PARAMS: seq<Field> := [F32, F32, F32, F32]
  const END_EFFECTOR_PARAMS: seq<Field> := [F32, F32, F32]
  const JOG_JOINT_PARAMS: seq<Field> := [Array(4, F32), Array(4, F32)]
  const JOGL_PARAMS: seq<Field> := [F32, F32]
  const PTP_JUMP2_PARAMS: seq<Field> := [F32, F32, F32]
  const PTP_CMD: seq<Field> := [U8, F32, F32, F32, F32]
  const PARALLEL_OUTPUT_CMD: seq<Field> := [U8, U16, U8]
  const WAIT_CMD: seq<Field> := [U32]

  /** The shortest reply each `Get*` accepts before `binary.Read`. */
  function MinReplyLength(c: Command): nat
  {
    match c
    case Home(HOMEParams) => 16
    case EndEffector(EndEffectorParams) => 12
    case Jog(JOGJointParams) => 32
    case Ptp(PTPJump2Params) => 12
    case _ => 0
  }

  /** The getters' length guards are exactly the packed sizes of the structs they read. */
  lemma GuardsArePackedSizes()
    ensures MinReplyLength(Home(HOMEParams)) == PackedSize(HOME_PARAMS)
    ensures MinReplyLength(EndEffector(EndEffectorParams)) == PackedSize(END_EFFECTOR_PARAMS)
    ensures MinReplyLength(Jog(JOGJointParams)) == PackedSize(JOG_JOINT_PARAMS)
    ensures MinReplyLength(Ptp(PTPJump2Params)) == PackedSize(PTP_JUMP2_PARAMS)
  {
    assert PackedSize(HOME_PARAMS[3..]) == 4;
    assert PackedSize(END_EFFECTOR_PARAMS[2..]) == 4;
    assert PackedSize(JOG_JOINT_PARAMS[1..]) == 16;
    assert PackedSize(PTP_JUMP2_PARAMS[2..]) == 4;
  }

  /** The struct sizes the builders below rely on. */
  lemma ArgumentSizes()
    ensures PackedSize(PTP_CMD) == 17 && PackedSize(PARALLEL_OUTPUT_CMD) == 4
    ensures PackedSize(WAIT_CMD) == 4 && PackedSize(JOGL_PARAMS) == 8
  {
    assert PackedSize(PTP_CMD[4..]) == 4;
    assert PackedSize(PARALLEL_OUTPUT_CMD[2..]) == 1;
    assert PackedSize(WAIT_CMD[1..]) == 0;
    assert PackedSize(JOGL_PARAMS[1..]) == 4;
  }

  // ---------------------------------------------------------------------
  // Strings
  // ---------------------------------------------------------------------

  /** The bytes before the first NUL: the string a C reader sees. */
  function CString(s: seq<uint8>): (r: seq<uint8>)
    ensures r <= s
    ensures forall k :: 0 <= k < |r| ==> r[k] != 0
    ensures |r| < |s| ==> s[|r|] == 0
  {
    if s == [] || s[0] == 0 then [] else [s[0]] + CString(s[1..])
  }

  predicate NoNul(s: seq<uint8>)
  {
    forall k :: 0 <= k < |s| ==> s[k] != 0
  }

  /** The commands whose setter sends a NUL-terminated string. */
  predicate StringCommand(c: Command)
  {
    c == Device(DeviceSN) || c == Device(DeviceName) || c == Wifi(WIFISSID)
  }

  /**
   * `SetDeviceSN`, `SetDeviceName` and `SetWIFISSID`: an empty string is
   * refused; otherwise its bytes and one 0 byte go out as a non-queued write.
   */
  method SetStringRequest(c: Command, s: seq<uint8>) returns (r: Result<Message, Fault>)
    requires StringCommand(c)
    ensures r.Err? <==> s == []
    ensures r.Err? ==> r.error == EmptyArgument
    ensures r.Ok? ==> r.value.id == GoId(c) && r.value.rw && !r.value.isQueued
    ensures r.Ok? ==> r.value.params == s + [0]
  {
    if s == [] {
      return Err(EmptyArgument);
    }
    var writer: seq<uint8> := [];
    writer := writer + s;
    writer := writer + [0];
    return Ok(Message(GoId(c), true, false, writer, 0));
  }

  /** The terminator marks the end of the string, whatever padding follows it. */
  lemma {:induction false} TerminatedStringReadsBack(s: seq<uint8>, pad: seq<uint8>)
    requires NoNul(s)
    ensures CString(s + [0] + pad) == s
    decreases |s|
  {
    if s == [] {
      assert (s + [0] + pad)[0] == 0;
    } else {
      assert (s + [0] + pad)[1..] == s[1..] + [0] + pad;
      TerminatedStringReadsBack(s[1..], pad);
    }
  }

  /**
   * The device, decoding the setter's frame, holds the string's bytes and the
   * terminator; read as a C string that is the string again.
   */
  lemma StringRequestReachesDevice(id: uint8, s: seq<uint8>)
    requires NoNul(s) && |s| < RECEIVE_PARAMS_SIZE
    ensures var m := Message(id, true, false, s + [0], 0);
      && Decoder.Decode(Encode(m)) == [Decoder.Delivered(m)]
      && CString(Data(Decoder.Delivered(m))) == s
  {
    var m := Message(id, true, false, s + [0], 0);
    Decoder.RoundTrip(m);
    TerminatedStringReadsBack(s, []);
    assert s + [0] + [] == s + [0];
  }

  /** `GetDeviceSN`, `GetDeviceName` and `GetWIFISSID` as written: `string(resp.Params)`. */
  function GetStringAsWritten(a: Dispatch.Answer): (r: Result<seq<uint8>, Fault>)
    ensures a.Error? ==> r == Err(Transport(a.reason))
    ensures a.Reply? ==> r.Ok? && |r.value| == |a.ack.params|
    ensures a.Reply? && a.ack.ackLen as int <= |a.ack.params| ==> Data(a.ack) <= r.value
  {
    match a
    case Error(reason) => Err(Transport(reason))
    case Reply(resp) => Ok(resp.params)
  }

  /** The getters as evidently intended: the string the reply carried, up to its terminator. */
  function GetString(a: Dispatch.Answer): (r: Result<seq<uint8>, Fault>)
    ensures a.Error? ==> r == Err(Transport(a.reason))
    ensures a.Reply? && a.ack.ackLen as int <= |a.ack.params| ==> r.Ok? && r.value <= Data(a.ack) && NoNul(r.value)
    ensures a.Reply? && a.ack.ackLen as int <= |a.ack.params| && |r.value| < |Data(a.ack)| ==> Data(a.ack)[|r.value|] == 0
    ensures a.Reply? && a.ack.ackLen as int > |a.ack.params| ==> r == Err(IndexOutOfRange)
  {
    match a
    case Error(reason) => Err(Transport(reason))
    case Reply(resp) =>
      if resp.ackLen as int > |resp.params| then Err(IndexOutOfRange) else Ok(CString(Data(resp)))
  }

  /**
   * As written, a getter returns the whole 167-byte receive buffer: the string,
   * its terminator and the zero padding behind it, so never the string itself.
   */
  lemma StringGetterReturnsBuffer(id: uint8, ctrl: uint8, s: seq<uint8>)
    requires NoNul(s) && |s| < RECEIVE_PARAMS_SIZE
    ensures var resp := Decoder.Received(id, ctrl, s + [0]);
      && GetStringAsWritten(Dispatch.Reply(resp)) == Ok(s + [0] + Zeros(RECEIVE_PARAMS_SIZE - |s| - 1))
      && GetStringAsWritten(Dispatch.Reply(resp)) != Ok(s)
  {
  }

  /** The corrected getter returns the string the device sent. */
  lemma StringGetterReadsString(id: uint8, ctrl: uint8, s: seq<uint8>)
    requires NoNul(s) && |s| < RECEIVE_PARAMS_SIZE
    ensures GetString(Dispatch.Reply(Decoder.Received(id, ctrl, s + [0]))) == Ok(s)
  {
    var resp := Decoder.Received(id, ctrl, s + [0]);
    assert Data(resp) == s + [0];
    TerminatedStringReadsBack(s, []);
    assert s + [0] + [] == s + [0];
  }

  // ---------------------------------------------------------------------
  // The queued-command index
  // ---------------------------------------------------------------------

  /**
   * What the queued `Set*` commands return: the little-endian uint64 of the
   * first eight parameter bytes, or "invalid response" for a shorter reply.
   */
  function QueuedIndex(a: Dispatch.Answer): (r: Result<uint64, Fault>)
    ensures a.Error? ==> r == Err(Transport(a.reason))
    ensures a.Reply? ==> (r == Err(InvalidResponse) <==> |a.ack.params| < 8)
    ensures r.Ok? ==> LeBytes(r.value, 8) == a.ack.params[..8]
  {
    match a
    case Error(reason) => Err(Transport(reason))
    case Reply(resp) =>
      if |resp.params| < 8 then Err(InvalidResponse) else Ok(LeUint64(resp.params))
  }

  /** Every received reply has a full buffer, so the "invalid response" guard never fires. */
  lemma QueuedIndexGuardIsDead(a: Dispatch.Answer)
    requires a.Reply? && Decoder.WellFormed(a.ack)
    ensures QueuedIndex(a).Ok?
  {
  }

  /** A reply whose frame carried the eight bytes of n yields n. */
  lemma QueuedIndexReadsBack(id: uint8, ctrl: uint8, n: uint64)
    ensures QueuedIndex(Dispatch.Reply(Decoder.Received(id, ctrl, LeBytes(n, 8)))).value == n
  {
    LeUint64OfBytes(n, Zeros(RECEIVE_PARAMS_SIZE - 8));
  }

  // ---------------------------------------------------------------------
  // Flags
  // ---------------------------------------------------------------------

  /** The end-effector commands whose setter sends two flags. */
  predicate TwoFlagCommand(c: Command)
  {
    c == EndEffector(EndEffectorLaser) || c == EndEffector(EndEffectorSuctionCup) || c == EndEffector(EndEffectorGripper)
  }

  /**
   * `SetEndEffectorLaser`, `SetEndEffectorSuctionCup` and
   * `SetEndEffectorGripper`: a two-byte payload of 1s and 0s, as a write.
   */
  method SetTwoFlagsRequest(c: Command, enableCtrl: bool, on: bool, isQueued: bool) returns (m: Message)
    requires TwoFlagCommand(c)
    ensures m.id == GoId(c) && m.rw && m.isQueued == isQueued && m.ackLen == 0
    ensures m.params == [FromBool(enableCtrl), FromBool(on)]
  {
    var params := new uint8[2](_ => 0);
    if enableCtrl {
      params[0] := 1;
    }
    if on {
      params[1] := 1;
    }
    m := Message(GoId(c), true, isQueued, params[..], 0);
  }

  /** The matching getters: two bytes read as flags, "invalid response" when fewer arrive. */
  function GetTwoFlags(a: Dispatch.Answer): (r: Result<(bool, bool), Fault>)
    ensures a.Error? ==> r == Err(Transport(a.reason))
    ensures a.Reply? ==> (r == Err(InvalidResponse) <==> |a.ack.params| < 2)
    ensures r.Ok? ==> r.value == (ToBool(a.ack.params[0]), ToBool(a.ack.params[1]))
  {
    match a
    case Error(reason) => Err(Transport(reason))
    case Reply(resp) =>
      if |resp.params| < 2 then Err(InvalidResponse) else Ok((resp.params[0] != 0, resp.params[1] != 0))
  }

  /** A reply carrying the setter's payload reads back as the same two flags. */
  lemma TwoFlagsReadBack(id: uint8, ctrl: uint8, enableCtrl: bool, on: bool)
    ensures GetTwoFlags(Dispatch.Reply(Decoder.Received(id, ctrl, [FromBool(enableCtrl), FromBool(on)])))
      == Ok((enableCtrl, on))
  {
  }

  // ---------------------------------------------------------------------
  // Version and the L axis: `Data()` indexed without a length check
  // ---------------------------------------------------------------------

  /** `GetDeviceVersion`: the first four bytes of `Data()`; Go panics on a shorter reply. */
  function GetDeviceVersion(a: Dispatch.Answer): (r: Result<(uint8, uint8, uint8, uint8), Fault>)
    ensures a.Error? ==> r == Err(Transport(a.reason))
    ensures a.Reply? ==> (r == Err(IndexOutOfRange) <==> a.ack.ackLen < 4 || a.ack.ackLen as int > |a.ack.params|)
    ensures r.Ok? ==> [r.value.0, r.value.1, r.value.2, r.value.3] == Data(a.ack)[..4]
  {
    match a
    case Error(reason) => Err(Transport(reason))
    case Reply(resp) =>
      if resp.ackLen as int > |resp.params| || resp.ackLen < 4 then Err(IndexOutOfRange)
      else
        var data := Data(resp);
        Ok((data[0], data[1], data[2], data[3]))
  }

  /** `SetDeviceWithL`: a queued write of the flag and the version byte. */
  method SetDeviceWithLRequest(isWithL: bool, version: uint8) returns (m: Message)
    ensures m.id == GoId(Device(DeviceWithL)) && m.rw && m.isQueued && m.ackLen == 0
    ensures m.params == [FromBool(isWithL), version]
  {
    var params := new uint8[2](_ => 0);
    if isWithL {
      params[0] := 1;
    }
    params[1] := version;
    m := Message(GoId(Device(DeviceWithL)), true, true, params[..], 0);
  }

  /** What `SetDeviceWithL` returns: `Uint64(Data())`, which panics when fewer than eight bytes arrived. */
  function DeviceWithLIndex(a: Dispatch.Answer): (r: Result<uint64, Fault>)
    ensures a.Error? ==> r == Err(Transport(a.reason))
    ensures a.Reply? ==> (r == Err(IndexOutOfRange) <==> a.ack.ackLen < 8 || a.ack.ackLen as int > |a.ack.params|)
    ensures r.Ok? ==> LeBytes(r.value, 8) == Data(a.ack)[..8]
  {
    match a
    case Error(reason) => Err(Transport(reason))
    case Reply(resp) =>
      if resp.ackLen as int > |resp.params| || resp.ackLen < 8 then Err(IndexOutOfRange)
      else Ok(LeUint64(Data(resp)))
  }

  /**
   * On the same short reply the guarded reading of the index succeeds while
   * `SetDeviceWithL`'s reading panics: it looks at `Data()`, not the buffer.
   */
  lemma ShortReplyPanicsOnlyUnguarded(id: uint8, ctrl: uint8, payload: seq<uint8>)
    requires |payload| < 8
    ensures var a := Dispatch.Reply(Decoder.Received(id, ctrl, payload));
      QueuedIndex(a).Ok? && DeviceWithLIndex(a) == Err(IndexOutOfRange)
  {
  }

  // ---------------------------------------------------------------------
  // Struct arguments and replies
  // ---------------------------------------------------------------------

  /** The `Get*` readers: at least `size` bytes, of which `binary.Read` takes the first `size`. */
  function GetStruct(a: Dispatch.Answer, size: nat): (r: Result<seq<uint8>, Fault>)
    ensures a.Error? ==> r == Err(Transport(a.reason))
    ensures a.Reply? ==> (r == Err(InvalidResponse) <==> |a.ack.params| < size)
    ensures r.Ok? ==> r.value == a.ack.params[..size]
  {
    match a
    case Error(reason) => Err(Transport(reason))
    case Reply(resp) =>
      if |resp.params| < size then Err(InvalidResponse) else Ok(resp.params[..size])
  }

  /** No struct the getters read is larger than the receive buffer, so their guards never fire either. */
  lemma StructGuardIsDead(a: Dispatch.Answer, c: Command)
    requires a.Reply? && Decoder.WellFormed(a.ack)
    ensures GetStruct(a, MinReplyLength(c)).Ok?
  {
  }

  /** A struct the device echoes back is read back unchanged. */
  lemma StructReadsBack(id: uint8, ctrl: uint8, bytes: seq<uint8>)
    requires |bytes| <= RECEIVE_PARAMS_SIZE
    ensures GetStruct(Dispatch.Reply(Decoder.Received(id, ctrl, bytes)), |bytes|) == Ok(bytes)
  {
    var resp := Decoder.Received(id, ctrl, bytes);
    assert resp.params[..|bytes|] == bytes;
  }

  /** `SetHOMEParams` and the other struct setters: reject nil, send the packed struct as asked. */
  method SetStructRequest(c: Command, params: Option<seq<uint8>>, isQueued: bool) returns (r: Result<Message, Fault>)
    ensures r.Err? <==> params.None?
    ensures r.Err? ==> r.error == NilArgument
    ensures r.Ok? ==> r.value == Message(GoId(c), true, isQueued, params.value, 0)
  {
    if params.None? {
      return Err(NilArgument);
    }
    var writer: seq<uint8> := [];
    writer := writer + params.value;
    return Ok(Message(GoId(c), true, isQueued, writer, 0));
  }

  /** `SetWAITCmd`: always queued, whatever `isQueued` says. */
  method SetWAITCmdRequest(cmd: Option<seq<uint8>>, isQueued: bool) returns (r: Result<Message, Fault>)
    requires cmd.Some? ==> |cmd.value| == PackedSize(WAIT_CMD)
    ensures r.Err? <==> cmd.None?
    ensures r.Err? ==> r.error == NilArgument
    ensures r.Ok? ==> r.value.isQueued && r.value.rw && r.value.id == GoId(Wait(WAITCmd))
    ensures r.Ok? ==> r.value.params == cmd.value && |r.value.params| == 4
  {
    if cmd.None? {
      return Err(NilArgument);
    }
    ArgumentSizes();
    var writer: seq<uint8> := [];
    writer := writer + cmd.value;
    return Ok(Message(GoId(Wait(WAITCmd)), true, true, writer, 0));
  }

  /** `SetJOGLParams`: never queued, and it takes no index from the reply. */
  method SetJOGLParamsRequest(params: Option<seq<uint8>>) returns (r: Result<Message, Fault>)
    requires params.Some? ==> |params.value| == PackedSize(JOGL_PARAMS)
    ensures r.Err? <==> params.None?
    ensures r.Err? ==> r.error == NilArgument
    ensures r.Ok? ==> !r.value.isQueued && r.value.rw && r.value.id == GoId(Jog(JOGLParams))
    ensures r.Ok? ==> r.value.params == params.value && |r.value.params| == 8
  {
    if params.None? {
      return Err(NilArgument);
    }
    ArgumentSizes();
    var writer: seq<uint8> := [];
    writer := writer + params.value;
    return Ok(Message(GoId(Jog(JOGLParams)), true, false, writer, 0));
  }

  /** What `SetJOGLParams` returns: index 0 on any reply, or the error. */
  function JOGLParamsIndex(a: Dispatch.Answer): (r: Result<uint64, Fault>)
    ensures a.Error? <==> r.Err?
    ensures a.Error? ==> r.error == Transport(a.reason)
    ensures r.Ok? ==> r.value == 0
  {
    match a
    case Error(reason) => Err(Transport(reason))
    case Reply(_) => Ok(0)
  }

  // ---------------------------------------------------------------------
  // SetPTPPOCmd
  // ---------------------------------------------------------------------

  /**
   * `SetPTPPOCmd`: a queued write of the PTP command, the number of parallel
   * outputs as a byte (which wraps), and the outputs' four bytes each.
   */
  method SetPTPPOCmdRequest(ptpCmd: Option<seq<uint8>>, parallel: seq<seq<uint8>>) returns (r: Result<Message, Fault>)
    requires ptpCmd.Some? ==> |ptpCmd.value| == PackedSize(PTP_CMD)
    requires forall i :: 0 <= i < |parallel| ==> |parallel[i]| == PackedSize(PARALLEL_OUTPUT_CMD)
    ensures r.Err? <==> ptpCmd.None?
    ensures r.Err? ==> r.error == NilArgument
    ensures r.Ok? ==> r.value.id == GoId(Ptp(PTPPOCmd)) && r.value.rw && r.value.isQueued
    ensures r.Ok? ==> r.value.params == ptpCmd.value + [|parallel| % 256] + Flatten(parallel)
  {
    if ptpCmd.None? {
      return Err(NilArgument);
    }
    var writer: seq<uint8> := [];
    writer := writer + ptpCmd.value;
    writer := writer + [|parallel| % 256];
    writer := writer + Flatten(parallel);
    return Ok(Message(GoId(Ptp(PTPPOCmd)), true, true, writer, 0));
  }

  /** `n` four-byte chunks from the front of `s`, if there are that many. */
  function Chunks4(s: seq<uint8>, n: nat): (r: Option<seq<seq<uint8>>>)
    ensures r.Some? ==> |r.value| == n && forall i :: 0 <= i < n ==> |r.value[i]| == 4
  {
    if n == 0 then Some([])
    else if |s| < 4 then None
    else match Chunks4(s[4..], n - 1)
      case None => None
      case Some(rest) => Some([s[..4]] + rest)
  }

  /** How the device reads a PTPPO payload: the 17-byte command, the count byte, that many outputs. */
  function ParsePTPPO(p: seq<uint8>): (r: Option<(seq<uint8>, seq<seq<uint8>>)>)
    ensures r.Some? ==> |p| >= 18 && |r.value.0| == 17 && |r.value.1| == p[17]
  {
    if |p| < 18 then None
    else match Chunks4(p[18..], p[17])
      case None => None
      case Some(outs) => Some((p[..17], outs))
  }

  /** Four-byte records flatten to four bytes each. */
  lemma {:induction false} FlattenFours(cs: seq<seq<uint8>>)
    requires forall i :: 0 <= i < |cs| ==> |cs[i]| == 4
    ensures |Flatten(cs)| == 4 * |cs|
    decreases |cs|
  {
    if cs != [] {
      FlattenFours(cs[1..]);
    }
  }

  lemma {:induction false} Chunks4OfFlatten(cs: seq<seq<uint8>>, rest: seq<uint8>)
    requires forall i :: 0 <= i < |cs| ==> |cs[i]| == 4
    ensures Chunks4(Flatten(cs) + rest, |cs|) == Some(cs)
    decreases |cs|
  {
    if cs != [] {
      var s := Flatten(cs) + rest;
      assert s == cs[0] + (Flatten(cs[1..]) + rest);
      assert s[..4] == cs[0];
      assert s[4..] == Flatten(cs[1..]) + rest;
      Chunks4OfFlatten(cs[1..], rest);
      assert [cs[0]] + cs[1..] == cs;
    }
  }

  /** With fewer than 256 outputs the device recovers the command and every output. */
  lemma PTPPORoundTrip(ptp: seq<uint8>, parallel: seq<seq<uint8>>)
    requires |ptp| == 17 && |parallel| < 256
    requires forall i :: 0 <= i < |parallel| ==> |parallel[i]| == 4
    ensures ParsePTPPO(ptp + [|parallel| % 256] + Flatten(parallel)) == Some((ptp, parallel))
  {
    var p := ptp + [|parallel| % 256] + Flatten(parallel);
    assert p[17] == |parallel|;
    assert p[..17] == ptp;
    assert p[18..] == Flatten(parallel) + [];
    Chunks4OfFlatten(parallel, []);
  }

  /** With 256 or more, the count byte has wrapped and the device sees fewer outputs. */
  lemma PTPPOCountWraps(ptp: seq<uint8>, parallel: seq<seq<uint8>>)
    requires |ptp| == 17 && |parallel| >= 256
    ensures var p := ptp + [|parallel| % 256] + Flatten(parallel);
      ParsePTPPO(p).Some? ==> |ParsePTPPO(p).value.1| < |parallel|
  {
    var p := ptp + [|parallel| % 256] + Flatten(parallel);
    assert p[17] == |parallel| % 256;
  }
}
