/**
 * The C++ reference layer (cpp/DobotDll.cpp). Every call fills the fields of a
 * heap `Message` one by one, hands it to the communicator and waits
 * (`WAIT_CMD_EXECUTION`), then copies out of the message's parameter buffer
 * into the caller's buffers. `Library` holds what outlives a call: the static
 * `isJointJog` of `SetJOGCmd`, the communicator's scripted completions and the
 * messages handed to it.
 */
module Dll {
  import opened Bytes
  import opened Wrappers
  import opened Frame
  import opened Protocol
  import InternalProtocol
  import Commands

  /** `DobotCommunicate_*`; only `NoError` is tested by value (`!res`). */
  datatype Status = NoError | BufferFull | Timeout | InvalidParams

  /** The size of a message's parameter buffer. */
  const BUFFER_SIZE: nat := RECEIVE_PARAMS_SIZE

  const PTP_CMD_SIZE: nat := 17
  const PARALLEL_OUTPUT_CMD_SIZE: nat := 4
  const HOME_PARAMS_SIZE: nat := 16
  const JOGL_PARAMS_SIZE: nat := 8
  const FLOAT_SIZE: nat := 4
  const JOG_IDLE: uint8 := 0

  /** The C++ layer uses the explicit id table. */
  function Id(c: Command): uint8
  {
    InternalProtocol.InternalId(c)
  }

  /**
   * What the communicator reports for a message: a status and, when a reply
   * arrived, the parameter bytes it copies into the message.
   */
  datatype Completion = Completion(status: Status, reply: Option<seq<uint8>>)

  predicate Fits(c: Completion)
  {
    c.reply.Some? ==> |c.reply.value| <= BUFFER_SIZE
  }

  predicate ScriptFits(cs: seq<Completion>)
  {
    forall i :: 0 <= i < |cs| ==> Fits(cs[i])
  }

  /** The next completion; once the script is exhausted, every wait times out. */
  function Next(cs: seq<Completion>): (c: Completion)
    ensures cs == [] ==> c.status == Timeout && c.reply.None?
  {
    if cs == [] then Completion(Timeout, None) else cs[0]
  }

  function Rest(cs: seq<Completion>): seq<Completion>
  {
    if cs == [] then [] else cs[1..]
  }

  /** The buffer after a reply has been copied to its front. */
  function Filled(buf: seq<uint8>, reply: Option<seq<uint8>>): (r: seq<uint8>)
    requires reply.Some? ==> |reply.value| <= |buf|
    ensures |r| == |buf|
  {
    match reply
    case None => buf
    case Some(b) => b + buf[|b|..]
  }

  /** The heap `Message` of one call. */
  class CMessage {
    var id: uint8
    var rw: bool
    var isQueued: bool
    var paramsLen: nat
    const params: array<uint8>

    /** `new Message`: the buffer holds whatever the allocator left there. */
    constructor (stale: seq<uint8>)
      requires |stale| == BUFFER_SIZE
      ensures fresh(params) && params[..] == stale
      ensures id == 0 && !rw && !isQueued && paramsLen == 0
    {
      id := 0;
      rw := false;
      isQueued := false;
      paramsLen := 0;
      params := new uint8[BUFFER_SIZE](i requires 0 <= i < BUFFER_SIZE => stale[i]);
    }
  }

  // ---------------------------------------------------------------------
  // Specification functions
  // ---------------------------------------------------------------------

  /** `strcpy` or `memcpy` plus terminator into the caller's buffer of `maxLen` bytes. */
  function CopyOut(dst: seq<uint8>, str: seq<uint8>, maxLen: nat): (r: seq<uint8>)
    requires 0 < maxLen <= |dst|
    ensures |r| == |dst| && r[maxLen..] == dst[maxLen..]
  {
    if |str| < maxLen then str + [0] + dst[|str| + 1..]
    else str[..maxLen - 1] + [0] + dst[maxLen..]
  }

  /**
   * The string getters' promise: the caller's buffer holds the reply string
   * cut to at most `maxLen - 1` characters, terminated inside its `maxLen` bytes.
   */
  lemma CopyOutTruncates(dst: seq<uint8>, str: seq<uint8>, maxLen: nat)
    requires 0 < maxLen <= |dst| && Commands.NoNul(str)
    ensures var r := CopyOut(dst, str, maxLen);
      && Commands.CString(r) == (if |str| < maxLen then str else str[..maxLen - 1])
      && |Commands.CString(r)| < maxLen
      && Commands.CString(r) <= str
  {
    var r := CopyOut(dst, str, maxLen);
    if |str| < maxLen {
      Commands.TerminatedStringReadsBack(str, dst[|str| + 1..]);
    } else {
      var s := str[..maxLen - 1];
      assert Commands.NoNul(s);
      Commands.TerminatedStringReadsBack(s, dst[maxLen..]);
    }
  }

  /** `SetJOGCmd`'s static mode: set by every non-idle command, kept by an idle one. */
  datatype JogCmd = JogCmd(isJoint: uint8, cmd: uint8)

  function JogMode(prev: bool, c: JogCmd): bool
  {
    if c.cmd != JOG_IDLE then c.isJoint != 0 else prev
  }

  /** The mode after a run of `SetJOGCmd` calls. */
  function JogModes(prev: bool, cs: seq<JogCmd>): bool
    decreases |cs|
  {
    if cs == [] then prev else JogModes(JogMode(prev, cs[0]), cs[1..])
  }

  /** The position of the last non-idle command. */
  function LastActive(cs: seq<JogCmd>): (r: Option<nat>)
    ensures r.Some? ==> r.value < |cs| && cs[r.value].cmd != JOG_IDLE
    ensures r.Some? ==> forall j :: r.value < j < |cs| ==> cs[j].cmd == JOG_IDLE
    ensures r.None? ==> forall j :: 0 <= j < |cs| ==> cs[j].cmd == JOG_IDLE
  {
    if cs == [] then None
    else if cs[|cs| - 1].cmd != JOG_IDLE then Some(|cs| - 1)
    else LastActive(cs[..|cs| - 1])
  }

  lemma {:induction false} JogModesSnoc(prev: bool, cs: seq<JogCmd>, c: JogCmd)
    ensures JogModes(prev, cs + [c]) == JogMode(JogModes(prev, cs), c)
    decreases |cs|
  {
    if cs == [] {
      assert ([] + [c])[1..] == [];
    } else {
      assert (cs + [c])[1..] == cs[1..] + [c];
      JogModesSnoc(JogMode(prev, cs[0]), cs[1..], c);
    }
  }

  /**
   * The jog mode is the `isJoint` of the last non-idle command, or the mode
   * before the run when every command in it was idle.
   */
  lemma {:induction false} JogModeIsLastActive(prev: bool, cs: seq<JogCmd>)
    ensures JogModes(prev, cs) == match LastActive(cs)
      case None => prev
      case Some(j) => cs[j].isJoint != 0
    decreases |cs|
  {
    if cs != [] {
      var init := cs[..|cs| - 1];
      var last := cs[|cs| - 1];
      assert init + [last] == cs;
      JogModesSnoc(prev, init, last);
      JogModeIsLastActive(prev, init);
    }
  }

  /** The parameter buffer after `payload` has been copied to its front. */
  function Laid(stale: seq<uint8>, payload: seq<uint8>): (r: seq<uint8>)
    requires |payload| <= |stale|
    ensures |r| == |stale| && r[..|payload|] == payload
    ensures payload == [] ==> r == stale
  {
    payload + stale[|payload|..]
  }

  /** As written: the length counts `parallelCmdCount` outputs whether or not they were copied. */
  function PTPPOParamsLenAsWritten(count: int): (len: int)
    ensures (len - PTP_CMD_SIZE - 1) % PARALLEL_OUTPUT_CMD_SIZE == 0
    ensures len >= PTP_CMD_SIZE + 1 <==> count >= 0
  {
    PTP_CMD_SIZE + 1 + count * PARALLEL_OUTPUT_CMD_SIZE
  }

  /** What `SetPTPPOCmd` copies into the buffer: the command, the count byte, the outputs, if any. */
  function PTPPOPayload(ptp: seq<uint8>, parallel: Option<seq<seq<uint8>>>, count: int): (p: seq<uint8>)
    requires |ptp| == PTP_CMD_SIZE
    requires parallel.Some? ==> forall i :: 0 <= i < |parallel.value| ==> |parallel.value[i]| == 4
    requires parallel.Some? && count > 0 ==> count <= |parallel.value|
    ensures |p| == PTPPOParamsLen(parallel.Some?, count)
    ensures p[..PTP_CMD_SIZE] == ptp
  {
    if parallel.Some? && count > 0 then
      Commands.FlattenFours(parallel.value[..count]);
      ptp + [count % 256] + Flatten(parallel.value[..count])
    else ptp + [0]
  }

  /** As evidently intended: the length covers the outputs the count byte announces. */
  function PTPPOParamsLen(present: bool, count: int): (len: nat)
    ensures len >= PTP_CMD_SIZE + 1 && (len - PTP_CMD_SIZE - 1) % PARALLEL_OUTPUT_CMD_SIZE == 0
    ensures len > PTP_CMD_SIZE + 1 <==> present && count > 0
  {
    PTP_CMD_SIZE + 1 + (if present && count > 0 then count else 0) * PARALLEL_OUTPUT_CMD_SIZE
  }

  /**
   * With the corrected length the message carries exactly what was copied,
   * and the device reads back the command and exactly the outputs given.
   */
  lemma PTPPOCorrectedReadsBack(ptp: seq<uint8>, parallel: Option<seq<seq<uint8>>>, count: int)
    requires |ptp| == PTP_CMD_SIZE && (parallel.Some? && count > 0 ==> 0 < count < 256 && count <= |parallel.value|)
    requires parallel.Some? ==> forall i :: 0 <= i < |parallel.value| ==> |parallel.value[i]| == 4
    ensures var payload := PTPPOPayload(ptp, parallel, count);
      && |payload| == PTPPOParamsLen(parallel.Some?, count)
      && Commands.ParsePTPPO(payload)
           == Some((ptp, if parallel.Some? && count > 0 then parallel.value[..count] else []))
  {
    if parallel.Some? && count > 0 {
      var outs := parallel.value[..count];
      Commands.FlattenFours(outs);
      Commands.PTPPORoundTrip(ptp, outs);
    } else {
      assert ptp + [0] == ptp + [0] + Flatten([]);
      Commands.PTPPORoundTrip(ptp, []);
    }
  }

  /**
   * As written, a NULL `parallelCmd` with a count of 2 writes a count byte of 0
   * but sends 26 bytes: eight bytes of whatever the buffer held go out behind
   * the command.
   */
  lemma PTPPOAsWrittenSendsStale(stale: seq<uint8>, ptp: seq<uint8>)
    requires |stale| == BUFFER_SIZE && |ptp| == PTP_CMD_SIZE
    ensures var sent := Laid(stale, PTPPOPayload(ptp, None, 2))[..PTPPOParamsLenAsWritten(2)];
      && |sent| == 26 && PTPPOParamsLen(false, 2) == 18
      && sent[17] == 0 && sent[18..] == stale[18..26]
  {
  }

  /** As written, a negative count cuts the length below the PTP command and its count byte. */
  lemma PTPPOAsWrittenNegativeCount(count: int)
    requires count < 0
    ensures PTPPOParamsLenAsWritten(count) < PTP_CMD_SIZE + 1
    ensures PTPPOParamsLen(true, count) == PTP_CMD_SIZE + 1
  {
  }

  /** The current index one completion reports. */
  function CurIndex(stale: seq<uint8>, c: Completion): uint64
    requires |stale| == BUFFER_SIZE && Fits(c)
  {
    LeUint64(Filled(stale, c.reply))
  }

  datatype Polled = Polled(polls: nat, status: Status)

  /** `SendPluseEx`'s polling, as a function of the completions that answer it. */
  function Poll(cs: seq<Completion>, index: uint64, stale: seq<uint8>): (p: Polled)
    requires |stale| == BUFFER_SIZE && ScriptFits(cs)
    ensures 1 <= p.polls
    decreases |cs|
  {
    var c := Next(cs);
    if c.status != NoError || CurIndex(stale, c) >= index then Polled(1, c.status)
    else
      var p := Poll(cs[1..], index, stale);
      Polled(p.polls + 1, p.status)
  }

  /**
   * The loop stops at the first poll that fails or reports an index at least
   * the pulse's; a `NoError` result means the device reached that index.
   */
  lemma {:induction false} PollStopsAtTarget(cs: seq<Completion>, index: uint64, stale: seq<uint8>)
    requires |stale| == BUFFER_SIZE && ScriptFits(cs)
    ensures var p := Poll(cs, index, stale);
      && p.polls <= |cs| + 1
      && (forall j :: 0 <= j < p.polls - 1 ==> cs[j].status == NoError && CurIndex(stale, cs[j]) < index)
      && (p.polls <= |cs| ==> p.status == cs[p.polls - 1].status)
      && (p.status == NoError ==> p.polls <= |cs| && CurIndex(stale, cs[p.polls - 1]) >= index)
    decreases |cs|
  {
    var c := Next(cs);
    if !(c.status != NoError || CurIndex(stale, c) >= index) {
      assert ScriptFits(cs[1..]);
      PollStopsAtTarget(cs[1..], index, stale);
    }
  }

  /** One poll: it stops, or it leaves the rest of the polling to the remaining completions. */
  lemma PollStep(cs: seq<Completion>, index: uint64, stale: seq<uint8>)
    requires |stale| == BUFFER_SIZE && ScriptFits(cs)
    ensures var c := Next(cs);
      if c.status != NoError || CurIndex(stale, c) >= index then Poll(cs, index, stale) == Polled(1, c.status)
      else
        && cs != [] && Rest(cs) == cs[1..] && ScriptFits(cs[1..])
        && Poll(cs, index, stale) == Polled(Poll(cs[1..], index, stale).polls + 1, Poll(cs[1..], index, stale).status)
  {
    if cs != [] {
      assert ScriptFits(cs[1..]);
    }
  }

  function Repeat(m: Message, n: nat): (r: seq<Message>)
    ensures |r| == n && forall i :: 0 <= i < n ==> r[i] == m
  {
    if n == 0 then [] else Repeat(m, n - 1) + [m]
  }

  /**
   * The copy out of `GetDeviceSN`: `strcpy` when the string fits in `maxLen`
   * bytes, otherwise `memcpy` of `maxLen - 1` bytes and a terminator.
   */
  method CopyString(dst: array<uint8>, src: array<uint8>, maxLen: nat)
    requires 0 < maxLen <= dst.Length && dst != src
    modifies dst
    ensures dst[..] == CopyOut(old(dst[..]), Commands.CString(src[..]), maxLen)
  {
    ghost var before := dst[..];
    ghost var source := src[..];
    var str := Commands.CString(src[..]);
    var len := |str|;
    assert str == src[..len];
    if len < maxLen {
      forall i | 0 <= i < len {
        dst[i] := src[i];
      }
      dst[len] := 0;
      assert forall k :: 0 <= k < len ==> dst[k] == str[k];
      assert forall k :: len < k < dst.Length ==> dst[k] == before[k];
      assert dst[..] == str + [0] + before[len + 1..];
      assert src[..] == source;
      assert dst[..] == CopyOut(before, Commands.CString(source), maxLen);
    } else {
      forall i | 0 <= i < maxLen - 1 {
        dst[i] := src[i];
      }
      dst[maxLen - 1] := 0;
      assert forall k :: 0 <= k < maxLen - 1 ==> dst[k] == str[k];
      assert forall k :: maxLen - 1 < k < dst.Length ==> dst[k] == before[k];
      assert dst[..] == str[..maxLen - 1] + [0] + before[maxLen..];
      assert src[..] == source;
      assert dst[..] == CopyOut(before, Commands.CString(source), maxLen);
    }
  }

  // ---------------------------------------------------------------------
  // The library
  // ---------------------------------------------------------------------

  class Library {
    var isJointJog: bool
    var completions: seq<Completion>
    var sent: seq<Message>
    /** What `new Message` finds in its buffer, taken as the same for every call. */
    const stale: seq<uint8>

    ghost predicate Valid()
      reads this
    {
      |stale| == BUFFER_SIZE && ScriptFits(completions)
    }

    constructor (script: seq<Completion>, stale: seq<uint8>)
      requires |stale| == BUFFER_SIZE && ScriptFits(script)
      ensures Valid()
      ensures !isJointJog && completions == script && sent == [] && this.stale == stale
    {
      isJointJog := false;
      completions := script;
      sent := [];
      this.stale := stale;
    }

    /** `WAIT_CMD_EXECUTION`: hand the message over and wait for its completion. */
    method Execute(m: CMessage) returns (status: Status)
      requires Valid() && m.params.Length == BUFFER_SIZE && m.paramsLen <= BUFFER_SIZE
      modifies this, m, m.params
      ensures Valid() && isJointJog == old(isJointJog)
      ensures sent == old(sent) + [Message(m.id, m.rw, m.isQueued, old(m.params[..m.paramsLen]), 0)]
      ensures var c := Next(old(completions));
        && status == c.status && completions == Rest(old(completions))
        && m.params[..] == Filled(old(m.params[..]), c.reply)
        && m.paramsLen == (if c.reply.Some? then |c.reply.value| else old(m.paramsLen))
      ensures m.id == old(m.id) && m.rw == old(m.rw) && m.isQueued == old(m.isQueued)
    {
      var c := Next(completions);
      sent := sent + [Message(m.id, m.rw, m.isQueued, m.params[..m.paramsLen], 0)];
      completions := Rest(completions);
      if c.reply.Some? {
        var b := c.reply.value;
        forall i | 0 <= i < |b| {
          m.params[i] := b[i];
        }
        m.paramsLen := |b|;
      }
      status := c.status;
    }

    /**
     * Steps 1 and 2 of every call: a new message, its fields set, the payload
     * copied to the front of its buffer, `paramsLen` set, then executed.
     */
    method Transact(id: uint8, rw: bool, isQueued: bool, payload: seq<uint8>, len: nat)
      returns (status: Status, m: CMessage)
      requires Valid() && |payload| <= BUFFER_SIZE && len <= BUFFER_SIZE
      modifies this
      ensures Valid() && isJointJog == old(isJointJog)
      ensures fresh(m) && fresh(m.params) && m.params.Length == BUFFER_SIZE
      ensures var c := Next(old(completions));
        && status == c.status && completions == Rest(old(completions))
        && sent == old(sent) + [Message(id, rw, isQueued, Laid(stale, payload)[..len], 0)]
        && m.params[..] == Filled(Laid(stale, payload), c.reply)
        && m.paramsLen == (if c.reply.Some? then |c.reply.value| else len)
    {
      m := new CMessage(stale);
      m.id := id;
      m.rw := rw;
      m.isQueued := isQueued;
      forall i | 0 <= i < |payload| {
        m.params[i] := payload[i];
      }
      assert m.params[..] == Laid(stale, payload);
      m.paramsLen := len;
      status := Execute(m);
    }

    /** The `memcpy(queuedCmdIndex, params, 8)` at the end of the queued setters (a little-endian host). */
    method CopyIndex(m: CMessage, isQueued: bool, queuedCmdIndex: array?<uint64>)
      requires m.params.Length == BUFFER_SIZE
      requires queuedCmdIndex != null ==> queuedCmdIndex.Length == 1
      modifies queuedCmdIndex
      ensures queuedCmdIndex != null ==>
        (queuedCmdIndex[0] == if isQueued then LeUint64(m.params[..]) else old(queuedCmdIndex[0]))
    {
      if isQueued && queuedCmdIndex != null {
        queuedCmdIndex[0] := LeUint64(m.params[..]);
      }
    }

    /** `GetDeviceSN`: the reply string, truncated to the caller's `maxLen`. */
    method GetDeviceSN(deviceSN: array?<uint8>, maxLen: nat) returns (status: Status)
      requires Valid()
      requires deviceSN != null ==> maxLen <= deviceSN.Length
      modifies this, deviceSN
      ensures Valid() && isJointJog == old(isJointJog)
      ensures deviceSN == null || maxLen == 0 ==>
        status == InvalidParams && sent == old(sent) && completions == old(completions)
      ensures deviceSN != null && maxLen == 0 ==> deviceSN[..] == old(deviceSN[..])
      ensures deviceSN != null && maxLen > 0 ==>
        var c := Next(old(completions));
        && status == c.status && completions == Rest(old(completions))
        && sent == old(sent) + [Message(Id(Device(DeviceSN)), false, false, [], 0)]
        && deviceSN[..] == CopyOut(old(deviceSN[..]), Commands.CString(Filled(stale, c.reply)), maxLen)
    {
      if deviceSN == null || maxLen == 0 {
        return InvalidParams;
      }
      var m;
      status, m := Transact(Id(Device(DeviceSN)), false, false, [], 0);
      CopyString(deviceSN, m.params, maxLen);
    }

    /** `GetAlarmsState`: reports the whole reply length, copies at most `maxLen` bytes. */
    method GetAlarmsState(alarmsState: array?<uint8>, len: array?<uint32>, maxLen: nat) returns (status: Status)
      requires Valid()
      requires alarmsState != null ==> maxLen <= alarmsState.Length
      requires len != null ==> len.Length == 1
      modifies this, alarmsState, len
      ensures Valid() && isJointJog == old(isJointJog)
      ensures alarmsState == null || len == null || maxLen == 0 ==>
        status == InvalidParams && sent == old(sent) && completions == old(completions)
      ensures alarmsState != null && len != null && maxLen > 0 ==>
        var c := Next(old(completions));
        var reported := if c.reply.Some? then |c.reply.value| else 0;
        var copied := if reported > maxLen then maxLen else reported;
        && status == c.status && completions == Rest(old(completions))
        && sent == old(sent) + [Message(Id(Alarm(AlarmsState)), false, false, [], 0)]
        && len[0] == reported
        && alarmsState[..copied] == Filled(stale, c.reply)[..copied]
        && alarmsState[copied..] == old(alarmsState[copied..])
    {
      if alarmsState == null || len == null || maxLen == 0 {
        return InvalidParams;
      }
      var m;
      status, m := Transact(Id(Alarm(AlarmsState)), false, false, [], 0);
      len[0] := m.paramsLen;
      var n := if m.paramsLen > maxLen then maxLen else m.paramsLen;
      forall i | 0 <= i < n {
        alarmsState[i] := m.params[i];
      }
    }

    /** `SetHOMEParams`: always queued, whatever the caller asked for. */
    method SetHOMEParams(homeParams: Option<seq<uint8>>, isQueued: bool, queuedCmdIndex: array?<uint64>)
      returns (status: Status)
      requires Valid()
      requires homeParams.Some? ==> |homeParams.value| == HOME_PARAMS_SIZE
      requires queuedCmdIndex != null ==> queuedCmdIndex.Length == 1
      modifies this, queuedCmdIndex
      ensures Valid() && isJointJog == old(isJointJog)
      ensures homeParams.None? ==> status == InvalidParams && sent == old(sent) && completions == old(completions)
      ensures homeParams.None? && queuedCmdIndex != null ==> queuedCmdIndex[..] == old(queuedCmdIndex[..])
      ensures homeParams.Some? ==>
        var c := Next(old(completions));
        && status == c.status && completions == Rest(old(completions))
        && sent == old(sent) + [Message(Id(Home(HOMEParams)), true, true, homeParams.value, 0)]
        && (queuedCmdIndex != null ==> queuedCmdIndex[0] == LeUint64(Filled(Laid(stale, homeParams.value), c.reply)))
    {
      var queued := true;
      if homeParams.None? {
        return InvalidParams;
      }
      var m;
      status, m := Transact(Id(Home(HOMEParams)), true, queued, homeParams.value, HOME_PARAMS_SIZE);
      CopyIndex(m, queued, queuedCmdIndex);
    }

    /** `SetJOGLParams`: never queued, so no index is ever written. */
    method SetJOGLParams(jogLParams: Option<seq<uint8>>, isQueued: bool, queuedCmdIndex: array?<uint64>)
      returns (status: Status)
      requires Valid()
      requires jogLParams.Some? ==> |jogLParams.value| == JOGL_PARAMS_SIZE
      requires queuedCmdIndex != null ==> queuedCmdIndex.Length == 1
      modifies this, queuedCmdIndex
      ensures Valid() && isJointJog == old(isJointJog)
      ensures queuedCmdIndex != null ==> queuedCmdIndex[..] == old(queuedCmdIndex[..])
      ensures jogLParams.None? ==> status == InvalidParams && sent == old(sent) && completions == old(completions)
      ensures jogLParams.Some? ==>
        && status == Next(old(completions)).status && completions == Rest(old(completions))
        && sent == old(sent) + [Message(Id(Jog(JOGLParams)), true, false, jogLParams.value, 0)]
    {
      var queued := false;
      if jogLParams.None? {
        return InvalidParams;
      }
      var m;
      status, m := Transact(Id(Jog(JOGLParams)), true, queued, jogLParams.value, JOGL_PARAMS_SIZE);
      CopyIndex(m, queued, queuedCmdIndex);
    }

    /** `SetJOGCmd`: a non-idle command sets the static mode; the mode and the command are sent. */
    method SetJOGCmd(jogCmd: Option<JogCmd>, isQueued: bool, queuedCmdIndex: array?<uint64>)
      returns (status: Status)
      requires Valid()
      requires queuedCmdIndex != null ==> queuedCmdIndex.Length == 1
      modifies this, queuedCmdIndex
      ensures Valid()
      ensures jogCmd.None? ==>
        status == InvalidParams && sent == old(sent) && completions == old(completions) && isJointJog == old(isJointJog)
      ensures jogCmd.Some? ==>
        && isJointJog == JogMode(old(isJointJog), jogCmd.value)
        && status == Next(old(completions)).status && completions == Rest(old(completions))
        && sent == old(sent) + [Message(Id(Jog(JOGCmd)), true, isQueued, [FromBool(isJointJog), jogCmd.value.cmd], 0)]
      ensures jogCmd.None? && queuedCmdIndex != null ==> queuedCmdIndex[..] == old(queuedCmdIndex[..])
      ensures jogCmd.Some? && queuedCmdIndex != null ==>
        var written := LeUint64(Filled(Laid(stale, [FromBool(isJointJog), jogCmd.value.cmd]), Next(old(completions)).reply));
        queuedCmdIndex[0] == if isQueued then written else old(queuedCmdIndex[0])
    {
      if jogCmd.None? {
        return InvalidParams;
      }
      if jogCmd.value.cmd != JOG_IDLE {
        isJointJog := jogCmd.value.isJoint != 0;
      }
      var m;
      var payload := [FromBool(isJointJog), jogCmd.value.cmd];
      status, m := Transact(Id(Jog(JOGCmd)), true, isQueued, payload, 2);
      assert Laid(stale, payload)[..2] == payload;
      CopyIndex(m, isQueued, queuedCmdIndex);
    }

    /**
     * `SetPTPPOCmd`: always queued; the count byte is 0 unless outputs are
     * given, but the length counts `parallelCmdCount` outputs regardless.
     */
    method SetPTPPOCmd(ptpCmd: Option<seq<uint8>>, parallelCmd: Option<seq<seq<uint8>>>, parallelCmdCount: int,
                       isQueued: bool, queuedCmdIndex: array?<uint64>)
      returns (status: Status)
      requires Valid()
      requires ptpCmd.Some? ==> |ptpCmd.value| == PTP_CMD_SIZE
      requires parallelCmd.Some? ==> forall i :: 0 <= i < |parallelCmd.value| ==> |parallelCmd.value[i]| == 4
      requires parallelCmd.Some? && parallelCmdCount > 0 ==> parallelCmdCount <= |parallelCmd.value|
      requires 0 <= PTPPOParamsLenAsWritten(parallelCmdCount) <= BUFFER_SIZE
      requires queuedCmdIndex != null ==> queuedCmdIndex.Length == 1
      modifies this, queuedCmdIndex
      ensures Valid() && isJointJog == old(isJointJog)
      ensures ptpCmd.None? ==> status == InvalidParams && sent == old(sent) && completions == old(completions)
      ensures ptpCmd.Some? ==>
        var buffer := Laid(stale, PTPPOPayload(ptpCmd.value, parallelCmd, parallelCmdCount));
        && status == Next(old(completions)).status && completions == Rest(old(completions))
        && sent == old(sent) + [Message(Id(Ptp(PTPPOCmd)), true, true, buffer[..PTPPOParamsLenAsWritten(parallelCmdCount)], 0)]
        && (queuedCmdIndex != null ==> queuedCmdIndex[0] == LeUint64(Filled(buffer, Next(old(completions)).reply)))
      ensures ptpCmd.None? && queuedCmdIndex != null ==> queuedCmdIndex[..] == old(queuedCmdIndex[..])
    {
      var queued := true;
      if ptpCmd.None? {
        return InvalidParams;
      }
      var payload := ptpCmd.value;
      if parallelCmd.Some? && parallelCmdCount > 0 {
        Commands.FlattenFours(parallelCmd.value[..parallelCmdCount]);
        payload := payload + [parallelCmdCount % 256] + Flatten(parallelCmd.value[..parallelCmdCount]);
      } else {
        payload := payload + [0];
      }
      var m;
      status, m := Transact(Id(Ptp(PTPPOCmd)), true, queued, payload, PTPPOParamsLenAsWritten(parallelCmdCount));
      CopyIndex(m, queued, queuedCmdIndex);
    }

    /** `SetLostStepParams`: always queued; the index is written with no NULL check. */
    method SetLostStepParams(threshold: seq<uint8>, isQueued: bool, queuedCmdIndex: array<uint64>)
      returns (status: Status)
      requires Valid() && |threshold| == FLOAT_SIZE && queuedCmdIndex.Length == 1
      modifies this, queuedCmdIndex
      ensures Valid() && isJointJog == old(isJointJog)
      ensures var c := Next(old(completions));
        && status == c.status && completions == Rest(old(completions))
        && sent == old(sent) + [Message(Id(LostStep(LostStepSet)), true, true, threshold, 0)]
        && queuedCmdIndex[0] == LeUint64(Filled(Laid(stale, threshold), c.reply))
    {
      var m;
      status, m := Transact(Id(LostStep(LostStepSet)), true, true, threshold, FLOAT_SIZE);
      queuedCmdIndex[0] := LeUint64(m.params[..]);
    }

    /** `SetLostStepCmd`: always queued; the index is written with no NULL check. */
    method SetLostStepCmd(isQueued: bool, queuedCmdIndex: array<uint64>) returns (status: Status)
      requires Valid() && queuedCmdIndex.Length == 1
      modifies this, queuedCmdIndex
      ensures Valid() && isJointJog == old(isJointJog)
      ensures var c := Next(old(completions));
        && status == c.status && completions == Rest(old(completions))
        && sent == old(sent) + [Message(Id(LostStep(LostStepDetect)), true, true, [], 0)]
        && queuedCmdIndex[0] == CurIndex(stale, c)
    {
      var m;
      status, m := Transact(Id(LostStep(LostStepDetect)), true, true, [], 0);
      queuedCmdIndex[0] := LeUint64(m.params[..]);
    }

    /** `GetQueuedCmdCurrentIndex`. */
    method GetQueuedCmdCurrentIndex(curIndex: array?<uint64>) returns (status: Status)
      requires Valid()
      requires curIndex != null ==> curIndex.Length == 1
      modifies this, curIndex
      ensures Valid() && isJointJog == old(isJointJog)
      ensures curIndex == null ==> status == InvalidParams && sent == old(sent) && completions == old(completions)
      ensures curIndex != null ==>
        var c := Next(old(completions));
        && status == c.status && completions == Rest(old(completions))
        && sent == old(sent) + [Message(Id(Queued(QueuedCmdCurrentIndex)), false, false, [], 0)]
        && curIndex[0] == CurIndex(stale, c)
    {
      if curIndex == null {
        return InvalidParams;
      }
      var m;
      status, m := Transact(Id(Queued(QueuedCmdCurrentIndex)), false, false, [], 0);
      curIndex[0] := LeUint64(m.params[..]);
    }

    /** `SendPluse`: both argument checks come before anything is sent. */
    method SendPluse(pluseCmd: Option<seq<uint8>>, isQueued: bool, queuedCmdIndex: array?<uint64>)
      returns (status: Status)
      requires Valid()
      requires pluseCmd.Some? ==> |pluseCmd.value| <= BUFFER_SIZE
      requires queuedCmdIndex != null ==> queuedCmdIndex.Length == 1
      modifies this, queuedCmdIndex
      ensures Valid() && isJointJog == old(isJointJog)
      ensures pluseCmd.None? || (isQueued && queuedCmdIndex == null) ==>
        status == InvalidParams && sent == old(sent) && completions == old(completions)
      ensures pluseCmd.Some? && !(isQueued && queuedCmdIndex == null) ==>
        var c := Next(old(completions));
        && status == c.status && completions == Rest(old(completions))
        && sent == old(sent) + [Message(Id(PulseMode(FunctionPulseMode)), true, isQueued, pluseCmd.value, 0)]
        && (isQueued ==> queuedCmdIndex[0] == LeUint64(Filled(Laid(stale, pluseCmd.value), c.reply)))
      ensures queuedCmdIndex != null && (pluseCmd.None? || !isQueued) ==> queuedCmdIndex[..] == old(queuedCmdIndex[..])
    {
      if pluseCmd.None? {
        return InvalidParams;
      }
      if isQueued && queuedCmdIndex == null {
        return InvalidParams;
      }
      var m;
      status, m := Transact(Id(PulseMode(FunctionPulseMode)), true, isQueued, pluseCmd.value, |pluseCmd.value|);
      CopyIndex(m, isQueued, queuedCmdIndex);
    }

    /**
     * The polling loop of `SendPluseEx`: ask for the current index until a
     * poll fails or the device has reached `index`.
     */
    method AwaitIndex(index: uint64) returns (res: Status)
      requires Valid()
      modifies this
      ensures Valid() && isJointJog == old(isJointJog)
      ensures var p := Poll(old(completions), index, stale);
        && res == p.status
        && sent == old(sent) + Repeat(Message(Id(Queued(QueuedCmdCurrentIndex)), false, false, [], 0), p.polls)
    {
      var curIndex := new uint64[1](_ => 0);
      ghost var cs := completions;
      ghost var base := sent;
      ghost var polls: nat := 0;
      ghost var query := Message(Id(Queued(QueuedCmdCurrentIndex)), false, false, [], 0);
      res := NoError;
      while true
        invariant Valid() && isJointJog == old(isJointJog)
        invariant curIndex.Length == 1
        invariant sent == base + Repeat(query, polls)
        invariant var rest := Poll(completions, index, stale);
          Poll(cs, index, stale) == Polled(polls + rest.polls, rest.status)
        decreases |completions|
      {
        PollStep(completions, index, stale);
        res := GetQueuedCmdCurrentIndex(curIndex);
        polls := polls + 1;
        if res != NoError || curIndex[0] >= index {
          break;
        }
      }
    }

    /** `SendPluseEx`: send the pulse queued, then wait until the device has reached its index. */
    method SendPluseEx(pluseCmd: Option<seq<uint8>>) returns (res: Status)
      requires Valid()
      requires pluseCmd.Some? ==> |pluseCmd.value| <= BUFFER_SIZE
      modifies this
      ensures Valid() && isJointJog == old(isJointJog)
      ensures pluseCmd.None? ==> res == InvalidParams && sent == old(sent) && completions == old(completions)
      ensures pluseCmd.Some? ==>
        var first := Next(old(completions));
        var pulse := Message(Id(PulseMode(FunctionPulseMode)), true, true, pluseCmd.value, 0);
        var query := Message(Id(Queued(QueuedCmdCurrentIndex)), false, false, [], 0);
        var target := LeUint64(Filled(Laid(stale, pluseCmd.value), first.reply));
        if first.status != NoError then
          res == first.status && sent == old(sent) + [pulse]
        else
          var p := Poll(Rest(old(completions)), target, stale);
          res == p.status && sent == old(sent) + [pulse] + Repeat(query, p.polls)
    {
      if pluseCmd.None? {
        return InvalidParams;
      }
      var index := new uint64[1](_ => 0);
      res := SendPluse(pluseCmd, true, index);
      if res == NoError {
        res := AwaitIndex(index[0]);
      }
    }
  }
}
