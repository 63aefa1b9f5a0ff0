/**
 * The Dobot frame: `AA AA len id ctrl params... checksum`, where `len` is the
 * number of parameter bytes plus two, `ctrl` carries the read/write and queued
 * flags, and the checksum makes `id + ctrl + params + checksum` vanish mod 256.
 * Both Go copies (connector.go and internal/connector.go) share this layout.
 */
module Frame {
  import opened Bytes

  const SYNC_BYTE: uint8 := 0xAA
  /** The largest length byte the receiver accepts is one less than the sync byte. */
  const MAX_PAYLOAD_SIZE: nat := 0xAA - 1
  /** The receiver allocates this many parameter bytes for every frame. */
  const RECEIVE_PARAMS_SIZE: nat := MAX_PAYLOAD_SIZE - 2

  const RW_BIT: uint8 := 0x01
  const QUEUED_BIT: uint8 := 0x02

  /**
   * A protocol message. `ackLen` is the number of parameter bytes a received
   * frame carried; the Go code allocates `params` separately from it.
   */
  datatype Message = Message(id: uint8, rw: bool, isQueued: bool, params: seq<uint8>, ackLen: uint8)

  /** `Message.Ctrl`: bit 0 for a write, bit 1 for a queued command. */
  function Ctrl(m: Message): (c: uint8)
    ensures c < 4
    ensures (c % 2 == 1) == m.rw
    ensures (c / 2 == 1) == m.isQueued
  {
    (if m.rw then RW_BIT else 0) + (if m.isQueued then QUEUED_BIT else 0)
  }

  /** The two flag bits are disjoint, so adding them is the `|=` of the Go code. */
  lemma CtrlIsBitwiseOr(m: Message)
    ensures var c1 := if m.rw then Or(0, RW_BIT) else 0;
      Ctrl(m) == if m.isQueued then Or(c1, QUEUED_BIT) else c1
  {
  }

  /**
   * `Message.SetCtrl`: raises the flags whose bits are set in `ctrl` and
   * leaves every other field alone; bits 2 to 7 are ignored.
   */
  function SetCtrl(m: Message, ctrl: uint8): (r: Message)
    ensures r.id == m.id && r.params == m.params && r.ackLen == m.ackLen
    ensures r.rw == (m.rw || ctrl % 2 == 1)
    ensures r.isQueued == (m.isQueued || (ctrl / 2) % 2 == 1)
  {
    var r1 := if ctrl % 2 == 1 then m.(rw := true) else m;
    if (ctrl / 2) % 2 == 1 then r1.(isQueued := true) else r1
  }

  /** The tests `ctrl&0x01 != 0` and `(ctrl>>1)&0x01 != 0` read bits 0 and 1. */
  lemma SetCtrlTestsBits(ctrl: uint8)
    ensures (And(ctrl, RW_BIT) != 0) == (ctrl % 2 == 1)
    ensures (And(ctrl / 2, 0x01) != 0) == ((ctrl / 2) % 2 == 1)
  {
  }

  /** SetCtrl only ever raises flags. */
  lemma SetCtrlOnlySets(m: Message, ctrl: uint8)
    ensures m.rw ==> SetCtrl(m, ctrl).rw
    ensures m.isQueued ==> SetCtrl(m, ctrl).isQueued
  {
  }

  /** SetCtrl reads only the two low bits. */
  lemma SetCtrlIgnoresHighBits(m: Message, ctrl: uint8)
    ensures SetCtrl(m, ctrl) == SetCtrl(m, ctrl % 4)
  {
  }

  /** On a message with both flags clear, SetCtrl undoes Ctrl. */
  lemma SetCtrlInvertsCtrl(m: Message, blank: Message)
    requires !blank.rw && !blank.isQueued
    ensures SetCtrl(blank, Ctrl(m)).rw == m.rw
    ensures SetCtrl(blank, Ctrl(m)).isQueued == m.isQueued
  {
  }

  /** `Message.Data`: the bytes the frame carried; Go panics when ackLen exceeds the buffer. */
  function Data(m: Message): seq<uint8>
    requires m.ackLen as int <= |m.params|
  {
    m.params[..m.ackLen]
  }

  /** `Message.Uint32`: the little-endian value of the first four parameter bytes. */
  function Uint32(m: Message): uint32
    requires |m.params| >= 4
  {
    LeUint32(m.params)
  }

  /** `Message.Uint64`: the little-endian value of the first eight parameter bytes. */
  function Uint64(m: Message): uint64
    requires |m.params| >= 8
  {
    LeUint64(m.params)
  }

  /** The byte that makes `id + ctrl + params + checksum` vanish mod 256. */
  function ChecksumOf(m: Message): (cs: uint8)
    ensures (m.id + Ctrl(m) + Sum(m.params) + cs) % 256 == 0
  {
    var total := m.id + Ctrl(m) + Sum(m.params);
    NegationCancels(total);
    (256 - total % 256) % 256
  }

  /** Adding the 8-bit negation of a sum's low byte clears that byte. */
  lemma NegationCancels(total: nat)
    ensures (total + (256 - total % 256) % 256) % 256 == 0
  {
    var q, r := total / 256, total % 256;
    assert total == 256 * q + r;
    if r == 0 {
      assert total + (256 - r) % 256 == 256 * q;
    } else {
      assert total + (256 - r) % 256 == 256 * (q + 1);
    }
  }

  /**
   * The checksum loop of `writeMessage`: an 8-bit accumulator that adds the
   * id, the control byte and every parameter, then is negated.
   */
  method ComputeChecksum(m: Message) returns (checksum: uint8)
    ensures (m.id + Ctrl(m) + Sum(m.params) + checksum) % 256 == 0
    ensures checksum == ChecksumOf(m)
  {
    var ctrl := Ctrl(m);
    var acc: uint8 := 0;
    acc := (acc + m.id) % 256;
    acc := (acc + ctrl) % 256;
    ghost var total: nat := m.id + ctrl;
    assert m.params[..0] == [];
    var k := 0;
    while k < |m.params|
      invariant 0 <= k <= |m.params|
      invariant total == m.id + ctrl + Sum(m.params[..k])
      invariant acc == total % 256
    {
      SumSnoc(m.params, k);
      WrappingAdd(acc, total, m.params[k]);
      acc := (acc + m.params[k]) % 256;
      total := total + m.params[k];
      k := k + 1;
    }
    assert m.params[..k] == m.params;
    checksum := (256 - acc) % 256;
    assert checksum == ChecksumOf(m);
  }

  /** The length byte: `byte(len(Params) + 2)`, which wraps for long parameter lists. */
  function LengthByte(m: Message): uint8
  {
    (|m.params| + 2) % 256
  }

  /** The four pieces `writeMessage` hands to the port, in order. */
  function Chunks(m: Message): (cs: seq<seq<uint8>>)
    ensures |cs| == 4
  {
    [[SYNC_BYTE, SYNC_BYTE, LengthByte(m)], [m.id, Ctrl(m)], m.params, [ChecksumOf(m)]]
  }

  function Flatten(cs: seq<seq<uint8>>): seq<uint8>
  {
    if cs == [] then [] else cs[0] + Flatten(cs[1..])
  }

  /** The whole frame of a message. */
  function Encode(m: Message): (f: seq<uint8>)
    ensures |f| == |m.params| + 6
  {
    [SYNC_BYTE, SYNC_BYTE, LengthByte(m)] + ([m.id, Ctrl(m)] + (m.params + [ChecksumOf(m)]))
  }

  /**
   * The layout `writeMessage` produces: two sync bytes, the length byte, id,
   * control byte, the parameters, and a checksum that makes the bytes from the
   * id onwards sum to zero mod 256.
   */
  lemma EncodeLayout(m: Message)
    ensures var f := Encode(m);
      && f[0] == SYNC_BYTE && f[1] == SYNC_BYTE && f[2] == LengthByte(m)
      && f[3] == m.id && f[4] == Ctrl(m)
      && f[5..5 + |m.params|] == m.params
      && f[5 + |m.params|] == ChecksumOf(m)
      && Sum(f[3..]) % 256 == 0
  {
    var body := [m.id, Ctrl(m)] + (m.params + [ChecksumOf(m)]);
    var f := Encode(m);
    assert f[3..] == body;
    SumConcat([m.id, Ctrl(m)], m.params + [ChecksumOf(m)]);
    SumConcat(m.params, [ChecksumOf(m)]);
    assert Sum([m.id, Ctrl(m)]) == m.id + Ctrl(m) by {
      assert [m.id, Ctrl(m)][1..] == [Ctrl(m)];
    }
    SumSingle(ChecksumOf(m));
    assert Sum(body) == m.id + Ctrl(m) + Sum(m.params) + ChecksumOf(m);
    assert f[5..5 + |m.params|] == m.params;
  }

  /** The chunks `writeMessage` writes make up the frame. */
  lemma ChunksMakeFrame(m: Message)
    ensures Flatten(Chunks(m)) == Encode(m)
  {
    var c3: seq<seq<uint8>> := [[ChecksumOf(m)]];
    var c2: seq<seq<uint8>> := [m.params] + c3;
    var c1: seq<seq<uint8>> := [[m.id, Ctrl(m)]] + c2;
    assert Chunks(m) == [[SYNC_BYTE, SYNC_BYTE, LengthByte(m)]] + c1;
    assert c3[1..] == [];
    assert Flatten(c3) == [ChecksumOf(m)];
    assert Flatten(c2) == m.params + [ChecksumOf(m)] by { assert c2[1..] == c3; }
    assert c1[1..] == c2;
    assert (Chunks(m))[1..] == c1;
  }

  /**
   * A parameter list longer than the receive buffer gets a length byte the
   * receiver rejects, or one that has wrapped around.
   */
  lemma OversizeLengthByte(m: Message)
    requires RECEIVE_PARAMS_SIZE < |m.params| <= 253
    ensures LengthByte(m) >= SYNC_BYTE
  {
  }
}
