/** The hooks placed on the game's packet path: header parsing, the outbound
    send hook, the cipher hook that recognises inbound headers by the identity
    of the cipher state, the key-install and auth-challenge hooks that track
    the active connection, and hook installation. Every hook forwards the
    original call with its arguments unchanged and returns its result. */
module PacketHooks {
  import opened WowTypes
  import opened Game
  import opened PacketCapture
  import opened PacketReplay

  /** Capacity of the session-key snapshot. */
  const MaxSessionKey: nat := 40

  /** Opcode and payload length read from a plaintext header. */
  datatype Header = Header(opcode: u16, payloadLen: u32)

  // ---------------------------------------------------------------------------
  //  Header parsing
  // ---------------------------------------------------------------------------

  /** Client header: big-endian size (payload + 4), then the opcode, little-endian.
      Fails only on fewer than 6 bytes; a size below 4 wraps around. */
  function ParseCMSG(data: seq<byte>, len: int): (r: Option<Header>)
    requires len <= |data|
    ensures r.None? <==> len < 6
    ensures r.Some? ==> r.value.opcode == LeU16(data[2], data[3])
    ensures r.Some? ==> U32(r.value.payloadLen + 4) == BeU16(data[0], data[1])
  {
    if len < 6 then None
    else Some(Header(LeU16(data[2], data[3]), U32(BeU16(data[0], data[1]) - 4)))
  }

  /** Server header: big-endian size (payload + 2), then the opcode, little-endian.
      Fails only on fewer than 4 bytes; a size below 2 wraps around. */
  function ParseSMSG(data: seq<byte>, len: int): (r: Option<Header>)
    requires len <= |data|
    ensures r.None? <==> len < 4
    ensures r.Some? ==> r.value.opcode == LeU16(data[2], data[3])
    ensures r.Some? ==> U32(r.value.payloadLen + 2) == BeU16(data[0], data[1])
  {
    if len < 4 then None
    else Some(Header(LeU16(data[2], data[3]), U32(BeU16(data[0], data[1]) - 2)))
  }

  /** The plaintext header of a server packet with this opcode and payload length. */
  function SmsgHeader(opcode: u16, payloadLen: nat): (h: seq<byte>)
    requires payloadLen + 2 < 0x1_0000
    ensures |h| == 4
  {
    var size := payloadLen + 2;
    [size / 0x100, size % 0x100, opcode % 0x100, opcode / 0x100]
  }

  /** The plaintext header of a client packet with this opcode and payload length. */
  function CmsgHeader(opcode: u16, payloadLen: nat): (h: seq<byte>)
    requires payloadLen + 4 < 0x1_0000
    ensures |h| == 6
  {
    var size := payloadLen + 4;
    [size / 0x100, size % 0x100, opcode % 0x100, opcode / 0x100, 0, 0]
  }

  /** Parsing a server header recovers the opcode and payload length it was built from. */
  lemma ParseSMSGRoundTrip(opcode: u16, payloadLen: nat, rest: seq<byte>)
    requires payloadLen + 2 < 0x1_0000
    ensures ParseSMSG(SmsgHeader(opcode, payloadLen) + rest, 4 + |rest|) == Some(Header(opcode, payloadLen))
  {
    var data := SmsgHeader(opcode, payloadLen) + rest;
    assert BeU16(data[0], data[1]) == payloadLen + 2;
    assert LeU16(data[2], data[3]) == opcode;
  }

  /** Parsing a client header recovers the opcode and payload length it was built from. */
  lemma ParseCMSGRoundTrip(opcode: u16, payloadLen: nat, rest: seq<byte>)
    requires payloadLen + 4 < 0x1_0000
    ensures ParseCMSG(CmsgHeader(opcode, payloadLen) + rest, 6 + |rest|) == Some(Header(opcode, payloadLen))
  {
    var data := CmsgHeader(opcode, payloadLen) + rest;
    assert BeU16(data[0], data[1]) == payloadLen + 4;
    assert LeU16(data[2], data[3]) == opcode;
  }

  /** The bytes 00 06 34 12 AA BB CC DD parse as opcode 0x1234 with a 4-byte
      payload, which is AA BB CC DD. */
  lemma ParseSMSGExample()
    ensures var data := [0x00, 0x06, 0x34, 0x12, 0xAA, 0xBB, 0xCC, 0xDD];
            ParseSMSG(data, 8) == Some(Header(0x1234, 4)) && data[4..8] == [0xAA, 0xBB, 0xCC, 0xDD]
  {
  }

  /** A server size field below 2 yields a payload length of about 4 GiB. */
  lemma ParseSMSGWraps(data: seq<byte>, len: int)
    requires 4 <= len <= |data|
    requires data[0] == 0 && data[1] < 2
    ensures ParseSMSG(data, len) == Some(Header(LeU16(data[2], data[3]), 0xFFFF_FFFE + data[1] as int))
  {
  }

  // ---------------------------------------------------------------------------
  //  Outbound extraction (send hook)
  // ---------------------------------------------------------------------------

  /** What the send hook reads from a packet: the opcode, the payload pointer
      (None for a null pointer) and the payload length. */
  datatype Outbound = Outbound(opcode: u16, payload: Option<seq<byte>>, payloadLen: u32)

  /** A readable buffer holds at least the `size` bytes the descriptor announces. */
  predicate BufferPresent(packet: Option<DataStore>, readable: DataStore -> bool)
  {
    packet.Some? && readable(packet.value) && packet.value.buffer.Some? ==>
      packet.value.size <= |packet.value.buffer.value|
  }

  /** Reads a packet only when the descriptor and its buffer are non-null, it
      holds at least 4 bytes and the buffer is readable: the opcode is the
      little-endian 16 bits at offset 0 and the payload starts at offset 4. */
  function ExtractOutbound(packet: Option<DataStore>, readable: DataStore -> bool): (r: Option<Outbound>)
    requires BufferPresent(packet, readable)
    ensures r.Some? <==> packet.Some? && packet.value.buffer.Some? && packet.value.size >= 4
                         && readable(packet.value)
    ensures r.Some? ==> r.value.opcode == LeU16(packet.value.buffer.value[0], packet.value.buffer.value[1])
    ensures r.Some? ==> r.value.payloadLen + 4 == packet.value.size
    ensures r.Some? ==> (r.value.payload.None? <==> r.value.payloadLen == 0)
    ensures r.Some? && r.value.payload.Some? ==>
              r.value.payloadLen <= |r.value.payload.value| && r.value.payload.value == packet.value.buffer.value[4..]
  {
    if packet.Some? && packet.value.buffer.Some? && packet.value.size >= 4 && readable(packet.value) then
      var buf := packet.value.buffer.value;
      var payloadLen := packet.value.size - 4;
      Some(Outbound(LeU16(buf[0], buf[1]), if payloadLen > 0 then Some(buf[4..]) else None, payloadLen))
    else None
  }

  /** What the send hook captures from a frame built by replay is the opcode
      and payload that were replayed. */
  lemma ReplayedFrameRoundTrip(opcode: u16, payload: seq<byte>, readable: DataStore -> bool)
    requires 4 + |payload| < 0x1_0000_0000
    requires readable(Descriptor(opcode, payload))
    ensures BufferPresent(Some(Descriptor(opcode, payload)), readable)
    ensures var r := ExtractOutbound(Some(Descriptor(opcode, payload)), readable);
            r.Some? && r.value.opcode == opcode && r.value.payloadLen == |payload|
            && Copied(r.value.payload, r.value.payloadLen) == payload
  {
    var frame := BuildFrame(opcode, payload);
    assert frame[0] as int + 0x100 * frame[1] as int == opcode by {
      assert LeU32(frame[0], frame[1], frame[2], frame[3]) == opcode;
    }
    var r := ExtractOutbound(Some(Descriptor(opcode, payload)), readable);
    if |payload| > 0 {
      assert r.value.payload.value == payload;
    }
  }

  // ---------------------------------------------------------------------------
  //  Direction classification (cipher hook)
  // ---------------------------------------------------------------------------

  /** Whether one cipher call is inbound, and the tracked connection afterwards. */
  datatype Classification = Classification(inbound: bool, tracked: Option<Addr>)

  /** A call is inbound iff a connection is tracked, it is readable, the call
      processes at least one byte, and one of its cipher states is that
      connection's receive state. An unreadable tracked connection is dropped.
      `connReadable(c)` stands for probing the `ConnectionSize` bytes of the
      connection at `c`. */
  function Classify(tracked: Option<Addr>, connReadable: Addr -> bool, len: u32, src: Addr, dst: Addr)
    : (c: Classification)
    ensures c.inbound <==> tracked.Some? && connReadable(tracked.value) && len > 0
                           && (src == RecvCrypto(tracked.value) || dst == RecvCrypto(tracked.value))
    ensures c.tracked == if tracked.Some? && !connReadable(tracked.value) then None else tracked
  {
    if tracked.Some? then
      if !connReadable(tracked.value) then Classification(false, None)
      else Classification(len > 0 && (src == RecvCrypto(tracked.value) || dst == RecvCrypto(tracked.value)), tracked)
    else Classification(false, None)
  }

  /** A call that uses only the tracked connection's send state is never
      inbound, whatever the length; the order of the two states does not matter. */
  lemma ClassifyOutboundNeverInbound(conn: Addr, connReadable: Addr -> bool, len: u32)
    ensures !Classify(Some(conn), connReadable, len, SendCrypto(conn), SendCrypto(conn)).inbound
  {
    CryptoStatesDisjoint(conn);
  }

  lemma ClassifySymmetric(tracked: Option<Addr>, connReadable: Addr -> bool, len: u32, src: Addr, dst: Addr)
    ensures Classify(tracked, connReadable, len, src, dst) == Classify(tracked, connReadable, len, dst, src)
  {
  }

  // ---------------------------------------------------------------------------
  //  The hooks
  // ---------------------------------------------------------------------------

  /** Reading the payload announced by a deciphered inbound header stays inside
      the buffer. The hook itself does not check this: the length comes from the
      deciphered size field, not from the length of the call. */
  predicate InboundPayloadInBuffer(plain: seq<byte>, len: u32, inbound: bool, filters: seq<FilterRule>)
    requires len <= |plain|
  {
    var h := ParseSMSG(plain, I32(len));
    (inbound && len >= 4 && h.Some? && !Blocked(filters, SMSG, h.value.opcode) && h.value.payloadLen > 0)
      ==> 4 + h.value.payloadLen <= |plain|
  }

  /** The order in which the hooks are installed. */
  const Layers: seq<Layer> := [WowConnSend, Arc4Process, SetEncryptionKey, AuthChallenge]

  class Hooks {
    /** The tracked connection; None for a null pointer. */
    var activeConn: Option<Addr>
    /** The session-key snapshot buffer and the length last copied into it. */
    var sessionKey: seq<byte>
    var sessionKeyLen: byte

    const capture: Capture
    const replay: Replay
    const host: Host
    /** Trampoline to the game's original send routine. */
    const origSend: FnId

    ghost predicate Valid()
      reads this, capture
    {
      |sessionKey| == MaxSessionKey && sessionKeyLen <= MaxSessionKey && capture.Valid()
    }

    /** No connection tracked and an empty, zeroed key snapshot. */
    constructor (capture: Capture, replay: Replay, host: Host, origSend: FnId)
      requires capture.Valid()
      ensures Valid()
      ensures this.capture == capture && this.replay == replay && this.host == host
      ensures this.origSend == origSend
      ensures activeConn == None && sessionKeyLen == 0
      ensures sessionKey == seq(MaxSessionKey, _ => 0)
    {
      this.capture := capture;
      this.replay := replay;
      this.host := host;
      this.origSend := origSend;
      activeConn := None;
      sessionKey := seq(MaxSessionKey, _ => 0);
      sessionKeyLen := 0;
    }

    /** The meaningful prefix of the 40-byte key snapshot: the bytes last copied.
        The snapshot is written by the key-install hook and read nowhere else. */
    function SessionKey(): (k: seq<byte>)
      reads this
      requires |sessionKey| == MaxSessionKey && sessionKeyLen <= MaxSessionKey
      ensures |k| == sessionKeyLen && k <= sessionKey
    {
      sessionKey[..sessionKeyLen]
    }

    method SetActiveConnection(conn: Option<Addr>)
      modifies this`activeConn
      ensures activeConn == conn
    {
      activeConn := conn;
    }

    /** The connection the hooks last tracked. */
    function GetActiveConnection(): (c: Option<Addr>)
      reads this
      ensures c == activeConn
    {
      activeConn
    }

    /** The send hook: registers the original send routine and `self` for
        replay, offers the packet to the capture engine when it can be read,
        then forwards the call unchanged and returns its result. */
    method SendDetour(self: Option<Addr>, packet: Option<DataStore>, priority: int,
                      readable: DataStore -> bool, counter: u64, freq: u64) returns (r: int)
      requires Valid() && freq > 0
      requires BufferPresent(packet, readable)
      modifies capture, replay, host
      ensures Valid()
      ensures replay.sendFn == Some(origSend) && replay.conn == self
      ensures host.calls == old(host.calls) + [SendCall(origSend, self, packet, priority, r)]
      ensures var ex := ExtractOutbound(packet, readable);
              capture.Model() == if ex.None? then old(capture.Model())
                                 else Offered(old(capture.Model()), CMSG, ex.value.opcode,
                                              ex.value.payload, ex.value.payloadLen, counter, freq)
    {
      replay.SetSendFn(Some(origSend), self);

      var safeCapture := false;
      var opcode: u16 := 0;
      var payloadLen: u32 := 0;
      var payloadPtr: Option<seq<byte>> := None;
      if packet.Some? && packet.value.buffer.Some? && packet.value.size >= 4 {
        if readable(packet.value) {
          var buf := packet.value.buffer.value;
          opcode := LeU16(buf[0], buf[1]);
          payloadLen := packet.value.size - 4;
          payloadPtr := if payloadLen > 0 then Some(buf[4..]) else None;
          safeCapture := true;
        }
      }

      if safeCapture {
        var pass := capture.ShouldCapture(CMSG, opcode);
        if pass {
          capture.Push(CMSG, opcode, payloadPtr, payloadLen, counter, freq);
        }
      }

      r := host.CallSend(origSend, self, packet, priority);
    }

    /** The cipher hook: classifies the call, runs the original cipher on the
        buffer, and for an inbound header of at least 4 bytes offers the
        deciphered packet to the capture engine; returns the original's result. */
    method Arc4Detour(data: array<byte>, len: u32, src: Addr, dst: Addr,
                      connReadable: Addr -> bool, counter: u64, freq: u64) returns (result: Addr)
      requires Valid() && freq > 0
      requires len <= data.Length
      requires InboundPayloadInBuffer(host.Deciphered(data[..], len, src, dst), len,
                                      Classify(activeConn, connReadable, len, src, dst).inbound,
                                      capture.filters)
      modifies this, capture, host, data
      ensures Valid()
      ensures activeConn == Classify(old(activeConn), connReadable, len, src, dst).tracked
      ensures sessionKey == old(sessionKey) && sessionKeyLen == old(sessionKeyLen)
      ensures data[..] == host.Deciphered(old(data[..]), len, src, dst)
      ensures host.calls == old(host.calls) + [Arc4Call(data, len, src, dst, result)]
      ensures var inbound := Classify(old(activeConn), connReadable, len, src, dst).inbound;
              var h := ParseSMSG(data[..], I32(len));
              capture.Model() == if inbound && len >= 4 && h.Some? then
                                   Offered(old(capture.Model()), SMSG, h.value.opcode,
                                           if h.value.payloadLen > 0 then Some(data[4..]) else None,
                                           h.value.payloadLen, counter, freq)
                                 else old(capture.Model())
    {
      var isRecv := false;
      if activeConn.Some? {
        if !connReadable(activeConn.value) {
          activeConn := None;
        } else if len > 0 && (src == RecvCrypto(activeConn.value) || dst == RecvCrypto(activeConn.value)) {
          isRecv := true;
        }
      }

      result := host.Arc4Process(data, len, src, dst);

      if isRecv && len >= 4 {
        var h := ParseSMSG(data[..], I32(len));
        if h.Some? {
          var pass := capture.ShouldCapture(SMSG, h.value.opcode);
          if pass {
            var payloadPtr := if h.value.payloadLen > 0 then Some(data[4..]) else None;
            capture.Push(SMSG, h.value.opcode, payloadPtr, h.value.payloadLen, counter, freq);
          }
        }
      }
    }

    /** The key-install hook: tracks `self`, snapshots a non-null key of at most
        40 bytes (a longer or null key leaves the old snapshot), then forwards
        the call unchanged. */
    method SetEncKeyDetour(self: Option<Addr>, key: Option<seq<byte>>, keyLen: byte,
                           serverMode: byte, seed: Option<seq<byte>>, seedLen: byte)
      requires Valid()
      requires key.Some? && keyLen <= MaxSessionKey ==> keyLen <= |key.value|
      modifies this, host
      ensures Valid()
      ensures activeConn == self
      ensures key.Some? && keyLen <= MaxSessionKey ==>
                sessionKey == key.value[..keyLen] + old(sessionKey)[keyLen..]
                && sessionKeyLen == keyLen && SessionKey() == key.value[..keyLen]
      ensures !(key.Some? && keyLen <= MaxSessionKey) ==>
                sessionKey == old(sessionKey) && sessionKeyLen == old(sessionKeyLen)
      ensures host.calls == old(host.calls) + [SetEncKeyCall(self, key, keyLen, serverMode, seed, seedLen)]
    {
      activeConn := self;
      if key.Some? && keyLen <= MaxSessionKey {
        sessionKey := key.value[..keyLen] + sessionKey[keyLen..];
        sessionKeyLen := keyLen;
      }
      host.SetEncKey(self, key, keyLen, serverMode, seed, seedLen);
    }

    /** The auth-challenge hook: tracks `conn`, then forwards the call unchanged. */
    method AuthChallengeDetour(netClient: Addr, conn: Option<Addr>, packetRef: Addr)
      requires Valid()
      modifies this`activeConn, host
      ensures Valid()
      ensures activeConn == conn
      ensures host.calls == old(host.calls) + [AuthChallengeCall(netClient, conn, packetRef)]
    {
      activeConn := conn;
      host.AuthChallenge(netClient, conn, packetRef);
    }

    /** Attempts to install all four hooks, in order, whatever the earlier
        attempts returned, and succeeds iff every attempt succeeded. */
    method Install() returns (ok: bool)
      modifies host
      ensures |host.calls| == |old(host.calls)| + |Layers|
      ensures host.calls[..|old(host.calls)|] == old(host.calls)
      ensures forall k :: 0 <= k < |Layers| ==>
                host.calls[|old(host.calls)| + k].HookAdd? && host.calls[|old(host.calls)| + k].layer == Layers[k]
      ensures ok <==> forall k :: 0 <= k < |Layers| ==> host.calls[|old(host.calls)| + k] == HookAdd(Layers[k], true)
    {
      ghost var start := host.calls;
      ok := true;
      var a := host.AddHook(WowConnSend);
      ok := ok && a;
      var b := host.AddHook(Arc4Process);
      ok := ok && b;
      var c := host.AddHook(SetEncryptionKey);
      ok := ok && c;
      var d := host.AddHook(AuthChallenge);
      ok := ok && d;
      assert host.calls == start + [HookAdd(WowConnSend, a), HookAdd(Arc4Process, b),
                                    HookAdd(SetEncryptionKey, c), HookAdd(AuthChallenge, d)];
      ghost var n := |start|;
      assert host.calls[n] == HookAdd(Layers[0], a) && host.calls[n + 1] == HookAdd(Layers[1], b);
      assert host.calls[n + 2] == HookAdd(Layers[2], c) && host.calls[n + 3] == HookAdd(Layers[3], d);
    }
  }
}
