/** Replay: builds client-to-server frames and hands them to the game's own send
    routine, through the function pointer and connection last registered by the
    send hook. */
module PacketReplay {
  import opened WowTypes
  import opened Game

  /** The bytes the game's send routine expects: the opcode as a 32-bit
      little-endian word (high 16 bits zero) followed by the payload, with no
      size prefix (the game adds that itself). */
  function BuildFrame(opcode: u16, payload: seq<byte>): (frame: seq<byte>)
    ensures |frame| == 4 + |payload|
    ensures LeU32(frame[0], frame[1], frame[2], frame[3]) == opcode
    ensures frame[4..] == payload
  {
    [opcode % 0x100, opcode / 0x100, 0, 0] + payload
  }

  /** The 0x1234 / DE AD BE EF example: 34 12 00 00 DE AD BE EF. */
  lemma BuildFrameExample()
    ensures BuildFrame(0x1234, [0xDE, 0xAD, 0xBE, 0xEF])
         == [0x34, 0x12, 0x00, 0x00, 0xDE, 0xAD, 0xBE, 0xEF]
  {
  }

  /** The descriptor replay passes to the send routine: it holds exactly the
      frame, with read position and base 0. */
  function Descriptor(opcode: u16, payload: seq<byte>): (ds: DataStore)
    ensures ds.buffer == Some(BuildFrame(opcode, payload))
    ensures ds.base == 0 && ds.readPos == 0 && ds.alloc == ds.size
    ensures 4 + |payload| < 0x1_0000_0000 ==> ds.size == 4 + |payload|
  {
    var frame := BuildFrame(opcode, payload);
    DataStore(Some(frame), 0, U32(|frame|), U32(|frame|), 0)
  }

  /** `call` is the send of `opcode` and `payload` through `fn` on `conn`, at priority 0. */
  predicate SentFrame(call: HostCall, fn: FnId, conn: Option<Addr>, opcode: u16, payload: seq<byte>)
  {
    call.SendCall? && call == SendCall(fn, conn, Some(Descriptor(opcode, payload)), 0, call.result)
  }

  /** A send call whose result is non-zero, which replay reads as success. */
  predicate Succeeded(call: HostCall)
  {
    call.SendCall? && call.result != 0
  }

  /** The packets of `pkts` that replay resends: the client-to-server ones, in order. */
  function Replayable(pkts: seq<CapturedPacket>): (r: seq<CapturedPacket>)
    ensures |r| <= |pkts|
    ensures forall k :: 0 <= k < |r| ==> r[k].direction == CMSG && r[k] in pkts
    ensures (forall k :: 0 <= k < |pkts| ==> pkts[k].direction == SMSG) ==> r == []
  {
    if pkts == [] then []
    else
      var last := pkts[|pkts| - 1];
      Replayable(pkts[..|pkts| - 1]) + (if last.direction == CMSG then [last] else [])
  }

  /** Every client-to-server packet is replayed, none is lost. */
  lemma {:induction false} ReplayableKeepsCmsg(pkts: seq<CapturedPacket>, p: CapturedPacket)
    requires p in pkts && p.direction == CMSG
    ensures p in Replayable(pkts)
  {
    var last := pkts[|pkts| - 1];
    if p != last {
      assert p in pkts[..|pkts| - 1] by {
        var k :| 0 <= k < |pkts| && pkts[k] == p;
        assert k < |pkts| - 1;
        assert pkts[..|pkts| - 1][k] == p;
      }
      ReplayableKeepsCmsg(pkts[..|pkts| - 1], p);
    }
  }

  /** A single packet is replayed iff it is client-to-server. */
  lemma ReplayableSingle(p: CapturedPacket)
    ensures Replayable([p]) == if p.direction == CMSG then [p] else []
  {
    assert [p][..0] == [];
  }

  /** Replaying two lists one after the other replays the same packets, in the
      same order, as replaying their concatenation; with `ReplayableSingle` this
      fixes the order and the multiplicity of the replayed packets. */
  lemma {:induction false} ReplayableAppend(a: seq<CapturedPacket>, b: seq<CapturedPacket>)
    ensures Replayable(a + b) == Replayable(a) + Replayable(b)
    decreases |b|
  {
    if b == [] {
      assert a + b == a;
    } else {
      var init := b[..|b| - 1];
      var last := b[|b| - 1];
      assert (a + b)[..|a + b| - 1] == a + init;
      assert (a + b)[|a + b| - 1] == last;
      ReplayableAppend(a, init);
    }
  }

  /** One more packet of the list adds it to the replayable ones iff it is
      client-to-server. */
  lemma ReplayableStep(pkts: seq<CapturedPacket>, i: nat)
    requires i < |pkts|
    ensures Replayable(pkts[..i + 1])
         == Replayable(pkts[..i]) + (if pkts[i].direction == CMSG then [pkts[i]] else [])
  {
    assert pkts[..i + 1][..i] == pkts[..i];
  }

  /** `calls` is the log `start` followed by one send per packet of `rs`, in
      order, each of its frame through `fn` on `conn`; `ok` holds iff every one
      of those sends succeeded. */
  ghost predicate SentInOrder(start: seq<HostCall>, calls: seq<HostCall>, fn: FnId, conn: Option<Addr>,
                              rs: seq<CapturedPacket>, ok: bool)
  {
    |calls| == |start| + |rs| && calls[..|start|] == start
    && (forall k :: 0 <= k < |rs| ==> SentFrame(calls[|start| + k], fn, conn, rs[k].opcode, rs[k].payload))
    && (ok <==> forall k :: |start| <= k < |calls| ==> Succeeded(calls[k]))
  }

  /** One more send of `p`'s frame extends the log by `p`, and the overall
      result by that send's result. */
  lemma SentInOrderExtend(start: seq<HostCall>, before: seq<HostCall>, after: seq<HostCall>,
                          fn: FnId, conn: Option<Addr>, rs: seq<CapturedPacket>, p: CapturedPacket,
                          ok: bool, sent: bool)
    requires SentInOrder(start, before, fn, conn, rs, ok)
    requires |after| == |before| + 1 && after[..|before|] == before
    requires SentFrame(after[|before|], fn, conn, p.opcode, p.payload)
    requires sent <==> Succeeded(after[|before|])
    ensures SentInOrder(start, after, fn, conn, rs + [p], ok && sent)
  {
    forall k | 0 <= k < |before|
      ensures after[k] == before[k]
    {
      assert after[..|before|][k] == after[k];
    }
    assert after[..|start|] == before[..|start|];
  }

  class Replay {
    /** The registered send routine; None for a null pointer. */
    var sendFn: Option<FnId>
    /** The registered connection; None for a null pointer. */
    var conn: Option<Addr>

    /** Nothing registered yet, so replay is not ready. */
    constructor ()
      ensures sendFn == None && conn == None
      ensures !IsReady()
    {
      sendFn := None;
      conn := None;
    }

    /** Both a send routine and a connection are registered (non-null). */
    predicate IsReady()
      reads this
      ensures IsReady() <==> sendFn != None && conn != None
    {
      sendFn.Some? && conn.Some?
    }

    /** Registers the send routine and the connection; the last call wins. */
    method SetSendFn(fn: Option<FnId>, c: Option<Addr>)
      modifies this
      ensures sendFn == fn && conn == c
    {
      sendFn := fn;
      conn := c;
    }

    /** What one `Send(opcode, payload)` did to the host's call log `before`,
        giving `after`, and reported as `ok`. */
    ghost predicate SendEffect(before: seq<HostCall>, after: seq<HostCall>, ok: bool,
                               opcode: u16, payload: seq<byte>)
      reads this
    {
      if IsReady() then
        |after| == |before| + 1 && after[..|before|] == before
        && SentFrame(after[|before|], sendFn.value, conn, opcode, payload)
        && (ok <==> Succeeded(after[|before|]))
      else
        after == before && !ok
    }

    /** Fails without calling anything unless ready; otherwise sends the frame
        once and succeeds iff the send routine returned non-zero. */
    method Send(host: Host, opcode: u16, payload: seq<byte>) returns (ok: bool)
      modifies host
      ensures SendEffect(old(host.calls), host.calls, ok, opcode, payload)
    {
      if sendFn.None? || conn.None? {
        return false;
      }
      var raw := [opcode % 0x100, opcode / 0x100, 0, 0];
      raw := raw + payload;
      var ds := DataStore(Some(raw), 0, U32(|raw|), U32(|raw|), 0);
      var result := host.CallSend(sendFn.value, conn, Some(ds), 0);
      ok := result != 0;
    }

    /** A server-to-client packet is refused without sending; a client-to-server
        one is sent as `Send(opcode, payload)`. */
    method ReplayCaptured(host: Host, pkt: CapturedPacket) returns (ok: bool)
      modifies host
      ensures pkt.direction == SMSG ==> !ok && host.calls == old(host.calls)
      ensures pkt.direction == CMSG ==> SendEffect(old(host.calls), host.calls, ok, pkt.opcode, pkt.payload)
    {
      if pkt.direction != CMSG {
        return false;
      }
      ok := Send(host, pkt.opcode, pkt.payload);
    }

    /** Sends every client-to-server packet of `pkts` in order, carrying on past
        failures, and succeeds iff every attempted send succeeded. The delay
        between sends is not modelled. */
    method ReplaySequence(host: Host, pkts: seq<CapturedPacket>, delayMs: u32 := 0) returns (ok: bool)
      modifies host
      ensures !IsReady() ==> host.calls == old(host.calls) && (ok <==> Replayable(pkts) == [])
      ensures IsReady() ==> SentInOrder(old(host.calls), host.calls, sendFn.value, conn, Replayable(pkts), ok)
    {
      ok := true;
      ghost var start := host.calls;
      var i := 0;
      while i < |pkts|
        invariant 0 <= i <= |pkts|
        invariant !IsReady() ==> host.calls == start && (ok <==> Replayable(pkts[..i]) == [])
        invariant IsReady() ==> SentInOrder(start, host.calls, sendFn.value, conn, Replayable(pkts[..i]), ok)
      {
        var pkt := pkts[i];
        ReplayableStep(pkts, i);
        if pkt.direction != CMSG {
          i := i + 1;
          continue;
        }
        ghost var before := host.calls;
        var sent := ReplayCaptured(host, pkt);
        if IsReady() {
          SentInOrderExtend(start, before, host.calls, sendFn.value, conn, Replayable(pkts[..i]), pkt, ok, sent);
        }
        if !sent {
          ok := false;
        }
        i := i + 1;
      }
      assert pkts[..i] == pkts;
    }
  }
}
