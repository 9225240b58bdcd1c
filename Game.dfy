/** The game client's own routines that the hooks wrap and that replay calls,
    and the hooking library's "create hook" call. Their implementations are
    not part of this model: each one records the call it received in `calls`
    and returns a result it is free to choose. */
module Game {
  import opened WowTypes

  /** Identity of a function pointer (a trampoline to an original routine). */
  type FnId = nat

  /** The four hooked routines, in the order they are installed. */
  datatype Layer = WowConnSend | Arc4Process | SetEncryptionKey | AuthChallenge

  /** One call from this code into the game or into the hooking library. */
  datatype HostCall =
    | SendCall(fn: FnId, conn: Option<Addr>, packet: Option<DataStore>, priority: int, result: int)
    | Arc4Call(data: array<byte>, len: u32, src: Addr, dst: Addr, state: Addr)
    | SetEncKeyCall(conn: Option<Addr>, key: Option<seq<byte>>, keyLen: byte,
                    serverMode: byte, seed: Option<seq<byte>>, seedLen: byte)
    | AuthChallengeCall(netClient: Addr, conn: Option<Addr>, packetRef: Addr)
    | HookAdd(layer: Layer, ok: bool)

  class Host {
    /** Every call received so far, oldest first. */
    var calls: seq<HostCall>

    /** What the game's header cipher leaves in place of the bytes it is given,
        for a given pair of cipher states. Any function will do here. */
    const decipher: (seq<byte>, Addr, Addr) -> seq<byte>

    constructor (decipher: (seq<byte>, Addr, Addr) -> seq<byte>)
      ensures calls == [] && this.decipher == decipher
    {
      calls := [];
      this.decipher := decipher;
    }

    /** The buffer `buf` after the cipher has processed its first `len` bytes
        in place: only those bytes may differ. */
    function Deciphered(buf: seq<byte>, len: nat, src: Addr, dst: Addr): (out: seq<byte>)
      requires len <= |buf|
      ensures |out| == |buf| && out[len..] == buf[len..]
    {
      var k := decipher(buf[..len], src, dst);
      seq(|buf|, i requires 0 <= i < |buf| => if i < len && i < |k| then k[i] else buf[i])
    }

    /** The game's `WowConnection::Send`, reached through the function pointer `fn`. */
    method CallSend(fn: FnId, conn: Option<Addr>, packet: Option<DataStore>, priority: int)
      returns (r: int)
      modifies this
      ensures calls == old(calls) + [SendCall(fn, conn, packet, priority, r)]
    {
      r :| true;
      calls := calls + [SendCall(fn, conn, packet, priority, r)];
    }

    /** The game's `ARC4_Process`: rewrites the first `len` bytes of `data` in place. */
    method Arc4Process(data: array<byte>, len: u32, src: Addr, dst: Addr) returns (r: Addr)
      requires len <= data.Length
      modifies this, data
      ensures data[..] == Deciphered(old(data[..]), len, src, dst)
      ensures calls == old(calls) + [Arc4Call(data, len, src, dst, r)]
    {
      var out := Deciphered(data[..], len, src, dst);
      forall i | 0 <= i < data.Length {
        data[i] := out[i];
      }
      assert data[..] == out;
      r :| true;
      calls := calls + [Arc4Call(data, len, src, dst, r)];
    }

    /** The game's `WowConnection::SetEncryptionKey`. */
    method SetEncKey(conn: Option<Addr>, key: Option<seq<byte>>, keyLen: byte,
                     serverMode: byte, seed: Option<seq<byte>>, seedLen: byte)
      modifies this
      ensures calls == old(calls) + [SetEncKeyCall(conn, key, keyLen, serverMode, seed, seedLen)]
    {
      calls := calls + [SetEncKeyCall(conn, key, keyLen, serverMode, seed, seedLen)];
    }

    /** The game's `NetClient::AuthChallengeHandler`. */
    method AuthChallenge(netClient: Addr, conn: Option<Addr>, packet: Addr)
      modifies this
      ensures calls == old(calls) + [AuthChallengeCall(netClient, conn, packet)]
    {
      calls := calls + [AuthChallengeCall(netClient, conn, packet)];
    }

    /** The hooking library's "create hook" for one layer; reports success or failure. */
    method AddHook(layer: Layer) returns (ok: bool)
      modifies this
      ensures calls == old(calls) + [HookAdd(layer, ok)]
    {
      ok :| true;
      calls := calls + [HookAdd(layer, ok)];
    }
  }
}
