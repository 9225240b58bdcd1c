/** Fixed-width integers, the packet record, the packet-buffer descriptor and
    the layout of a connection, as the capture, replay and hook layers share them. */
module WowTypes {

  type byte = x: int | 0 <= x < 0x100
  type u16 = x: int | 0 <= x < 0x1_0000
  type u32 = x: int | 0 <= x < 0x1_0000_0000
  type u64 = x: int | 0 <= x < 0x1_0000_0000_0000_0000

  /** A raw address in the game's process; a nullable pointer is an `Option<Addr>`. */
  type Addr = nat

  datatype Option<T> = None | Some(value: T)

  /** Truncating conversion to 32 bits, as a C++ `static_cast<uint32_t>` does. */
  function U32(x: int): (r: u32)
    ensures 0 <= x < 0x1_0000_0000 ==> r == x
  {
    x % 0x1_0000_0000
  }

  /** Conversion of an unsigned 32-bit value to a signed 32-bit `int`. */
  function I32(x: u32): (r: int)
    ensures -0x8000_0000 <= r < 0x8000_0000
    ensures x < 0x8000_0000 ==> r == x
    ensures x >= 0x8000_0000 ==> r < 0
  {
    if x < 0x8000_0000 then x else x - 0x1_0000_0000
  }

  /** The 16-bit value of two bytes, least significant first. */
  function LeU16(lo: byte, hi: byte): u16 { lo + 0x100 * hi }

  /** The 16-bit value of two bytes, most significant first. */
  function BeU16(hi: byte, lo: byte): u16 { 0x100 * hi + lo }

  /** The 32-bit value of four bytes, least significant first. */
  function LeU32(b0: byte, b1: byte, b2: byte, b3: byte): u32
  {
    b0 + 0x100 * b1 + 0x1_0000 * b2 + 0x100_0000 * b3
  }

  /** Client-to-server (CMSG) or server-to-client (SMSG). */
  datatype Direction = CMSG | SMSG

  /** One captured packet: `size` is the payload size announced by the hook,
      `payload` the bytes copied (empty when none were copied). */
  datatype CapturedPacket = CapturedPacket(
    direction: Direction,
    opcode: u16,
    size: u32,
    timestampUs: u64,
    payload: seq<byte>)

  /** The game's packet buffer descriptor. `buffer` is None for a null
      `m_buffer`, otherwise the bytes `m_buffer` designates (as many as are
      mapped there; at least `size` of them whenever the buffer is readable). */
  datatype DataStore = DataStore(
    buffer: Option<seq<byte>>,
    base: u32,
    alloc: u32,
    size: u32,
    readPos: u32)

  /** Layout of a connection object: two cipher states of 0x102 bytes each,
      the send state at offset 0x148 and the receive state right after it. */
  const ConnectionSize: nat := 0x378
  const Arc4StateSize: nat := 0x102
  const SendCryptoOffset: nat := 0x148
  const RecvCryptoOffset: nat := 0x24A

  /** Address of the outbound cipher state of the connection at `conn`. */
  function SendCrypto(conn: Addr): Addr { conn + SendCryptoOffset }

  /** Address of the inbound cipher state of the connection at `conn`. */
  function RecvCrypto(conn: Addr): Addr { conn + RecvCryptoOffset }

  /** The two cipher states of one connection are distinct, non-overlapping
      blocks inside it, the receive state directly following the send state. */
  lemma CryptoStatesDisjoint(conn: Addr)
    ensures RecvCrypto(conn) == SendCrypto(conn) + Arc4StateSize
    ensures SendCrypto(conn) != RecvCrypto(conn)
    ensures conn < SendCrypto(conn) && RecvCrypto(conn) + Arc4StateSize <= conn + ConnectionSize
  {
  }
}
