/** Values shared by the slot models: slot states, message types and the signed
    size convention that says at which end of a buffer a payload sits. */
module SlotTypes {

  type byte = x: int | 0 <= x < 256
  type int32 = x: int | -0x8000_0000 <= x < 0x8000_0000

  datatype SlotState = FREE | REQ_READY | RESP_READY | DONE | BUSY | GUEST_BUSY

  const NORMAL: int := 0
  const HEARTBEAT_REQ: int := 1
  const HEARTBEAT_RESP: int := 2
  const SHUTDOWN: int := 3
  const SYSTEM_ERROR: int := 127

  /** Width of the wrapping message sequence counter. */
  const SEQ_MODULUS: int := 0x1_0000_0000

  /** The magnitude both peers compute as an unsigned 32-bit value. */
  function UAbs(size: int): nat {
    if size < 0 then -size else size
  }

  /** The payload a signed size designates: a prefix, or a suffix when negative. */
  function Take(buf: seq<byte>, size: int32): (data: seq<byte>)
    requires UAbs(size) <= |buf|
    ensures |data| == UAbs(size)
  {
    if size >= 0 then buf[..size] else buf[|buf| + size..]
  }

  /** Writes `data` at the end of the buffer that `size` designates. */
  function Put(buf: seq<byte>, size: int32, data: seq<byte>): (r: seq<byte>)
    requires |data| == UAbs(size) <= |buf|
    ensures |r| == |buf|
    ensures Take(r, size) == data
  {
    if size >= 0 then data + buf[size..] else buf[..|buf| + size] + data
  }

  /** A non-negative size designates the front of the buffer, a negative one its back. */
  lemma TakeIsAnEnd(buf: seq<byte>, size: int32)
    requires UAbs(size) <= |buf|
    ensures var data := Take(buf, size);
      if size >= 0 then data + buf[|data|..] == buf else buf[..|buf| - |data|] + data == buf
  {
  }
}
