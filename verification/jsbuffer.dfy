/**
 * The reads the parser performs on a Node.js `Buffer`: indexing yields
 * `undefined` past the end, `subarray` clamps both ends, and `readUInt16BE`
 * needs both bytes to exist.
 */
module JsBuffer {
  import opened Wrappers

  type Byte = b: int | 0 <= b < 256

  type Bytes = seq<Byte>

  /** `buf[i]`, with `None` for `undefined`. */
  function At(buf: Bytes, i: nat): (r: Option<Byte>)
    ensures r.Some? <==> i < |buf|
    ensures r.Some? ==> r.value == buf[i]
  {
    if i < |buf| then Some(buf[i]) else None
  }

  /** `buf.subarray(from, to)`: both ends clamped to the buffer. */
  function Sub(buf: Bytes, from: nat, to: nat): (r: Bytes)
    ensures from <= to <= |buf| ==> r == buf[from..to]
    ensures from <= |buf| && |buf| < to ==> r == buf[from..]
    ensures |buf| < from ==> r == []
  {
    var b := if from < |buf| then from else |buf|;
    var e := if to < |buf| then to else |buf|;
    if e <= b then [] else buf[b..e]
  }

  /** `buf.readUInt16BE(at)` once the two bytes are known to exist. */
  function U16(buf: Bytes, at: nat): (v: nat)
    requires at + 2 <= |buf|
    ensures v < 65536
  {
    buf[at] as int * 256 + buf[at + 1] as int
  }
}
