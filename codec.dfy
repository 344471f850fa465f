/**
 * The blob codec of the `matches` tree: the wrapped match JSON is serialized
 * and zstd-compressed on write, and decompressed and parsed on read. The byte
 * format is not modelled: a blob is either a frame this codec produced, which
 * carries the value it encodes, or bytes that fail to decompress or to parse.
 */
module Codec {

  import opened Wrappers
  import opened Json

  datatype Blob = Frame(root: Json) | Damaged(bytes: seq<bv8>)

  datatype DecodeError = CorruptRecord

  /** `zstd::decode_all` followed by `serde_json::from_slice`. */
  function Decode(b: Blob): Result<Json, DecodeError> {
    match b
    case Frame(v) => Success(v)
    case Damaged(_) => Failure(CorruptRecord)
  }

  /** `serde_json::to_vec` followed by `zstd::encode_all(.., 3)`; what it writes reads back. */
  function Encode(v: Json): (b: Blob)
    ensures Decode(b) == Success(v)
  {
    Frame(v)
  }

}
