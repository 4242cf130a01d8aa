/**
 * The bitboard serializer: a bitboard travels as exactly eight bytes, most
 * significant byte first (Go's `binary.BigEndian`).
 */
module BitboardSerializer {

  type Byte = bv8

  /** A Go `interface{}` argument to `Serialize`: only a `uint64` is accepted. */
  datatype Value = Uint64(v: bv64) | OtherValue(typeName: string)

  /** The `uint64` variable a `*uint64` destination points to. */
  class Uint64Cell {
    var value: bv64

    constructor (v: bv64)
      ensures value == v
    {
      value := v;
    }
  }

  /** A Go `interface{}` destination of `Deserialize`. */
  datatype Dest = Uint64Ptr(cell: Uint64Cell) | OtherDest(typeName: string)

  datatype Serialized = Bytes(data: seq<Byte>) | SerializeError(value: Value)

  /** `binary.BigEndian.PutUint64` into a fresh 8-byte slice: most significant byte first. */
  function PutUint64(v: bv64): (data: seq<Byte>)
    ensures |data| == 8
  {
    [((v >> 56) & 0xFF) as Byte, ((v >> 48) & 0xFF) as Byte, ((v >> 40) & 0xFF) as Byte, ((v >> 32) & 0xFF) as Byte,
     ((v >> 24) & 0xFF) as Byte, ((v >> 16) & 0xFF) as Byte, ((v >> 8) & 0xFF) as Byte, (v & 0xFF) as Byte]
  }

  /** Eight byte-sized values placed side by side, the first one highest. */
  function Join(a: bv64, b: bv64, c: bv64, d: bv64, e: bv64, f: bv64, g: bv64, h: bv64): bv64
  {
    (a << 56) | (b << 48) | (c << 40) | (d << 32) | (e << 24) | (f << 16) | (g << 8) | h
  }

  /** `binary.BigEndian.Uint64`: the first byte is the most significant. */
  function Uint64Of(data: seq<Byte>): bv64
    requires |data| == 8
  {
    Join(data[0] as bv64, data[1] as bv64, data[2] as bv64, data[3] as bv64,
         data[4] as bv64, data[5] as bv64, data[6] as bv64, data[7] as bv64)
  }

  /**
   * `Serialize`: a `uint64` becomes its eight big-endian bytes; any other
   * value is an error.
   */
  function Serialize(value: Value): (r: Serialized)
    ensures r.Bytes? <==> value.Uint64?
    ensures r.Bytes? ==> |r.data| == 8 && Uint64Of(r.data) == value.v
    ensures r.Bytes? ==> r.data[0] == (value.v >> 56) as Byte && r.data[7] == (value.v & 0xFF) as Byte
  {
    match value
    case Uint64(v) =>
      RoundTrip(v);
      Bytes(PutUint64(v))
    case OtherValue(_) => SerializeError(value)
  }

  /**
   * `Deserialize`: succeeds only for a `*uint64` destination and exactly
   * eight bytes, and then stores their big-endian value; on the error path
   * the destination is not written.
   */
  method Deserialize(data: seq<Byte>, dest: Dest) returns (failed: bool)
    modifies if dest.Uint64Ptr? then {dest.cell} else {}
    ensures failed <==> !(dest.Uint64Ptr? && |data| == 8)
    ensures !failed ==> dest.cell.value == Uint64Of(data) && PutUint64(dest.cell.value) == data
    ensures failed && dest.Uint64Ptr? ==> dest.cell.value == old(dest.cell.value)
  {
    if dest.Uint64Ptr? && |data| == 8 {
      dest.cell.value := Uint64Of(data);
      BytesRoundTrip(data);
      return false;
    }
    return true;
  }

  /** Decoding the encoding of a word gives the word back. */
  lemma RoundTrip(v: bv64)
    ensures Uint64Of(PutUint64(v)) == v
  {
  }

  /** Each byte placed by `Join` can be read back at its own position. */
  lemma JoinBytes(a: bv64, b: bv64, c: bv64, d: bv64, e: bv64, f: bv64, g: bv64, h: bv64)
    requires a < 256 && b < 256 && c < 256 && d < 256 && e < 256 && f < 256 && g < 256 && h < 256
    ensures var v := Join(a, b, c, d, e, f, g, h);
      (v >> 56) & 0xFF == a && (v >> 48) & 0xFF == b && (v >> 40) & 0xFF == c && (v >> 32) & 0xFF == d &&
      (v >> 24) & 0xFF == e && (v >> 16) & 0xFF == f && (v >> 8) & 0xFF == g && v & 0xFF == h
  {
  }

  lemma Widen(x: Byte)
    ensures x as bv64 < 256 && (x as bv64) as Byte == x
  {
  }

  /** Encoding the decoding of eight bytes gives the bytes back. */
  lemma BytesRoundTrip(data: seq<Byte>)
    requires |data| == 8
    ensures PutUint64(Uint64Of(data)) == data
  {
    HighBytesBack(data);
    LowBytesBack(data);
    var out := PutUint64(Uint64Of(data));
    assert out == [data[0], data[1], data[2], data[3], data[4], data[5], data[6], data[7]];
  }

  /** The first four bytes survive decoding and encoding. */
  lemma HighBytesBack(data: seq<Byte>)
    requires |data| == 8
    ensures var out := PutUint64(Uint64Of(data));
      out[0] == data[0] && out[1] == data[1] && out[2] == data[2] && out[3] == data[3]
  {
    Widen(data[0]); Widen(data[1]); Widen(data[2]); Widen(data[3]);
    Widen(data[4]); Widen(data[5]); Widen(data[6]); Widen(data[7]);
    JoinBytes(data[0] as bv64, data[1] as bv64, data[2] as bv64, data[3] as bv64,
              data[4] as bv64, data[5] as bv64, data[6] as bv64, data[7] as bv64);
  }

  /** The last four bytes survive decoding and encoding. */
  lemma LowBytesBack(data: seq<Byte>)
    requires |data| == 8
    ensures var out := PutUint64(Uint64Of(data));
      out[4] == data[4] && out[5] == data[5] && out[6] == data[6] && out[7] == data[7]
  {
    Widen(data[0]); Widen(data[1]); Widen(data[2]); Widen(data[3]);
    Widen(data[4]); Widen(data[5]); Widen(data[6]); Widen(data[7]);
    JoinBytes(data[0] as bv64, data[1] as bv64, data[2] as bv64, data[3] as bv64,
              data[4] as bv64, data[5] as bv64, data[6] as bv64, data[7] as bv64);
  }

  /** Deserializing what Serialize produced stores the original word. */
  lemma SerializeThenDeserialize(v: bv64)
    ensures Serialize(Uint64(v)).Bytes?
    ensures Uint64Of(Serialize(Uint64(v)).data) == v
  {
  }

  /** Serializing the stored value of any eight bytes gives the same bytes. */
  lemma DeserializeThenSerialize(data: seq<Byte>)
    requires |data| == 8
    ensures Serialize(Uint64(Uint64Of(data))) == Bytes(data)
  {
    BytesRoundTrip(data);
  }
}
