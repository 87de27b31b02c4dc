/**
 * The Protocol Buffers wire format as the encoder writes it: base-128
 * varints (the "Base 128 Varints" of the protobuf encoding documentation,
 * unsigned LEB128 in section 7.6 of DWARF 4), one-byte tags
 * `(field << 3) | wiretype`, length-delimited records and packed repeated
 * fields.  A message is modelled as the list of fields it writes; its bytes
 * are the concatenation of the fields' bytes.
 */
module Wire {
  import opened Bytes

  // The WireType enumeration of bindings/pprof.h.
  const WireTypeVarInt: nat := 0
  const WireType64Bit: nat := 1
  const WireTypeLengthDelimited: nat := 2
  const WireType32Bit: nat := 5

  /** Set on every varint byte but the last. */
  const HasMoreBytes: nat := 128

  /** Base-128 little-endian encoding of n. */
  function Varint(n: nat): Bytes
    decreases n
  {
    if n < HasMoreBytes then [n as byte]
    else [(n % 128 + HasMoreBytes) as byte] + Varint(n / 128)
  }

  /** The 7-bit groups of every byte of bs, reassembled little-endian. */
  function GroupsValue(bs: Bytes): nat
  {
    if bs == [] then 0 else bs[0] as nat % 128 + 128 * GroupsValue(bs[1..])
  }

  /** Bytes up to and including the first one with the high bit clear (all of bs if none). */
  function VarintLength(bs: Bytes): (k: nat)
    ensures k <= |bs|
    ensures bs != [] ==> 1 <= k
  {
    if bs == [] then 0
    else if bs[0] as nat < HasMoreBytes then 1
    else 1 + VarintLength(bs[1..])
  }

  /** Every byte but the last has the continuation bit, the last does not. */
  predicate IsVarint(bs: Bytes)
  {
    |bs| >= 1 && bs[|bs| - 1] as nat < HasMoreBytes &&
    forall i :: 0 <= i < |bs| - 1 ==> bs[i] as nat >= HasMoreBytes
  }

  /** The encoding is well formed and its groups reassemble to n. */
  lemma {:induction false} VarintCorrect(n: nat)
    ensures IsVarint(Varint(n))
    ensures GroupsValue(Varint(n)) == n
    decreases n
  {
    if n >= HasMoreBytes {
      VarintCorrect(n / 128);
      var tail := Varint(n / 128);
      assert Varint(n) == [(n % 128 + HasMoreBytes) as byte] + tail;
      assert Varint(n)[1..] == tail;
    }
  }

  /** A varint followed by anything: its terminator ends the prefix. */
  lemma {:induction false} VarintLengthOfVarint(n: nat, rest: Bytes)
    ensures VarintLength(Varint(n) + rest) == |Varint(n)|
    ensures (Varint(n) + rest)[..|Varint(n)|] == Varint(n)
    decreases n
  {
    if n >= HasMoreBytes {
      VarintLengthOfVarint(n / 128, rest);
      assert (Varint(n) + rest)[1..] == Varint(n / 128) + rest;
    }
  }

  /** 0..127 take one byte, 128..255 are [n, 1], and 256 is [0x80, 0x02]. */
  lemma {:induction false} VarintBoundaries(n: nat)
    ensures n < 128 ==> Varint(n) == [n as byte]
    ensures 128 <= n < 256 ==> Varint(n) == [n as byte, 1]
    ensures Varint(256) == [0x80, 0x02]
  {
    if 128 <= n < 256 {
      assert Varint(n / 128) == [1];
    }
    assert Varint(2) == [2];
  }

  /** One tag byte: `static_cast<unsigned char>((index << 3) | wireType)`. */
  function Tag(index: nat, wireType: nat): byte
    requires wireType < 8
  {
    ((index * 8 + wireType) % 256) as byte
  }

  /** One field as written to the stream. */
  datatype Field =
    | VarintField(index: nat, value: nat)
    | BytesField(index: nat, payload: Bytes)

  function FieldBytes(f: Field): Bytes
  {
    match f
    case VarintField(i, v) => [Tag(i, WireTypeVarInt)] + Varint(v)
    case BytesField(i, p) => [Tag(i, WireTypeLengthDelimited)] + Varint(|p|) + p
  }

  /** The bytes of a message: its fields, in order. */
  function Serialize(fs: seq<Field>): Bytes
  {
    if fs == [] then [] else FieldBytes(fs[0]) + Serialize(fs[1..])
  }

  lemma {:induction false} SerializeAppend(a: seq<Field>, b: seq<Field>)
    ensures Serialize(a + b) == Serialize(a) + Serialize(b)
  {
    if a != [] {
      assert (a + b)[0] == a[0] && (a + b)[1..] == a[1..] + b;
      SerializeAppend(a[1..], b);
      calc {
        Serialize(a + b);
        FieldBytes(a[0]) + Serialize(a[1..] + b);
        FieldBytes(a[0]) + (Serialize(a[1..]) + Serialize(b));
      }
    } else {
      assert a + b == b;
    }
  }

  /** Only the empty field list serializes to nothing. */
  lemma {:induction false} SerializeEmpty(fs: seq<Field>)
    ensures Serialize(fs) == [] <==> fs == []
  {
    if fs != [] {
      assert |FieldBytes(fs[0])| >= 1;
    }
  }

  /** The payload of a packed repeated field: the varints back to back. */
  function Packed(ns: seq<nat>): Bytes
  {
    if ns == [] then [] else Varint(ns[0]) + Packed(ns[1..])
  }

  lemma {:induction false} PackedAppend(a: seq<nat>, b: seq<nat>)
    ensures Packed(a + b) == Packed(a) + Packed(b)
  {
    if a != [] {
      assert (a + b)[0] == a[0] && (a + b)[1..] == a[1..] + b;
      PackedAppend(a[1..], b);
      calc {
        Packed(a + b);
        Varint(a[0]) + Packed(a[1..] + b);
        Varint(a[0]) + (Packed(a[1..]) + Packed(b));
      }
    } else {
      assert a + b == b;
    }
  }

  lemma {:induction false} PackedNonEmpty(ns: seq<nat>)
    ensures Packed(ns) == [] <==> ns == []
  {
    if ns != [] {
      VarintCorrect(ns[0]);
    }
  }
}
