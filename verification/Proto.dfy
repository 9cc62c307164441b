/** The protobuf wire writer and reader: base-128 varints and wire types 0, 1, 2 and 5 (Protocol Buffers encoding). */
module Proto {
  import opened Domain

  type byte = x: int | 0 <= x < 256
  type Bytes = seq<byte>

  const U32 := 0x1_0000_0000
  const U64 := 0x1_0000_0000_0000_0000

  // ---- varints ----

  /** binary.PutUvarint */
  function PutUvarint(v: nat): Bytes
  {
    if v < 128 then [v] else [v % 128 + 128] + PutUvarint(v / 128)
  }

  datatype VarRead = TooShort | Overflow | Read(v: nat, n: nat)

  /** binary.Uvarint from its i-th byte on: at most ten bytes, the tenth at most 1. */
  function UvarintAt(b: Bytes, i: nat): VarRead
    decreases |b|
  {
    if b == [] then TooShort
    else if i >= 10 then Overflow
    else if b[0] < 128 then
      if i == 9 && b[0] > 1 then Overflow else Read(b[0], 1)
    else
      match UvarintAt(b[1..], i + 1)
      case Read(v, n) => Read(b[0] - 128 + 128 * v, n + 1)
      case e => e
  }

  function Uvarint(b: Bytes): VarRead { UvarintAt(b, 0) }

  /** The values that fit the bytes left from position i on. */
  function Capacity(i: nat): nat
    requires i <= 9
    decreases 9 - i
  {
    if i == 9 then 2 else 128 * Capacity(i + 1)
  }

  lemma CapacityIsU64()
    ensures Capacity(0) == U64
  {
    assert Capacity(9) == 2 && Capacity(8) == 256 && Capacity(7) == 32768;
    assert Capacity(6) == 4194304 && Capacity(5) == 536870912 && Capacity(4) == 68719476736;
    assert Capacity(3) == 8796093022208 && Capacity(2) == 1125899906842624;
  }

  lemma {:induction false} UvarintBound(b: Bytes, i: nat)
    requires i <= 9
    ensures UvarintAt(b, i).Read? ==> UvarintAt(b, i).v < Capacity(i) && 1 <= UvarintAt(b, i).n <= |b|
  {
    if b != [] && i < 9 {
      UvarintBound(b[1..], i + 1);
      CapacityAtLeast(i);
    }
  }

  lemma {:induction false} CapacityAtLeast(i: nat)
    requires i <= 8
    ensures Capacity(i) >= 256
    decreases 9 - i
  {
    if i < 8 { CapacityAtLeast(i + 1); }
  }

  /** Reading back a written varint gives its value and stops right after it. */
  lemma {:induction false} UvarintReadsBack(v: nat, rest: Bytes, i: nat)
    requires i <= 9 && v < Capacity(i)
    ensures UvarintAt(PutUvarint(v) + rest, i) == Read(v, |PutUvarint(v)|)
    decreases v
  {
    var b := PutUvarint(v) + rest;
    if v >= 128 {
      UvarintReadsBack(v / 128, rest, i + 1);
      assert b[1..] == PutUvarint(v / 128) + rest;
    }
  }

  /** The number that the low seven bits of the bytes spell, least significant group first. */
  function Groups(b: Bytes): nat { if b == [] then 0 else b[0] % 128 + 128 * Groups(b[1..]) }

  /** The continuation bit is set on the first n - 1 bytes and clear on the n-th. */
  predicate EndsAt(b: Bytes, n: nat)
  {
    0 < n <= |b| && b[n - 1] < 128 && forall k | 0 <= k < n - 1 :: b[k] >= 128
  }

  /** A written varint is the seven-bit groups of its value, all but the last one marked, and no group too many. */
  lemma {:induction false} PutUvarintIsGroups(v: nat)
    ensures var b := PutUvarint(v);
            && EndsAt(b, |b|) && Groups(b) == v && (|b| > 1 ==> b[|b| - 1] != 0)
    decreases v
  {
    if v >= 128 {
      PutUvarintIsGroups(v / 128);
      assert PutUvarint(v)[1..] == PutUvarint(v / 128);
    } else {
      assert PutUvarint(v)[1..] == [];
    }
  }

  /** From position i on: where it ends, what it reads, and when it is cut off or too long. */
  ghost predicate ReadsAsGroups(b: Bytes, i: nat, r: VarRead)
  {
    match r
    case Read(v, n) => EndsAt(b, n) && v == Groups(b[..n]) && i + n <= 10 && (i + n == 10 ==> b[n - 1] <= 1)
    case TooShort => i + |b| <= 10 && forall k | 0 <= k < |b| :: b[k] >= 128
    case Overflow =>
      || (i + |b| > 10 && forall k | 0 <= k < 10 - i :: b[k] >= 128)
      || (i < 10 && EndsAt(b, 10 - i) && b[9 - i] > 1)
  }

  /** A marked byte in front of what was read. */
  lemma MarkedByteReads(b: Bytes, i: nat, r: VarRead)
    requires b != [] && b[0] >= 128 && i < 10 && ReadsAsGroups(b[1..], i + 1, r)
    ensures ReadsAsGroups(b, i, if r.Read? then Read(b[0] - 128 + 128 * r.v, r.n + 1) else r)
  {
    var rest := b[1..];
    assert forall k | 1 <= k < |b| :: b[k] == rest[k - 1];
    if r.Read? {
      assert b[..r.n + 1][1..] == rest[..r.n];
      assert b[r.n] == rest[r.n - 1];
    }
  }

  lemma {:induction false} UvarintAtReads(b: Bytes, i: nat)
    requires i <= 10
    ensures ReadsAsGroups(b, i, UvarintAt(b, i))
    decreases |b|
  {
    if b != [] && i < 10 {
      if b[0] < 128 {
        assert b[..1][1..] == [];
      } else {
        UvarintAtReads(b[1..], i + 1);
        MarkedByteReads(b, i, UvarintAt(b[1..], i + 1));
      }
    }
  }

  /**
   What any bytes read as: the groups up to the first clear continuation bit, at most ten of them and the tenth at
   most 1; cut off when no bit is clear within what is there, and too long otherwise.
   */
  lemma UvarintReadsGroups(b: Bytes)
    ensures ReadsAsGroups(b, 0, Uvarint(b))
  {
    UvarintAtReads(b, 0);
  }

  // ---- fixed width ----

  function Little(v: nat, n: nat): Bytes
  {
    if n == 0 then [] else [v % 256] + Little(v / 256, n - 1)
  }

  function FromLittle(b: Bytes): nat
  {
    if b == [] then 0 else b[0] + 256 * FromLittle(b[1..])
  }

  function Pow256(n: nat): nat { if n == 0 then 1 else 256 * Pow256(n - 1) }

  lemma {:induction false} LittleReadsBack(v: nat, n: nat)
    requires v < Pow256(n)
    ensures |Little(v, n)| == n && FromLittle(Little(v, n)) == v
  {
    if n > 0 {
      LittleReadsBack(v / 256, n - 1);
      assert Little(v, n)[1..] == Little(v / 256, n - 1);
    }
  }

  lemma LittleStep(a: byte, v: nat, n: nat)
    ensures Little(a + 0x100 * v, n + 1) == [a] + Little(v, n)
    ensures forall rest: Bytes | FromLittle(rest) == v :: FromLittle([a] + rest) == a + 0x100 * v
  {
    assert (a + 0x100 * v) / 256 == v && (a + 0x100 * v) % 256 == a;
    forall rest: Bytes | FromLittle(rest) == v ensures FromLittle([a] + rest) == a + 0x100 * v {
      assert ([a] + rest)[1..] == rest;
    }
  }

  /** The low byte comes first, in what is written and in what is read. */
  lemma LowByteFirst(a: byte, b: byte, c: byte, d: byte)
    ensures var v := a + 0x100 * (b + 0x100 * (c + 0x100 * d));
            Little(v, 4) == [a, b, c, d] && FromLittle([a, b, c, d]) == v
  {
    LittleStep(d, 0, 0);
    LittleStep(c, d, 1);
    LittleStep(b, c + 0x100 * d, 2);
    LittleStep(a, b + 0x100 * (c + 0x100 * d), 3);
    assert [d] == [d] + [] && [c, d] == [c] + [d] && [b, c, d] == [b] + [c, d] && [a, b, c, d] == [a] + [b, c, d];
    assert FromLittle([d]) == d && FromLittle([c, d]) == c + 0x100 * d;
    assert FromLittle([b, c, d]) == b + 0x100 * (c + 0x100 * d);
  }

  lemma Widths()
    ensures Pow256(4) == U32 && Pow256(8) == U64
  {
    assert Pow256(1) == 256 && Pow256(2) == 65536 && Pow256(3) == 16777216;
    assert Pow256(5) == 1099511627776 && Pow256(6) == 281474976710656 && Pow256(7) == 72057594037927936;
  }

  // ---- fields ----

  datatype Value = Varint(v: nat) | Fixed64(v: nat) | Blob(b: Bytes) | Fixed32(v: nat)

  datatype Field = Field(number: nat, value: Value)

  function Wire(x: Value): nat
  {
    match x
    case Varint(_) => 0
    case Fixed64(_) => 1
    case Blob(_) => 2
    case Fixed32(_) => 5
  }

  /** What the writer's parameter types allow. */
  predicate Writable(f: Field)
  {
    f.number < U32 &&
    match f.value
    case Varint(v) => v < U64
    case Fixed64(v) => v < U64
    case Blob(b) => |b| < U64
    case Fixed32(v) => v < U32
  }

  /** field<<3|wire in 32 bits: the top three bits of a field number are shifted out. */
  function Tag(number: nat, wire: nat): nat { (number * 8) % U32 + wire }

  function Payload(x: Value): Bytes
  {
    match x
    case Varint(v) => PutUvarint(v)
    case Fixed64(v) => Little(v, 8)
    case Blob(b) => PutUvarint(|b|) + b
    case Fixed32(v) => Little(v, 4)
  }

  function Encode(f: Field): Bytes { PutUvarint(Tag(f.number, Wire(f.value))) + Payload(f.value) }

  /** The bytes of a field: the tag with the wire type of its value, then its payload. */
  lemma WireFormat(f: Field)
    requires f.number < 0x2000_0000
    ensures f.value.Varint? ==> Encode(f) == PutUvarint(8 * f.number) + PutUvarint(f.value.v)
    ensures f.value.Fixed64? ==> Encode(f) == PutUvarint(8 * f.number + 1) + Little(f.value.v, 8)
    ensures f.value.Blob? ==>
              Encode(f) == PutUvarint(8 * f.number + 2) + (PutUvarint(|f.value.b|) + f.value.b)
    ensures f.value.Fixed32? ==> Encode(f) == PutUvarint(8 * f.number + 5) + Little(f.value.v, 4)
  {
    assert (f.number * 8) % U32 == 8 * f.number;
  }

  /** The pieces of a sequence, one after the other. */
  function FlatMap<A, B>(piece: A -> seq<B>, s: seq<A>): seq<B>
  {
    if s == [] then [] else piece(s[0]) + FlatMap(piece, s[1..])
  }

  lemma {:induction false} FlatMapAppend<A, B>(piece: A -> seq<B>, s: seq<A>, a: A)
    ensures FlatMap(piece, s + [a]) == FlatMap(piece, s) + piece(a)
  {
    if s == [] {
      assert s + [a] == [a] && [a][1..] == [];
    } else {
      FlatMapAppend(piece, s[1..], a);
      assert (s + [a])[1..] == s[1..] + [a];
    }
  }

  function EncodeAll(fs: seq<Field>): Bytes { FlatMap(Encode, fs) }

  /** Writing a tag and then a payload appends one field. */
  lemma Appended(buf: Bytes, fs: seq<Field>, f: Field, tag: Bytes, payload: Bytes)
    requires buf == EncodeAll(fs) && Encode(f) == tag + payload
    ensures buf + tag + payload == EncodeAll(fs + [f])
  {
    FlatMapAppend(Encode, fs, f);
    assert buf + tag + payload == buf + (tag + payload);
  }

  /** The buffer is at all times the encoding of the fields written so far. */
  class Writer {
    var buf: Bytes
    ghost var written: seq<Field>

    ghost predicate Valid()
      reads this
    {
      buf == EncodeAll(written)
    }

    constructor ()
      ensures Valid() && written == []
    {
      buf, written := [], [];
    }

    method WriteTag(number: nat, wire: nat)
      modifies this`buf
      ensures buf == old(buf) + PutUvarint(Tag(number, wire))
    {
      buf := buf + PutUvarint((number * 8) % U32 + wire);
    }

    method U64Field(number: nat, v: nat)
      requires Valid()
      modifies this
      ensures Valid() && written == old(written) + [Field(number, Varint(v))]
    {
      Appended(buf, written, Field(number, Varint(v)), PutUvarint(Tag(number, 0)), PutUvarint(v));
      WriteTag(number, 0);
      buf := buf + PutUvarint(v);
      written := written + [Field(number, Varint(v))];
    }

    /** b32: a false flag is not written. */
    method BoolField(number: nat, v: bool)
      requires Valid()
      modifies this
      ensures Valid() && written == old(written) + if v then [Field(number, Varint(1))] else []
    {
      if v { U64Field(number, 1); }
    }

    /** f32, given the bit pattern of the float. */
    method F32Field(number: nat, bits: nat)
      requires Valid()
      modifies this
      ensures Valid() && written == old(written) + [Field(number, Fixed32(bits))]
    {
      Appended(buf, written, Field(number, Fixed32(bits)), PutUvarint(Tag(number, 5)), Little(bits, 4));
      WriteTag(number, 5);
      buf := buf + Little(bits, 4);
      written := written + [Field(number, Fixed32(bits))];
    }

    method F64Field(number: nat, v: nat)
      requires Valid()
      modifies this
      ensures Valid() && written == old(written) + [Field(number, Fixed64(v))]
    {
      Appended(buf, written, Field(number, Fixed64(v)), PutUvarint(Tag(number, 1)), Little(v, 8));
      WriteTag(number, 1);
      buf := buf + Little(v, 8);
      written := written + [Field(number, Fixed64(v))];
    }

    method BytesField(number: nat, b: Bytes)
      requires Valid()
      modifies this
      ensures Valid() && written == old(written) + [Field(number, Blob(b))]
    {
      var tag, length := PutUvarint(Tag(number, 2)), PutUvarint(|b|);
      Appended(buf, written, Field(number, Blob(b)), tag, length + b);
      assert buf + tag + length + b == buf + tag + (length + b);
      WriteTag(number, 2);
      buf := buf + length;
      buf := buf + b;
      written := written + [Field(number, Blob(b))];
    }
  }

  // ---- reading ----

  datatype Next = End | Bad | Got(field: Field, rest: Bytes)

  /** The value of a known wire type at the head of a buffer. */
  function ReadValue(number: nat, wire: nat, b: Bytes): Next
  {
    if wire == 0 then
      match Uvarint(b)
      case Read(v, n) => if n <= |b| then Got(Field(number, Varint(v)), b[n..]) else Bad
      case _ => Bad
    else if wire == 1 then
      if |b| < 8 then Bad else Got(Field(number, Fixed64(FromLittle(b[..8]))), b[8..])
    else if wire == 2 then
      match Uvarint(b)
      case Read(l, n) => if n > |b| || l > |b| - n then Bad else Got(Field(number, Blob(b[n..n + l])), b[n + l..])
      case _ => Bad
    else if wire == 5 then
      if |b| < 4 then Bad else Got(Field(number, Fixed32(FromLittle(b[..4]))), b[4..])
    else Bad
  }

  /** pbReader.next */
  function NextField(b: Bytes): Next
  {
    if b == [] then End
    else
      match Uvarint(b)
      case Read(key, n) => if n <= |b| then ReadValue((key / 8) % U32, key % 8, b[n..]) else Bad
      case _ => Bad
  }

  lemma ValueConsumes(number: nat, wire: nat, b: Bytes)
    ensures var r := ReadValue(number, wire, b); r.Got? ==> |r.rest| <= |b| && r.rest == b[|b| - |r.rest|..]
  {
    UvarintBound(b, 0);
  }

  lemma SuffixOfSuffix(b: Bytes, n: nat, m: nat)
    requires n <= |b| && m <= |b| - n
    ensures b[n..][m..] == b[n + m..]
  {
  }

  /** On arbitrary bytes a field that is read consumes at least one byte and leaves a suffix of the buffer. */
  lemma NextConsumes(b: Bytes)
    ensures var r := NextField(b); r.Got? ==> |r.rest| < |b| && r.rest == b[|b| - |r.rest|..]
  {
    var key, r := Uvarint(b), NextField(b);
    if r.Got? {
      UvarintBound(b, 0);
      ValueConsumes((key.v / 8) % U32, key.v % 8, b[key.n..]);
      SuffixOfSuffix(b, key.n, |b| - key.n - |r.rest|);
    }
  }

  class Reader {
    var buf: Bytes

    constructor (b: Bytes)
      ensures buf == b
    {
      buf := b;
    }

    /** Every slice below is in range on arbitrary input. */
    method ReadNext() returns (r: Next)
      modifies this
      ensures r == NextField(old(buf))
      ensures r.Got? ==> buf == r.rest && |buf| < |old(buf)|
    {
      NextConsumes(buf);
      if |buf| == 0 { return End; }
      var key := Uvarint(buf);
      if !key.Read? { return Bad; }
      UvarintBound(buf, 0);
      buf := buf[key.n..];
      var number, wire := (key.v / 8) % U32, key.v % 8;
      if wire == 0 {
        var v := Uvarint(buf);
        if !v.Read? { return Bad; }
        UvarintBound(buf, 0);
        buf := buf[v.n..];
        return Got(Field(number, Varint(v.v)), buf);
      } else if wire == 1 {
        if |buf| < 8 { return Bad; }
        var v := FromLittle(buf[..8]);
        buf := buf[8..];
        return Got(Field(number, Fixed64(v)), buf);
      } else if wire == 2 {
        var l := Uvarint(buf);
        if !l.Read? { return Bad; }
        UvarintBound(buf, 0);
        if l.v > |buf| - l.n { return Bad; }
        var payload := buf[l.n..l.n + l.v];
        buf := buf[l.n + l.v..];
        return Got(Field(number, Blob(payload)), buf);
      } else if wire == 5 {
        if |buf| < 4 { return Bad; }
        var v := FromLittle(buf[..4]);
        buf := buf[4..];
        return Got(Field(number, Fixed32(v)), buf);
      }
      r := Bad;
    }
  }

  function Prepend(f: Field, more: Option<seq<Field>>): Option<seq<Field>>
  {
    if more == None then None else Some([f] + more.value)
  }

  /** The whole message, or None when some field is malformed. */
  function Decode(b: Bytes): Option<seq<Field>>
    decreases |b|
  {
    NextConsumes(b);
    match NextField(b)
    case End => Some([])
    case Bad => None
    case Got(f, rest) =>
      Prepend(f, Decode(rest))
  }

  // ---- round trip ----

  lemma TagParts(number: nat, wire: nat)
    requires number < U32 && wire < 8
    ensures Tag(number, wire) < U32 && Tag(number, wire) % 8 == wire &&
            (Tag(number, wire) / 8) % U32 == number % 0x2000_0000
  {
    var q := number / 0x2000_0000;
    var r := number % 0x2000_0000;
    assert number * 8 == q * U32 + r * 8;
    assert (number * 8) % U32 == r * 8;
  }

  lemma Fixed64ReadsBack(number: nat, v: nat, rest: Bytes)
    requires v < U64
    ensures ReadValue(number, 1, Little(v, 8) + rest) == Got(Field(number, Fixed64(v)), rest)
  {
    Widths();
    LittleReadsBack(v, 8);
    var b := Little(v, 8) + rest;
    assert b[..8] == Little(v, 8) && b[8..] == rest;
  }

  lemma Fixed32ReadsBack(number: nat, v: nat, rest: Bytes)
    requires v < U32
    ensures ReadValue(number, 5, Little(v, 4) + rest) == Got(Field(number, Fixed32(v)), rest)
  {
    Widths();
    LittleReadsBack(v, 4);
    var b := Little(v, 4) + rest;
    assert b[..4] == Little(v, 4) && b[4..] == rest;
  }

  lemma BlobReadsBack(number: nat, p: Bytes, rest: Bytes)
    requires |p| < U64
    ensures ReadValue(number, 2, PutUvarint(|p|) + p + rest) == Got(Field(number, Blob(p)), rest)
  {
    CapacityIsU64();
    var length := PutUvarint(|p|);
    UvarintReadsBack(|p|, p + rest, 0);
    var b, n := length + p + rest, |length|;
    assert b == length + (p + rest);
    assert b[n..n + |p|] == p && b[n + |p|..] == rest;
  }

  lemma ValueReadsBack(number: nat, x: Value, rest: Bytes)
    requires Writable(Field(number, x))
    ensures ReadValue(number, Wire(x), Payload(x) + rest) == Got(Field(number, x), rest)
  {
    match x
    case Varint(v) =>
      CapacityIsU64();
      UvarintReadsBack(v, rest, 0);
    case Fixed64(v) => Fixed64ReadsBack(number, v, rest);
    case Blob(p) => BlobReadsBack(number, p, rest);
    case Fixed32(v) => Fixed32ReadsBack(number, v, rest);
  }

  /** Reading one written field: everything comes back except that the field number is taken modulo 2^29. */
  lemma FieldReadsBack(f: Field, rest: Bytes)
    requires Writable(f)
    ensures NextField(Encode(f) + rest) == Got(Field(f.number % 0x2000_0000, f.value), rest)
  {
    var tag := Tag(f.number, Wire(f.value));
    var number := f.number % 0x2000_0000;
    CapacityIsU64();
    TagParts(f.number, Wire(f.value));
    var tail := Payload(f.value) + rest;
    UvarintReadsBack(tag, tail, 0);
    assert Encode(f) + rest == PutUvarint(tag) + tail;
    assert (PutUvarint(tag) + tail)[|PutUvarint(tag)|..] == tail;
    ValueReadsBack(number, f.value, rest);
  }

  /** The round trip of one field is exact if and only if its number is below 2^29. */
  lemma RoundTripIff(f: Field, rest: Bytes)
    requires Writable(f)
    ensures NextField(Encode(f) + rest) == Got(f, rest) <==> f.number < 0x2000_0000
  {
    FieldReadsBack(f, rest);
  }

  predicate Sendable(fs: seq<Field>) { forall f | f in fs :: Writable(f) && f.number < 0x2000_0000 }

  lemma DecodeStep(b: Bytes, f: Field, rest: Bytes)
    requires NextField(b) == Got(f, rest)
    ensures Decode(b) == Prepend(f, Decode(rest))
  {
  }

  lemma DecodeWritten(f: Field, rest: Bytes)
    requires Writable(f) && f.number < 0x2000_0000
    ensures Decode(Encode(f) + rest) == Prepend(f, Decode(rest))
  {
    FieldReadsBack(f, rest);
    assert f.number % 0x2000_0000 == f.number;
    DecodeStep(Encode(f) + rest, f, rest);
  }

  /** Any written field sequence reads back exactly and the whole buffer is consumed. */
  lemma {:induction false} MessageRoundTrip(fs: seq<Field>)
    requires Sendable(fs)
    ensures Decode(EncodeAll(fs)) == Some(fs)
  {
    if fs != [] {
      MessageRoundTrip(fs[1..]);
      assert fs[0] in fs;
      DecodeWritten(fs[0], EncodeAll(fs[1..]));
      assert [fs[0]] + fs[1..] == fs;
    }
  }

  /** Different field sequences never share an encoding. */
  lemma EncodingIsInjective(fs: seq<Field>, gs: seq<Field>)
    requires Sendable(fs) && Sendable(gs)
    requires EncodeAll(fs) == EncodeAll(gs)
    ensures fs == gs
  {
    MessageRoundTrip(fs);
    MessageRoundTrip(gs);
  }
}

/** The Steam login messages built on the wire format. */
module LoginMessages {
  import opened Domain
  import opened Proto

  function Ascii(s: string): Bytes { seq(|s|, i requires 0 <= i < |s| => s[i] as int % 256) }

  const UA_MOBILE := "Mozilla/5.0 (X11; Linux x86_64; rv:1.9.5.20) Gecko/2812-12-10 04:56:28 Firefox/3.8"

  function BeginAuthFields(user: Bytes, password: Bytes, ts: nat): seq<Field>
  {
    [Field(1, Blob(Ascii(UA_MOBILE))), Field(2, Blob(user)), Field(3, Blob(password)), Field(4, Varint(ts)),
     Field(5, Varint(1)), Field(6, Varint(3)), Field(7, Varint(1)), Field(8, Blob(Ascii("Community")))]
  }

  function PollFields(client: nat, request: Bytes): seq<Field> { [Field(1, Varint(client)), Field(2, Blob(request))] }

  /** uint64 of a signed 32-bit code: negative codes are sign-extended. */
  function SignExtended(code: int): nat
    requires -0x8000_0000 <= code < 0x8000_0000
  {
    if code < 0 then code + U64 else code
  }

  function GuardFields(client: nat, steamId: nat, code: Bytes, codeType: int): seq<Field>
    requires -0x8000_0000 <= codeType < 0x8000_0000
  {
    [Field(1, Varint(client)), Field(2, Fixed64(steamId)), Field(3, Blob(code)),
      Field(4, Varint(SignExtended(codeType)))]
  }

  method EncodePoll(client: nat, request: Bytes) returns (b: Bytes)
    requires client < U64 && |request| < U64
    ensures Decode(b) == Some(PollFields(client, request))
  {
    var w := new Writer();
    w.U64Field(1, client);
    w.BytesField(2, request);
    b := w.buf;
    assert w.written == PollFields(client, request);
    MessageRoundTrip(w.written);
  }

  method EncodeUpdateGuard(client: nat, steamId: nat, code: Bytes, codeType: int) returns (b: Bytes)
    requires client < U64 && steamId < U64 && |code| < U64 && -0x8000_0000 <= codeType < 0x8000_0000
    ensures Decode(b) == Some(GuardFields(client, steamId, code, codeType))
  {
    var w := new Writer();
    w.U64Field(1, client);
    w.F64Field(2, steamId);
    w.BytesField(3, code);
    w.U64Field(4, SignExtended(codeType));
    b := w.buf;
    assert w.written == GuardFields(client, steamId, code, codeType);
    MessageRoundTrip(w.written);
  }

  lemma BeginAuthDecodes(user: Bytes, password: Bytes, ts: nat)
    requires |user| < U64 && |password| < U64 && ts < U64
    ensures Decode(EncodeAll(BeginAuthFields(user, password, ts))) == Some(BeginAuthFields(user, password, ts))
  {
    BeginAuthSendable(user, password, ts);
    MessageRoundTrip(BeginAuthFields(user, password, ts));
  }

  lemma BeginAuthSendable(user: Bytes, password: Bytes, ts: nat)
    requires |user| < U64 && |password| < U64 && ts < U64
    ensures Sendable(BeginAuthFields(user, password, ts))
  {
  }

  method EncodeBeginAuth(user: Bytes, password: Bytes, ts: nat) returns (b: Bytes)
    requires |user| < U64 && |password| < U64 && ts < U64
    ensures Decode(b) == Some(BeginAuthFields(user, password, ts))
  {
    var w := new Writer();
    w.BytesField(1, Ascii(UA_MOBILE));
    w.BytesField(2, user);
    w.BytesField(3, password);
    w.U64Field(4, ts);
    w.BoolField(5, true);
    w.U64Field(6, 3);
    w.U64Field(7, 1);
    w.BytesField(8, Ascii("Community"));
    b := w.buf;
    assert w.written == BeginAuthFields(user, password, ts);
    BeginAuthDecodes(user, password, ts);
  }

  // ---- the begin response ----

  datatype BeginResponse = BeginResponse(clientId: nat, requestId: Bytes, steamId: nat, confirmations: seq<int>)

  /** A field's number part: 0 for a length-delimited field. */
  function NumberOf(x: Value): nat { if x.Blob? then 0 else x.v }

  function PayloadOf(x: Value): Bytes { if x.Blob? then x.b else [] }

  /** int32 of the low 32 bits. */
  function Int32(n: nat): int { var m := n % U32; if m < 0x8000_0000 then m else m - U32 }

  function CodeOf(f: Field): seq<int> { if f.number == 1 then [Int32(NumberOf(f.value))] else [] }

  function Confirmations(fs: seq<Field>): seq<int>
  {
    if fs == [] then []
    else CodeOf(fs[0]) + Confirmations(fs[1..])
  }

  function TakeField(r: BeginResponse, f: Field): Option<BeginResponse>
  {
    if f.number == 1 then Some(r.(clientId := NumberOf(f.value)))
    else if f.number == 2 then Some(r.(requestId := PayloadOf(f.value)))
    else if f.number == 5 then Some(r.(steamId := NumberOf(f.value)))
    else if f.number == 4 && f.value.Blob? && f.value.b != [] then
      var inner := Decode(f.value.b);
      if inner == None then None else Some(r.(confirmations := r.confirmations + Confirmations(inner.value)))
    else Some(r)
  }

  /** Steps taken in order; the first failing one fails the whole. */
  function Fold<S, A>(step: (S, A) -> Option<S>, s: S, xs: seq<A>): Option<S>
    decreases |xs|
  {
    if xs == [] then Some(s)
    else
      match step(s, xs[0])
      case None => None
      case Some(t) => Fold(step, t, xs[1..])
  }

  lemma FoldHead<S, A>(step: (S, A) -> Option<S>, s: S, x: A, rest: seq<A>)
    ensures Fold(step, s, [x] + rest) == if step(s, x).None? then None else Fold(step, step(s, x).value, rest)
  {
    assert ([x] + rest)[1..] == rest;
  }

  lemma {:induction false} FoldAlong<S, A>(step: (S, A) -> Option<S>, states: seq<S>, xs: seq<A>, tail: seq<A>)
    requires |states| == |xs| + 1 && forall i | 0 <= i < |xs| :: step(states[i], xs[i]) == Some(states[i + 1])
    ensures Fold(step, states[0], xs + tail) == Fold(step, states[|xs|], tail)
    decreases |xs|
  {
    if xs == [] {
      assert xs + tail == tail;
    } else {
      FoldAlong(step, states[1..], xs[1..], tail);
      FoldHead(step, states[0], xs[0], xs[1..] + tail);
      assert [xs[0]] + (xs[1..] + tail) == xs + tail;
    }
  }

  function TakeAll(r: BeginResponse, fs: seq<Field>): Option<BeginResponse> { Fold(TakeField, r, fs) }

  function MeaningOf(r: BeginResponse, fs: Option<seq<Field>>): Option<BeginResponse>
  {
    if fs == None then None else TakeAll(r, fs.value)
  }

  /** What a response means: its fields in order, last one wins, nested confirmation types appended. */
  function Meaning(r: BeginResponse, b: Bytes): Option<BeginResponse> { MeaningOf(r, Decode(b)) }

  const EMPTY_RESPONSE := BeginResponse(0, [], 0, [])

  lemma MeaningPrepend(r: BeginResponse, f: Field, more: Option<seq<Field>>)
    ensures MeaningOf(r, Prepend(f, more)) == if TakeField(r, f) == None then None
            else MeaningOf(TakeField(r, f).value, more)
  {
    if more.Some? { FoldHead(TakeField, r, f, more.value); }
  }

  lemma MeaningStep(r: BeginResponse, b: Bytes)
    ensures NextField(b).End? ==> Meaning(r, b) == Some(r)
    ensures NextField(b).Bad? ==> Meaning(r, b) == None
    ensures var n := NextField(b);
            n.Got? ==> Meaning(r, b) == if TakeField(r, n.field) == None then None
              else Meaning(TakeField(r, n.field).value, n.rest)
  {
    var n := NextField(b);
    if n.Got? {
      DecodeStep(b, n.field, n.rest);
      MeaningPrepend(r, n.field, Decode(n.rest));
    }
  }

  /** The codes of the confirmation types in a nested message, after some already collected. */
  function CodesOf(out: seq<int>, fs: Option<seq<Field>>): Option<seq<int>>
  {
    if fs == None then None else Some(out + Confirmations(fs.value))
  }

  function Codes(out: seq<int>, b: Bytes): Option<seq<int>> { CodesOf(out, Decode(b)) }

  lemma CodesPrepend(out: seq<int>, f: Field, more: Option<seq<Field>>)
    ensures CodesOf(out, Prepend(f, more)) == CodesOf(out + CodeOf(f), more)
  {
    if more.Some? {
      assert ([f] + more.value)[1..] == more.value;
      assert out + (CodeOf(f) + Confirmations(more.value)) == out + CodeOf(f) + Confirmations(more.value);
    }
  }

  lemma CodesStep(out: seq<int>, b: Bytes)
    ensures NextField(b).End? ==> Codes(out, b) == Some(out)
    ensures NextField(b).Bad? ==> Codes(out, b) == None
    ensures var n := NextField(b); n.Got? ==> Codes(out, b) == Codes(out + CodeOf(n.field), n.rest)
  {
    assert out + [] == out;
    var n := NextField(b);
    if n.Got? {
      DecodeStep(b, n.field, n.rest);
      CodesPrepend(out, n.field, Decode(n.rest));
    }
  }

  lemma FromNothing(b: Bytes)
    ensures Codes([], b) == if Decode(b) == None then None else Some(Confirmations(Decode(b).value))
  {
    if Decode(b).Some? { assert [] + Confirmations(Decode(b).value) == Confirmations(Decode(b).value); }
  }

  method ReadConfirmations(payload: Bytes) returns (codes: Option<seq<int>>)
    ensures codes == Codes([], payload)
  {
    var cr := new Reader(payload);
    var out: seq<int> := [];
    while true
      invariant Codes([], payload) == Codes(out, cr.buf)
      decreases |cr.buf|
    {
      CodesStep(out, cr.buf);
      var r := cr.ReadNext();
      if r.End? { return Some(out); }
      if r.Bad? { return None; }
      if r.field.number == 1 { out := out + [Int32(NumberOf(r.field.value))]; } else { assert out + [] == out; }
    }
  }

  /** One case of the field switch. */
  method TakeInto(acc: BeginResponse, f: Field) returns (out: Option<BeginResponse>)
    ensures out == TakeField(acc, f)
  {
    if f.number == 1 {
      out := Some(acc.(clientId := NumberOf(f.value)));
    } else if f.number == 2 {
      out := Some(acc.(requestId := PayloadOf(f.value)));
    } else if f.number == 5 {
      out := Some(acc.(steamId := NumberOf(f.value)));
    } else if f.number == 4 && f.value.Blob? && |f.value.b| > 0 {
      var codes := ReadConfirmations(f.value.b);
      FromNothing(f.value.b);
      if codes == None { return None; }
      out := Some(acc.(confirmations := acc.confirmations + codes.value));
    } else {
      out := Some(acc);
    }
  }

  /** decodeBeginResponse: terminates on any bytes, and agrees with the meaning of the message. */
  method DecodeBeginResponse(b: Bytes) returns (out: Option<BeginResponse>)
    ensures out == Meaning(EMPTY_RESPONSE, b)
  {
    var r := new Reader(b);
    var acc := EMPTY_RESPONSE;
    while true
      invariant Meaning(EMPTY_RESPONSE, b) == Meaning(acc, r.buf)
      decreases |r.buf|
    {
      MeaningStep(acc, r.buf);
      var n := r.ReadNext();
      if n.End? { return Some(acc); }
      if n.Bad? { return None; }
      var next := TakeInto(acc, n.field);
      if next == None { return None; }
      acc := next.value;
    }
  }

  // ---- the response as a server sends it ----

  predicate IsInt32(c: int) { -0x8000_0000 <= c < 0x8000_0000 }

  function ConfirmationField(c: int): Field
    requires IsInt32(c)
  {
    Field(4, Blob(EncodeAll([Field(1, Varint(SignExtended(c)))])))
  }

  function ConfirmationFields(cs: seq<int>): seq<Field>
    requires forall c | c in cs :: IsInt32(c)
  {
    seq(|cs|, i requires 0 <= i < |cs| => ConfirmationField(cs[i]))
  }

  /** One field per scalar, one nested message per allowed confirmation. */
  function ResponseFields(r: BeginResponse): seq<Field>
    requires forall c | c in r.confirmations :: IsInt32(c)
  {
    [Field(1, Varint(r.clientId)),
      Field(2, Blob(r.requestId))] + ConfirmationFields(r.confirmations) + [Field(5, Varint(r.steamId))]
  }

  lemma {:induction false} VarintLength(v: nat, i: nat)
    requires i <= 9 && v < Capacity(i)
    ensures |PutUvarint(v)| <= 10 - i
    decreases v
  {
    if v >= 128 { VarintLength(v / 128, i + 1); }
  }

  lemma ConfirmationIsShort(c: int)
    requires IsInt32(c)
    ensures |EncodeAll([Field(1, Varint(SignExtended(c)))])| <= 20
  {
    var f := Field(1, Varint(SignExtended(c)));
    assert EncodeAll([f]) == Encode(f) by { FlatMapAppend(Encode, [], f); assert [] + [f] == [f]; }
    CapacityIsU64();
    VarintLength(SignExtended(c), 0);
    VarintLength(Tag(1, 0), 0);
  }

  lemma SignSurvives(c: int)
    requires IsInt32(c)
    ensures SignExtended(c) < U64 && Int32(SignExtended(c)) == c
  {
    assert U64 == U32 * U32;
    if c < 0 { assert SignExtended(c) == (U32 - 1) * U32 + (c + U32); }
  }

  lemma OneConfirmation(f: Field)
    requires f.number == 1
    ensures Confirmations([f]) == [Int32(NumberOf(f.value))]
  {
    assert [f][1..] == [];
  }

  lemma ConfirmationDecodes(c: int)
    requires IsInt32(c)
    ensures var f := Field(1, Varint(SignExtended(c))); Decode(EncodeAll([f])) == Some([f]) && Confirmations([f]) == [c]
  {
    var f := Field(1, Varint(SignExtended(c)));
    SignSurvives(c);
    OneConfirmation(f);
    MessageRoundTrip([f]);
  }

  lemma BlobIsTaken(r: BeginResponse, b: Bytes, fs: seq<Field>, cs: seq<int>)
    requires Decode(b) == Some(fs) && Confirmations(fs) == cs && cs != []
    ensures TakeField(r, Field(4, Blob(b))) == Some(r.(confirmations := r.confirmations + cs))
  {
  }

  lemma ConfirmationReadsBack(r: BeginResponse, c: int)
    requires IsInt32(c)
    ensures Writable(ConfirmationField(c)) &&
            TakeField(r, ConfirmationField(c)) == Some(r.(confirmations := r.confirmations + [c]))
  {
    var f := Field(1, Varint(SignExtended(c)));
    ConfirmationIsShort(c);
    ConfirmationDecodes(c);
    BlobIsTaken(r, EncodeAll([f]), [f], [c]);
  }

  function WithFirst(r: BeginResponse, cs: seq<int>, i: nat): BeginResponse
    requires i <= |cs|
  {
    r.(confirmations := r.confirmations + cs[..i])
  }

  lemma OneMore(r: BeginResponse, cs: seq<int>, i: nat)
    requires i < |cs|
    ensures var s := WithFirst(r, cs, i); s.(confirmations := s.confirmations + [cs[i]]) == WithFirst(r, cs, i + 1)
  {
    assert r.confirmations + cs[..i] + [cs[i]] == r.confirmations + cs[..i + 1];
  }

  lemma OneMoreTaken(r: BeginResponse, cs: seq<int>, i: nat)
    requires i < |cs| && IsInt32(cs[i])
    ensures TakeField(WithFirst(r, cs, i), ConfirmationField(cs[i])) == Some(WithFirst(r, cs, i + 1))
  {
    OneMore(r, cs, i);
    ConfirmationReadsBack(WithFirst(r, cs, i), cs[i]);
  }

  lemma ConfirmationsTaken(r: BeginResponse, cs: seq<int>, tail: seq<Field>)
    requires forall c | c in cs :: IsInt32(c)
    ensures TakeAll(r, ConfirmationFields(cs) + tail) == TakeAll(r.(confirmations := r.confirmations + cs), tail)
  {
    var states := seq(|cs| + 1, i requires 0 <= i <= |cs| => WithFirst(r, cs, i));
    var fs := ConfirmationFields(cs);
    forall i | 0 <= i < |cs| ensures TakeField(states[i], fs[i]) == Some(states[i + 1]) { OneMoreTaken(r, cs, i); }
    FoldAlong(TakeField, states, fs, tail);
    assert r.confirmations + cs[..0] == r.confirmations && cs[..|cs|] == cs;
  }

  lemma ConfirmationsSendable(cs: seq<int>)
    requires forall c | c in cs :: IsInt32(c)
    ensures Sendable(ConfirmationFields(cs))
  {
    forall i | 0 <= i < |cs| ensures Writable(ConfirmationFields(cs)[i]) {
      ConfirmationReadsBack(EMPTY_RESPONSE, cs[i]);
    }
  }

  lemma FrontTaken(client: nat, request: Bytes, rest: seq<Field>)
    ensures TakeAll(EMPTY_RESPONSE, [Field(1, Varint(client)), Field(2, Blob(request))] + rest) ==
            TakeAll(BeginResponse(client, request, 0, []), rest)
  {
    var first, second := Field(1, Varint(client)), Field(2, Blob(request));
    FoldHead(TakeField, EMPTY_RESPONSE, first, [second] + rest);
    FoldHead(TakeField, EMPTY_RESPONSE.(clientId := client), second, rest);
    assert [first, second] + rest == [first] + ([second] + rest);
  }

  lemma LastTaken(r: BeginResponse, steamId: nat)
    ensures TakeAll(r, [Field(5, Varint(steamId))]) == Some(r.(steamId := steamId))
  {
    var last := Field(5, Varint(steamId));
    FoldHead(TakeField, r, last, []);
    assert [last] + [] == [last];
  }

  lemma ResponseSendable(r: BeginResponse)
    requires r.clientId < U64 && r.steamId < U64 && |r.requestId| < U64 && forall c | c in r.confirmations :: IsInt32(c)
    ensures Sendable(ResponseFields(r))
  {
    ConfirmationsSendable(r.confirmations);
  }

  lemma ResponseTaken(r: BeginResponse)
    requires forall c | c in r.confirmations :: IsInt32(c)
    ensures TakeAll(EMPTY_RESPONSE, ResponseFields(r)) == Some(r)
  {
    var front := [Field(1, Varint(r.clientId)), Field(2, Blob(r.requestId))];
    var middle, last := ConfirmationFields(r.confirmations), [Field(5, Varint(r.steamId))];
    var t := BeginResponse(r.clientId, r.requestId, 0, []);
    FrontTaken(r.clientId, r.requestId, middle + last);
    assert front + middle + last == front + (middle + last);
    ConfirmationsTaken(t, r.confirmations, last);
    assert [] + r.confirmations == r.confirmations;
    LastTaken(t.(confirmations := r.confirmations), r.steamId);
  }

  /** Whatever confirmation types a server allows, the response decodes to exactly what was put in, in order. */
  lemma BeginResponseRoundTrip(r: BeginResponse)
    requires r.clientId < U64 && r.steamId < U64 && |r.requestId| < U64 && forall c | c in r.confirmations :: IsInt32(c)
    ensures Meaning(EMPTY_RESPONSE, EncodeAll(ResponseFields(r))) == Some(r)
  {
    ResponseSendable(r);
    MessageRoundTrip(ResponseFields(r));
    ResponseTaken(r);
  }
}
