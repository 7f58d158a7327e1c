/**
 The snapshot schema of the Leviathan boss entity: the fields its owner writes,
 in the one fixed order a replica reads them back. The stream carries no tags
 and no length prefix, so the order alone is the schema.

 The byte encoding of the writer and the reader is not part of this model: a
 stream is a sequence of typed fields, and a reader that meets a missing field
 or a field of another kind fails at that point.
 */
module Wire {

  /** An unsigned 8-bit value, the type of the head and tail phase bytes. */
  newtype byte = x: int | 0 <= x < 0x100

  datatype Option<T> = None | Some(value: T)

  datatype Vec3 = Vec3(x: real, y: real, z: real)

  /** One field of a serialized snapshot. */
  datatype Field = Float(f: real) | Bool(b: bool) | Byte(v: byte)

  datatype Kind = FloatKind | BoolKind | ByteKind

  function KindOf(fd: Field): Kind
  {
    match fd
    case Float(_) => FloatKind
    case Bool(_) => BoolKind
    case Byte(_) => ByteKind
  }

  /** The values of the nine interpolated channels: health, head position,
      tail position, head yaw and tail yaw. */
  datatype Kinematics = Kinematics(health: real, head: Vec3, tail: Vec3, headYaw: real, tailYaw: real)

  /** Everything one snapshot carries: the nine channels, whether the head and
      tail game objects are shown, and the head and tail phase bytes. */
  datatype Snapshot = Snapshot(kin: Kinematics, headShown: bool, tailShown: bool, headPos: byte, tailPos: byte)

  /** Number of float channels, and of fields in one snapshot. */
  const Channels: nat := 9
  const Size: nat := 13

  /** Position of each field in the stream: the nine channels, then the head
      and tail shown flags, then the head and tail phase bytes. */
  const Health: nat := 0
  const HeadX: nat := 1
  const HeadY: nat := 2
  const HeadZ: nat := 3
  const TailX: nat := 4
  const TailY: nat := 5
  const TailZ: nat := 6
  const HeadYaw: nat := 7
  const TailYaw: nat := 8
  const HeadShownAt: nat := 9
  const TailShownAt: nat := 10
  const HeadPosAt: nat := 11
  const TailPosAt: nat := 12

  /** The kind of the field at each position of the stream. */
  function KindAt(i: nat): Kind
  {
    if i < Channels then FloatKind else if i < HeadPosAt then BoolKind else ByteKind
  }

  /** The channel values in stream order. */
  function Floats(k: Kinematics): (r: seq<real>)
    ensures |r| == Channels
  {
    [k.health, k.head.x, k.head.y, k.head.z, k.tail.x, k.tail.y, k.tail.z, k.headYaw, k.tailYaw]
  }

  /** fs is one whole snapshot laid out as the schema says. */
  predicate Conforms(fs: seq<Field>)
  {
    |fs| == Size && forall i :: 0 <= i < Size ==> KindOf(fs[i]) == KindAt(i)
  }

  /** The longest prefix of fs that follows the schema, searched from i on. */
  function MatchedFrom(fs: seq<Field>, i: nat): (n: nat)
    requires i <= Size && i <= |fs|
    requires forall j :: 0 <= j < i ==> KindOf(fs[j]) == KindAt(j)
    ensures i <= n <= Size && n <= |fs|
    ensures forall j :: 0 <= j < n ==> KindOf(fs[j]) == KindAt(j)
    ensures n < Size ==> n == |fs| || KindOf(fs[n]) != KindAt(n)
    decreases Size - i
  {
    if i < Size && i < |fs| && KindOf(fs[i]) == KindAt(i) then MatchedFrom(fs, i + 1) else i
  }

  /** How many fields a reader takes from fs before it completes the snapshot
      or meets a field that is missing or of the wrong kind. */
  function Matched(fs: seq<Field>): (n: nat)
    ensures n <= Size && n <= |fs|
    ensures forall j :: 0 <= j < n ==> KindOf(fs[j]) == KindAt(j)
    ensures n < Size ==> n == |fs| || KindOf(fs[n]) != KindAt(n)
  {
    MatchedFrom(fs, 0)
  }

  /** The three facts above determine the count: any k that has them is it. */
  lemma MatchedIs(fs: seq<Field>, k: nat)
    requires k <= Size && k <= |fs|
    requires forall j :: 0 <= j < k ==> KindOf(fs[j]) == KindAt(j)
    requires k < Size ==> k == |fs| || KindOf(fs[k]) != KindAt(k)
    ensures Matched(fs) == k
  {
  }

  /** The fields the owner writes for snapshot s, in schema order. */
  function Encode(s: Snapshot): (fs: seq<Field>)
    ensures Conforms(fs)
  {
    var k := s.kin;
    [Float(k.health),
     Float(k.head.x), Float(k.head.y), Float(k.head.z),
     Float(k.tail.x), Float(k.tail.y), Float(k.tail.z),
     Float(k.headYaw), Float(k.tailYaw),
     Bool(s.headShown), Bool(s.tailShown),
     Byte(s.headPos), Byte(s.tailPos)]
  }

  /** The snapshot at the front of fs, when the whole schema is there. */
  function Decode(fs: seq<Field>): (r: Option<Snapshot>)
    ensures r.Some? <==> Matched(fs) == Size
    ensures r.Some? ==> Conforms(fs[..Size])
  {
    if Matched(fs) < Size then None
    else
      Some(Snapshot(
        Kinematics(fs[0].f, Vec3(fs[1].f, fs[2].f, fs[3].f), Vec3(fs[4].f, fs[5].f, fs[6].f), fs[7].f, fs[8].f),
        fs[HeadShownAt].b, fs[TailShownAt].b, fs[HeadPosAt].v, fs[TailPosAt].v))
  }

  /** Reading back what was written gives the same snapshot, whatever follows it. */
  lemma DecodeEncode(s: Snapshot, rest: seq<Field>)
    ensures Matched(Encode(s) + rest) == Size
    ensures Decode(Encode(s) + rest) == Some(s)
  {
    var fs := Encode(s) + rest;
    MatchedIs(fs, Size);
  }

  /** Writing back what was read gives exactly the fields the reader took. */
  lemma EncodeDecode(fs: seq<Field>)
    requires Decode(fs).Some?
    ensures Encode(Decode(fs).value) == fs[..Size]
  {
    var e := Encode(Decode(fs).value);
    forall i | 0 <= i < Size
      ensures e[i] == fs[i]
    {
      assert KindOf(fs[i]) == KindAt(i);
    }
  }

  /** The stream a writer has produced so far. */
  class Writer {
    var Fields: seq<Field>

    constructor ()
      ensures Fields == []
    {
      Fields := [];
    }

    method Float(x: real)
      modifies this
      ensures Fields == old(Fields) + [Field.Float(x)]
    {
      Fields := Fields + [Field.Float(x)];
    }

    /** A vector goes out as its x, y and z components. */
    method Vector(p: Vec3)
      modifies this
      ensures Fields == old(Fields) + [Field.Float(p.x), Field.Float(p.y), Field.Float(p.z)]
    {
      Float(p.x);
      Float(p.y);
      Float(p.z);
    }

    method Bool(b: bool)
      modifies this
      ensures Fields == old(Fields) + [Field.Bool(b)]
    {
      Fields := Fields + [Field.Bool(b)];
    }

    method Byte(v: byte)
      modifies this
      ensures Fields == old(Fields) + [Field.Byte(v)]
    {
      Fields := Fields + [Field.Byte(v)];
    }
  }

  /** A cursor over a received stream. Each read takes the next field when it
      has the kind asked for, and fails without moving otherwise. */
  class Reader {
    const Fields: seq<Field>
    var Pos: nat

    ghost predicate Valid()
      reads this
    {
      Pos <= |Fields|
    }

    /** The fields not read yet. */
    ghost function Rest(): seq<Field>
      reads this
      requires Valid()
    {
      Fields[Pos..]
    }

    constructor (fs: seq<Field>)
      ensures Valid() && Fields == fs && Pos == 0
    {
      Fields := fs;
      Pos := 0;
    }

    method Float() returns (r: Option<real>)
      requires Valid()
      modifies this
      ensures Valid()
      ensures r.Some? <==> old(Rest()) != [] && old(Rest())[0].Float?
      ensures r.Some? ==> r.value == old(Rest())[0].f && Pos == old(Pos) + 1
      ensures r.None? ==> Pos == old(Pos)
    {
      if Pos < |Fields| && Fields[Pos].Float? {
        r := Some(Fields[Pos].f);
        Pos := Pos + 1;
      } else {
        r := None;
      }
    }

    method Bool() returns (r: Option<bool>)
      requires Valid()
      modifies this
      ensures Valid()
      ensures r.Some? <==> old(Rest()) != [] && old(Rest())[0].Bool?
      ensures r.Some? ==> r.value == old(Rest())[0].b && Pos == old(Pos) + 1
      ensures r.None? ==> Pos == old(Pos)
    {
      if Pos < |Fields| && Fields[Pos].Bool? {
        r := Some(Fields[Pos].b);
        Pos := Pos + 1;
      } else {
        r := None;
      }
    }

    method Byte() returns (r: Option<byte>)
      requires Valid()
      modifies this
      ensures Valid()
      ensures r.Some? <==> old(Rest()) != [] && old(Rest())[0].Byte?
      ensures r.Some? ==> r.value == old(Rest())[0].v && Pos == old(Pos) + 1
      ensures r.None? ==> Pos == old(Pos)
    {
      if Pos < |Fields| && Fields[Pos].Byte? {
        r := Some(Fields[Pos].v);
        Pos := Pos + 1;
      } else {
        r := None;
      }
    }
  }
}
