/**
 The Leviathan boss entity. On the owner it writes a snapshot of the live boss;
 on a replica it reads snapshots into its nine interpolated channels, its two
 shown flags and its two phase bytes, and on every frame pushes the channel
 values into the boss and fires the phase effects through the head and tail
 machines of module Phase.
 */
module NetTypes {
  import opened Wire
  import opened Phase

  /** The engine state the boss controller reaches: health (the enemy's and the
      stat block's, which the entity always sets together), the dead flag, the
      head and tail positions and yaws, and whether the head and tail game
      objects are shown. */
  datatype Body = Body(
    health: real, dead: bool,
    head: Vec3, tail: Vec3, headYaw: real, tailYaw: real,
    headShown: bool, tailShown: bool)

  /** The part of a replica that reading a snapshot writes: the samples of the
      nine channels, the two shown flags and the two phase bytes. */
  datatype Sink = Sink(samples: seq<seq<real>>, headShown: bool, tailShown: bool, headPos: byte, tailPos: byte)

  /** Field fd, read at position i of the stream, goes where the schema puts
      it: a float to channel i, a bool to the head or tail shown flag, a byte
      to the head or tail phase byte. */
  function Put(d: Sink, i: nat, fd: Field): (r: Sink)
    requires |d.samples| == Channels
    ensures |r.samples| == Channels
  {
    match fd
    case Float(x) => if i < Channels then d.(samples := d.samples[i := d.samples[i] + [x]]) else d
    case Bool(b) =>
      if i == HeadShownAt then d.(headShown := b) else if i == TailShownAt then d.(tailShown := b) else d
    case Byte(v) =>
      if i == HeadPosAt then d.(headPos := v) else if i == TailPosAt then d.(tailPos := v) else d
  }

  /** A field of the kind its position calls for changes exactly the one part
      that position names. */
  lemma PutAt(d: Sink, i: nat, fd: Field)
    requires |d.samples| == Channels && i < Size && KindOf(fd) == KindAt(i)
    ensures var r := Put(d, i, fd);
      && (forall j :: 0 <= j < Channels ==> r.samples[j] == d.samples[j] + (if j == i then [fd.f] else []))
      && r.headShown == (if i == HeadShownAt then fd.b else d.headShown)
      && r.tailShown == (if i == TailShownAt then fd.b else d.tailShown)
      && r.headPos == (if i == HeadPosAt then fd.v else d.headPos)
      && r.tailPos == (if i == TailPosAt then fd.v else d.tailPos)
  {
  }

  /** The first n fields of fs put in place, one after another. */
  function ReadInto(d: Sink, fs: seq<Field>, n: nat): (r: Sink)
    requires |d.samples| == Channels && n <= |fs|
    ensures |r.samples| == Channels
  {
    if n == 0 then d else Put(ReadInto(d, fs, n - 1), n - 1, fs[n - 1])
  }

  /** Reading the first n fields of a stream that follows the schema that far
      feeds channel i the i-th float when i < n, and nothing otherwise. */
  lemma {:induction false} ReadIntoSamples(d: Sink, fs: seq<Field>, n: nat)
    requires |d.samples| == Channels && n <= Matched(fs)
    ensures forall i :: 0 <= i < Channels ==>
      ReadInto(d, fs, n).samples[i] == d.samples[i] + (if i < n then [fs[i].f] else [])
  {
    if n > 0 {
      ReadIntoSamples(d, fs, n - 1);
      PutAt(ReadInto(d, fs, n - 1), n - 1, fs[n - 1]);
    }
  }

  /** ... and sets each shown flag and each phase byte exactly when its
      position is among the first n. */
  lemma {:induction false} ReadIntoFlags(d: Sink, fs: seq<Field>, n: nat)
    requires |d.samples| == Channels && n <= Matched(fs)
    ensures var r := ReadInto(d, fs, n);
      && r.headShown == (if n > HeadShownAt then fs[HeadShownAt].b else d.headShown)
      && r.tailShown == (if n > TailShownAt then fs[TailShownAt].b else d.tailShown)
      && r.headPos == (if n > HeadPosAt then fs[HeadPosAt].v else d.headPos)
      && r.tailPos == (if n > TailPosAt then fs[TailPosAt].v else d.tailPos)
  {
    if n > 0 {
      ReadIntoFlags(d, fs, n - 1);
      PutAt(ReadInto(d, fs, n - 1), n - 1, fs[n - 1]);
    }
  }

  /** A whole snapshot s put in place: each channel gets its float, the flags
      and phase bytes are those of s. */
  function Land(d: Sink, s: Snapshot): (r: Sink)
    requires |d.samples| == Channels
  {
    Sink(seq(Channels, i requires 0 <= i < Channels => d.samples[i] + [Floats(s.kin)[i]]),
         s.headShown, s.tailShown, s.headPos, s.tailPos)
  }

  /** Reading a complete snapshot is putting the decoded snapshot in place. */
  lemma ReadWhole(d: Sink, fs: seq<Field>)
    requires |d.samples| == Channels && Decode(fs).Some?
    ensures ReadInto(d, fs, Size) == Land(d, Decode(fs).value)
  {
    ReadIntoSamples(d, fs, Size);
    ReadIntoFlags(d, fs, Size);
    var r, l := ReadInto(d, fs, Size), Land(d, Decode(fs).value);
    var xs := Floats(Decode(fs).value.kin);
    assert xs == [fs[0].f, fs[1].f, fs[2].f, fs[3].f, fs[4].f, fs[5].f, fs[6].f, fs[7].f, fs[8].f];
    forall i | 0 <= i < Channels
      ensures r.samples[i] == l.samples[i]
    {
      assert xs[i] == fs[i].f;
    }
  }

  class Leviathan {
    var Levi: Body
    /** The head's own attack flag, set by the head phase effects. */
    var HeadActive: bool
    /** The floats each of the nine channels has been fed, oldest first, in
        stream order: health, head x/y/z, tail x/y/z, head yaw, tail yaw. */
    var Samples: seq<seq<real>>
    /** Head and tail phase bytes: latest decoded and last applied. */
    var HeadPos: byte
    var LastHeadPos: byte
    var TailPos: byte
    var LastTailPos: byte
    /** Time of the latest decoded snapshot. */
    var LastUpdate: real

    /** The Animator: the ProjectileBurst and Sunken flags and how many times
        the Bite trigger was set; and how many times the tail was told to
        change position. */
    ghost var ProjectileBurst: bool
    ghost var Sunken: bool
    ghost var Bites: nat
    ghost var TailMoves: nat

    ghost predicate Valid()
      reads this
    {
      |Samples| == Channels
    }

    ghost function HeadOf(): Head
      reads this
    {
      Head(HeadPos, LastHeadPos, HeadActive, ProjectileBurst, Sunken, Bites)
    }

    ghost function TailOf(): Tail
      reads this
    {
      Tail(TailPos, LastTailPos, TailMoves)
    }

    ghost function PhasesOf(): Phases
      reads this
    {
      Phases(HeadOf(), TailOf())
    }

    ghost function SinkOf(): Sink
      reads this
    {
      Sink(Samples, Levi.headShown, Levi.tailShown, HeadPos, TailPos)
    }

    /** The live state the owner writes. */
    function Sample(): Snapshot
      reads this
    {
      Snapshot(Kinematics(Levi.health, Levi.head, Levi.tail, Levi.headYaw, Levi.tailYaw),
               Levi.headShown, Levi.tailShown, HeadPos, TailPos)
    }

    /** A new entity: the phase bytes hold their default 0, no channel has been
        fed, and the head's attack flag is off. */
    constructor (body: Body)
      ensures Valid() && Levi == body && LastUpdate == 0.0
      ensures Samples == Repeat([], Channels)
      ensures PhasesOf() == Fresh()
    {
      Levi := body;
      HeadActive := false;
      Samples := Repeat([], Channels);
      HeadPos, LastHeadPos, TailPos, LastTailPos := 0, 0, 0, 0;
      LastUpdate := 0.0;
      ProjectileBurst, Sunken, Bites, TailMoves := false, false, 0, 0;
    }

    /** One frame. The owner does nothing. A replica takes k, the nine channel
        values at LastUpdate, into the boss, marks it dead exactly when that
        health is at most 0, then runs the head machine and the tail machine. */
    method Update(isOwner: bool, k: Kinematics)
      modifies this`Levi, this`HeadActive, this`LastHeadPos, this`LastTailPos
      modifies this`ProjectileBurst, this`Sunken, this`Bites, this`TailMoves
      ensures isOwner ==> unchanged(this)
      ensures !isOwner ==>
        && Levi == old(Levi).(health := k.health, dead := k.health <= 0.0,
                              head := k.head, tail := k.tail, headYaw := k.headYaw, tailYaw := k.tailYaw)
      ensures !isOwner ==> HeadOf() == HeadTick(old(HeadOf()))
      ensures !isOwner ==> TailOf() == TailTick(old(TailOf()))
    {
      if isOwner {
        return;
      }

      Levi := Levi.(health := k.health, dead := k.health <= 0.0,
                    head := k.head, tail := k.tail, headYaw := k.headYaw, tailYaw := k.tailYaw);

      if LastHeadPos != HeadPos {
        LastHeadPos := HeadPos;
        if HeadPos == Surfaced {
          HeadActive := true;
          ProjectileBurst := true;
          Sunken := false;
        } else if HeadPos == Biting {
          HeadActive := false;
          ProjectileBurst := false;
          Sunken := false;
          Bites := Bites + 1;
        } else if HeadPos == Sunk {
          HeadActive := false;
          ProjectileBurst := false;
          Sunken := true;
        }
      }

      if LastTailPos != TailPos {
        LastTailPos := TailPos;
        TailMoves := TailMoves + 1;
      }
    }

    /** Appends the live state to w in schema order. */
    method Write(w: Writer)
      modifies w
      ensures w.Fields == old(w.Fields) + Encode(Sample())
    {
      ghost var start := w.Fields;
      w.Float(Levi.health);
      w.Vector(Levi.head);
      w.Vector(Levi.tail);
      w.Float(Levi.headYaw);
      w.Float(Levi.tailYaw);

      w.Bool(Levi.headShown);
      w.Bool(Levi.tailShown);

      w.Byte(HeadPos);
      w.Byte(TailPos);
      assert w.Fields == start + Encode(Sample());
    }

    /** Reading r, which started at the front of fs, has put the first i
        fields of fs in place over d, and they follow the schema. */
    ghost predicate Progress(r: Reader, d: Sink, fs: seq<Field>, i: nat)
      reads this, r
    {
      && Valid() && r.Valid() && |d.samples| == Channels
      && i <= Size && i <= |fs| && r.Rest() == fs[i..]
      && (forall j :: 0 <= j < i ==> KindOf(fs[j]) == KindAt(j))
      && SinkOf() == ReadInto(d, fs, i)
    }

    /** Channel i reads the next float of r into its samples. */
    method ReadChannel(r: Reader, i: nat, ghost d: Sink, ghost fs: seq<Field>) returns (ok: bool)
      requires Progress(r, d, fs, i) && i < Channels
      modifies this`Samples, r
      ensures Progress(r, d, fs, if ok then i + 1 else i)
      ensures !ok ==> Matched(fs) == i
      ensures r.Pos == old(r.Pos) + (if ok then 1 else 0)
    {
      var x := r.Float();
      ok := x.Some?;
      if ok {
        Samples := Samples[i := Samples[i] + [x.value]];
        assert fs[i..][1..] == fs[i + 1..];
      } else {
        MatchedIs(fs, i);
      }
    }

    /** The nine channels read their floats in stream order: health, head
        x/y/z, tail x/y/z, head yaw, tail yaw. */
    method ReadChannels(r: Reader, ghost d: Sink, ghost fs: seq<Field>) returns (ok: bool)
      requires Progress(r, d, fs, 0)
      modifies this`Samples, r
      ensures ok ==> Progress(r, d, fs, Channels)
      ensures !ok ==> Matched(fs) < Channels && Progress(r, d, fs, Matched(fs))
    {
      ok := ReadChannel(r, Health, d, fs);
      if !ok { return; }
      ok := ReadChannel(r, HeadX, d, fs);
      if !ok { return; }
      ok := ReadChannel(r, HeadY, d, fs);
      if !ok { return; }
      ok := ReadChannel(r, HeadZ, d, fs);
      if !ok { return; }
      ok := ReadChannel(r, TailX, d, fs);
      if !ok { return; }
      ok := ReadChannel(r, TailY, d, fs);
      if !ok { return; }
      ok := ReadChannel(r, TailZ, d, fs);
      if !ok { return; }
      ok := ReadChannel(r, HeadYaw, d, fs);
      if !ok { return; }
      ok := ReadChannel(r, TailYaw, d, fs);
    }

    /** The head's (i == 9) or the tail's (i == 10) game object is shown or
        hidden as the next bool of r says. */
    method ReadShown(r: Reader, i: nat, ghost d: Sink, ghost fs: seq<Field>) returns (ok: bool)
      requires Progress(r, d, fs, i) && (i == HeadShownAt || i == TailShownAt)
      modifies this`Levi, r
      ensures Progress(r, d, fs, if ok then i + 1 else i)
      ensures !ok ==> Matched(fs) == i
      ensures r.Pos == old(r.Pos) + (if ok then 1 else 0)
      ensures Levi == old(Levi).(headShown := Levi.headShown, tailShown := Levi.tailShown)
    {
      var shown := r.Bool();
      ok := shown.Some?;
      if ok {
        if i == HeadShownAt {
          Levi := Levi.(headShown := shown.value);
        } else {
          Levi := Levi.(tailShown := shown.value);
        }
        assert fs[i..][1..] == fs[i + 1..];
      } else {
        MatchedIs(fs, i);
      }
    }

    /** HeadPos (i == 11) or TailPos (i == 12) takes the next byte of r. */
    method ReadPhase(r: Reader, i: nat, ghost d: Sink, ghost fs: seq<Field>) returns (ok: bool)
      requires Progress(r, d, fs, i) && (i == HeadPosAt || i == TailPosAt)
      modifies this`HeadPos, this`TailPos, r
      ensures Progress(r, d, fs, if ok then i + 1 else i)
      ensures !ok ==> Matched(fs) == i
      ensures r.Pos == old(r.Pos) + (if ok then 1 else 0)
    {
      var pos := r.Byte();
      ok := pos.Some?;
      if ok {
        if i == HeadPosAt {
          HeadPos := pos.value;
        } else {
          TailPos := pos.value;
        }
        assert fs[i..][1..] == fs[i + 1..];
      } else {
        MatchedIs(fs, i);
      }
    }

    /** The head's and then the tail's game object take the next two bools. */
    method ReadShownFlags(r: Reader, ghost d: Sink, ghost fs: seq<Field>) returns (ok: bool)
      requires Progress(r, d, fs, Channels)
      modifies this`Levi, r
      ensures ok ==> Progress(r, d, fs, HeadPosAt)
      ensures !ok ==> Channels <= Matched(fs) < HeadPosAt && Progress(r, d, fs, Matched(fs))
      ensures Levi == old(Levi).(headShown := Levi.headShown, tailShown := Levi.tailShown)
    {
      ok := ReadShown(r, HeadShownAt, d, fs);
      if !ok { return; }
      ok := ReadShown(r, TailShownAt, d, fs);
    }

    /** HeadPos and then TailPos take the next two bytes. */
    method ReadPhases(r: Reader, ghost d: Sink, ghost fs: seq<Field>) returns (ok: bool)
      requires Progress(r, d, fs, HeadPosAt)
      modifies this`HeadPos, this`TailPos, r
      ensures ok ==> Progress(r, d, fs, Size)
      ensures !ok ==> HeadPosAt <= Matched(fs) < Size && Progress(r, d, fs, Matched(fs))
    {
      ok := ReadPhase(r, HeadPosAt, d, fs);
      if !ok { return; }
      ok := ReadPhase(r, TailPosAt, d, fs);
    }

    /** Reads one snapshot from r, field by field, assigning each as it goes.
        When a field is missing or of the wrong kind the read stops there and
        ok is false, and what was read before it stays applied. The last
        applied phase bytes are never touched, so reading fires nothing. */
    method Read(r: Reader, now: real) returns (ok: bool)
      requires Valid() && r.Valid()
      modifies this`LastUpdate, this`Samples, this`Levi, this`HeadPos, this`TailPos, r
      ensures Valid() && r.Valid()
      ensures var fs := old(r.Rest()); var n := Matched(fs);
        && ok == (n == Size)
        && r.Rest() == fs[n..]
        && SinkOf() == ReadInto(old(SinkOf()), fs, n)
      ensures LastUpdate == now
      ensures Levi == old(Levi).(headShown := Levi.headShown, tailShown := Levi.tailShown)
    {
      LastUpdate := now;
      ghost var fs, d := r.Rest(), SinkOf();

      ok := ReadChannels(r, d, fs);
      if !ok { return; }

      ok := ReadShownFlags(r, d, fs);
      if !ok { return; }
      ok := ReadPhases(r, d, fs);
      if !ok { return; }

      MatchedIs(fs, Size);
    }
  }

  /** The owner's snapshot carried to a replica: the read succeeds, every float
      reaches the channel of the same name, the shown flags and the phase bytes
      arrive as written, the rest of the boss is untouched, and, by the frame,
      so are the replica's last applied phase bytes and its effects. */
  method Deliver(owner: Leviathan, replica: Leviathan, now: real) returns (ok: bool)
    requires replica.Valid()
    modifies replica`LastUpdate, replica`Samples, replica`Levi, replica`HeadPos, replica`TailPos
    ensures ok
    ensures replica.Valid()
    ensures replica.SinkOf() == Land(old(replica.SinkOf()), old(owner.Sample()))
    ensures replica.LastUpdate == now
    ensures replica.Levi == old(replica.Levi).(headShown := replica.Levi.headShown, tailShown := replica.Levi.tailShown)
  {
    ghost var s, d := owner.Sample(), replica.SinkOf();
    var w := new Writer();
    owner.Write(w);
    assert w.Fields == Encode(s);
    var r := new Reader(w.Fields);
    DecodeEncode(s, []);
    assert Encode(s) + [] == Encode(s);
    ReadWhole(d, Encode(s));
    ok := replica.Read(r, now);
  }
}
