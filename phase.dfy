/**
 The two edge-triggered phase machines of a Leviathan replica.

 Each machine holds the phase byte last decoded (`pos`) and the one last
 applied (`last`). A decode only moves `pos`; a frame compares the two and,
 when they differ, applies the effect of the new value once and copies `pos`
 into `last`. The head machine drives the Animator (the ProjectileBurst and
 Sunken flags and the Bite trigger) and the head's attack flag; the tail
 machine asks the tail to change position on every change, whatever the new
 value is.
 */
module Phase {
  import opened Wire

  /** Head phase values with an effect; every other value has none. */
  const Surfaced: byte := 0
  const Biting: byte := 1
  /** The reserved "sunken" value, the signed -1 seen as a byte. */
  const Sunk: byte := 0xFF

  /** Head machine: the two phase bytes, the head's attack flag, the two Animator
      flags, and how many times the Bite trigger has been set. */
  datatype Head = Head(pos: byte, last: byte, active: bool, projectileBurst: bool, sunken: bool, bites: nat)

  /** Tail machine: the two phase bytes and how many times the tail has been
      told to change position. */
  datatype Tail = Tail(pos: byte, last: byte, moves: nat)

  /** One frame of the head machine. */
  function HeadTick(h: Head): (r: Head)
    ensures r.pos == h.pos && r.last == h.pos
    ensures h.last == h.pos ==> r == h
    ensures h.last != h.pos && h.pos == Surfaced ==>
      r == h.(last := h.pos, active := true, projectileBurst := true, sunken := false)
    ensures h.last != h.pos && h.pos == Biting ==>
      r == h.(last := h.pos, active := false, projectileBurst := false, sunken := false, bites := h.bites + 1)
    ensures h.last != h.pos && h.pos == Sunk ==>
      r == h.(last := h.pos, active := false, projectileBurst := false, sunken := true)
    ensures h.pos !in {Surfaced, Biting, Sunk} ==> r == h.(last := h.pos)
  {
    if h.last == h.pos then h
    else
      var h' := h.(last := h.pos);
      if h.pos == Surfaced then h'.(active := true, projectileBurst := true, sunken := false)
      else if h.pos == Biting then h'.(active := false, projectileBurst := false, sunken := false, bites := h.bites + 1)
      else if h.pos == Sunk then h'.(active := false, projectileBurst := false, sunken := true)
      else h'
  }

  /** One frame of the tail machine. */
  function TailTick(t: Tail): (r: Tail)
    ensures r.pos == t.pos && r.last == t.pos
    ensures r.moves == t.moves + (if t.last != t.pos then 1 else 0)
  {
    if t.last == t.pos then t else t.(last := t.pos, moves := t.moves + 1)
  }

  /** A second frame with no decode in between changes nothing. */
  lemma TickIdempotent(h: Head, t: Tail)
    ensures HeadTick(HeadTick(h)) == HeadTick(h)
    ensures TailTick(TailTick(t)) == TailTick(t)
  {
  }

  /** What one machine sees: a decoded phase byte, or a frame. */
  datatype Step = Latch(v: byte) | Tick

  function HeadRun(h: Head, steps: seq<Step>): Head
    decreases |steps|
  {
    if steps == [] then h
    else match steps[0]
      case Latch(v) => HeadRun(h.(pos := v), steps[1..])
      case Tick => HeadRun(HeadTick(h), steps[1..])
  }

  function TailRun(t: Tail, steps: seq<Step>): Tail
    decreases |steps|
  {
    if steps == [] then t
    else match steps[0]
      case Latch(v) => TailRun(t.(pos := v), steps[1..])
      case Tick => TailRun(TailTick(t), steps[1..])
  }

  /** The phase byte each frame finds, when the latest decoded byte is cur. */
  function Sampled(steps: seq<Step>, cur: byte): seq<byte>
    decreases |steps|
  {
    if steps == [] then []
    else match steps[0]
      case Latch(v) => Sampled(steps[1..], v)
      case Tick => [cur] + Sampled(steps[1..], cur)
  }

  /** How many entries of xs differ from the one before them (prev before the first). */
  function Changes(prev: byte, xs: seq<byte>): nat
    decreases |xs|
  {
    if xs == [] then 0 else (if xs[0] != prev then 1 else 0) + Changes(xs[0], xs[1..])
  }

  /** How many of those changes land on v. */
  function Arrivals(prev: byte, xs: seq<byte>, v: byte): nat
    decreases |xs|
  {
    if xs == [] then 0 else (if xs[0] != prev && xs[0] == v then 1 else 0) + Arrivals(xs[0], xs[1..], v)
  }

  /** The Bite trigger fires once for every frame that finds the head byte
      changed to 1 since the frame before, and at no other time. */
  lemma {:induction false} BitesAreArrivals(h: Head, steps: seq<Step>)
    ensures HeadRun(h, steps).bites == h.bites + Arrivals(h.last, Sampled(steps, h.pos), Biting)
    decreases |steps|
  {
    if steps != [] {
      match steps[0]
      case Latch(v) =>
        BitesAreArrivals(h.(pos := v), steps[1..]);
      case Tick =>
        var xs := Sampled(steps[1..], h.pos);
        BitesAreArrivals(HeadTick(h), steps[1..]);
        assert ([h.pos] + xs)[1..] == xs;
    }
  }

  /** The tail changes position once for every frame that finds the tail byte
      changed since the frame before, and at no other time. */
  lemma {:induction false} MovesAreChanges(t: Tail, steps: seq<Step>)
    ensures TailRun(t, steps).moves == t.moves + Changes(t.last, Sampled(steps, t.pos))
    decreases |steps|
  {
    if steps != [] {
      match steps[0]
      case Latch(v) =>
        MovesAreChanges(t.(pos := v), steps[1..]);
      case Tick =>
        var xs := Sampled(steps[1..], t.pos);
        MovesAreChanges(TailTick(t), steps[1..]);
        assert ([t.pos] + xs)[1..] == xs;
    }
  }

  /** What the whole replica sees: a decoded snapshot, with its two phase
      bytes, or a frame. */
  datatype Event = Received(head: byte, tail: byte) | Frame

  datatype Phases = Phases(head: Head, tail: Tail)

  /** Both machines together, as the entity runs them: a decode moves both
      `pos` bytes, a frame ticks the head and then the tail. */
  function Apply(p: Phases, e: Event): Phases
  {
    match e
    case Received(hv, tv) => Phases(p.head.(pos := hv), p.tail.(pos := tv))
    case Frame => Phases(HeadTick(p.head), TailTick(p.tail))
  }

  function Run(p: Phases, evs: seq<Event>): Phases
    decreases |evs|
  {
    if evs == [] then p else Run(Apply(p, evs[0]), evs[1..])
  }

  /** What each machine sees of a trace of events. */
  function HeadSteps(evs: seq<Event>): (r: seq<Step>)
    ensures |r| == |evs|
  {
    seq(|evs|, i requires 0 <= i < |evs| => if evs[i].Frame? then Tick else Latch(evs[i].head))
  }

  function TailSteps(evs: seq<Event>): (r: seq<Step>)
    ensures |r| == |evs|
  {
    seq(|evs|, i requires 0 <= i < |evs| => if evs[i].Frame? then Tick else Latch(evs[i].tail))
  }

  /** The two machines never touch each other's state: running them together
      is running each on its own share of the trace. */
  lemma {:induction false} Independent(p: Phases, evs: seq<Event>)
    ensures Run(p, evs) == Phases(HeadRun(p.head, HeadSteps(evs)), TailRun(p.tail, TailSteps(evs)))
    decreases |evs|
  {
    if evs != [] {
      assert HeadSteps(evs)[1..] == HeadSteps(evs[1..]);
      assert TailSteps(evs)[1..] == TailSteps(evs[1..]);
      Independent(Apply(p, evs[0]), evs[1..]);
    }
  }

  lemma {:induction false} RunAppend(p: Phases, a: seq<Event>, b: seq<Event>)
    ensures Run(p, a + b) == Run(Run(p, a), b)
    decreases |a|
  {
    if a != [] {
      assert (a + b)[1..] == a[1..] + b;
      RunAppend(Apply(p, a[0]), a[1..], b);
    } else {
      assert a + b == b;
    }
  }

  /** After any frame both machines are settled, and a second frame with no
      decode in between fires nothing. */
  lemma SettledAfterFrame(p: Phases, evs: seq<Event>)
    ensures var q := Run(p, evs + [Frame]);
      q.head.last == q.head.pos && q.tail.last == q.tail.pos
    ensures Run(p, evs + [Frame, Frame]) == Run(p, evs + [Frame])
  {
    RunAppend(p, evs, [Frame]);
    RunAppend(p, evs, [Frame, Frame]);
    var q := Run(p, evs);
    TickIdempotent(q.head, q.tail);
  }

  function Repeat<T>(x: T, n: nat): (r: seq<T>)
    ensures |r| == n && forall i :: 0 <= i < n ==> r[i] == x
  {
    seq(n, _ => x)
  }

  lemma {:induction false} SampledTicks(m: nat, cur: byte)
    ensures Sampled(Repeat(Tick, m), cur) == Repeat(cur, m)
  {
    if m > 0 {
      assert Repeat(Tick, m)[1..] == Repeat(Tick, m - 1);
      SampledTicks(m - 1, cur);
      assert Repeat(cur, m) == [cur] + Repeat(cur, m - 1);
    }
  }

  lemma {:induction false} SampledLatches(n: nat, v: byte, rest: seq<Step>, cur: byte)
    requires n >= 1
    ensures Sampled(Repeat(Latch(v), n) + rest, cur) == Sampled(rest, v)
  {
    assert (Repeat(Latch(v), n) + rest)[1..] == Repeat(Latch(v), n - 1) + rest;
    if n > 1 {
      SampledLatches(n - 1, v, rest, v);
    } else {
      assert Repeat(Latch(v), 0) + rest == rest;
    }
  }

  lemma {:induction false} ChangesOfRepeat(prev: byte, v: byte, m: nat)
    requires m >= 1
    ensures Changes(prev, Repeat(v, m)) == (if prev != v then 1 else 0)
    ensures Arrivals(prev, Repeat(v, m), Biting) == (if prev != v && v == Biting then 1 else 0)
    decreases m
  {
    var xs := Repeat(v, m);
    assert xs[1..] == Repeat(v, m - 1);
    if m > 1 {
      ChangesOfRepeat(v, v, m - 1);
    }
  }

  /** Decoding the same pair of phase bytes n times, then running m frames,
      fires the Bite trigger at most once and moves the tail at most once in
      all: once when the byte differs from the last one applied, never when
      it does not. */
  lemma ExactlyOnce(p: Phases, hv: byte, tv: byte, n: nat, m: nat)
    requires n >= 1 && m >= 1
    ensures var q := Run(p, Repeat(Received(hv, tv), n) + Repeat(Frame, m));
      && q.head.bites == p.head.bites + (if hv != p.head.last && hv == Biting then 1 else 0)
      && q.tail.moves == p.tail.moves + (if tv != p.tail.last then 1 else 0)
  {
    var evs := Repeat(Received(hv, tv), n) + Repeat(Frame, m);
    Independent(p, evs);
    assert HeadSteps(evs) == Repeat(Latch(hv), n) + Repeat(Tick, m);
    assert TailSteps(evs) == Repeat(Latch(tv), n) + Repeat(Tick, m);
    BitesAreArrivals(p.head, HeadSteps(evs));
    MovesAreChanges(p.tail, TailSteps(evs));
    SampledLatches(n, hv, Repeat(Tick, m), p.head.pos);
    SampledLatches(n, tv, Repeat(Tick, m), p.tail.pos);
    SampledTicks(m, hv);
    SampledTicks(m, tv);
    ChangesOfRepeat(p.head.last, hv, m);
    ChangesOfRepeat(p.tail.last, tv, m);
  }

  /** A fresh replica: the four phase bytes hold the default 0 and nothing has
      fired. The Animator flags are taken to start clear; their real starting
      values live in the Animator asset. */
  function Fresh(): Phases
  {
    Phases(Head(0, 0, false, false, false, 0), Tail(0, 0, 0))
  }

  /** Since the bytes start at 0 and not at the sunken value, a first snapshot
      carrying 0 for the head fires no head effect, and one carrying 0 for the
      tail does not move the tail; 0xFF for the tail does move it. */
  lemma FreshReplicaFirstFrame(tv: byte)
    ensures var q := Run(Fresh(), [Received(0, tv), Frame]);
      && q.head == Fresh().head
      && q.tail.moves == (if tv == 0 then 0 else 1)
  {
    var evs := [Received(0, tv), Frame];
    var p1 := Apply(Fresh(), evs[0]);
    assert evs[1..] == [Frame];
    assert Run(Fresh(), evs) == Run(p1, [Frame]);
    assert Run(p1, [Frame]) == Run(Apply(p1, Frame), []);
  }
}
