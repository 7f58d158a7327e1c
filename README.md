# Leviathan replica

A model of the networked Leviathan boss entity of Jaket, an ULTRAKILL
multiplayer mod. The owner of a lobby serializes the live boss into a
snapshot. Every other client (a replica) reads the snapshot back and drives
its local copy of the boss from it.

The model has three modules:

- `Wire` (`wire.dfy`) is the snapshot schema.
  - A stream is a sequence of typed fields: `Float`, `Bool` and `Byte`.
  - A snapshot has thirteen fields in one fixed order, with no tags and no
    length prefix. First come nine floats: health, head x/y/z, tail x/y/z,
    head yaw and tail yaw. Then come the head and tail "shown" bools, then
    the head and tail phase bytes.
  - `Encode` and `Decode` are the pure definition of the schema. They are
    proved to be inverse in both directions.
  - `Matched` counts how many fields a reader takes before it completes the
    snapshot or meets a missing or mistyped field.
  - `Writer` and `Reader` are the field-level cursors that the entity's
    `Write` and `Read` work through.
- `Phase` (`phase.dfy`) holds the two edge-triggered phase machines.
  - Each machine keeps the latest decoded phase byte and the last applied
    one. A frame compares the two. When they differ, it fires the effect of
    the new value once and copies the new value over.
  - The head machine's effects: 0 turns the attack and ProjectileBurst on and
    Sunken off. 1 turns both off and sets the Bite trigger. 0xFF turns both
    off and Sunken on. Any other value has no effect.
  - The tail machine asks the tail to change position on every change.
  - Traces of decodes and frames are folded over both machines. Lemmas count
    the effects a trace fires: a Bite for each frame that finds the head
    byte newly at 1, and a tail move for each frame that finds the tail
    byte changed. Other lemmas show that the two machines are independent,
    that a second frame fires nothing, and that repeating a snapshot cannot
    fire its effects again.
- `NetTypes` (`leviathan.dfy`) is the entity itself, the class `Leviathan`.
  - Its fields are the source's four phase bytes and `LastUpdate`, plus two
    that differ from the source. `Samples` stands for the nine `FloatLerp`
    channels, as one list per channel of the floats it was fed. `HeadActive`
    stands for `levi.head.active`, a field of the head controller rather than
    of the entity. The boss state the entity reaches is the field `Levi`.
  - The Animator and the tail's position changes are recorded in a ghost
    effect log: the `ProjectileBurst` and `Sunken` flags, the Bite trigger
    count and the tail move count.
  - `Update` is proved to advance the boss state and to step both machines
    exactly as `Phase.HeadTick` and `Phase.TailTick` say. On the owner it
    changes nothing.
  - `Write` is proved to append `Encode` of the live state.
  - `Read` is proved to put in place, field by field, exactly the prefix of
    the stream that follows the schema. Its frame shows it never touches the
    last applied phase bytes or the effect log.
  - `Deliver` chains an owner's `Write` into a replica's `Read`. The read
    succeeds, each float reaches the channel of the same name, the flags and
    phase bytes arrive as written, and the rest of the boss is untouched.

Two behaviours of the code are easy to miss, and the model keeps both:

- **Reading is not atomic.** `Read` assigns each field as soon as it is read
  (src/Jaket/Net/Types/Leviathan.cs:108-120). So a stream that breaks off
  after k fields leaves those k assignments, and the new `LastUpdate`, in
  place. In the model `Read` then returns `false`, and its state is
  `ReadInto` of the prefix that matched.
- **The phase bytes start at 0.** The four phase bytes have no initializer,
  so they start at C#'s default 0, not at the sunken value 0xFF
  (src/Jaket/Net/Types/Leviathan.cs:18). A fresh replica whose first
  snapshot carries head byte 0 therefore fires nothing on its first frame.
  A tail byte other than 0 (0xFF, say) moves the tail once.
  `Phase.FreshReplicaFirstFrame` states this.

## Model

| member | source | states |
|---|---|---|
| `Wire.MatchedFrom` | src/Jaket/Net/Types/Leviathan.cs:106-121 | searching on from position i finds the longest prefix that follows the schema: every field before the count has the kind its position calls for, and below thirteen the next field is missing or of another kind |
| `Wire.Matched` | src/Jaket/Net/Types/Leviathan.cs:106-121 | the number of fields a reader takes before it completes the snapshot or fails: at most 13, and characterised by the same prefix-maximality facts |
| `Wire.MatchedIs` | src/Jaket/Net/Types/Leviathan.cs:106-121 | any count with those facts equals `Matched`, so the point where a read stops is unique |
| `Wire.Encode` | src/Jaket/Net/Types/Leviathan.cs:91-104 | what the owner writes is one whole snapshot laid out as the schema says: thirteen fields, each of the kind its position calls for |
| `Wire.Decode` | src/Jaket/Net/Types/Leviathan.cs:106-121 | a snapshot is decoded exactly when all thirteen fields are there with the right kinds, and then the fields it used conform to the schema |
| `Wire.DecodeEncode` | src/Jaket/Net/Types/Leviathan.cs:91-121 | reading back what was written takes all thirteen fields and returns the same snapshot, whatever follows it in the stream |
| `Wire.EncodeDecode` | src/Jaket/Net/Types/Leviathan.cs:91-121 | writing back a decoded snapshot gives exactly the thirteen fields that were read |
| `Wire.Writer.Vector` | src/Jaket/Net/Types/Leviathan.cs:94-95 | a position is written as its x, y and z floats, in that order |
| `Wire.Reader.Float` | src/Jaket/Net/Types/Leviathan.cs:110-114 | a float read succeeds exactly when the next field is a float, returns it and advances by one; otherwise it fails and does not move |
| `Wire.Reader.Bool` | src/Jaket/Net/Types/Leviathan.cs:116-117 | the same for a bool |
| `Wire.Reader.Byte` | src/Jaket/Net/Types/Leviathan.cs:119-120 | the same for a byte |
| `Phase.HeadTick` | src/Jaket/Net/Types/Leviathan.cs:57-77 | after a frame the last applied head byte equals the decoded one. With no change, nothing happens. On a change to 0: attack on, ProjectileBurst on, Sunken off. To 1: attack off, ProjectileBurst off, Sunken off, one more Bite. To 0xFF: attack off, ProjectileBurst off, Sunken on, no Bite. To any other value: only the last applied byte moves |
| `Phase.TailTick` | src/Jaket/Net/Types/Leviathan.cs:80-86 | after a frame the last applied tail byte equals the decoded one, and the tail is told to change position once exactly when they differed, whatever the new value |
| `Phase.TickIdempotent` | src/Jaket/Net/Types/Leviathan.cs:57-86 | a second frame with no decode in between changes nothing on either machine |
| `Phase.BitesAreArrivals` | src/Jaket/Net/Types/Leviathan.cs:57-72 | over any sequence of decodes and frames, the Bite trigger fires once for each frame that finds the head byte changed to 1 since the previous frame, and at no other time |
| `Phase.MovesAreChanges` | src/Jaket/Net/Types/Leviathan.cs:80-86 | over any sequence of decodes and frames, the tail moves once for each frame that finds the tail byte different from the previous frame's, and at no other time |
| `Phase.Independent` | src/Jaket/Net/Types/Leviathan.cs:57-86 | running decodes and frames on both machines is the head machine run on the head bytes alone, paired with the tail machine run on the tail bytes alone |
| `Phase.SettledAfterFrame` | src/Jaket/Net/Types/Leviathan.cs:57-86 | after any history that ends in a frame, both last applied bytes equal the decoded ones, and a further frame changes nothing |
| `Phase.ExactlyOnce` | src/Jaket/Net/Types/Leviathan.cs:57-86 | decoding the same pair of phase bytes any number of times, then running any number of frames, fires at most one Bite (exactly when the head byte becomes 1) and at most one tail move (exactly when the tail byte changes) |
| `Phase.FreshReplicaFirstFrame` | src/Jaket/Net/Types/Leviathan.cs:18-86 | on a fresh replica, whose phase bytes are 0, a first snapshot with head byte 0 fires no head effect, and the tail moves on the first frame exactly when the tail byte is not 0 |
| `NetTypes.PutAt` | src/Jaket/Net/Types/Leviathan.cs:106-121 | a field of the kind its position calls for changes exactly the one part of the entity that position names |
| `NetTypes.ReadIntoSamples` | src/Jaket/Net/Types/Leviathan.cs:110-114 | reading a prefix that follows the schema feeds channel i exactly the i-th float when the prefix reaches it, and nothing otherwise |
| `NetTypes.ReadIntoFlags` | src/Jaket/Net/Types/Leviathan.cs:116-120 | reading such a prefix sets each shown flag and each phase byte from its own field exactly when the prefix reaches that field, and leaves it alone otherwise |
| `NetTypes.ReadWhole` | src/Jaket/Net/Types/Leviathan.cs:106-121 | reading a complete snapshot puts the decoded snapshot in place: each channel gets its float, and the flags and phase bytes are those of the snapshot |
| `NetTypes.Leviathan.constructor` | src/Jaket/Net/Types/Leviathan.cs:16-18 | a new entity has all four phase bytes at their default 0, no channel fed and the effect log empty |
| `NetTypes.Leviathan.Update` | src/Jaket/Net/Types/Leviathan.cs:45-87 | on the owner nothing changes. On a replica: health, positions and yaws take the channel values; the dead flag is set exactly when health is at most 0; the head and tail machines step as `HeadTick` and `TailTick`; nothing else changes |
| `NetTypes.Leviathan.Write` | src/Jaket/Net/Types/Leviathan.cs:91-104 | appends exactly `Encode` of the live state (health, positions, yaws, shown flags, phase bytes) to the writer |
| `NetTypes.Leviathan.Read` | src/Jaket/Net/Types/Leviathan.cs:106-121 | sets `LastUpdate` to the current time, then puts in place exactly the prefix of the stream that follows the schema. It takes those fields from the reader and succeeds exactly when that prefix is the whole snapshot. It touches nothing else: not the last applied phase bytes, the effect log or the boss's health and positions |
| `NetTypes.Leviathan.ReadChannel` | src/Jaket/Net/Types/Leviathan.cs:110-114 | channel i takes the next float, or the read stops at position i |
| `NetTypes.Leviathan.ReadChannels` | src/Jaket/Net/Types/Leviathan.cs:110-114 | the nine channels take the first nine floats in schema order, or the read stops where the stream leaves the schema |
| `NetTypes.Leviathan.ReadShown` | src/Jaket/Net/Types/Leviathan.cs:116-117 | the head's or the tail's shown flag takes the next bool, or the read stops there |
| `NetTypes.Leviathan.ReadShownFlags` | src/Jaket/Net/Types/Leviathan.cs:116-117 | the head's and then the tail's shown flag take the next two bools, and no other part of the boss changes |
| `NetTypes.Leviathan.ReadPhase` | src/Jaket/Net/Types/Leviathan.cs:119-120 | the head's or the tail's decoded phase byte takes the next byte, or the read stops there |
| `NetTypes.Leviathan.ReadPhases` | src/Jaket/Net/Types/Leviathan.cs:119-120 | the head's and then the tail's decoded phase byte take the next two bytes |
| `NetTypes.Deliver` | src/Jaket/Net/Types/Leviathan.cs:91-121 | an owner's `Write` read by a replica always succeeds, gives every float to the channel of the same name and delivers the shown flags and phase bytes as written. The replica's health, dead flag, positions and yaws are unchanged, and so, by its frame, are its last applied phase bytes and effects |

## Left out

- `Awake` (src/Jaket/Net/Types/Leviathan.cs:20-43): it registers the entity, looks up Unity components, scales the owner's health and seeds the health channel. These are engine and session calls outside the model. The constructor only starts the head's attack flag off, as the replica branch of `Awake` does.
- `FloatLerp` interpolation: its source is not part of this model and it works on floating point. Each channel is an opaque sink that records the floats it is fed, and the values `Get(LastUpdate)` returns are the parameter `k` of `Update`. The retention of only the two latest samples is not modelled.
- Byte encoding in `Writer` and `Reader`: their source is not part of this model. A stream is a sequence of typed fields. A field that is missing or of another kind stops the read, where the real reader may throw or misread the bytes.
- `Wire.Writer.Vector`: the order x, y, z is assumed, since `Writer.Vector` is not part of this model.
- Unity transforms, `GameObject.SetActive`, the Animator and `ChangePosition`: they appear only as fields of the entity and as the ghost effect log. The yaw is written straight into the model; the real code builds Euler angles with x and z at 0.
- `NetTypes.Leviathan.constructor`: the Animator's starting `ProjectileBurst` and `Sunken` are assumed to be false. Their real starting values come from the Animator asset, not from the source.
- The enemy's health and the stat block's health are one field. `Update` always sets both to the same value, and `Write` reads the enemy's.
- `LobbyController.IsOwner` and `Time.time` are parameters of `Update` and `Read`.
- 32-bit float arithmetic: floats are modelled as reals, so the dead test `health <= 0` is exact.
- Stale-snapshot rejection and atomic decode: the code has neither, so the model does not add them.
- src/Jaket/World/Movement.cs is not part of this model. It is input handling, camera and physics code driven by the engine.
