# Oat transport and position core, in Dafny

This project models the core of Oat's inter-process frame and position transport:

- the frame descriptor that a sink publishes in shared memory (`SharedFrameHeader`);
- the connection lifecycle of a source attached to a node: `touch`, `connect`, the strict
  `wait`/`post` alternation, the destructor's slot release and segment removal, the guarded
  `retrieve`/`clone`, and the connection parameters that `Source<SharedFrameHeader>` records;
- the integer part of the sample keeper (`Sample`): a count and a microsecond clock;
- the labelled position (`Position`): its two fixed 100-character buffers, filled the way
  `strncpy` followed by a forced trailing NUL fills them, and its assignment operator, which
  copies everything except the label;
- the planar position (`Position2D`): the sequence of writer calls `Serialize` makes, the JSON
  object those calls spell, and `setCoordSystem`/`homography`.

Each stateful entity is a class whose methods change its fields. The methods are specified
against pure functions: `SourceBase` methods against the step functions `TouchStep`,
`ConnectStep`, `WaitStep` and `PostStep`; `Position2D.Serialize` against
`EncodeObject(Document(...))`. The properties are lemmas about those functions. The writer is
modelled by the calls it receives. A small reader (`ReadObject`) recovers the object those
calls spell, and `ObjectRoundTrip` proves that it does so.

C++ widths are explicit:
- `size_t`/`uint64_t` values are `UInt64`, and `int` values are `Int32`.
- `ToInt32` narrows modulo 2^32; `ToUInt64` converts modulo 2^64, sign-extending negatives.
- The header stores rows and columns in `int` cells while its API takes and returns `size_t`.
  The model therefore proves exactly when a dimension survives: below 2^31, or within 2^31 of
  2^64.
- `Serialize` writes the 64-bit sample count with `writer.Int`, which narrows it to `int`.

The checks that throw in `wait`, `post`, `retrieve` and `clone` are compiled only without
`NDEBUG`. The model follows that kind of build: each throw is a `Failure` value, and the state
is left as it was at the point of the throw.

Two properties of the header code that shape its contracts:
- The two handle fields of `SharedFrameHeader` have no initializer
  (src/SharedFrameHeader.h:90-91), so the constructor promises nothing about them.
- After one `setParameters`, all five values read back exactly only when both dimensions
  survive the `int` cells (src/SharedFrameHeader.h:85-86). `PublishedRoundTrip` states
  exactly when.

`Position2D` is modelled as written, asymmetry included. `pos_ok`/`vel_ok` carry
`valid || verbose`. `head_ok`/`reg_ok` carry the flag alone, even though `verbose` still
writes their values.

## Model

| member | source | states |
|---|---|---|
| FixedWidth.ToInt32 | src/SharedFrameHeader.h:72-73 | storing a `size_t` in an `int` cell keeps the value modulo 2^32 and is exact for values that fit |
| FixedWidth.ToUInt64 | src/SharedFrameHeader.h:50-51 | reading an `int` cell as `size_t` keeps the value modulo 2^64, is exact for non-negative values and adds 2^64 to negative ones |
| FixedWidth.NarrowingRoundTrip | src/SharedFrameHeader.h:85-86 | a `size_t` comes back unchanged through an `int` cell if and only if it is below 2^31 or at least 2^64 - 2^31 |
| SharedFrame.Published | src/SharedFrameHeader.h:65-75 | after `setParameters` the handles and the type read back as given, and dimensions below 2^31 read back unchanged |
| SharedFrame.PublishedRoundTrip | src/SharedFrameHeader.h:65-86 | all five values read back exactly if and only if both dimensions survive the `int` cells |
| SharedFrame.SharedFrameHeader.constructor | src/SharedFrameHeader.h:85-91 | a fresh header reports zero rows, columns and type, and nothing about the two handles |
| SharedFrame.SharedFrameHeader.Rows | src/SharedFrameHeader.h:50 | `rows()` is the stored cell, sign-extended to `size_t` |
| SharedFrame.SharedFrameHeader.Cols | src/SharedFrameHeader.h:51 | `cols()` is the stored cell, sign-extended to `size_t` |
| SharedFrame.SharedFrameHeader.Type | src/SharedFrameHeader.h:52 | `type()`: the stored type; `PublishedRoundTrip` states its value after publishing |
| SharedFrame.SharedFrameHeader.Sample | src/SharedFrameHeader.h:53 | `sample()`: the stored sample handle; `PublishedRoundTrip` states its value after publishing |
| SharedFrame.SharedFrameHeader.Data | src/SharedFrameHeader.h:54 | `data()`: the stored data handle; `PublishedRoundTrip` states its value after publishing |
| SharedFrame.SharedFrameHeader.SetParameters | src/SharedFrameHeader.h:65-75 | every input is accepted; the five cells are overwritten, and the accessors then report `Published` of the inputs |
| SharedFrame.PublishTwice | src/SharedFrameHeader.h:70-74 | after two `setParameters` calls the accessors report only the second call's values |
| SharedFrame.PublishFresh | src/SharedFrameHeader.h:45-75 | a fresh header reads (0, 0, 0); publishing a 640x480 frame makes every accessor report what was published |
| Sources.Rank | src/Source.h:39-46 | the state ranks are -2 .. 2, in enumerator order |
| Sources.RankComparisons | src/Source.h:39-46 | `>= TOUCHED` singles out TOUCHED and CONNECTED, `>= CONNECTED` singles out CONNECTED, and below VIRGIN are exactly the two error states |
| Sources.HoldsSlotExactly | src/Source.h:106-107 | the destructor's release test holds exactly for TOUCHED, CONNECTED and ERR_TYPEMIS, and never for VIRGIN or ERR_NODEFULL |
| Sources.TouchOnlyOnce | src/Source.h:129-131 | `touch` outside VIRGIN fails and changes nothing |
| Sources.TouchFromVirgin | src/Source.h:134-157 | `touch` from VIRGIN records the address, its `_node` and `_obj` suffixes and the slot, and ends in ERR_NODEFULL exactly when `acquireSlot` is negative, else TOUCHED |
| Sources.ConnectOutcomes | src/Source.h:164-191 | `connect` outside TOUCHED fails unchanged; a not-found object gives ERR_TYPEMIS with a type-mismatch failure, a found one gives CONNECTED; the self-post path leaves the wait/post flag clear |
| Sources.WaitRules | src/Source.h:199-221 | `wait` succeeds if and only if the rank is at least TOUCHED and no post is owed; it then sets the flag and returns the sink's state, and otherwise changes nothing |
| Sources.PostRules | src/Source.h:229-238 | `post` succeeds if and only if the rank is at least CONNECTED and a post is owed; it then clears the flag, and otherwise changes nothing |
| Sources.StepPreservesInv | src/Source.h:126-238 | every operation keeps the invariant: VIRGIN exactly when no node is attached, suffixed addresses once touched, CONNECTED exactly when the object is held, a post owed only while a slot is held |
| Sources.RunPreservesInv | src/Source.h:126-238 | any sequence of operations keeps that invariant |
| Sources.WaitPostAlternate | src/Source.h:199-238 | in any sequence of calls the successful waits and posts strictly alternate, and the flag records which one is owed next |
| Sources.ErrorStatesAreFinal | src/Source.h:129-232 | from ERR_NODEFULL or ERR_TYPEMIS no later call changes anything, and no wait or post succeeds |
| Sources.TouchedForever | src/Source.h:129-157 | once touched, a source never returns to VIRGIN and keeps its derived addresses and slot |
| Sources.CaptureOfPublished | src/Source.h:345-349 | a source connecting to a published header records its columns, rows and type, and rows x cols x element size modulo 2^64 as the byte count |
| Sources.TouchStep | src/Source.h:129-157 | the `touch` transition; `TouchOnlyOnce` and `TouchFromVirgin` state what it does |
| Sources.ConnectStep | src/Source.h:164-191 | the `connect` transition; `ConnectOutcomes` states what it does |
| Sources.WaitStep | src/Source.h:199-221 | the `wait` transition; `WaitRules` states what it does |
| Sources.PostStep | src/Source.h:229-238 | the `post` transition; `PostRules` states what it does |
| Sources.Capture | src/Source.h:345-349 | the connection parameters a frame source records from a header; `CaptureOfPublished` states their values |
| Sources.SourceBase.constructor | src/Source.h:84-99 | a new source is VIRGIN, owes no post, holds no node and no object |
| Sources.SourceBase.Touch | src/Source.h:126-158 | the new state and the outcome are `TouchStep` of the old state, and the invariant holds |
| Sources.SourceBase.Connect | src/Source.h:161-192 | the new state and the outcome are `ConnectStep` of the old state, and the invariant holds |
| Sources.SourceBase.Wait | src/Source.h:195-222 | the new state and the result are `WaitStep` of the old state, and the invariant holds |
| Sources.SourceBase.Post | src/Source.h:225-239 | the new state and the outcome are `PostStep` of the old state, and the invariant holds |
| Sources.SourceBase.Teardown | src/Source.h:102-123 | the slot is released if and only if the state is TOUCHED, CONNECTED or ERR_TYPEMIS; both segments are removed exactly when a node is attached, its reference count is zero and no sink is bound |
| Sources.SourceBase.WriteNumber | src/Source.h:77-79 | the write number is 0 while no node is attached, otherwise the node's |
| Sources.Source.Retrieve | src/Source.h:256-265 | below CONNECTED `retrieve` fails; otherwise it returns the shared object |
| Sources.Source.Clone | src/Source.h:268-277 | `clone` fails exactly when not CONNECTED; otherwise it returns the shared object's value |
| Sources.FrameSource.constructor | src/Source.h:286-291 | the connection parameters start at zero |
| Sources.FrameSource.Connect | src/Source.h:305-352 | the lifecycle step is `ConnectStep`; on success the parameters are the header's columns, rows and type, and the byte count; on failure they are unchanged |
| Sources.FrameSource.Parameters | src/Source.h:298 | `parameters()`: the recorded connection parameters, as `FrameSource.Connect` sets them |
| Timing.PeriodMicroseconds | src/Sample.h:101-109 | the period in microseconds is the reciprocal rate, truncated to whole microseconds |
| Timing.Sample.constructor | src/Sample.h:119-123 | a default sample has count, clock and period all zero |
| Timing.Sample.FromPeriod | src/Sample.h:53-70 | the period-taking constructors leave the integer period at zero |
| Timing.Sample.IncrementCount | src/Sample.h:78-81 | the count goes up by one, modulo 2^64, and is returned; the clock advances by exactly the old period; the period stays |
| Timing.Sample.IncrementCountAt | src/Sample.h:91-94 | the count goes up by one and is returned; the clock becomes `usec`; the period stays |
| Timing.Sample.SetRateHz | src/Sample.h:101-109 | the integer period follows the rate; count and clock stay |
| Timing.Sample.Assign | src/Sample.h:119-122 | copy assignment copies count, clock and period |
| Timing.Sample.Count | src/Sample.h:111 | `count()`: the tick count, as the increment methods state it |
| Timing.Sample.Microseconds | src/Sample.h:112 | `microseconds()`: the clock, as the increment methods state it |
| Timing.Sample.PeriodMicros | src/Sample.h:114 | `period_microseconds()`: the integer period, as `SetRateHz` states it |
| Timing.CountTicks | src/Sample.h:78-81 | n increments from the default state with a rate set read count n and clock n x period |
| Timing.CountWithoutRate | src/Sample.h:53-81 | with only a period in seconds given, n increments read count n and clock 0 |
| Positions.CString | src/Position.h:43 | the C string of a buffer is its longest NUL-free prefix, ended by a NUL or by the end of the buffer |
| Positions.Strncpy | src/Position.h:43 | `strncpy` of n characters; `CopyInto` is proved equal to it |
| Positions.Terminated | src/Position.h:43-44 | a 100-cell buffer after `strncpy` and the forced final NUL, as the label and region copies do; `TerminatedPrefix` and `ShortTextStoredExactly` state its contents |
| Positions.CopyInto | src/Position.h:43 | copying into an array in place makes its first n cells `strncpy`'s n characters, the C string cut or NUL-padded to n, and leaves the rest |
| Positions.TerminatedPrefix | src/Position.h:43-44 | a stored buffer ends in NUL, and as a C string it holds the source's C string cut to at most 99 characters |
| Positions.ShortTextStoredExactly | src/Position.h:43 | a NUL-free text shorter than 100 characters is stored exactly, followed by NULs to the end of the buffer |
| Positions.Position.constructor | src/Position.h:41-45 | the label holds the terminated copy of the text; flags false, unit PIXELS, region all NUL, default sample |
| Positions.Position.Assign | src/Position.h:49-66 | self-assignment changes nothing; otherwise unit, sample, the four flags and the terminated copy of the region are copied, and the label is kept |
| Positions.Position.Label | src/Position.h:72 | `label()`: the label buffer, whose contents the constructor states |
| Positions.Position.UnitOfLength | src/Position.h:73 | `unit_of_length()`: the unit, as the constructor, `Assign` and `SetCoordSystem` state it |
| Planar.ObjectRoundTrip | src/Position2D.h:64-122 | the calls for an object read back as exactly that object, so they form one well-formed object |
| Planar.Header | src/Position2D.h:66-75 | the tick, usec and unit members; `HeaderValues` states their values |
| Planar.PositionSection | src/Position2D.h:77-87 | the pos_ok member and the optional pos_xy; `MotionValues` states them |
| Planar.VelocitySection | src/Position2D.h:89-99 | the vel_ok member and the optional vel_xy; `MotionValues` states them |
| Planar.HeadingSection | src/Position2D.h:101-111 | the head_ok member and the optional head_xy; `HeadingRegionValues` states them |
| Planar.RegionSection | src/Position2D.h:113-120 | the reg_ok member and the optional reg; `HeadingRegionValues` states them |
| Planar.Document | src/Position2D.h:64-122 | the members `Serialize` writes, in order; `KeyOrder` and the value lemmas state them |
| Planar.KeyOrder | src/Position2D.h:64-122 | the keys are tick, usec, unit, pos_ok, [pos_xy], vel_ok, [vel_xy], head_ok, [head_xy], reg_ok, [reg], each bracketed key present exactly when its section is shown; verbose gives all eleven |
| Planar.SectionKeys | src/Position2D.h:66-120 | each section contributes its validity key and, when shown, its value key |
| Planar.HeaderValues | src/Position2D.h:66-75 | tick is the count narrowed to `int`, so exact below 2^31; usec is the clock; unit is the unit's code |
| Planar.MotionValues | src/Position2D.h:77-99 | pos_ok and vel_ok carry `valid or verbose`, and pos_xy and vel_xy are present with the point exactly when that holds |
| Planar.HeadingRegionValues | src/Position2D.h:101-120 | head_ok and reg_ok carry their own flag alone, while head_xy and reg are present exactly when `valid or verbose`; reg is the region's C string |
| Planar.VerboseWritesEveryValue | src/Position2D.h:77-120 | with verbose every value key is written, pos_ok is true, and head_ok is still the heading flag |
| Planar.ArraysHaveTwoItems | src/Position2D.h:81-111 | every array in the object holds exactly two numbers |
| Planar.PointCalls | src/Position2D.h:83-86 | a point is written as StartArray, two Doubles, EndArray(2) |
| Planar.Position2D.constructor | src/Position2D.h:39-43 | a new position has the base defaults, zero points and the identity homography |
| Planar.Position2D.Serialize | src/Position2D.h:62-123 | the writer receives exactly the calls of `EncodeObject(Document(...))` for the position as it was, after whatever it held before |
| Planar.Position2D.SetCoordSystem | src/Position2D.h:125-129 | the unit and the homography become the given ones; points and flags stay |
| Planar.Position2D.Homography | src/Position2D.h:131 | `homography()`: the stored matrix; `CoordSystemRoundTrip` states its value |
| Planar.Position2D.Assign | src/Position2D.h:36-49 | the implicit copy copies the base as `Position.Assign` does, then the points and the homography |
| Planar.SerializeFresh | src/Position2D.h:62-135 | a fresh position serializes to a readable object with tick 0, usec 0, pos_ok = verbose, head_ok false, and points and region only under verbose |
| Planar.CoordSystemRoundTrip | src/Position2D.h:125-135 | the homography is the identity until `setCoordSystem`, and after it `homography()` and `unit_of_length()` are what was set |

## Left out

- Shared-memory plumbing: creating and opening segments, `find_or_construct`, `remove` and
  handle-to-address translation. These are foreign calls. Their results enter the operations
  as inputs: the slot granted, the sink's state, whether the object was found, the reference
  count and the node's write number.
- `Node.h` is not part of this model. Its states are reduced to SINK_BOUND, END and "other".
- The timed-wait polling loop and the semaphore barriers in `wait`/`post`. They concern
  inter-process blocking. A `wait` that returns is modelled by the sink state it returns.
- Atomicity of the `std::atomic` fields. The model is sequential.
- Builds with `NDEBUG` defined, where the guards of `wait`, `post`, `retrieve` and `clone`
  vanish. Only the checked build is modelled.
- `Frame.h` and the `frame_` member of `Source<SharedFrameHeader>`, together with its
  `retrieve`, `clone` and `copyTo`. Those wrap the matrix library. The byte count takes the
  element size as an input.
- Sources.FrameSource.Connect: assumes the matrix library accepts the geometry. Rejection of
  negative dimensions is not modelled.
- `Position3D.h`, `Helpers.h` and `ForwardsDecl.h`.
- Floating-point parts of `Sample`: `rate_hz`, `period_sec` and the seconds period. The rate
  enters `SetRateHz` as an exact `real`, and the truncating cast is modelled on those reals
  rather than on IEEE doubles.
- Timing.Sample.IncrementCount: the microsecond clock is an unbounded integer; signed 64-bit
  overflow is undefined behaviour in the source and is not modelled.
- Position2D coordinates and homography entries are opaque `real` payloads. No arithmetic is
  done on them.
- Planar.Position2D.Serialize: reads the position once at the start, rather than field by
  field between calls. Nothing but the writer changes during the call, so the two agree.
- Planar.Position2D.Assign: requires the two positions to be the same object or to share no
  buffers.
- The `touched_` and `connected_` flags of `SourceBase` are declared but never set, so they
  are not modelled.
- Characters: one Dafny `char` stands for one C++ `char`, that is one byte. Labels, regions
  and texts are sequences of such bytes; multi-byte encodings are not modelled, so the
  100-cell limits count bytes, not Unicode characters.
- The checked build's message printed when `Teardown` removes a segment
  (src/Source.h:118-121). It is console output only.
