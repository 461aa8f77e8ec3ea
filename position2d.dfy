/** A planar position and its JSON serialization. The writer is modelled by the calls it
    receives; a small reader over those calls recovers the JSON object they spell, and the
    lemmas below state which keys that object holds, in what order, with which values. The
    coordinates are carried as opaque `real` payloads and never computed with. */
module Planar {

  import opened Wrappers
  import opened FixedWidth
  import opened Timing
  import opened Positions

  datatype Point = Point(x: real, y: real)

  /** A 3x3 matrix in row-major order. */
  type Matrix33 = m: seq<real> | |m| == 9 witness [0.0, 0.0, 0.0, 0.0, 0.0, 0.0, 0.0, 0.0, 0.0]

  const IDENTITY: Matrix33 := [1.0, 0.0, 0.0, 0.0, 1.0, 0.0, 0.0, 0.0, 1.0]

  // ---------------------------------------------------------------------------------------
  // The writer, as the sequence of calls it receives

  datatype WriterCall =
    | StartObjectCall
    | EndObjectCall
    | StringCall(s: string)
    | IntCall(i: Int32)
    | Int64Call(l: int)
    | BoolCall(b: bool)
    | DoubleCall(d: real)
    | StartArrayCall
    | EndArrayCall(count: nat)

  class Writer {

    var calls: seq<WriterCall>

    constructor ()
      ensures calls == []
    {
      calls := [];
    }

    method StartObject()
      modifies this
      ensures calls == old(calls) + [StartObjectCall]
    {
      calls := calls + [StartObjectCall];
    }

    method EndObject()
      modifies this
      ensures calls == old(calls) + [EndObjectCall]
    {
      calls := calls + [EndObjectCall];
    }

    method String(s: string)
      modifies this
      ensures calls == old(calls) + [StringCall(s)]
    {
      calls := calls + [StringCall(s)];
    }

    method Int(i: Int32)
      modifies this
      ensures calls == old(calls) + [IntCall(i)]
    {
      calls := calls + [IntCall(i)];
    }

    method Int64(i: int)
      modifies this
      ensures calls == old(calls) + [Int64Call(i)]
    {
      calls := calls + [Int64Call(i)];
    }

    method Bool(b: bool)
      modifies this
      ensures calls == old(calls) + [BoolCall(b)]
    {
      calls := calls + [BoolCall(b)];
    }

    method Double(d: real)
      modifies this
      ensures calls == old(calls) + [DoubleCall(d)]
    {
      calls := calls + [DoubleCall(d)];
    }

    method StartArray()
      modifies this
      ensures calls == old(calls) + [StartArrayCall]
    {
      calls := calls + [StartArrayCall];
    }

    method EndArray(count: nat)
      modifies this
      ensures calls == old(calls) + [EndArrayCall(count)]
    {
      calls := calls + [EndArrayCall(count)];
    }
  }

  // ---------------------------------------------------------------------------------------
  // JSON values, how they are written, and how the writer's calls read back

  datatype Json = JInt(i: Int32) | JInt64(l: int) | JBool(b: bool) | JString(s: string) | JArray(items: seq<real>)

  type Member = (string, Json)

  function Doubles(xs: seq<real>): (r: seq<WriterCall>)
    ensures |r| == |xs| && forall i :: 0 <= i < |xs| ==> r[i] == DoubleCall(xs[i])
  {
    seq(|xs|, i requires 0 <= i < |xs| => DoubleCall(xs[i]))
  }

  function EncodeValue(v: Json): seq<WriterCall>
  {
    match v
    case JInt(i) => [IntCall(i)]
    case JInt64(i) => [Int64Call(i)]
    case JBool(b) => [BoolCall(b)]
    case JString(s) => [StringCall(s)]
    case JArray(xs) => [StartArrayCall] + Doubles(xs) + [EndArrayCall(|xs|)]
  }

  function EncodeMembers(ms: seq<Member>): seq<WriterCall>
    decreases |ms|
  {
    if ms == [] then [] else [StringCall(ms[0].0)] + (EncodeValue(ms[0].1) + EncodeMembers(ms[1..]))
  }

  function EncodeObject(ms: seq<Member>): seq<WriterCall>
  {
    [StartObjectCall] + EncodeMembers(ms) + [EndObjectCall]
  }

  /** Reads the leading run of `Double` calls. */
  function ReadDoubles(cs: seq<WriterCall>): (r: (seq<real>, seq<WriterCall>))
    ensures |r.1| <= |cs|
    decreases |cs|
  {
    if cs != [] && cs[0].DoubleCall? then
      var (xs, rest) := ReadDoubles(cs[1..]);
      ([cs[0].d] + xs, rest)
    else ([], cs)
  }

  /** Reads one value; an array must be closed with the count of its elements. */
  function ReadValue(cs: seq<WriterCall>): (r: Option<(Json, seq<WriterCall>)>)
    ensures r.Some? ==> |r.value.1| < |cs|
  {
    if cs == [] then None
    else match cs[0]
      case IntCall(i) => Some((JInt(i), cs[1..]))
      case Int64Call(i) => Some((JInt64(i), cs[1..]))
      case BoolCall(b) => Some((JBool(b), cs[1..]))
      case StringCall(s) => Some((JString(s), cs[1..]))
      case StartArrayCall =>
        var (xs, rest) := ReadDoubles(cs[1..]);
        if rest != [] && rest[0] == EndArrayCall(|xs|) then Some((JArray(xs), rest[1..])) else None
      case _ => None
  }

  /** Reads key/value pairs up to the call that closes the object, which is left in place. */
  function ReadMembers(cs: seq<WriterCall>): Option<(seq<Member>, seq<WriterCall>)>
    decreases |cs|
  {
    if cs == [] then None
    else if cs[0] == EndObjectCall then Some(([], cs))
    else if cs[0].StringCall? then
      match ReadValue(cs[1..])
      case None => None
      case Some((v, rest)) =>
        match ReadMembers(rest)
        case None => None
        case Some((ms, tail)) => Some(([(cs[0].s, v)] + ms, tail))
    else None
  }

  /** Reads a whole object; nothing may follow it. */
  function ReadObject(cs: seq<WriterCall>): Option<seq<Member>>
  {
    if cs == [] || cs[0] != StartObjectCall then None
    else match ReadMembers(cs[1..])
      case Some((ms, tail)) => if tail == [EndObjectCall] then Some(ms) else None
      case None => None
  }

  lemma {:induction false} ReadDoublesOf(xs: seq<real>, tail: seq<WriterCall>)
    requires tail != [] && !tail[0].DoubleCall?
    ensures ReadDoubles(Doubles(xs) + tail) == (xs, tail)
    decreases |xs|
  {
    if xs != [] {
      var cs := Doubles(xs) + tail;
      assert cs[0] == DoubleCall(xs[0]);
      assert cs[1..] == Doubles(xs[1..]) + tail;
      ReadDoublesOf(xs[1..], tail);
      assert [xs[0]] + xs[1..] == xs;
    } else {
      assert Doubles(xs) + tail == tail;
    }
  }

  lemma ReadValueOf(v: Json, tail: seq<WriterCall>)
    ensures ReadValue(EncodeValue(v) + tail) == Some((v, tail))
  {
    if v.JArray? {
      ReadArrayOf(v.items, tail);
    } else {
      DropHead(EncodeValue(v)[0], tail);
    }
  }

  lemma ReadArrayOf(xs: seq<real>, tail: seq<WriterCall>)
    ensures ReadValue(EncodeValue(JArray(xs)) + tail) == Some((JArray(xs), tail))
  {
    var cs := EncodeValue(JArray(xs)) + tail;
    var rest := [EndArrayCall(|xs|)] + tail;
    assert cs == [StartArrayCall] + (Doubles(xs) + rest);
    DropHead(StartArrayCall, Doubles(xs) + rest);
    ReadDoublesOf(xs, rest);
    assert ReadDoubles(cs[1..]) == (xs, rest);
  }

  lemma {:induction false} ReadMembersOf(ms: seq<Member>, tail: seq<WriterCall>)
    requires tail != [] && tail[0] == EndObjectCall
    ensures ReadMembers(EncodeMembers(ms) + tail) == Some((ms, tail))
    decreases |ms|
  {
    if ms == [] {
      assert EncodeMembers(ms) + tail == tail;
    } else {
      var cs := EncodeMembers(ms) + tail;
      var rest := EncodeMembers(ms[1..]) + tail;
      EncodeMembersCons(ms, tail);
      ReadValueOf(ms[0].1, rest);
      ReadMembersOf(ms[1..], tail);
      ReadMembersStep(cs, ms[0].0, ms[0].1, rest, ms[1..], tail);
      assert [(ms[0].0, ms[0].1)] + ms[1..] == ms;
    }
  }

  lemma EncodeMembersCons(ms: seq<Member>, tail: seq<WriterCall>)
    requires ms != []
    ensures var cs := EncodeMembers(ms) + tail;
      cs != [] && cs[0] == StringCall(ms[0].0) && cs[1..] == EncodeValue(ms[0].1) + (EncodeMembers(ms[1..]) + tail)
  {
    var b, c := EncodeValue(ms[0].1), EncodeMembers(ms[1..]);
    ConsAppend(StringCall(ms[0].0), b, c, tail);
  }

  lemma DropHead(x: WriterCall, rest: seq<WriterCall>)
    ensures ([x] + rest)[0] == x && ([x] + rest)[1..] == rest
  {
  }

  lemma ConsAppend(x: WriterCall, b: seq<WriterCall>, c: seq<WriterCall>, tail: seq<WriterCall>)
    ensures var cs := [x] + (b + c) + tail; cs[0] == x && cs[1..] == b + (c + tail)
  {
    assert [x] + (b + c) + tail == [x] + (b + (c + tail));
  }

  /** One member read, then the rest. */
  lemma ReadMembersStep(cs: seq<WriterCall>, k: string, v: Json, rest: seq<WriterCall>, ms: seq<Member>, tail: seq<WriterCall>)
    requires cs != [] && cs[0] == StringCall(k)
    requires ReadValue(cs[1..]) == Some((v, rest)) && ReadMembers(rest) == Some((ms, tail))
    ensures ReadMembers(cs) == Some(([(k, v)] + ms, tail))
  {
  }

  /** Writing an object and reading the calls back yields the same members: the calls form
      exactly one well-formed object. */
  lemma ObjectRoundTrip(ms: seq<Member>)
    ensures ReadObject(EncodeObject(ms)) == Some(ms)
  {
    var cs := EncodeObject(ms);
    assert cs[1..] == EncodeMembers(ms) + [EndObjectCall];
    ReadMembersOf(ms, [EndObjectCall]);
  }

  // ---------------------------------------------------------------------------------------
  // What Serialize writes

  /** What `Serialize` reads of a position. */
  datatype Observation = Observation(
    count: UInt64, microseconds: int, unit: DistanceUnit,
    positionValid: bool, velocityValid: bool, headingValid: bool, regionValid: bool,
    position: Point, velocity: Point, heading: Point, region: seq<char>)

  function XY(p: Point): Json
  {
    JArray([p.x, p.y])
  }

  /** The sample number, the clock and the unit code. */
  function Header(o: Observation): seq<Member>
  {
    [("tick", JInt(ToInt32(o.count))), ("usec", JInt64(o.microseconds)), ("unit", JInt(UnitCode(o.unit)))]
  }

  /** A validity key carrying `ok`, then the member `m` if `present`. */
  function Section(okKey: string, ok: bool, m: Member, present: bool): seq<Member>
  {
    [(okKey, JBool(ok))] + (if present then [m] else [])
  }

  function PositionSection(o: Observation, verbose: bool): seq<Member>
  {
    Section("pos_ok", o.positionValid || verbose, ("pos_xy", XY(o.position)), o.positionValid || verbose)
  }

  function VelocitySection(o: Observation, verbose: bool): seq<Member>
  {
    Section("vel_ok", o.velocityValid || verbose, ("vel_xy", XY(o.velocity)), o.velocityValid || verbose)
  }

  /** Unlike position and velocity, the heading and region flags are written as they are. */
  function HeadingSection(o: Observation, verbose: bool): seq<Member>
  {
    Section("head_ok", o.headingValid, ("head_xy", XY(o.heading)), o.headingValid || verbose)
  }

  function RegionSection(o: Observation, verbose: bool): seq<Member>
  {
    Section("reg_ok", o.regionValid, ("reg", JString(CString(o.region))), o.regionValid || verbose)
  }

  /** The members of the object `Serialize` writes, in order: the header, then one section each
      for position, velocity, heading and region. */
  function Document(o: Observation, verbose: bool): seq<Member>
  {
    Header(o) + PositionSection(o, verbose) + VelocitySection(o, verbose)
      + HeadingSection(o, verbose) + RegionSection(o, verbose)
  }

  function Keys(ms: seq<Member>): (ks: seq<string>)
    ensures |ks| == |ms| && forall i :: 0 <= i < |ms| ==> ks[i] == ms[i].0
  {
    seq(|ms|, i requires 0 <= i < |ms| => ms[i].0)
  }

  /** The value of the first member named `k`. */
  function Lookup(ms: seq<Member>, k: string): Option<Json>
    decreases |ms|
  {
    if ms == [] then None else if ms[0].0 == k then Some(ms[0].1) else Lookup(ms[1..], k)
  }

  /** Every key the serializer can write, in the order it writes them. */
  const ALL_KEYS: seq<string> :=
    ["tick", "usec", "unit", "pos_ok", "pos_xy", "vel_ok", "vel_xy", "head_ok", "head_xy", "reg_ok", "reg"]

  lemma {:induction false} LookupAppend(a: seq<Member>, b: seq<Member>, k: string)
    ensures Lookup(a + b, k) == if k in Keys(a) then Lookup(a, k) else Lookup(b, k)
    decreases |a|
  {
    if a != [] {
      assert (a + b)[1..] == a[1..] + b;
      assert Keys(a) == [a[0].0] + Keys(a[1..]);
      LookupAppend(a[1..], b, k);
    } else {
      assert a + b == b;
    }
  }

  lemma KeysAppend(a: seq<Member>, b: seq<Member>)
    ensures Keys(a + b) == Keys(a) + Keys(b)
  {
  }

  function OrElse(x: Option<Json>, y: Option<Json>): Option<Json>
  {
    if x.Some? then x else y
  }

  lemma {:induction false} LookupFound(ms: seq<Member>, k: string)
    ensures Lookup(ms, k).Some? <==> k in Keys(ms)
    decreases |ms|
  {
    if ms != [] {
      assert Keys(ms) == [ms[0].0] + Keys(ms[1..]);
      LookupFound(ms[1..], k);
    }
  }

  lemma LookupOrElse(a: seq<Member>, b: seq<Member>, k: string)
    ensures Lookup(a + b, k) == OrElse(Lookup(a, k), Lookup(b, k))
  {
    LookupAppend(a, b, k);
    LookupFound(a, k);
  }

  lemma SectionFacts(okKey: string, ok: bool, m: Member, present: bool, k: string)
    requires okKey != m.0
    ensures Keys(Section(okKey, ok, m, present)) == [okKey] + (if present then [m.0] else [])
    ensures Lookup(Section(okKey, ok, m, present), k) ==
      if k == okKey then Some(JBool(ok)) else if k == m.0 && present then Some(m.1) else None
  {
    var sec := Section(okKey, ok, m, present);
    if !present {
      assert sec == [(okKey, JBool(ok))] && sec[1..] == [];
      assert Lookup(sec[1..], k) == None;
    } else {
      assert sec == [(okKey, JBool(ok)), m] && sec[1..] == [m] && sec[1..][1..] == [];
      assert Lookup(sec[1..][1..], k) == None;
      assert Lookup(sec[1..], k) == if k == m.0 then Some(m.1) else None;
    }
  }

  lemma HeaderFacts(o: Observation, k: string)
    ensures Keys(Header(o)) == ["tick", "usec", "unit"]
    ensures Lookup(Header(o), k) ==
      if k == "tick" then Some(JInt(ToInt32(o.count)))
      else if k == "usec" then Some(JInt64(o.microseconds))
      else if k == "unit" then Some(JInt(UnitCode(o.unit)))
      else None
  {
    var h := Header(o);
    assert h[1..] == [h[1], h[2]] && h[1..][1..] == [h[2]] && h[1..][1..][1..] == [];
    assert Lookup(h[1..][1..][1..], k) == None;
    assert Lookup(h[1..][1..], k) == if k == "unit" then Some(JInt(UnitCode(o.unit))) else None;
    assert Lookup(h[1..], k) == if k == "usec" then Some(JInt64(o.microseconds))
      else if k == "unit" then Some(JInt(UnitCode(o.unit))) else None;
  }

  /** The keys of the object are the keys of its sections, one after the other. */
  lemma DocumentKeysSplit(o: Observation, verbose: bool)
    ensures Keys(Document(o, verbose)) == Keys(Header(o)) + Keys(PositionSection(o, verbose))
      + Keys(VelocitySection(o, verbose)) + Keys(HeadingSection(o, verbose)) + Keys(RegionSection(o, verbose))
  {
    var s0, s1, s2, s3, s4 := Header(o), PositionSection(o, verbose), VelocitySection(o, verbose),
      HeadingSection(o, verbose), RegionSection(o, verbose);
    KeysAppend(s0 + s1 + s2 + s3, s4);
    KeysAppend(s0 + s1 + s2, s3);
    KeysAppend(s0 + s1, s2);
    KeysAppend(s0, s1);
  }

  /** The keys of each section: the header's three, then a `*_ok` key and, when shown, a value
      key. */
  lemma SectionKeys(o: Observation, verbose: bool)
    ensures Keys(Header(o)) == ["tick", "usec", "unit"]
    ensures Keys(PositionSection(o, verbose)) == ["pos_ok"] + (if o.positionValid || verbose then ["pos_xy"] else [])
    ensures Keys(VelocitySection(o, verbose)) == ["vel_ok"] + (if o.velocityValid || verbose then ["vel_xy"] else [])
    ensures Keys(HeadingSection(o, verbose)) == ["head_ok"] + (if o.headingValid || verbose then ["head_xy"] else [])
    ensures Keys(RegionSection(o, verbose)) == ["reg_ok"] + (if o.regionValid || verbose then ["reg"] else [])
  {
    HeaderFacts(o, "");
    SectionFacts("pos_ok", o.positionValid || verbose, ("pos_xy", XY(o.position)), o.positionValid || verbose, "");
    SectionFacts("vel_ok", o.velocityValid || verbose, ("vel_xy", XY(o.velocity)), o.velocityValid || verbose, "");
    SectionFacts("head_ok", o.headingValid, ("head_xy", XY(o.heading)), o.headingValid || verbose, "");
    SectionFacts("reg_ok", o.regionValid, ("reg", JString(CString(o.region))), o.regionValid || verbose, "");
  }

  /** The keys come in a fixed order: the header, then per section its `*_ok` key, always,
      followed by its value key when that section is shown; `verbose` writes all of `ALL_KEYS`. */
  lemma KeyOrder(o: Observation, verbose: bool)
    ensures Keys(Document(o, verbose)) ==
      ["tick", "usec", "unit", "pos_ok"] + (if o.positionValid || verbose then ["pos_xy"] else [])
      + ["vel_ok"] + (if o.velocityValid || verbose then ["vel_xy"] else [])
      + ["head_ok"] + (if o.headingValid || verbose then ["head_xy"] else [])
      + ["reg_ok"] + (if o.regionValid || verbose then ["reg"] else [])
    ensures verbose ==> Keys(Document(o, verbose)) == ALL_KEYS
  {
    DocumentKeysSplit(o, verbose);
    SectionKeys(o, verbose);
  }

  /** Looking a key up in the object: the first section that has it answers. */
  lemma DocumentLookup(o: Observation, verbose: bool, k: string)
    ensures Lookup(Document(o, verbose), k) ==
      OrElse(Lookup(Header(o), k), OrElse(Lookup(PositionSection(o, verbose), k),
      OrElse(Lookup(VelocitySection(o, verbose), k), OrElse(Lookup(HeadingSection(o, verbose), k),
      Lookup(RegionSection(o, verbose), k)))))
  {
    var s0, s1, s2, s3, s4 := Header(o), PositionSection(o, verbose), VelocitySection(o, verbose),
      HeadingSection(o, verbose), RegionSection(o, verbose);
    assert s0 + s1 + s2 + s3 + s4 == s0 + (s1 + (s2 + (s3 + s4)));
    LookupOrElse(s0, s1 + (s2 + (s3 + s4)), k);
    LookupOrElse(s1, s2 + (s3 + s4), k);
    LookupOrElse(s2, s3 + s4, k);
    LookupOrElse(s3, s4, k);
  }

  /** The numbers at the head of the object: the sample count narrowed to `int` (so exact below
      2^31), the clock, and the unit's code. */
  lemma HeaderValues(o: Observation, verbose: bool)
    ensures var d := Document(o, verbose);
      && Lookup(d, "tick") == Some(JInt(ToInt32(o.count)))
      && (o.count < TWO_31 ==> Lookup(d, "tick") == Some(JInt(o.count)))
      && Lookup(d, "usec") == Some(JInt64(o.microseconds))
      && Lookup(d, "unit") == Some(JInt(UnitCode(o.unit)))
  {
    forall k | k in ["tick", "usec", "unit"] ensures Lookup(Document(o, verbose), k) == Lookup(Header(o), k) {
      DocumentLookup(o, verbose, k);
      HeaderFacts(o, k);
    }
    HeaderFacts(o, "tick");
    HeaderFacts(o, "usec");
    HeaderFacts(o, "unit");
  }

  /** Everything the document holds under key `k`, section by section. */
  lemma KeyLookup(o: Observation, verbose: bool, k: string)
    ensures Lookup(Document(o, verbose), k) ==
      OrElse(Lookup(Header(o), k),
      OrElse(if k == "pos_ok" then Some(JBool(o.positionValid || verbose))
             else if k == "pos_xy" && (o.positionValid || verbose) then Some(XY(o.position)) else None,
      OrElse(if k == "vel_ok" then Some(JBool(o.velocityValid || verbose))
             else if k == "vel_xy" && (o.velocityValid || verbose) then Some(XY(o.velocity)) else None,
      OrElse(if k == "head_ok" then Some(JBool(o.headingValid))
             else if k == "head_xy" && (o.headingValid || verbose) then Some(XY(o.heading)) else None,
             if k == "reg_ok" then Some(JBool(o.regionValid))
             else if k == "reg" && (o.regionValid || verbose) then Some(JString(CString(o.region))) else None))))
  {
    DocumentLookup(o, verbose, k);
    SectionFacts("pos_ok", o.positionValid || verbose, ("pos_xy", XY(o.position)), o.positionValid || verbose, k);
    SectionFacts("vel_ok", o.velocityValid || verbose, ("vel_xy", XY(o.velocity)), o.velocityValid || verbose, k);
    SectionFacts("head_ok", o.headingValid, ("head_xy", XY(o.heading)), o.headingValid || verbose, k);
    SectionFacts("reg_ok", o.regionValid, ("reg", JString(CString(o.region))), o.regionValid || verbose, k);
  }

  /** Position and velocity report `valid || verbose` and write their coordinates under the same
      condition. */
  lemma MotionValues(o: Observation, verbose: bool)
    ensures var d := Document(o, verbose);
      && Lookup(d, "pos_ok") == Some(JBool(o.positionValid || verbose))
      && Lookup(d, "pos_xy") == (if o.positionValid || verbose then Some(XY(o.position)) else None)
      && Lookup(d, "vel_ok") == Some(JBool(o.velocityValid || verbose))
      && Lookup(d, "vel_xy") == (if o.velocityValid || verbose then Some(XY(o.velocity)) else None)
  {
    KeyLookup(o, verbose, "pos_ok");
    HeaderFacts(o, "pos_ok");
    KeyLookup(o, verbose, "pos_xy");
    HeaderFacts(o, "pos_xy");
    KeyLookup(o, verbose, "vel_ok");
    HeaderFacts(o, "vel_ok");
    KeyLookup(o, verbose, "vel_xy");
    HeaderFacts(o, "vel_xy");
  }

  /** Heading and region report their own flag alone, yet `verbose` still writes their
      values. */
  lemma HeadingRegionValues(o: Observation, verbose: bool)
    ensures var d := Document(o, verbose);
      && Lookup(d, "head_ok") == Some(JBool(o.headingValid))
      && Lookup(d, "head_xy") == (if o.headingValid || verbose then Some(XY(o.heading)) else None)
      && Lookup(d, "reg_ok") == Some(JBool(o.regionValid))
      && Lookup(d, "reg") == (if o.regionValid || verbose then Some(JString(CString(o.region))) else None)
  {
    KeyLookup(o, verbose, "head_ok");
    HeaderFacts(o, "head_ok");
    KeyLookup(o, verbose, "head_xy");
    HeaderFacts(o, "head_xy");
    KeyLookup(o, verbose, "reg_ok");
    HeaderFacts(o, "reg_ok");
    KeyLookup(o, verbose, "reg");
    HeaderFacts(o, "reg");
  }

  /** A validity key is never missing, holds a boolean, and with `verbose` every value key is
      written whatever the flags say. */
  lemma VerboseWritesEveryValue(o: Observation)
    ensures Lookup(Document(o, true), "pos_xy") == Some(XY(o.position))
    ensures Lookup(Document(o, true), "vel_xy") == Some(XY(o.velocity))
    ensures Lookup(Document(o, true), "head_xy") == Some(XY(o.heading))
    ensures Lookup(Document(o, true), "reg") == Some(JString(CString(o.region)))
    ensures Lookup(Document(o, true), "pos_ok") == Some(JBool(true))
    ensures Lookup(Document(o, true), "head_ok") == Some(JBool(o.headingValid))
  {
    MotionValues(o, true);
    HeadingRegionValues(o, true);
  }

  /** Every array in the object is a point: exactly two numbers. */
  lemma ArraysHaveTwoItems(o: Observation, verbose: bool)
    ensures forall m :: m in Document(o, verbose) && m.1.JArray? ==> |m.1.items| == 2
  {
    forall m | m in Document(o, verbose) && m.1.JArray?
      ensures |m.1.items| == 2
    {
      assert m in Header(o) || m in PositionSection(o, verbose) || m in VelocitySection(o, verbose)
        || m in HeadingSection(o, verbose) || m in RegionSection(o, verbose);
    }
  }

  // ---------------------------------------------------------------------------------------
  // Writing the object call by call

  /** A point is written as an array of its two coordinates, closed with the count 2. */
  lemma PointCalls(p: Point)
    ensures EncodeValue(XY(p)) == [StartArrayCall, DoubleCall(p.x), DoubleCall(p.y), EndArrayCall(2)]
  {
    assert Doubles([p.x, p.y]) == [DoubleCall(p.x), DoubleCall(p.y)];
  }

  lemma {:induction false} EncodeMembersAppend(a: seq<Member>, b: seq<Member>)
    ensures EncodeMembers(a + b) == EncodeMembers(a) + EncodeMembers(b)
    decreases |a|
  {
    if a == [] {
      assert a + b == b;
    } else {
      assert (a + b)[1..] == a[1..] + b;
      EncodeMembersAppend(a[1..], b);
    }
  }

  lemma EncodeSection(okKey: string, ok: bool, m: Member, present: bool)
    ensures EncodeMembers(Section(okKey, ok, m, present))
      == [StringCall(okKey), BoolCall(ok)] + (if present then [StringCall(m.0)] + EncodeValue(m.1) else [])
  {
    var sec := Section(okKey, ok, m, present);
    assert EncodeValue(JBool(ok)) == [BoolCall(ok)];
    if present {
      assert sec[1..] == [m] && sec[1..][1..] == [];
      assert EncodeMembers(sec[1..]) == [StringCall(m.0)] + EncodeValue(m.1) + EncodeMembers(sec[1..][1..]);
    } else {
      assert sec[1..] == [];
    }
    assert EncodeMembers(sec) == [StringCall(okKey)] + EncodeValue(JBool(ok)) + EncodeMembers(sec[1..]);
  }

  lemma EncodeHeader(o: Observation)
    ensures EncodeMembers(Header(o)) == [StringCall("tick"), IntCall(ToInt32(o.count)),
      StringCall("usec"), Int64Call(o.microseconds), StringCall("unit"), IntCall(UnitCode(o.unit))]
  {
    var h := Header(o);
    assert h[1..] == [h[1], h[2]] && h[1..][1..] == [h[2]] && h[1..][1..][1..] == [];
    assert EncodeMembers(h[1..][1..]) == [StringCall("unit"), IntCall(UnitCode(o.unit))];
    assert EncodeMembers(h[1..]) == [StringCall("usec"), Int64Call(o.microseconds)] + EncodeMembers(h[1..][1..]);
    assert EncodeMembers(h) == [StringCall("tick"), IntCall(ToInt32(o.count))] + EncodeMembers(h[1..]);
  }

  lemma EncodeDocument(o: Observation, verbose: bool)
    ensures EncodeMembers(Document(o, verbose)) == EncodeMembers(Header(o))
      + EncodeMembers(PositionSection(o, verbose)) + EncodeMembers(VelocitySection(o, verbose))
      + EncodeMembers(HeadingSection(o, verbose)) + EncodeMembers(RegionSection(o, verbose))
  {
    var s0, s1, s2, s3, s4 := Header(o), PositionSection(o, verbose), VelocitySection(o, verbose),
      HeadingSection(o, verbose), RegionSection(o, verbose);
    EncodeMembersAppend(s0 + s1 + s2 + s3, s4);
    EncodeMembersAppend(s0 + s1 + s2, s3);
    EncodeMembersAppend(s0 + s1, s2);
    EncodeMembersAppend(s0, s1);
  }

  /** One point member: its key, then the two coordinates as an array of two. */
  method WritePoint(writer: Writer, key: string, p: Point)
    modifies writer
    ensures writer.calls == old(writer.calls) + [StringCall(key)] + EncodeValue(XY(p))
  {
    writer.String(key);
    writer.StartArray();
    writer.Double(p.x);
    writer.Double(p.y);
    writer.EndArray(2);
    assert Doubles([p.x, p.y]) == [DoubleCall(p.x), DoubleCall(p.y)];
  }

  /** The calls of the header and the four sections, in order and closed, spell the object of
      `Document`. */
  lemma SerializedCalls(o: Observation, verbose: bool, start: seq<WriterCall>,
                        c0: seq<WriterCall>, c1: seq<WriterCall>, c2: seq<WriterCall>, c3: seq<WriterCall>, c4: seq<WriterCall>)
    requires c0 == start + [StartObjectCall] + EncodeMembers(Header(o))
    requires c1 == c0 + EncodeMembers(PositionSection(o, verbose))
    requires c2 == c1 + EncodeMembers(VelocitySection(o, verbose))
    requires c3 == c2 + EncodeMembers(HeadingSection(o, verbose))
    requires c4 == c3 + EncodeMembers(RegionSection(o, verbose))
    ensures c4 + [EndObjectCall] == start + EncodeObject(Document(o, verbose))
  {
    EncodeDocument(o, verbose);
    ChainedCalls(start, c0, c1, c2, c3, c4, EncodeMembers(Header(o)), EncodeMembers(PositionSection(o, verbose)),
      EncodeMembers(VelocitySection(o, verbose)), EncodeMembers(HeadingSection(o, verbose)),
      EncodeMembers(RegionSection(o, verbose)), EncodeMembers(Document(o, verbose)));
  }

  lemma ChainedCalls(start: seq<WriterCall>, c0: seq<WriterCall>, c1: seq<WriterCall>, c2: seq<WriterCall>,
                     c3: seq<WriterCall>, c4: seq<WriterCall>, e0: seq<WriterCall>, e1: seq<WriterCall>,
                     e2: seq<WriterCall>, e3: seq<WriterCall>, e4: seq<WriterCall>, e: seq<WriterCall>)
    requires c0 == start + [StartObjectCall] + e0 && c1 == c0 + e1 && c2 == c1 + e2 && c3 == c2 + e3 && c4 == c3 + e4
    requires e == e0 + e1 + e2 + e3 + e4
    ensures c4 + [EndObjectCall] == start + ([StartObjectCall] + e + [EndObjectCall])
  {
  }

  /** The sample number, narrowed to `int`, the clock and the unit's code, each under its key. */
  method WriteHeader(writer: Writer, count: UInt64, usec: int, unit: DistanceUnit)
    modifies writer
    ensures writer.calls == old(writer.calls) + [StringCall("tick"), IntCall(ToInt32(count)),
      StringCall("usec"), Int64Call(usec), StringCall("unit"), IntCall(UnitCode(unit))]
  {
    writer.String("tick");
    writer.Int(ToInt32(count));
    writer.String("usec");
    writer.Int64(usec);
    writer.String("unit");
    writer.Int(UnitCode(unit));
  }

  /** A section holding a point: its validity key and flag, then the point if `present`. */
  method WritePointSection(writer: Writer, okKey: string, ok: bool, key: string, p: Point, present: bool)
    modifies writer
    ensures writer.calls == old(writer.calls) + EncodeMembers(Section(okKey, ok, (key, XY(p)), present))
  {
    writer.String(okKey);
    writer.Bool(ok);
    if present {
      WritePoint(writer, key, p);
    }
    EncodeSection(okKey, ok, (key, XY(p)), present);
  }

  /** A section holding a string: its validity key and flag, then the string if `present`. */
  method WriteTextSection(writer: Writer, okKey: string, ok: bool, key: string, text: string, present: bool)
    modifies writer
    ensures writer.calls == old(writer.calls) + EncodeMembers(Section(okKey, ok, (key, JString(text)), present))
  {
    writer.String(okKey);
    writer.Bool(ok);
    if present {
      writer.String(key);
      writer.String(text);
    }
    EncodeSection(okKey, ok, (key, JString(text)), present);
  }

  // ---------------------------------------------------------------------------------------
  // The position itself

  /** A planar position: the common part, the three points and the homography of its
      coordinate system (the identity until one is set). */
  class Position2D {

    const base: Position
    var position: Point
    var velocity: Point
    var heading: Point
    var homography: Matrix33

    predicate Valid()
      reads this, base
    {
      base.Valid()
    }

    constructor (text: string)
      ensures Valid() && fresh(base) && fresh(base.labelBuffer) && fresh(base.region) && fresh(base.sample)
      ensures base.labelBuffer[..] == Terminated(text) && base.region[..] == Nuls(BUFFER_SIZE)
      ensures !base.regionValid && !base.positionValid && !base.velocityValid && !base.headingValid
      ensures base.unit == Pixels
      ensures base.sample.count == 0 && base.sample.microseconds == 0 && base.sample.periodMicroseconds == 0
      ensures position == Point(0.0, 0.0) && velocity == Point(0.0, 0.0) && heading == Point(0.0, 0.0)
      ensures homography == IDENTITY
    {
      base := new Position(text);
      position, velocity, heading := Point(0.0, 0.0), Point(0.0, 0.0), Point(0.0, 0.0);
      homography := IDENTITY;
    }

    /** Everything `Serialize` reads. */
    function Observe(): Observation
      reads this, base, base.sample, base.region
    {
      Observation(base.sample.count, base.sample.microseconds, base.unit,
        base.positionValid, base.velocityValid, base.headingValid, base.regionValid,
        position, velocity, heading, base.region[..])
    }

    /** Writes exactly one JSON object: the members of `Document`, in order. */
    method Serialize(writer: Writer, verbose: bool)
      modifies writer
      ensures writer.calls == old(writer.calls) + EncodeObject(Document(old(Observe()), verbose))
    {
      // Nothing but the writer changes, so the fields can be read once, up front.
      var o := Observe();
      ghost var start := writer.calls;

      writer.StartObject();
      WriteHeader(writer, o.count, o.microseconds, o.unit);
      ghost var after0 := writer.calls;
      EncodeHeader(o);
      WritePointSection(writer, "pos_ok", o.positionValid || verbose, "pos_xy", o.position, o.positionValid || verbose);
      ghost var after1 := writer.calls;
      WritePointSection(writer, "vel_ok", o.velocityValid || verbose, "vel_xy", o.velocity, o.velocityValid || verbose);
      ghost var after2 := writer.calls;
      WritePointSection(writer, "head_ok", o.headingValid, "head_xy", o.heading, o.headingValid || verbose);
      ghost var after3 := writer.calls;
      WriteTextSection(writer, "reg_ok", o.regionValid, "reg", CString(o.region), o.regionValid || verbose);
      ghost var after4 := writer.calls;
      writer.EndObject();
      SerializedCalls(o, verbose, start, after0, after1, after2, after3, after4);
    }

    /** `setCoordSystem`: the unit and the homography change, nothing else. */
    method SetCoordSystem(value: DistanceUnit, h: Matrix33)
      modifies this, base
      ensures base.unit == value && homography == h
      ensures position == old(position) && velocity == old(velocity) && heading == old(heading)
      ensures base.positionValid == old(base.positionValid) && base.velocityValid == old(base.velocityValid)
      ensures base.headingValid == old(base.headingValid) && base.regionValid == old(base.regionValid)
    {
      base.unit := value;
      homography := h;
    }

    function Homography(): Matrix33
      reads this
    {
      homography
    }

    /** The implied copy assignment: the common part as `Position.Assign` copies it, then the
        points and the homography. */
    method Assign(p: Position2D)
      requires Valid() && p.Valid()
      requires p == this || (p.base != base && p.base.sample != base.sample && p.base.region != base.region)
      modifies this, base, base.region, base.sample
      ensures base.labelBuffer[..] == old(base.labelBuffer[..])
      ensures position == old(p.position) && velocity == old(p.velocity) && heading == old(p.heading)
      ensures homography == old(p.homography)
      ensures p != this ==>
        && base.unit == old(p.base.unit)
        && base.regionValid == old(p.base.regionValid) && base.positionValid == old(p.base.positionValid)
        && base.velocityValid == old(p.base.velocityValid) && base.headingValid == old(p.base.headingValid)
        && base.region[..] == Terminated(old(p.base.region[..]))
        && base.sample.count == old(p.base.sample.count)
        && base.sample.microseconds == old(p.base.sample.microseconds)
        && base.sample.periodMicroseconds == old(p.base.sample.periodMicroseconds)
      ensures p == this ==> unchanged(base, base.region, base.sample)
    {
      var pos, vel, head, hom := p.position, p.velocity, p.heading, p.homography;
      base.Assign(p.base);
      position, velocity, heading, homography := pos, vel, head, hom;
    }
  }

  /** A fresh position serializes to an object a reader recovers whole: nothing is valid, the
      tick and the clock are zero, and only the validity keys appear unless `verbose`. */
  method SerializeFresh(text: string, verbose: bool) returns (calls: seq<WriterCall>, doc: seq<Member>)
    ensures ReadObject(calls) == Some(doc)
    ensures Lookup(doc, "tick") == Some(JInt(0)) && Lookup(doc, "usec") == Some(JInt64(0))
    ensures Lookup(doc, "pos_ok") == Some(JBool(verbose)) && Lookup(doc, "head_ok") == Some(JBool(false))
    ensures Lookup(doc, "pos_xy") == (if verbose then Some(JArray([0.0, 0.0])) else None)
    ensures Lookup(doc, "reg") == (if verbose then Some(JString("")) else None)
  {
    var p := new Position2D(text);
    var w := new Writer();
    p.Serialize(w, verbose);
    calls := w.calls;
    var o := p.Observe();
    doc := Document(o, verbose);
    assert calls == EncodeObject(doc);
    ObjectRoundTrip(doc);
    HeaderValues(o, verbose);
    MotionValues(o, verbose);
    HeadingRegionValues(o, verbose);
    CStringOf(o.region, 0);
  }

  /** Setting a coordinate system and reading it back yields what was set. */
  method CoordSystemRoundTrip(text: string, value: DistanceUnit, h: Matrix33)
    returns (before: Matrix33, after: Matrix33, unit: DistanceUnit)
    ensures before == IDENTITY && after == h && unit == value
  {
    var p := new Position2D(text);
    before := p.Homography();
    p.SetCoordSystem(value, h);
    after := p.Homography();
    unit := p.base.UnitOfLength();
  }
}
