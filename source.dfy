/** The connection lifecycle of a source attached to a shared-memory node (`SourceBase<T>`,
    `Source<T>` and `Source<SharedFrameHeader>`). The node itself and the segments are not part
    of this model: what they report (the slot the node grants, the sink's state, whether the
    shared object was found, the reference count) enters each operation as an input. The checks
    that throw are those of a build with assertions enabled (NDEBUG undefined). */
module Sources {

  import opened Wrappers
  import opened FixedWidth
  import opened SharedFrame

  datatype SourceState = ErrNodeFull | ErrTypeMismatch | Virgin | Touched | Connected

  /** The enumerator values (-2 .. 2); the source orders states by them with `<` and `>=`. */
  function Rank(s: SourceState): (r: int)
    ensures -2 <= r <= 2
  {
    match s
    case ErrNodeFull => -2
    case ErrTypeMismatch => -1
    case Virgin => 0
    case Touched => 1
    case Connected => 2
  }

  /** Distinct states carry distinct ranks, so the rank comparisons single out these states. */
  lemma RankComparisons(s: SourceState)
    ensures Rank(s) >= Rank(Touched) <==> s == Touched || s == Connected
    ensures Rank(s) >= Rank(Connected) <==> s == Connected
    ensures Rank(s) < Rank(Virgin) <==> s == ErrNodeFull || s == ErrTypeMismatch
  {
  }

  /** The states of `Node` that this model distinguishes; `Other` stands for every other state
      the node may report (`Node.h` is not part of this model). */
  datatype NodeState = SinkBound | End | Other(code: int)

  /** One constructor per `throw std::runtime_error` of the source. */
  datatype Failure =
    | AlreadyTouched      // touch() after the first touch
    | NotTouched          // connect() outside TOUCHED
    | TypeMismatch        // the shared object was not found under T's name
    | WaitBeforeTouch     // wait() below TOUCHED
    | PostRequired        // wait() while a post() is owed
    | PostBeforeConnect   // post() below CONNECTED
    | WaitRequired        // post() with no wait() to answer
    | NotConnected        // retrieve() or clone() below CONNECTED

  /** Everything of a source that its operations read or write. `needPost` is
      `did_wait_need_post_`; `nodeAttached` is `node_ != nullptr`; `shared` is `sh_object_`. */
  datatype Link<T> = Link(
    state: SourceState,
    needPost: bool,
    slot: UInt64,
    address: string,
    nodeAddress: string,
    objAddress: string,
    nodeAttached: bool,
    shared: Option<T>)

  /** A freshly constructed source. */
  function Initial<T>(): Link<T>
  {
    Link(Virgin, false, 0, "", "", "", false, None)
  }

  /** The states in which the source holds a slot of the node, which its destructor gives back. */
  predicate HoldsSlot(s: SourceState)
  {
    Rank(s) >= Rank(Touched) || s == ErrTypeMismatch
  }

  lemma HoldsSlotExactly(s: SourceState)
    ensures HoldsSlot(s) <==> s in {Touched, Connected, ErrTypeMismatch}
    ensures !HoldsSlot(Virgin) && !HoldsSlot(ErrNodeFull)
  {
  }

  /** What every reachable source satisfies. */
  predicate Inv<T>(l: Link<T>)
  {
    && (l.state == Virgin <==> !l.nodeAttached)
    && (l.state != Virgin ==> l.nodeAddress == l.address + "_node" && l.objAddress == l.address + "_obj")
    && (l.state == Connected <==> l.shared.Some?)
    && (l.needPost ==> HoldsSlot(l.state))
  }

  // ---------------------------------------------------------------------------------------
  // One function per operation: the new link and what the call returns or throws.

  /** `touch(address)`, given what `acquireSlot` returns and the index it writes. */
  function TouchStep<T>(l: Link<T>, address: string, acquired: int, slot: UInt64): (Link<T>, Outcome<Failure>)
  {
    if l.state != Virgin then (l, Fail(AlreadyTouched))
    else
      var attached := l.(address := address, nodeAddress := address + "_node",
                         objAddress := address + "_obj", nodeAttached := true, slot := slot);
      if acquired < 0 then (attached.(state := ErrNodeFull), Pass)
      else (attached.(state := Touched), Pass)
  }

  /** The checks at the top of `wait()`. */
  function WaitGuard<T>(l: Link<T>): Option<Failure>
  {
    if Rank(l.state) < Rank(Touched) then Some(WaitBeforeTouch)
    else if l.needPost then Some(PostRequired)
    else None
  }

  /** `wait()`; `sinkState` is what the node reports once the barrier is passed. */
  function WaitStep<T>(l: Link<T>, sinkState: NodeState): (Link<T>, Result<NodeState, Failure>)
  {
    match WaitGuard(l)
    case Some(e) => (l, Err(e))
    case None => (l.(needPost := true), Ok(sinkState))
  }

  /** `post()`. */
  function PostStep<T>(l: Link<T>): (Link<T>, Outcome<Failure>)
  {
    if Rank(l.state) < Rank(Connected) then (l, Fail(PostBeforeConnect))
    else if !l.needPost then (l, Fail(WaitRequired))
    else (l.(needPost := false), Pass)
  }

  /** `connect()`, given the sink's state and what `find<T>` returns. Unless the sink is bound,
      the source waits and then posts to itself, which clears `needPost` again. */
  function ConnectStep<T>(l: Link<T>, sinkState: NodeState, found: Option<T>): (Link<T>, Outcome<Failure>)
  {
    if l.state != Touched then (l, Fail(NotTouched))
    else
      var (waited, w) := if sinkState != SinkBound then WaitStep(l, sinkState) else (l, Ok(sinkState));
      if w.Err? then (waited, Fail(w.error))
      else
        var posted := if sinkState != SinkBound then waited.(needPost := false) else waited;
        if found.None? then (posted.(shared := None, state := ErrTypeMismatch), Fail(TypeMismatch))
        else (posted.(shared := found, state := Connected), Pass)
  }

  // ---------------------------------------------------------------------------------------
  // Properties of single operations

  lemma TouchOnlyOnce<T>(l: Link<T>, address: string, acquired: int, slot: UInt64)
    requires l.state != Virgin
    ensures TouchStep(l, address, acquired, slot) == (l, Fail(AlreadyTouched))
  {
  }

  lemma TouchFromVirgin<T>(l: Link<T>, address: string, acquired: int, slot: UInt64)
    requires l.state == Virgin
    ensures var (l', r) := TouchStep(l, address, acquired, slot);
      && r == Pass
      && l'.address == address
      && l'.nodeAddress == address + "_node"
      && l'.objAddress == address + "_obj"
      && l'.slot == slot
      && l'.nodeAttached
      && l'.state == (if acquired < 0 then ErrNodeFull else Touched)
      && l'.needPost == l.needPost && l'.shared == l.shared
  {
  }

  lemma ConnectOutcomes<T>(l: Link<T>, sinkState: NodeState, found: Option<T>)
    requires Inv(l)
    ensures var (l', r) := ConnectStep(l, sinkState, found);
      && (l.state != Touched ==> l' == l && r == Fail(NotTouched))
      && (l.state == Touched && sinkState != SinkBound && l.needPost ==> l' == l && r == Fail(PostRequired))
      && (l.state == Touched && (sinkState == SinkBound || !l.needPost) ==>
            && (found.None? ==> l'.state == ErrTypeMismatch && r == Fail(TypeMismatch))
            && (found.Some? ==> l'.state == Connected && l'.shared == found && r == Pass))
      // connect never changes the wait/post flag, and the self-post path always leaves it clear
      && l'.needPost == l.needPost
      && (l.state == Touched && sinkState != SinkBound && r != Fail(PostRequired) ==> !l'.needPost)
      && l'.slot == l.slot && l'.address == l.address
  {
  }

  lemma WaitRules<T>(l: Link<T>, sinkState: NodeState)
    ensures var (l', r) := WaitStep(l, sinkState);
      && (r.Ok? <==> Rank(l.state) >= Rank(Touched) && !l.needPost)
      && (r.Ok? ==> l' == l.(needPost := true) && r.value == sinkState)
      && (r.Err? ==> l' == l)
  {
  }

  lemma PostRules<T>(l: Link<T>)
    ensures var (l', r) := PostStep(l);
      && (r.Pass? <==> Rank(l.state) >= Rank(Connected) && l.needPost)
      && (r.Pass? ==> l' == l.(needPost := false))
      && (r.Fail? ==> l' == l)
  {
  }

  // ---------------------------------------------------------------------------------------
  // Sequences of calls

  datatype Call<T> =
    | TouchCall(address: string, acquired: int, slot: UInt64)
    | ConnectCall(sinkState: NodeState, found: Option<T>)
    | WaitCall(sinkState: NodeState)
    | PostCall

  function Step<T>(l: Link<T>, c: Call<T>): Link<T>
  {
    match c
    case TouchCall(a, acq, s) => TouchStep(l, a, acq, s).0
    case ConnectCall(ss, f) => ConnectStep(l, ss, f).0
    case WaitCall(ss) => WaitStep(l, ss).0
    case PostCall => PostStep(l).0
  }

  /** A successful `wait()` is logged as `true`, a successful `post()` as `false`. */
  function Synced<T>(l: Link<T>, c: Call<T>): seq<bool>
  {
    match c
    case WaitCall(ss) => if WaitStep(l, ss).1.Ok? then [true] else []
    case PostCall => if PostStep(l).1.Pass? then [false] else []
    case _ => []
  }

  function Run<T>(l: Link<T>, calls: seq<Call<T>>): Link<T>
    decreases |calls|
  {
    if calls == [] then l else Run(Step(l, calls[0]), calls[1..])
  }

  /** The successful waits and posts of a run, in order. */
  function SyncLog<T>(l: Link<T>, calls: seq<Call<T>>): seq<bool>
    decreases |calls|
  {
    if calls == [] then [] else Synced(l, calls[0]) + SyncLog(Step(l, calls[0]), calls[1..])
  }

  /** `log` alternates wait, post, wait, ... starting with a wait when `waitNext` holds. */
  predicate Alternates(log: seq<bool>, waitNext: bool)
    decreases |log|
  {
    log == [] || (log[0] == waitNext && Alternates(log[1..], !waitNext))
  }

  lemma StepPreservesInv<T>(l: Link<T>, c: Call<T>)
    requires Inv(l)
    ensures Inv(Step(l, c))
  {
  }

  lemma {:induction false} RunPreservesInv<T>(l: Link<T>, calls: seq<Call<T>>)
    requires Inv(l)
    ensures Inv(Run(l, calls))
    decreases |calls|
  {
    if calls != [] {
      StepPreservesInv(l, calls[0]);
      RunPreservesInv(Step(l, calls[0]), calls[1..]);
    }
  }

  /** Whatever is called in whatever order, successful waits and posts strictly alternate, and
      after the log the flag records which of the two is owed next. */
  lemma {:induction false} WaitPostAlternate<T>(l: Link<T>, calls: seq<Call<T>>)
    ensures Alternates(SyncLog(l, calls), !l.needPost)
    ensures Run(l, calls).needPost == (if |SyncLog(l, calls)| % 2 == 0 then l.needPost else !l.needPost)
    decreases |calls|
  {
    if calls != [] {
      var c, l' := calls[0], Step(l, calls[0]);
      WaitPostAlternate(l', calls[1..]);
      match c
      case WaitCall(ss) =>
        var log := SyncLog(l, calls);
        if WaitStep(l, ss).1.Ok? {
          assert log == [true] + SyncLog(l', calls[1..]) && log[1..] == SyncLog(l', calls[1..]);
        } else {
          assert log == SyncLog(l', calls[1..]) && l' == l;
        }
      case PostCall =>
        var log := SyncLog(l, calls);
        if PostStep(l).1.Pass? {
          assert log == [false] + SyncLog(l', calls[1..]) && log[1..] == SyncLog(l', calls[1..]);
        } else {
          assert log == SyncLog(l', calls[1..]) && l' == l;
        }
      case TouchCall(a, acq, s) =>
        assert SyncLog(l, calls) == SyncLog(l', calls[1..]);
      case ConnectCall(ss, f) =>
        assert l'.needPost == l.needPost;
        assert SyncLog(l, calls) == SyncLog(l', calls[1..]);
    }
  }

  /** Both error states are final: no call changes anything any more. */
  lemma {:induction false} ErrorStatesAreFinal<T>(l: Link<T>, calls: seq<Call<T>>)
    requires l.state == ErrNodeFull || l.state == ErrTypeMismatch
    ensures Run(l, calls) == l
    ensures SyncLog(l, calls) == []
    decreases |calls|
  {
    if calls != [] {
      assert Step(l, calls[0]) == l;
      ErrorStatesAreFinal(l, calls[1..]);
    }
  }

  /** Once a source has touched a node it never becomes VIRGIN again, and the addresses it
      derived stay as they were. */
  lemma {:induction false} TouchedForever<T>(l: Link<T>, calls: seq<Call<T>>)
    requires l.state != Virgin
    ensures Run(l, calls).state != Virgin
    ensures Run(l, calls).nodeAddress == l.nodeAddress && Run(l, calls).objAddress == l.objAddress
    ensures Run(l, calls).slot == l.slot
    decreases |calls|
  {
    if calls != [] {
      TouchedForever(Step(l, calls[0]), calls[1..]);
    }
  }

  // ---------------------------------------------------------------------------------------
  // Connection parameters captured by Source<SharedFrameHeader>::connect

  datatype ConnectionParameters = ConnectionParameters(cols: UInt64, rows: UInt64, typeCode: UInt64, bytes: UInt64)

  /** Copies the header's geometry and type (the `int` type code converted to `size_t`) and
      computes the frame's byte count, rows x cols x element size, in `size_t` arithmetic.
      `elemSize` is the element size the matrix library derives from the type code. */
  function Capture(h: HeaderFields, elemSize: UInt64): ConnectionParameters
  {
    ConnectionParameters(h.cols, h.rows, ToUInt64(h.typeCode), ToUInt64(h.rows * h.cols * elemSize))
  }

  /** What a sink publishes with `setParameters` is what a source that connects afterwards
      records as its connection parameters. */
  lemma CaptureOfPublished(data: Handle, sample: Handle, rows: UInt64, cols: UInt64, typeCode: Int32, elemSize: UInt64)
    requires rows < TWO_31 && cols < TWO_31 && 0 <= typeCode
    ensures Capture(Published(data, sample, rows, cols, typeCode), elemSize)
         == ConnectionParameters(cols, rows, typeCode, (rows * cols * elemSize) % TWO_64)
  {
  }

  // ---------------------------------------------------------------------------------------
  // The classes

  class SourceBase<T> {

    var state: SourceState
    var needPost: bool
    var slot: UInt64
    var address: string
    var nodeAddress: string
    var objAddress: string
    var nodeAttached: bool
    var shared: Option<T>

    function View(): Link<T>
      reads this
    {
      Link(state, needPost, slot, address, nodeAddress, objAddress, nodeAttached, shared)
    }

    predicate Valid()
      reads this
    {
      Inv(View())
    }

    constructor ()
      ensures Valid() && View() == Initial()
    {
      state, needPost, slot := Virgin, false, 0;
      address, nodeAddress, objAddress := "", "", "";
      nodeAttached, shared := false, None;
    }

    method Touch(addr: string, acquired: int, grantedSlot: UInt64) returns (r: Outcome<Failure>)
      requires Valid()
      modifies this
      ensures Valid()
      ensures (View(), r) == TouchStep(old(View()), addr, acquired, grantedSlot)
    {
      if state != Virgin {
        return Fail(AlreadyTouched);
      }
      address := addr;
      nodeAddress := addr + "_node";
      objAddress := addr + "_obj";
      nodeAttached := true;
      slot := grantedSlot;
      if acquired < 0 {
        state := ErrNodeFull;
        return Pass;
      }
      state := Touched;
      r := Pass;
    }

    method Connect(sinkState: NodeState, found: Option<T>) returns (r: Outcome<Failure>)
      requires Valid()
      modifies this
      ensures Valid()
      ensures (View(), r) == ConnectStep(old(View()), sinkState, found)
    {
      if state != Touched {
        return Fail(NotTouched);
      }
      if sinkState != SinkBound {
        var w := Wait(sinkState);
        if w.Err? {
          return Fail(w.error);
        }
        // self post: the first wait() of the caller's loop is free
        needPost := false;
      }
      shared := found;
      if shared.None? {
        state := ErrTypeMismatch;
        return Fail(TypeMismatch);
      }
      state := Connected;
      r := Pass;
    }

    method Wait(sinkState: NodeState) returns (r: Result<NodeState, Failure>)
      requires Valid()
      modifies this
      ensures Valid()
      ensures (View(), r) == WaitStep(old(View()), sinkState)
    {
      if Rank(state) < Rank(Touched) {
        return Err(WaitBeforeTouch);
      }
      if needPost {
        return Err(PostRequired);
      }
      needPost := true;
      r := Ok(sinkState);
    }

    method Post() returns (r: Outcome<Failure>)
      requires Valid()
      modifies this
      ensures Valid()
      ensures (View(), r) == PostStep(old(View()))
    {
      if Rank(state) < Rank(Connected) {
        return Fail(PostBeforeConnect);
      }
      if !needPost {
        return Fail(WaitRequired);
      }
      needPost := false;
      r := Pass;
    }

    /** The destructor: gives the slot back in the states that hold one, and names the two
        segments to remove when the node is attached, no other source refers to it
        (`refCount`) and no sink is bound. */
    method Teardown(refCount: nat, sinkState: NodeState) returns (released: Option<UInt64>, removed: seq<string>)
      requires Valid()
      ensures released.Some? <==> state == Touched || state == Connected || state == ErrTypeMismatch
      ensures released.Some? ==> released.value == slot
      ensures removed == (if nodeAttached && refCount == 0 && sinkState != SinkBound
                          then [address + "_node", address + "_obj"] else [])
    {
      released := None;
      if Rank(state) >= Rank(Touched) || state == ErrTypeMismatch {
        released := Some(slot);
      }
      removed := [];
      if nodeAttached && refCount == 0 && sinkState != SinkBound {
        removed := [nodeAddress, objAddress];
      }
    }

    /** `write_number()`, given what the node reports. */
    function WriteNumber(nodeWriteNumber: UInt64): (n: UInt64)
      requires Valid()
      reads this
      ensures state == Virgin ==> n == 0
      ensures state != Virgin ==> n == nodeWriteNumber
    {
      if !nodeAttached then 0 else nodeWriteNumber
    }
  }

  /** `Source<T>`: a source whose shared object is handed out directly. */
  class Source<T> {

    const base: SourceBase<T>

    constructor ()
      ensures fresh(base) && base.Valid() && base.View() == Initial()
    {
      base := new SourceBase();
    }

    method Retrieve() returns (r: Result<T, Failure>)
      requires base.Valid()
      ensures Rank(base.state) < Rank(Connected) ==> r == Err(NotConnected)
      ensures Rank(base.state) >= Rank(Connected) ==> base.shared.Some? && r == Ok(base.shared.value)
    {
      if Rank(base.state) < Rank(Connected) {
        return Err(NotConnected);
      }
      r := Ok(base.shared.value);
    }

    method Clone() returns (r: Result<T, Failure>)
      requires base.Valid()
      ensures r.Err? <==> base.state != Connected
      ensures r.Err? ==> r.error == NotConnected
      ensures r.Ok? ==> Some(r.value) == base.shared
    {
      if Rank(base.state) < Rank(Connected) {
        return Err(NotConnected);
      }
      var copy := base.shared.value;
      r := Ok(copy);
    }
  }

  /** `Source<SharedFrameHeader>`: on connecting it records the published geometry. */
  class FrameSource {

    const base: SourceBase<SharedFrameHeader>
    var parameters: ConnectionParameters

    constructor ()
      ensures fresh(base) && base.Valid() && base.View() == Initial()
      ensures parameters == ConnectionParameters(0, 0, 0, 0)
    {
      base := new SourceBase();
      parameters := ConnectionParameters(0, 0, 0, 0);
    }

    method Connect(sinkState: NodeState, found: Option<SharedFrameHeader>, elemSize: UInt64) returns (r: Outcome<Failure>)
      requires base.Valid()
      modifies base, this
      ensures base.Valid()
      ensures (base.View(), r) == ConnectStep(old(base.View()), sinkState, found)
      ensures r.Pass? ==> parameters == Capture(found.value.Fields(), elemSize)
      ensures r.Fail? ==> parameters == old(parameters)
    {
      r := base.Connect(sinkState, found);
      if r.Pass? {
        var header := found.value;
        var h := HeaderFields(header.Data(), header.Sample(), header.Rows(), header.Cols(), header.Type());
        parameters := ConnectionParameters(h.cols, h.rows, ToUInt64(h.typeCode), ToUInt64(h.rows * h.cols * elemSize));
      }
    }

    function Parameters(): ConnectionParameters
      reads this
    {
      parameters
    }
  }
}
