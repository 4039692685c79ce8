/** The unsynchronised i/o operation state: a tag, a union with one live member, and a visitor. */
module IoOperation {

  datatype StateType =
    | Unknown
    | ReadInitialised | ReadInitiated | ReadCompleted | ReadFinished
    | WriteInitialised | WriteInitiated
    | BarrierInitialised | BarrierInitiated
    | WriteOrBarrierCompleted | WriteOrBarrierFinished

  predicate IsInitialised(s: StateType) { s.ReadInitialised? || s.WriteInitialised? || s.BarrierInitialised? }
  predicate IsInitiated(s: StateType) { s.ReadInitiated? || s.WriteInitiated? || s.BarrierInitiated? }
  predicate IsCompleted(s: StateType) { s.ReadCompleted? || s.WriteOrBarrierCompleted? }
  predicate IsFinished(s: StateType) { s.ReadFinished? || s.WriteOrBarrierFinished? }

  datatype Kind = Read | Write | Barrier

  datatype IoResult = Result(id: nat) | MovedFrom

  /** Which member of the payload union is alive, if any, and what it holds. */
  datatype Payload =
    | Empty
    | Pending(base: nat, deadline: nat, kind: Kind, request: nat)
    | CompletedRead(result: IoResult)
    | CompletedWriteOrBarrier(result: IoResult)

  datatype Operation = Operation(state: StateType, payload: Payload)

  /** The live member is the one the tag names. */
  predicate Named(o: Operation) {
    match o.state
    case Unknown => o.payload.Empty?
    case ReadInitialised => o.payload.Pending? && o.payload.kind.Read?
    case ReadInitiated => o.payload.Pending? && o.payload.kind.Read?
    case ReadCompleted => o.payload.CompletedRead?
    case ReadFinished => o.payload.CompletedRead?
    case WriteInitialised => o.payload.Pending? && o.payload.kind.Write?
    case WriteInitiated => o.payload.Pending? && o.payload.kind.Write?
    case BarrierInitialised => o.payload.Pending? && o.payload.kind.Barrier?
    case BarrierInitiated => o.payload.Pending? && o.payload.kind.Barrier?
    case WriteOrBarrierCompleted => o.payload.CompletedWriteOrBarrier?
    case WriteOrBarrierFinished => o.payload.CompletedWriteOrBarrier?
  }

  // What a visitor is told.

  datatype Event =
    | Initiated(kind: Kind, former: StateType)
    | Completed(kind: Kind, former: StateType, result: nat)
    | FinishedRead(former: StateType)
    | FinishedWriteOrBarrier(former: StateType)

  /** A notification from the multiplexer. */
  datatype Call =
    | NotifyInitiated(kind: Kind)
    | NotifyCompleted(kind: Kind, result: nat, consumed: bool)   // consumed: the visitor moves the result away
    | NotifyFinished(read: bool)

  function InitialisedAs(k: Kind): StateType {
    match k case Read => ReadInitialised case Write => WriteInitialised case Barrier => BarrierInitialised
  }

  function InitiatedAs(k: Kind): StateType {
    match k case Read => ReadInitiated case Write => WriteInitiated case Barrier => BarrierInitiated
  }

  function CompletedAs(read: bool): StateType { if read then ReadCompleted else WriteOrBarrierCompleted }

  function FinishedAs(read: bool): StateType { if read then ReadFinished else WriteOrBarrierFinished }

  function ResultOf(k: Kind, r: IoResult): Payload {
    if k.Read? then CompletedRead(r) else CompletedWriteOrBarrier(r)
  }

  /** Without a visitor nobody consumes the result. */
  function Heeded(c: Call, visited: bool): Call {
    if c.NotifyCompleted? then c.(consumed := c.consumed && visited) else c
  }

  /** The effect of a notification, and what the visitor sees of it. */
  function Notify(o: Operation, c: Call): (Operation, seq<Event>) {
    match c
    case NotifyInitiated(k) =>
      if o.state == InitialisedAs(k) then (o.(state := InitiatedAs(k)), [Initiated(k, InitialisedAs(k))]) else (o, [])
    case NotifyCompleted(k, r, consumed) =>
      if o.state == InitialisedAs(k) || o.state == InitiatedAs(k)
      then (Operation(CompletedAs(k.Read?), ResultOf(k, if consumed then MovedFrom else Result(r))), [Completed(k, Unknown, r)])
      else (o, [])
    case NotifyFinished(read) =>
      if o.state == CompletedAs(read)
      then (o.(state := FinishedAs(read)), [if read then FinishedRead(ReadCompleted) else FinishedWriteOrBarrier(WriteOrBarrierCompleted)])
      else (o, [])
  }

  /** An operation is under way from being initiated, or handed to the multiplexer, until it is finished. */
  function UnderWayAfter(before: bool, events: seq<Event>): bool {
    if events == [] then before
    else var last := events[|events| - 1]; !last.FinishedRead? && !last.FinishedWriteOrBarrier?
  }

  lemma UnderWayJoin(was: bool, first: seq<Event>, more: seq<Event>)
    ensures UnderWayAfter(was, []) == was
    ensures UnderWayAfter(was, first + more) == UnderWayAfter(UnderWayAfter(was, first), more)
  {}

  /** A record of every time an operation was moved to other storage or destroyed, of its state just before, and of
      whether it was under way. */
  class Journal {
    ghost var entries: seq<Entry>

    constructor ()
      ensures entries == []
    {
      entries := [];
    }
  }

  datatype Entry =
    | Relocated(op: OperationState, state: StateType, underWay: bool)
    | Destroyed(op: OperationState, state: StateType, underWay: bool)

  /** The class. Memory is managed by hand: a union member is constructed in place and destroyed by
      naming it, and the counters tell how often. */
  class OperationState {
    var state: StateType
    var payload: Payload
    var visited: bool            // has a visitor
    var seen: seq<Event>         // what its visitor was told
    ghost var constructed: nat
    ghost var destroyed: nat
    ghost var underWay: bool

    predicate Valid()
      reads this
    {
      Named(Operation(state, payload))
    }

    /** Every member constructed was destroyed exactly once, but for the one alive now. */
    ghost predicate Balanced()
      reads this
    {
      constructed == destroyed + if payload.Empty? then 0 else 1
    }

    /** Nothing is left in this storage, and all that was ever built in it was destroyed once. */
    ghost predicate Gone()
      reads this
    {
      payload.Empty? && state.Unknown? && constructed == destroyed
    }

    function Value(): Operation
      reads this
    {
      Operation(state, payload)
    }

    constructor (s: StateType, p: Payload, visitor: bool)
      requires Named(Operation(s, p))
      ensures Valid() && Balanced() && Value() == Operation(s, p) && visited == visitor && seen == []
      ensures underWay <==> IsInitiated(s) || IsCompleted(s)
    {
      state, payload, visited, seen := s, p, visitor, [];
      underWay := IsInitiated(s) || IsCompleted(s);
      constructed, destroyed := if p.Empty? then 0 else 1, 0;
    }

    /** The base of a move: everything but the payload. */
    constructor Shell(o: OperationState)
      ensures state == o.state && visited == o.visited && seen == o.seen && underWay == o.underWay
      ensures payload == Empty && constructed == destroyed == 0
    {
      state, visited, seen, underWay := o.state, o.visited, o.seen, o.underWay;
      payload, constructed, destroyed := Empty, 0, 0;
    }

    /** Placement new: only over storage where nothing lives. */
    method Construct(p: Payload)
      requires payload.Empty? && !p.Empty?
      modifies this`payload, this`constructed
      ensures payload == p && constructed == old(constructed) + 1
    {
      payload := p;
      constructed := constructed + 1;
    }

    method DestroyPending(k: Kind)
      requires payload.Pending? && payload.kind == k
      modifies this`payload, this`destroyed
      ensures payload == Empty && destroyed == old(destroyed) + 1
    {
      payload := Empty;
      destroyed := destroyed + 1;
    }

    method DestroyCompletedRead()
      requires payload.CompletedRead?
      modifies this`payload, this`destroyed
      ensures payload == Empty && destroyed == old(destroyed) + 1
    {
      payload := Empty;
      destroyed := destroyed + 1;
    }

    method DestroyCompletedWriteOrBarrier()
      requires payload.CompletedWriteOrBarrier?
      modifies this`payload, this`destroyed
      ensures payload == Empty && destroyed == old(destroyed) + 1
    {
      payload := Empty;
      destroyed := destroyed + 1;
    }

    method ClearStorage()
      requires Valid() && Balanced()
      modifies this`state, this`payload, this`destroyed
      ensures Valid() && Balanced() && Value() == Operation(Unknown, Empty)
    {
      match state {
        case Unknown =>
        case ReadInitialised => DestroyPending(Read);
        case ReadInitiated => DestroyPending(Read);
        case ReadCompleted => DestroyCompletedRead();
        case ReadFinished => DestroyCompletedRead();
        case WriteInitialised => DestroyPending(Write);
        case WriteInitiated => DestroyPending(Write);
        case BarrierInitialised => DestroyPending(Barrier);
        case BarrierInitiated => DestroyPending(Barrier);
        case WriteOrBarrierCompleted => DestroyCompletedWriteOrBarrier();
        case WriteOrBarrierFinished => DestroyCompletedWriteOrBarrier();
      }
      state := Unknown;
    }

    /** The destructor leaves nothing alive. */
    method Destroy(ghost journal: Journal)
      requires Valid() && Balanced()
      modifies this`state, this`payload, this`destroyed, journal
      ensures Gone()
      ensures journal.entries == old(journal.entries) + [Destroyed(this, old(state), underWay)]
    {
      journal.entries := journal.entries + [Destroyed(this, state, underWay)];
      ClearStorage();
    }

    method GetCompletedRead() returns (r: IoResult)
      requires Valid() && Balanced() && (state.ReadCompleted? || state.ReadFinished?)
      modifies this`state, this`payload, this`destroyed
      ensures Valid() && Balanced() && Value() == Operation(Unknown, Empty) && r == old(payload.result)
    {
      r := payload.result;
      payload := CompletedRead(MovedFrom);
      ClearStorage();
    }

    method GetCompletedWriteOrBarrier() returns (r: IoResult)
      requires Valid() && Balanced() && (state.WriteOrBarrierCompleted? || state.WriteOrBarrierFinished?)
      modifies this`state, this`payload, this`destroyed
      ensures Valid() && Balanced() && Value() == Operation(Unknown, Empty) && r == old(payload.result)
    {
      r := payload.result;
      payload := CompletedWriteOrBarrier(MovedFrom);
      ClearStorage();
    }

    /** Move the operation to new storage: the new state is what this one was, the visitor goes with it, and this
        one is emptied. */
    method RelocateTo(ghost journal: Journal) returns (to: OperationState)
      requires Valid() && Balanced()
      modifies this`state, this`payload, this`destroyed, this`underWay, journal
      ensures journal.entries == old(journal.entries) + [Relocated(this, old(state), old(underWay))]
      ensures to.underWay == old(underWay) && !underWay
      ensures fresh(to) && to.Valid() && to.Balanced() && to.Value() == old(Value()) && to.visited == old(visited)
      ensures Valid() && Balanced() && Gone()
      ensures seen == to.seen == old(seen)
    {
      journal.entries := journal.entries + [Relocated(this, state, underWay)];
      to := new OperationState.Shell(this);
      underWay := false;
      match state {
        case Unknown =>
        case ReadInitialised => to.Construct(Pending(payload.base, payload.deadline, Read, payload.request));
        case ReadInitiated => to.Construct(Pending(payload.base, payload.deadline, Read, payload.request));
        case ReadCompleted =>
          to.Construct(CompletedRead(payload.result));
          payload := CompletedRead(MovedFrom);
        case ReadFinished =>
          to.Construct(CompletedRead(payload.result));
          payload := CompletedRead(MovedFrom);
        case WriteInitialised => to.Construct(Pending(payload.base, payload.deadline, Write, payload.request));
        case WriteInitiated => to.Construct(Pending(payload.base, payload.deadline, Write, payload.request));
        case BarrierInitialised => to.Construct(Pending(payload.base, payload.deadline, Barrier, payload.request));
        case BarrierInitiated => to.Construct(Pending(payload.base, payload.deadline, Barrier, payload.request));
        case WriteOrBarrierCompleted =>
          to.Construct(CompletedWriteOrBarrier(payload.result));
          payload := CompletedWriteOrBarrier(MovedFrom);
        case WriteOrBarrierFinished =>
          to.Construct(CompletedWriteOrBarrier(payload.result));
          payload := CompletedWriteOrBarrier(MovedFrom);
      }
      ClearStorage();
    }

    // The notifications. The visitor is called after the state has changed.

    method Tell(e: Event)
      modifies this`seen
      ensures seen == if visited then old(seen) + [e] else old(seen)
    {
      if visited {
        seen := seen + [e];
      }
    }

    ghost predicate Follows(o: Operation, before: seq<Event>, was: bool, c: Call)
      reads this
    {
      var (o', events) := Notify(o, Heeded(c, visited));
      Value() == o' && seen == (if visited then before + events else before) && underWay == UnderWayAfter(was, events)
    }

    method OnInitiated(k: Kind)
      requires Valid() && Balanced()
      modifies this`state, this`seen, this`underWay
      ensures Valid() && Balanced() && Follows(old(Value()), old(seen), old(underWay), NotifyInitiated(k))
    {
      if k.Read? && state == ReadInitialised {
        state := ReadInitiated;
        underWay := true;
        Tell(Initiated(Read, ReadInitialised));
      } else if k.Write? && state == WriteInitialised {
        state := WriteInitiated;
        underWay := true;
        Tell(Initiated(Write, WriteInitialised));
      } else if k.Barrier? && state == BarrierInitialised {
        state := BarrierInitiated;
        underWay := true;
        Tell(Initiated(Barrier, BarrierInitialised));
      }
    }

    /** The storage is cleared before the former state is noted, so the visitor is told `Unknown`. */
    method OnReadCompleted(r: nat, consumed: bool)
      requires Valid() && Balanced()
      modifies this
      ensures Valid() && Balanced() && visited == old(visited)
      ensures Follows(old(Value()), old(seen), old(underWay), NotifyCompleted(Read, r, consumed))
    {
      if state == ReadInitialised || state == ReadInitiated {
        ClearStorage();
        Construct(CompletedRead(Result(r)));
        var former := state;
        state := ReadCompleted;
        underWay := true;
        Tell(Completed(Read, former, r));
        if visited && consumed {
          payload := CompletedRead(MovedFrom);
        }
      }
    }

    method OnWriteCompleted(r: nat, consumed: bool)
      requires Valid() && Balanced()
      modifies this
      ensures Valid() && Balanced() && visited == old(visited)
      ensures Follows(old(Value()), old(seen), old(underWay), NotifyCompleted(Write, r, consumed))
    {
      if state == WriteInitialised || state == WriteInitiated {
        ClearStorage();
        Construct(CompletedWriteOrBarrier(Result(r)));
        var former := state;
        state := WriteOrBarrierCompleted;
        underWay := true;
        Tell(Completed(Write, former, r));
        if visited && consumed {
          payload := CompletedWriteOrBarrier(MovedFrom);
        }
      }
    }

    method OnBarrierCompleted(r: nat, consumed: bool)
      requires Valid() && Balanced()
      modifies this
      ensures Valid() && Balanced() && visited == old(visited)
      ensures Follows(old(Value()), old(seen), old(underWay), NotifyCompleted(Barrier, r, consumed))
    {
      if state == BarrierInitialised || state == BarrierInitiated {
        ClearStorage();
        Construct(CompletedWriteOrBarrier(Result(r)));
        var former := state;
        state := WriteOrBarrierCompleted;
        underWay := true;
        Tell(Completed(Barrier, former, r));
        if visited && consumed {
          payload := CompletedWriteOrBarrier(MovedFrom);
        }
      }
    }

    method OnReadFinished()
      requires Valid() && Balanced()
      modifies this`state, this`seen, this`underWay
      ensures Valid() && Balanced() && Follows(old(Value()), old(seen), old(underWay), NotifyFinished(true))
    {
      if state == ReadCompleted {
        state := ReadFinished;
        underWay := false;
        Tell(FinishedRead(ReadCompleted));
      }
    }

    method OnWriteOrBarrierFinished()
      requires Valid() && Balanced()
      modifies this`state, this`seen, this`underWay
      ensures Valid() && Balanced() && Follows(old(Value()), old(seen), old(underWay), NotifyFinished(false))
    {
      if state == WriteOrBarrierCompleted {
        state := WriteOrBarrierFinished;
        underWay := false;
        Tell(FinishedWriteOrBarrier(WriteOrBarrierCompleted));
      }
    }
  }

  // Any order and repetition of the notifications.

  function NotifyAll(o: Operation, calls: seq<Call>): (Operation, seq<Event>) {
    if calls == [] then (o, [])
    else
      var (o1, first) := NotifyAll(o, calls[..|calls| - 1]);
      var (o2, then_) := Notify(o1, calls[|calls| - 1]);
      (o2, first + then_)
  }

  method Dispatch(op: OperationState, c: Call)
    requires op.Valid() && op.Balanced()
    modifies op
    ensures op.Valid() && op.Balanced() && op.visited == old(op.visited)
    ensures op.Value() == Notify(old(op.Value()), Heeded(c, op.visited)).0
    ensures op.seen == old(op.seen) + if op.visited then Notify(old(op.Value()), Heeded(c, op.visited)).1 else []
    ensures op.underWay == UnderWayAfter(old(op.underWay), Notify(old(op.Value()), Heeded(c, op.visited)).1)
  {
    hide Notify;
    match c
    case NotifyInitiated(k) => op.OnInitiated(k);
    case NotifyCompleted(k, r, consumed) =>
      match k {
        case Read => op.OnReadCompleted(r, consumed);
        case Write => op.OnWriteCompleted(r, consumed);
        case Barrier => op.OnBarrierCompleted(r, consumed);
      }
    case NotifyFinished(read) =>
      if read {
        op.OnReadFinished();
      } else {
        op.OnWriteOrBarrierFinished();
      }
  }

  function AllHeeded(calls: seq<Call>, visited: bool): (heeded: seq<Call>)
    ensures |heeded| == |calls| && forall i :: 0 <= i < |calls| ==> heeded[i] == Heeded(calls[i], visited)
    ensures visited ==> heeded == calls
  {
    seq(|calls|, i requires 0 <= i < |calls| => Heeded(calls[i], visited))
  }

  /** A multiplexer may call in any order and as often as it likes: the object goes where `NotifyAll` says, and
      its visitor, if it has one, hears exactly that. */
  method Deliver(op: OperationState, calls: seq<Call>)
    requires op.Valid() && op.Balanced()
    modifies op
    ensures op.Valid() && op.Balanced() && op.visited == old(op.visited)
    ensures op.Value() == NotifyAll(old(op.Value()), AllHeeded(calls, op.visited)).0
    ensures op.seen == old(op.seen) + if op.visited then NotifyAll(old(op.Value()), AllHeeded(calls, op.visited)).1 else []
    ensures op.underWay == UnderWayAfter(old(op.underWay), NotifyAll(old(op.Value()), AllHeeded(calls, op.visited)).1)
  {
    hide UnderWayAfter, Heeded;
    ghost var start, heard, was := op.Value(), op.seen, op.underWay;
    UnderWayJoin(was, [], []);
    ghost var heeded := AllHeeded(calls, op.visited);
    for n := 0 to |calls|
      invariant op.Valid() && op.Balanced() && op.visited == old(op.visited)
      invariant op.Value() == NotifyAll(start, heeded[..n]).0
      invariant op.seen == heard + if op.visited then NotifyAll(start, heeded[..n]).1 else []
      invariant op.underWay == UnderWayAfter(was, NotifyAll(start, heeded[..n]).1)
    {
      hide NotifyAll, Notify;
      NotifyAllAppend(start, heeded, n);
      UnderWayJoin(was, NotifyAll(start, heeded[..n]).1, Notify(op.Value(), heeded[n]).1);
      Dispatch(op, calls[n]);
    }
    assert heeded[..|calls|] == heeded;
  }

  lemma {:induction false} NotifyAllConcat(o: Operation, a: seq<Call>, b: seq<Call>)
    ensures var (o1, first) := NotifyAll(o, a);
            var (o2, more) := NotifyAll(o1, b);
            NotifyAll(o, a + b) == (o2, first + more)
  {
    hide Notify;
    var (o1, first) := NotifyAll(o, a);
    if b == [] {
      assert a + b == a && first + [] == first;
    } else {
      var (o2, middle) := NotifyAll(o1, b[..|b| - 1]);
      var (o3, last) := Notify(o2, b[|b| - 1]);
      NotifyAllConcat(o, a, b[..|b| - 1]);
      assert (a + b)[..|a + b| - 1] == a + b[..|b| - 1];
      assert (first + middle) + last == first + (middle + last);
    }
  }

  lemma NotifyAllAppend(o: Operation, calls: seq<Call>, n: nat)
    requires n < |calls|
    ensures var (o1, first) := NotifyAll(o, calls[..n]);
            var (o2, more) := Notify(o1, calls[n]);
            NotifyAll(o, calls[..n + 1]) == (o2, first + more)
  {
    assert calls[..n + 1][..n] == calls[..n];
  }

  /** The calls an operation of kind k takes notice of. */
  predicate Completes(c: Call, k: Kind) { c.NotifyCompleted? && c.kind == k }
  predicate Finishes(c: Call, k: Kind) { c.NotifyFinished? && c.read == k.Read? }

  /** The first completion among the calls, or |calls|. */
  function FirstCompletion(calls: seq<Call>, k: Kind): (i: nat)
    ensures i <= |calls|
    ensures i < |calls| ==> Completes(calls[i], k)
    ensures forall j :: 0 <= j < i ==> !Completes(calls[j], k)
  {
    if calls == [] then 0
    else
      var i := FirstCompletion(calls[..|calls| - 1], k);
      if i < |calls| - 1 || Completes(calls[|calls| - 1], k) then i else |calls|
  }

  predicate InitiatedBefore(calls: seq<Call>, k: Kind, i: nat)
    requires i <= |calls|
  {
    exists j :: 0 <= j < i && calls[j] == NotifyInitiated(k)
  }

  predicate FinishedAfter(calls: seq<Call>, k: Kind, i: nat) {
    exists j :: i < j < |calls| && Finishes(calls[j], k)
  }

  /** The operation before it completes, and what its visitor has been told. */
  function Started(p: Payload, k: Kind, initiated: bool): (Operation, seq<Event>) {
    if initiated then (Operation(InitiatedAs(k), p), [Initiated(k, InitialisedAs(k))])
    else (Operation(InitialisedAs(k), p), [])
  }

  /** The operation once call c has completed it, and what its visitor has been told. */
  function Ended(p: Payload, k: Kind, initiated: bool, c: Call, finished: bool): (Operation, seq<Event>)
    requires Completes(c, k)
  {
    var result := ResultOf(k, if c.consumed then MovedFrom else Result(c.result));
    var told := Started(p, k, initiated).1 + [Completed(k, Unknown, c.result)];
    if !finished then (Operation(CompletedAs(k.Read?), result), told)
    else (Operation(FinishedAs(k.Read?), result),
          told + [if k.Read? then FinishedRead(ReadCompleted) else FinishedWriteOrBarrier(WriteOrBarrierCompleted)])
  }

  /** What became of an operation of kind k, freshly initialised with p, after the calls. */
  function Outcome(p: Payload, k: Kind, calls: seq<Call>): (Operation, seq<Event>) {
    var i := FirstCompletion(calls, k);
    if i == |calls| then Started(p, k, InitiatedBefore(calls, k, i))
    else Ended(p, k, InitiatedBefore(calls, k, i), calls[i], FinishedAfter(calls, k, i))
  }

  lemma StartedStep(p: Payload, k: Kind, initiated: bool, c: Call)
    ensures var (o, told) := Started(p, k, initiated);
            var (o', more) := Notify(o, c);
            (o', told + more) == if Completes(c, k) then Ended(p, k, initiated, c, false)
                                 else Started(p, k, initiated || c == NotifyInitiated(k))
  {
    var (o, told) := Started(p, k, initiated);
    var (o', more) := Notify(o, c);
    if more == [] {
      assert told + more == told;
    } else if told == [] {
      assert told + more == more;
    }
  }

  lemma EndedStep(p: Payload, k: Kind, initiated: bool, c: Call, finished: bool, next: Call)
    requires Completes(c, k)
    ensures var (o, told) := Ended(p, k, initiated, c, finished);
            var (o', more) := Notify(o, next);
            (o', told + more) == Ended(p, k, initiated, c, finished || Finishes(next, k))
  {
    var (o, told) := Ended(p, k, initiated, c, finished);
    var (o', more) := Notify(o, next);
    if more == [] {
      assert told + more == told;
    }
  }

  lemma InitiatedAppend(before: seq<Call>, c: Call, k: Kind, i: nat)
    requires i <= |before|
    ensures InitiatedBefore(before + [c], k, i) == InitiatedBefore(before, k, i)
    ensures InitiatedBefore(before + [c], k, |before| + 1)
         == (InitiatedBefore(before, k, |before|) || c == NotifyInitiated(k))
  {
    var calls := before + [c];
    assert calls[|before|] == c && forall j :: 0 <= j < |before| ==> calls[j] == before[j];
  }

  lemma FinishedAppend(before: seq<Call>, c: Call, k: Kind, i: nat)
    ensures FinishedAfter(before + [c], k, i) == (FinishedAfter(before, k, i) || (i < |before| && Finishes(c, k)))
  {
    var calls := before + [c];
    assert calls[|before|] == c && forall j :: 0 <= j < |before| ==> calls[j] == before[j];
  }

  lemma NothingAfter(calls: seq<Call>, k: Kind)
    requires calls != []
    ensures !FinishedAfter(calls, k, |calls| - 1)
  {}

  lemma NothingCalled(p: Payload, k: Kind)
    ensures (Operation(InitialisedAs(k), p), []) == Started(p, k, InitiatedBefore([], k, 0))
  {}

  /** The visitor's story, exactly: at most one initiated, then at most one completed with the result of
      the first completion notified, then at most one finished, all of the operation's own kind, however the
      multiplexer orders and repeats its notifications. */
  lemma {:induction false} VisitorStory(p: Payload, k: Kind, calls: seq<Call>)
    ensures NotifyAll(Operation(InitialisedAs(k), p), calls) == Outcome(p, k, calls)
  {
    hide Started, Ended, InitiatedBefore, FinishedAfter, Notify;
    if calls == [] {
      NothingCalled(p, k);
    } else {
      var n := |calls| - 1;
      var before, c := calls[..n], calls[n];
      assert calls == before + [c];
      VisitorStory(p, k, before);
      var i := FirstCompletion(before, k);
      InitiatedAppend(before, c, k, i);
      FinishedAppend(before, c, k, i);
      if i < n {
        EndedStep(p, k, InitiatedBefore(before, k, i), before[i], FinishedAfter(before, k, i), c);
      } else {
        StartedStep(p, k, InitiatedBefore(before, k, i), c);
        NothingAfter(calls, k);
      }
    }
  }

  lemma StartedHolds(p: Payload, k: Kind, initiated: bool)
    ensures var o := Started(p, k, initiated).0; o.payload == p && !IsCompleted(o.state) && !IsFinished(o.state)
  {}

  lemma EndedHolds(p: Payload, k: Kind, initiated: bool, c: Call, finished: bool)
    requires Completes(c, k)
    ensures var o := Ended(p, k, initiated, c, finished).0;
            && (IsCompleted(o.state) || IsFinished(o.state))
            && (if k.Read? then o.payload.CompletedRead? else o.payload.CompletedWriteOrBarrier?)
            && o.payload.result == if c.consumed then MovedFrom else Result(c.result)
  {}

  /** The result held is the one first notified, in the member for its kind, unless the visitor consumed it then. */
  lemma ResultIsFirstCompletion(p: Payload, k: Kind, calls: seq<Call>)
    ensures var o := NotifyAll(Operation(InitialisedAs(k), p), calls).0;
            var i := FirstCompletion(calls, k);
            && (i < |calls| <==> IsCompleted(o.state) || IsFinished(o.state))
            && (i < |calls| ==>
                  && (if k.Read? then o.payload.CompletedRead? else o.payload.CompletedWriteOrBarrier?)
                  && o.payload.result == if calls[i].consumed then MovedFrom else Result(calls[i].result))
            && (i == |calls| ==> o.payload == p)
  {
    hide NotifyAll, InitiatedBefore, FinishedAfter, Started, Ended, IsCompleted, IsFinished, FirstCompletion;
    VisitorStory(p, k, calls);
    var i := FirstCompletion(calls, k);
    if i == |calls| {
      StartedHolds(p, k, InitiatedBefore(calls, k, i));
    } else {
      EndedHolds(p, k, InitiatedBefore(calls, k, i), calls[i], FinishedAfter(calls, k, i));
    }
  }

  /** Notifications keep the union disciplined. */
  lemma {:induction false} StaysNamed(o: Operation, calls: seq<Call>)
    requires Named(o)
    ensures Named(NotifyAll(o, calls).0)
  {
    if calls != [] {
      StaysNamed(o, calls[..|calls| - 1]);
    }
  }
}
