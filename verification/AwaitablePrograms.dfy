/** Programs over several awaitables: which operations are moved or destroyed while they are under way. */
module AwaitablePrograms {
  import opened IoOperation
  import opened Awaitables

  datatype Cmd =
    | Initialise(to: nat, base: nat, deadline: nat, kind: Kind, request: nat)
    | Finished(to: nat, read: bool, result: nat)      // an awaitable of an immediate result
    | MoveConstruct(to: nat, from: nat)
    | AssignFrom(to: nat, from: nat)
    | Await(to: nat)                                  // await_ready, and await_suspend if that says no
    | Notify(to: nat, calls: seq<Call>)               // by any thread
    | Fetch(to: nat)                                  // await_resume, once finished
    | Drop(to: nat)                                   // the destructor

  predicate InScope(c: Cmd, n: nat) {
    c.to < n && (c.MoveConstruct? || c.AssignFrom? ==> c.from < n)
  }

  /** The operation an awaitable holds, for frames. */
  ghost function Held(slots: seq<Awaitable>): set<object>
    reads slots
  {
    set i | 0 <= i < |slots| && slots[i].op != null :: slots[i].op as object
  }

  /** Different awaitables hold different operations, and hold none that the journal says is gone; tags and being under
      way go together; if strict, no operation under way looks merely initialised, or did when it was moved or destroyed. */
  ghost predicate Fleet(slots: seq<Awaitable>, entries: seq<Entry>, strict: bool)
    reads slots, Held(slots), set e | e in entries :: e.op
  {
    && (forall i, j :: 0 <= i < j < |slots| ==> slots[i] != slots[j])
    && (forall i, j :: 0 <= i < j < |slots| && slots[i].op != null ==> slots[i].op != slots[j].op)
    && (forall i :: 0 <= i < |slots| ==> slots[i].Valid() && slots[i].Tracks() && (strict ==> !slots[i].Loose()))
    && (forall e :: e in entries ==> e.op.Gone())
    && (forall i :: 0 <= i < |slots| && slots[i].op != null ==> NotIn(slots[i].op, entries))
    && Pinned(entries, strict)
  }

  /** Nothing was moved or destroyed from its initiation to its finish, nor, from being handed to the multiplexer to
      its finish, unless its tag still said initialised; and nothing was destroyed twice. */
  ghost predicate Pinned(entries: seq<Entry>, strict: bool) {
    && (forall e :: e in entries ==> !InProgress(e.state) && (e.underWay ==> IsInitialised(e.state) && !strict))
    && (forall j, k :: 0 <= j < k < |entries| && entries[j].Destroyed? && entries[k].Destroyed? ==> entries[j].op != entries[k].op)
  }

  /** The journal says nothing of the operation. */
  ghost predicate NotIn(op: OperationState, entries: seq<Entry>) {
    forall e :: e in entries ==> e.op != op
  }

  lemma NotInMeans(op: OperationState?, entries: seq<Entry>)
    requires op != null ==> NotIn(op, entries)
    ensures forall e :: e in entries ==> e.op != op
  {}

  lemma StillNotIn(op: OperationState, before: seq<Entry>, after: seq<Entry>, ops: set<OperationState?>)
    requires NotIn(op, before) && Retired(before, after, ops) && op !in ops
    ensures NotIn(op, after)
  {}

  lemma NewNotIn(op: OperationState, entries: seq<Entry>)
    requires forall e :: e in entries ==> e.op != op
    ensures NotIn(op, entries)
  {}

  lemma PinnedAfter(before: seq<Entry>, after: seq<Entry>, ops: set<OperationState?>, strict: bool)
    requires Pinned(before, strict) && Retired(before, after, ops) && OnlyLoose(before, after)
    requires strict ==> !Caught(before, after)
    requires forall o: OperationState :: o in ops ==> NotIn(o, before)
    ensures Pinned(after, strict)
    ensures forall e :: e in after ==> e in before || e.op in ops
  {
    forall e | e in after
      ensures e in before || e.op in ops
      ensures !InProgress(e.state) && (e.underWay ==> IsInitialised(e.state) && !strict)
    {
      var k :| 0 <= k < |after| && after[k] == e;
      if k < |before| {
        assert before[k] == e;
      }
    }
    forall j, k | 0 <= j < k < |after| && after[j].Destroyed? && after[k].Destroyed? ensures after[j].op != after[k].op {
      if j < |before| {
        assert before[j] == after[j] && before[j] in before;
        if k < |before| {
          assert before[k] == after[k];
        }
      }
    }
  }

  // What each command does to every awaitable.

  /** The value of an awaitable. */
  datatype View = Vacant | Holding(value: Operation, coro: bool)

  ghost function ViewOf(a: Awaitable): View
    reads a, if a.op == null then {} else {a.op}
  {
    if a.op == null then Vacant else Holding(a.op.Value(), a.coro)
  }

  ghost function Views(slots: seq<Awaitable>): (v: seq<View>)
    reads slots, Held(slots)
    ensures |v| == |slots| && forall i :: 0 <= i < |slots| ==> v[i] == ViewOf(slots[i])
  {
    seq(|slots|, i requires 0 <= i < |slots| reads slots, Held(slots) => ViewOf(slots[i]))
  }

  predicate Unmovable(s: StateType) { InProgress(s) || s.Unknown? }

  /** A coroutine's handle stays stored until the operation has finished. */
  function Told(v: View, calls: seq<Call>): View
    requires v.Holding?
  {
    var o := NotifyAll(v.value, calls).0;
    Holding(o, v.coro && !IsFinished(o.state))
  }

  function Begun(v: View, round: seq<Call>, prompt: bool): View
    requires v.Holding?
  {
    var o := if IsInitialised(v.value.state) then NotifyAll(v.value, InitCalls(v.value, round, prompt)).0 else v.value;
    Holding(o, !IsFinished(o.state))
  }

  /** Every awaitable before and after a command, and how the command ends. Where a destructor waits for ever, what has
      become of its operation meanwhile is not said. */
  ghost predicate Effect(c: Cmd, v: seq<View>, round: seq<Call>, prompt: bool, v': seq<View>, ending: Ending)
    requires InScope(c, |v|) && |v'| == |v|
  {
    var here := v[c.to];
    match c
    case Initialise(to, base, deadline, k, request) =>
      ending.Done?
      && v' == if here.Vacant? then v[to := Holding(Operation(InitialisedAs(k), Pending(base, deadline, k, request)), false)] else v
    case Finished(to, read, result) =>
      var held := if read then CompletedRead(Result(result)) else CompletedWriteOrBarrier(Result(result));
      ending.Done? && v' == if here.Vacant? then v[to := Holding(Operation(FinishedAs(read), held), false)] else v
    case MoveConstruct(to, from) =>
      if here.Holding? || v[from].Vacant? then ending.Done? && v' == v
      else if Unmovable(v[from].value.state) then ending.Aborted? && v' == v
      else ending.Done? && v' == v[from := Vacant][to := v[from]]
    case AssignFrom(to, from) =>
      if v[from].Vacant? || to == from then ending.Done? && v' == v
      else if ending.Blocked? then here.Holding? && InProgress(here.value.state) && v' == v[to := v'[to]]
      else if Unmovable(v[from].value.state) then ending.Aborted? && v' == v[to := Vacant]
      else ending.Done? && v' == v[from := Vacant][to := v[from]]
    case Await(to) => ending.Done? && v' == if here.Vacant? then v else v[to := Begun(here, round, prompt)]
    case Notify(to, calls) => ending.Done? && v' == if here.Vacant? then v else v[to := Told(here, calls)]
    case Fetch(to) =>
      ending.Done?
      && v' == if here.Vacant? || !IsFinished(here.value.state) then v else v[to := Holding(Operation(Unknown, Empty), here.coro)]
    case Drop(to) =>
      if ending.Blocked? then here.Holding? && InProgress(here.value.state) && v' == v[to := v'[to]]
      else ending.Done? && v' == v[to := Vacant]
  }

  method DropOne(slots: seq<Awaitable>, i: nat, multiplexer: Multiplexer, ghost journal: Journal, ghost strict: bool) returns (ending: Ending)
    requires Fleet(slots, journal.entries, strict) && i < |slots|
    modifies slots, Held(slots), multiplexer, journal
    ensures Fleet(slots, journal.entries, strict) && old(journal.entries) <= journal.entries
    ensures forall k :: 0 <= k < |slots| && k != i ==> slots[k].op == old(slots[k].op)
    ensures forall k :: 0 <= k < |slots| && k != i && slots[k].op != null ==> unchanged(slots[k].op)
    ensures slots[i].op == if ending.Blocked? then old(slots[i].op) else null
    ensures ending.Done? || (ending.Blocked? && old(slots[i].op) != null && old(InProgress(slots[i].op.state)))
    ensures Caught(old(journal.entries), journal.entries) <==> old(slots[i].Loose())
    ensures old(slots[i].Loose()) ==> multiplexer.rounds == old(multiplexer.rounds)
    ensures Views(slots) == old(Views(slots))[i := if ending.Blocked? then Views(slots)[i] else Vacant]
  {
    hide Pinned, Retired, OnlyLoose, Caught, Awaitable.Valid, Awaitable.Tracks, Awaitable.Loose, OperationState.Gone, NotIn, Views;
    ghost var before, op := journal.entries, slots[i].op;
    NotInMeans(op, before);
    var blocked := slots[i].Destroy(multiplexer, journal);
    ending := if blocked then Blocked else Done;
    PinnedAfter(before, journal.entries, {op}, strict);
    forall k | 0 <= k < |slots| && slots[k].op != null && !(blocked && k == i) ensures NotIn(slots[k].op, journal.entries) {
      StillNotIn(slots[k].op, before, journal.entries, {op});
    }
  }

  lemma NothingCaught(before: seq<Entry>)
    ensures !Caught(before, before)
  {}

  method MoveFleet(slots: seq<Awaitable>, to: nat, from: nat, ghost journal: Journal, ghost strict: bool) returns (ending: Ending)
    requires Fleet(slots, journal.entries, strict) && to < |slots| && from < |slots| && slots[to].op == null && slots[from].op != null
    modifies slots, Held(slots), journal
    ensures Fleet(slots, journal.entries, strict) && !ending.Blocked? && old(journal.entries) <= journal.entries
    ensures forall k :: 0 <= k < |slots| && k != to && k != from ==> slots[k].op == old(slots[k].op)
    ensures ending.Aborted? <==> old(InProgress(slots[from].op.state) || slots[from].op.state.Unknown?)
    ensures if ending.Aborted? then slots[to].op == null && slots[from].op == old(slots[from].op)
            else slots[from].op == null && slots[to].op != null && fresh(slots[to].op) && slots[to].op.Value() == old(slots[from].op.Value())
    ensures Caught(old(journal.entries), journal.entries) <==> old(slots[from].Loose())
    ensures forall k :: 0 <= k < |slots| && k != to && k != from ==>
              unchanged(slots[k]) && (slots[k].op != null ==> unchanged(slots[k].op))
    ensures if ending.Aborted? then slots[from].op.Value() == old(slots[from].op.Value()) && slots[from].coro == old(slots[from].coro)
            else slots[to].coro == old(slots[from].coro)
  {
    hide Pinned, Retired, OnlyLoose, Caught, Awaitable.Valid, Awaitable.Tracks, Awaitable.Loose, OperationState.Gone, NotIn;
    ghost var before, op := journal.entries, slots[from].op;
    NotInMeans(op, before);
    var aborted := slots[to].MoveFrom(slots[from], journal);
    ending := if aborted then Aborted else Done;
    if aborted {
      NothingCaught(before);
    } else {
      PinnedAfter(before, journal.entries, {op}, strict);
      NewNotIn(slots[to].op, before);
      forall k | 0 <= k < |slots| && slots[k].op != null ensures NotIn(slots[k].op, journal.entries) {
        StillNotIn(slots[k].op, before, journal.entries, {op});
      }
    }
  }

  method MoveOne(slots: seq<Awaitable>, to: nat, from: nat, ghost journal: Journal, ghost strict: bool) returns (ending: Ending)
    requires Fleet(slots, journal.entries, strict) && to < |slots| && from < |slots| && slots[to].op == null && slots[from].op != null
    modifies slots, Held(slots), journal
    ensures Fleet(slots, journal.entries, strict) && !ending.Blocked? && old(journal.entries) <= journal.entries
    ensures forall k :: 0 <= k < |slots| && k != to && k != from ==> slots[k].op == old(slots[k].op)
    ensures ending.Aborted? <==> old(InProgress(slots[from].op.state) || slots[from].op.state.Unknown?)
    ensures if ending.Aborted? then slots[to].op == null && slots[from].op == old(slots[from].op)
            else slots[from].op == null && slots[to].op != null && fresh(slots[to].op) && slots[to].op.Value() == old(slots[from].op.Value())
    ensures Caught(old(journal.entries), journal.entries) <==> old(slots[from].Loose())
    ensures Views(slots) == if ending.Aborted? then old(Views(slots))
                            else old(Views(slots))[from := Vacant][to := old(Views(slots))[from]]
  {
    hide Fleet, Caught, Awaitable.Loose;
    ending := MoveFleet(slots, to, from, journal, strict);
  }

  lemma CaughtBetween(before: seq<Entry>, between: seq<Entry>, after: seq<Entry>)
    requires before <= between <= after
    ensures Caught(before, after) <==> Caught(before, between) || Caught(between, after)
  {
    if Caught(before, between) {
      var k :| |before| <= k < |between| && between[k].underWay;
      assert after[k].underWay;
    }
    if Caught(before, after) {
      var k :| |before| <= k < |after| && after[k].underWay;
      assert k < |between| ==> between[k].underWay;
    }
  }

  /** Move assignment: from itself, nothing; from another, destroys itself and move-constructs in its place. */
  method AssignOne(slots: seq<Awaitable>, to: nat, from: nat, multiplexer: Multiplexer, ghost journal: Journal, ghost strict: bool) returns (ending: Ending)
    requires Fleet(slots, journal.entries, strict) && to < |slots| && from < |slots| && slots[from].op != null
    modifies slots, Held(slots), multiplexer, journal
    ensures Fleet(slots, journal.entries, strict) && old(journal.entries) <= journal.entries
    ensures forall k :: 0 <= k < |slots| && k != to && k != from ==> slots[k].op == old(slots[k].op)
    ensures to == from ==> ending.Done? && slots[to].op == old(slots[to].op) && slots[to].op.Value() == old(slots[to].op.Value())
    ensures to != from ==>
              match ending
              case Blocked =>
                slots[to].op == old(slots[to].op) != null && old(InProgress(slots[to].op.state)) && slots[from].op == old(slots[from].op)
              case Aborted =>
                slots[to].op == null && slots[from].op == old(slots[from].op)
                && old(InProgress(slots[from].op.state) || slots[from].op.state.Unknown?)
              case Done =>
                slots[from].op == null && slots[to].op != null && fresh(slots[to].op)
                && slots[to].op.Value() == old(slots[from].op.Value())
    ensures Caught(old(journal.entries), journal.entries) <==>
              to != from && !ending.Blocked? && old(slots[to].Loose() || slots[from].Loose())
    ensures Effect(AssignFrom(to, from), old(Views(slots)), [], false, Views(slots), ending)
  {
    hide Fleet, Caught, Effect, Views;
    ghost var before, v := journal.entries, Views(slots);
    NothingCaught(before);
    AnyView(slots, to);
    AnyView(slots, from);
    if to == from {
      AssignEffect(v, v, v, to, from, Done, Done);
      return Done;
    }
    FleetDistinct(slots, journal.entries, strict);
    ending := DropOne(slots, to, multiplexer, journal, strict);
    ghost var w := Views(slots);
    if ending.Blocked? {
      AssignEffect(v, w, w, to, from, Blocked, Blocked);
      return;
    }
    AnyView(slots, from);
    ghost var between := journal.entries;
    ending := MoveOne(slots, to, from, journal, strict);
    CaughtBetween(before, between, journal.entries);
    AssignEffect(v, w, Views(slots), to, from, Done, ending);
  }

  lemma AnyView(slots: seq<Awaitable>, i: nat)
    requires i < |slots|
    ensures Views(slots)[i] == ViewOf(slots[i])
  {}

  lemma AssignEffect(v: seq<View>, w: seq<View>, v': seq<View>, to: nat, from: nat, dropped: Ending, ending: Ending)
    requires to < |v| && from < |v| == |v'| == |w| && v[from].Holding?
    requires if to == from then ending.Done? && v' == v
             else if dropped.Blocked? then ending.Blocked? && v[to].Holding? && InProgress(v[to].value.state) && v' == v[to := v'[to]]
             else w == v[to := Vacant] && !ending.Blocked? && (ending.Aborted? <==> Unmovable(v[from].value.state))
                  && v' == if ending.Aborted? then w else w[from := Vacant][to := w[from]]
    ensures Effect(AssignFrom(to, from), v, [], false, v', ending)
  {}

  lemma FleetDistinct(slots: seq<Awaitable>, entries: seq<Entry>, strict: bool)
    requires Fleet(slots, entries, strict)
    ensures forall i, j :: 0 <= i < j < |slots| ==> slots[i] != slots[j]
    ensures forall i, j :: 0 <= i < j < |slots| && slots[i].op != null ==> slots[i].op != slots[j].op
  {}

  method AwaitOne(slots: seq<Awaitable>, i: nat, multiplexer: Multiplexer, ghost journal: Journal, ghost strict: bool)
    requires Fleet(slots, journal.entries, strict) && i < |slots| && slots[i].op != null
    requires strict ==> multiplexer.prompt
    modifies slots, Held(slots), multiplexer
    ensures Fleet(slots, journal.entries, strict)
    ensures forall k :: 0 <= k < |slots| ==> slots[k].op == old(slots[k].op)
    ensures var round := if old(multiplexer.rounds) == [] then [] else old(multiplexer.rounds)[0];
            Views(slots) == old(Views(slots))[i := Begun(old(Views(slots))[i], round, multiplexer.prompt)]
  {
    hide Pinned, NotIn, Tracked, Views, NotifyAll, InitCalls;
    var goesOn := slots[i].Await(multiplexer);
  }

  method NotifyOne(slots: seq<Awaitable>, i: nat, calls: seq<Call>, ghost journal: Journal, ghost strict: bool)
    requires Fleet(slots, journal.entries, strict) && i < |slots| && slots[i].op != null
    modifies slots, Held(slots)
    ensures Fleet(slots, journal.entries, strict)
    ensures forall k :: 0 <= k < |slots| ==> slots[k].op == old(slots[k].op)
    ensures Views(slots) == old(Views(slots))[i := Told(old(Views(slots))[i], calls)]
  {
    slots[i].Hear(calls);
  }

  method FetchOne(slots: seq<Awaitable>, i: nat, ghost journal: Journal, ghost strict: bool) returns (r: IoResult)
    requires Fleet(slots, journal.entries, strict) && i < |slots| && slots[i].op != null
    requires IsFinished(slots[i].op.state)
    modifies slots, Held(slots)
    ensures Fleet(slots, journal.entries, strict)
    ensures forall k :: 0 <= k < |slots| ==> slots[k].op == old(slots[k].op)
    ensures Views(slots) == old(Views(slots))[i := Holding(Operation(Unknown, Empty), old(slots[i].coro))]
  {
    r := slots[i].AwaitResume();
  }

  method AdoptOne(slots: seq<Awaitable>, i: nat, state: StateType, p: Payload, ghost journal: Journal, ghost strict: bool)
    requires Fleet(slots, journal.entries, strict) && i < |slots| && slots[i].op == null && Named(Operation(state, p))
    modifies slots
    ensures Fleet(slots, journal.entries, strict)
    ensures forall k :: 0 <= k < |slots| && k != i ==> slots[k].op == old(slots[k].op)
    ensures slots[i].op != null && fresh(slots[i].op) && slots[i].op.Value() == Operation(state, p)
    ensures Views(slots) == old(Views(slots))[i := Holding(Operation(state, p), false)]
  {
    var o := new OperationState(state, p, true);
    slots[i].Adopt(o);
  }

  /** Command c moves or destroys an operation that is under way, though its tag does not say so. */
  ghost predicate Catches(c: Cmd, slots: seq<Awaitable>)
    requires InScope(c, |slots|)
    reads slots, Held(slots)
  {
    match c
    case MoveConstruct(to, from) => slots[to].op == null && slots[from].Loose()
    case AssignFrom(to, from) => to != from && slots[from].op != null && (slots[to].Loose() || slots[from].Loose())
    case Drop(to) => slots[to].Loose()
    case _ => false
  }

  /** One command; one that makes no sense, such as moving from an awaitable holding nothing, is passed over. It moves
      or destroys something under way exactly if it is asked to and the tag still says initialised. */
  method Execute(c: Cmd, slots: seq<Awaitable>, multiplexer: Multiplexer, ghost journal: Journal, ghost strict: bool) returns (ending: Ending)
    requires InScope(c, |slots|) && Fleet(slots, journal.entries, strict)
    requires strict ==> multiplexer.prompt
    modifies slots, Held(slots), multiplexer, journal
    ensures Fleet(slots, journal.entries, strict)
    ensures forall k :: 0 <= k < |slots| && slots[k].op != null ==> slots[k].op in old(Held(slots)) || fresh(slots[k].op)
    ensures Caught(old(journal.entries), journal.entries) <==> !ending.Blocked? && old(Catches(c, slots))
    ensures var round := if old(multiplexer.rounds) == [] then [] else old(multiplexer.rounds)[0];
            Effect(c, old(Views(slots)), round, multiplexer.prompt, Views(slots), ending)
  {
    hide Fleet, Effect, Views, Caught, Awaitable.Valid, Awaitable.Tracks;
    ending := Done;
    ghost var v := Views(slots);
    ghost var round := if multiplexer.rounds == [] then [] else multiplexer.rounds[0];
    NothingCaught(journal.entries);
    match c {
      case MoveConstruct(to, from) =>
        AnyView(slots, to);
        AnyView(slots, from);
        if slots[to].op == null && slots[from].op != null {
          ending := MoveOne(slots, to, from, journal, strict);
        }
        MoveEffect(v, round, multiplexer.prompt, Views(slots), to, from, ending);
      case AssignFrom(to, from) =>
        AnyView(slots, from);
        if slots[from].op != null {
          ending := AssignOne(slots, to, from, multiplexer, journal, strict);
        }
        AssignAnyRound(v, round, multiplexer.prompt, Views(slots), to, from, ending);
      case Drop(to) =>
        AnyView(slots, to);
        ending := DropOne(slots, to, multiplexer, journal, strict);
        DropEffect(v, round, multiplexer.prompt, Views(slots), to, ending);
      case _ =>
        ExecuteHere(c, slots, multiplexer, journal, strict);
    }
  }

  lemma MoveEffect(v: seq<View>, round: seq<Call>, prompt: bool, v': seq<View>, to: nat, from: nat, ending: Ending)
    requires to < |v| && from < |v| == |v'|
    requires if v[to].Holding? || v[from].Vacant? then ending.Done? && v' == v
             else !ending.Blocked? && (ending.Aborted? <==> Unmovable(v[from].value.state))
                  && v' == if ending.Aborted? then v else v[from := Vacant][to := v[from]]
    ensures Effect(MoveConstruct(to, from), v, round, prompt, v', ending)
  {}

  lemma AssignAnyRound(v: seq<View>, round: seq<Call>, prompt: bool, v': seq<View>, to: nat, from: nat, ending: Ending)
    requires to < |v| && from < |v| == |v'|
    requires if v[from].Vacant? then ending.Done? && v' == v else Effect(AssignFrom(to, from), v, [], false, v', ending)
    ensures Effect(AssignFrom(to, from), v, round, prompt, v', ending)
  {}

  lemma DropEffect(v: seq<View>, round: seq<Call>, prompt: bool, v': seq<View>, to: nat, ending: Ending)
    requires to < |v| == |v'|
    requires if ending.Blocked? then v[to].Holding? && InProgress(v[to].value.state) && v' == v[to := v'[to]]
             else ending.Done? && v' == v[to := Vacant]
    ensures Effect(Drop(to), v, round, prompt, v', ending)
  {}

  /** A command to one awaitable that leaves its operation where it is. */
  method ExecuteHere(c: Cmd, slots: seq<Awaitable>, multiplexer: Multiplexer, ghost journal: Journal, ghost strict: bool)
    requires InScope(c, |slots|) && Fleet(slots, journal.entries, strict) && !c.MoveConstruct? && !c.AssignFrom? && !c.Drop?
    requires strict ==> multiplexer.prompt
    modifies slots, Held(slots), multiplexer
    ensures Fleet(slots, journal.entries, strict)
    ensures forall k :: 0 <= k < |slots| && slots[k].op != null ==> slots[k].op in old(Held(slots)) || fresh(slots[k].op)
    ensures var round := if old(multiplexer.rounds) == [] then [] else old(multiplexer.rounds)[0];
            Effect(c, old(Views(slots)), round, multiplexer.prompt, Views(slots), Done)
  {
    hide Fleet, Told, Begun, Awaitable.Valid, Awaitable.Tracks;
    var here := slots[c.to];
    match c {
      case Initialise(to, base, deadline, k, request) =>
        if here.op == null {
          AdoptOne(slots, to, InitialisedAs(k), Pending(base, deadline, k, request), journal, strict);
        }
      case Finished(to, read, result) =>
        if here.op == null {
          AdoptOne(slots, to, FinishedAs(read), ResultOf(if read then Read else Write, Result(result)), journal, strict);
        }
      case Await(to) =>
        if here.op != null {
          AwaitOne(slots, to, multiplexer, journal, strict);
        }
      case Notify(to, calls) =>
        if here.op != null {
          NotifyOne(slots, to, calls, journal, strict);
        }
      case Fetch(to) =>
        if here.op != null && IsFinished(here.op.state) {
          var r := FetchOne(slots, to, journal, strict);
        }
    }
  }

  /** Through any program of initialisations, moves, awaits, notifications, fetches and destructions of any number of
      awaitables, whatever the multiplexer does at its polls: no operation is moved to other storage or destroyed from
      its initiation to its finish, and none is destroyed twice; one handed over and not yet initiated is moved or
      destroyed whenever the program says so, but with a prompt multiplexer there is none; every operation that went
      left nothing of its payloads behind; and unless the program aborts or waits for ever, in the end all are gone. */
  method Run(program: seq<Cmd>, slots: seq<Awaitable>, multiplexer: Multiplexer, ghost journal: Journal, ghost strict: bool) returns (ending: Ending)
    requires forall c :: c in program ==> InScope(c, |slots|)
    requires Fleet(slots, journal.entries, strict)
    requires strict ==> multiplexer.prompt
    modifies slots, Held(slots), multiplexer, journal
    ensures Fleet(slots, journal.entries, strict)
    ensures Pinned(journal.entries, strict) && forall e :: e in journal.entries ==> e.op.Gone()
    ensures ending.Done? ==> forall k :: 0 <= k < |slots| ==> slots[k].op == null
  {
    hide Fleet;
    ending := Done;
    for n := 0 to |program|
      invariant Fleet(slots, journal.entries, strict) && ending.Done?
      invariant forall k :: 0 <= k < |slots| && slots[k].op != null ==> slots[k].op in old(Held(slots)) || fresh(slots[k].op)
    {
      ending := Execute(program[n], slots, multiplexer, journal, strict);
      if !ending.Done? {
        FleetPinned(slots, journal.entries, strict);
        return;
      }
    }
    for n := 0 to |slots|
      invariant Fleet(slots, journal.entries, strict) && ending.Done?
      invariant forall k :: 0 <= k < |slots| && slots[k].op != null ==> slots[k].op in old(Held(slots)) || fresh(slots[k].op)
      invariant forall k :: 0 <= k < n ==> slots[k].op == null
    {
      ending := DropOne(slots, n, multiplexer, journal, strict);
      if !ending.Done? {
        FleetPinned(slots, journal.entries, strict);
        return;
      }
    }
    FleetPinned(slots, journal.entries, strict);
  }

  lemma FleetPinned(slots: seq<Awaitable>, entries: seq<Entry>, strict: bool)
    requires Fleet(slots, entries, strict)
    ensures Pinned(entries, strict) && forall e :: e in entries ==> e.op.Gone()
  {}

  // Where the rule fails: an operation handed over, its coroutine suspended, its tag still initialised.

  /** A coroutine awaits a read that a multiplexer queues, to initiate it later. */
  method QueuedRead(base: nat, deadline: nat, request: nat, later: seq<seq<Call>>)
    returns (a: Awaitable, multiplexer: Multiplexer)
    ensures fresh(a) && fresh(multiplexer) && a.Valid() && a.op != null && fresh(a.op) && a.coro && a.op.underWay
    ensures a.op.Value() == Operation(ReadInitialised, Pending(base, deadline, Read, request)) && multiplexer.rounds == later
  {
    var o := new OperationState(ReadInitialised, Pending(base, deadline, Read, request), true);
    a := new Awaitable();
    a.Adopt(o);
    multiplexer := new Multiplexer(false, [[]] + later);
    assert NotifyAll(a.op.Value(), []).0 == a.op.Value();
    var goesOn := a.Await(multiplexer);
    assert ([[]] + later)[1..] == later;
  }

  /** Moving its awaitable moves the operation. */
  method MovedUnderWay(base: nat, deadline: nat, request: nat, later: seq<seq<Call>>)
    returns (to: Awaitable, journal: Journal, aborted: bool)
    ensures !aborted && to.op != null && to.coro && to.op.state == ReadInitialised && to.op.underWay
    ensures |journal.entries| == 2 && journal.entries[0].Relocated? && journal.entries[0].state == ReadInitialised
    ensures journal.entries[0].underWay
  {
    journal := new Journal();
    var from, multiplexer := QueuedRead(base, deadline, request, later);
    to := new Awaitable();
    aborted := to.MoveFrom(from, journal);
  }

  /** Destroying its awaitable destroys the operation at once, with the rounds that would finish it still to come. */
  method DestroyedUnderWay(base: nat, deadline: nat, request: nat, later: seq<seq<Call>>)
    returns (multiplexer: Multiplexer, journal: Journal, blocked: bool)
    ensures !blocked && multiplexer.rounds == later
    ensures |journal.entries| == 1 && journal.entries[0].Destroyed? && journal.entries[0].state == ReadInitialised
    ensures journal.entries[0].underWay
  {
    journal := new Journal();
    var a;
    a, multiplexer := QueuedRead(base, deadline, request, later);
    blocked := a.Destroy(multiplexer, journal);
  }
}
