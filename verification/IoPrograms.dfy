/** Any program over one operation: notifications, fetching its result, moving it to other storage. */
module IoPrograms {
  import opened IoOperation

  datatype Use =
    | Notified(call: Call)
    | FetchRead
    | FetchWriteOrBarrier
    | MovedAway

  datatype Outcome = Outcome(op: Operation, told: seq<Event>, results: seq<IoResult>)

  /** What one use does to the operation, what its visitor is told of it, and what it hands over. A result is only
      fetched when there is one of that kind. */
  function UseOne(o: Operation, visited: bool, u: Use): Outcome
    requires Named(o)
    ensures Named(UseOne(o, visited, u).op)
  {
    match u
    case Notified(c) =>
      var (o', events) := Notify(o, Heeded(c, visited));
      Outcome(o', if visited then events else [], [])
    case FetchRead =>
      if o.state.ReadCompleted? || o.state.ReadFinished? then Outcome(Operation(Unknown, Empty), [], [o.payload.result])
      else Outcome(o, [], [])
    case FetchWriteOrBarrier =>
      if o.state.WriteOrBarrierCompleted? || o.state.WriteOrBarrierFinished?
      then Outcome(Operation(Unknown, Empty), [], [o.payload.result])
      else Outcome(o, [], [])
    case MovedAway => Outcome(o, [], [])
  }

  function UseAll(o: Operation, visited: bool, uses: seq<Use>): Outcome
    requires Named(o)
    ensures Named(UseAll(o, visited, uses).op)
  {
    if uses == [] then Outcome(o, [], [])
    else
      var before := UseAll(o, visited, uses[..|uses| - 1]);
      var last := UseOne(before.op, visited, uses[|uses| - 1]);
      Outcome(last.op, before.told + last.told, before.results + last.results)
  }

  lemma UseAllNext(o: Operation, visited: bool, uses: seq<Use>, n: nat)
    requires Named(o) && n < |uses|
    ensures var before := UseAll(o, visited, uses[..n]);
            var last := UseOne(before.op, visited, uses[n]);
            UseAll(o, visited, uses[..n + 1]) == Outcome(last.op, before.told + last.told, before.results + last.results)
  {
    assert uses[..n + 1][..n] == uses[..n];
  }

  /** Every storage the operation ever lived in but the present one is left empty, each payload built there having
      been destroyed once. */
  ghost predicate AllGone(entries: seq<Entry>, op: OperationState)
    reads set e | e in entries :: e.op
  {
    forall e :: e in entries ==> e.op != op && e.op.Gone()
  }

  /** One use of the object; moving it away leaves another object in charge. */
  method Step(op: OperationState, u: Use, ghost journal: Journal) returns (to: OperationState, results: seq<IoResult>)
    requires op.Valid() && op.Balanced() && AllGone(journal.entries, op)
    modifies op, journal
    ensures to.Valid() && to.Balanced() && AllGone(journal.entries, to)
    ensures to.visited == old(op.visited) && (to == op || fresh(to))
    ensures var last := UseOne(old(op.Value()), old(op.visited), u);
            to.Value() == last.op && to.seen == old(op.seen) + last.told && results == last.results
    ensures u.MovedAway? ==>
              && fresh(to) && to.underWay == old(op.underWay)
              && journal.entries == old(journal.entries) + [Relocated(op, old(op.state), old(op.underWay)), Destroyed(op, Unknown, false)]
    ensures !u.MovedAway? ==> to == op && journal.entries == old(journal.entries)
  {
    to, results := op, [];
    match u {
      case Notified(c) =>
        Dispatch(op, c);
      case FetchRead =>
        if op.state.ReadCompleted? || op.state.ReadFinished? {
          var r := op.GetCompletedRead();
          results := [r];
        }
      case FetchWriteOrBarrier =>
        if op.state.WriteOrBarrierCompleted? || op.state.WriteOrBarrierFinished? {
          var r := op.GetCompletedWriteOrBarrier();
          results := [r];
        }
      case MovedAway =>
        to := op.RelocateTo(journal);
        op.Destroy(journal);
    }
  }

  /** Any program of uses, from any state: the operation goes where `UseAll` says through all its moves, and the
      visitor hears and the caller gets what it says. */
  method Perform(first: OperationState, uses: seq<Use>, ghost journal: Journal) returns (last: OperationState, results: seq<IoResult>)
    requires first.Valid() && first.Balanced() && AllGone(journal.entries, first)
    modifies first, journal
    ensures last.Valid() && last.Balanced() && AllGone(journal.entries, last) && (last == first || fresh(last))
    ensures var all := UseAll(old(first.Value()), old(first.visited), uses);
            last.Value() == all.op && last.seen == old(first.seen) + all.told && results == all.results
    ensures last.visited == old(first.visited)
    decreases |uses|
  {
    hide AllGone;
    if uses == [] {
      return first, [];
    }
    ghost var start, visited, heard := first.Value(), first.visited, first.seen;
    var n := |uses| - 1;
    var between, early := Perform(first, uses[..n], journal);
    hide UseAll, UseOne, Named;
    var late;
    last, late := Step(between, uses[n], journal);
    results := early + late;
    UseAllNext(start, visited, uses, n);
    assert uses[..n + 1] == uses;
  }

  /** And when it is destroyed at the end, every payload ever built, in any storage, has been destroyed once. */
  method Live(first: OperationState, uses: seq<Use>, ghost journal: Journal) returns (last: OperationState, results: seq<IoResult>)
    requires first.Valid() && first.Balanced() && AllGone(journal.entries, first)
    modifies first, journal
    ensures forall e :: e in journal.entries ==> e.op.Gone()
    ensures last.Gone() && (last == first || fresh(last))
    ensures var all := UseAll(old(first.Value()), old(first.visited), uses);
            last.seen == old(first.seen) + all.told && results == all.results
  {
    hide UseAll;
    last, results := Perform(first, uses, journal);
    last.Destroy(journal);
  }

  // What a program that only awaits the result gets.

  /** Notifications, then the fetch for the operation's kind. */
  function AwaitThenFetch(k: Kind, calls: seq<Call>): (uses: seq<Use>)
    ensures |uses| == |calls| + 1
  {
    seq(|calls|, i requires 0 <= i < |calls| => Notified(calls[i])) + [if k.Read? then FetchRead else FetchWriteOrBarrier]
  }

  lemma {:induction false} NotifiedAll(o: Operation, visited: bool, calls: seq<Call>, uses: seq<Use>)
    requires Named(o) && |uses| == |calls| && forall i :: 0 <= i < |calls| ==> uses[i] == Notified(calls[i])
    ensures UseAll(o, visited, uses).op == NotifyAll(o, AllHeeded(calls, visited)).0
    ensures UseAll(o, visited, uses).results == []
  {
    hide Notify, Named;
    if calls != [] {
      var n := |calls| - 1;
      NotifiedAll(o, visited, calls[..n], uses[..n]);
      assert AllHeeded(calls, visited)[..n] == AllHeeded(calls[..n], visited);
    }
  }

  lemma FirstCompletionHeeded(calls: seq<Call>, k: Kind, visited: bool)
    ensures FirstCompletion(AllHeeded(calls, visited), k) == FirstCompletion(calls, k)
  {
    var heeded := AllHeeded(calls, visited);
    var i, j := FirstCompletion(calls, k), FirstCompletion(heeded, k);
    assert i < |calls| ==> Completes(heeded[i], k);
    assert j < |calls| ==> Completes(calls[j], k);
  }

  /** Awaiting a fresh operation of any kind gets exactly the result of its first completion, or nothing without one. */
  lemma FetchedIsNotified(p: Payload, k: Kind, visited: bool, calls: seq<Call>)
    requires Named(Operation(InitialisedAs(k), p))
    ensures var all := UseAll(Operation(InitialisedAs(k), p), visited, AwaitThenFetch(k, calls));
            var i := FirstCompletion(calls, k);
            all.results == if i == |calls| then [] else [if calls[i].consumed && visited then MovedFrom else Result(calls[i].result)]
  {
    hide NotifyAll, UseAll;
    var o, uses := Operation(InitialisedAs(k), p), AwaitThenFetch(k, calls);
    NotifiedAll(o, visited, calls, uses[..|calls|]);
    ResultIsFirstCompletion(p, k, AllHeeded(calls, visited));
    FirstCompletionHeeded(calls, k, visited);
    StaysNamed(o, AllHeeded(calls, visited));
    UseAllNext(o, visited, uses, |calls|);
    assert uses[..|calls| + 1] == uses;
  }

  /** And so does awaiting the object. */
  method FetchAfter(op: OperationState, k: Kind, calls: seq<Call>, ghost journal: Journal)
    returns (last: OperationState, results: seq<IoResult>)
    requires op.Valid() && op.Balanced() && AllGone(journal.entries, op) && op.state == InitialisedAs(k)
    modifies op, journal
    ensures last.Valid() && last.Balanced() && (last == op || fresh(last))
    ensures var i := FirstCompletion(calls, k);
            results == if i == |calls| then [] else [if calls[i].consumed && old(op.visited) then MovedFrom else Result(calls[i].result)]
  {
    hide UseAll;
    FetchedIsNotified(op.payload, k, op.visited, calls);
    last, results := Perform(op, AwaitThenFetch(k, calls), journal);
  }
}
