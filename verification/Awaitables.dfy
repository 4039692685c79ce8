/** An awaitable carries its operation inside itself, so moving or destroying it moves or destroys the operation.
    Neither happens from the operation's initiation to its finish. Both can happen while it is handed to the
    multiplexer but not yet initiated, which the rules of the interface forbid. */
module Awaitables {
  import opened IoOperation

  /** The tag says the operation was initiated and is not finished. */
  predicate InProgress(s: StateType) { IsInitiated(s) || IsCompleted(s) }

  /** How the tag and being under way go together: initiated and completed operations are under way, and others only
      while still initialised. */
  predicate Tracked(s: StateType, underWay: bool) {
    (InProgress(s) ==> underWay) && (underWay ==> InProgress(s) || IsInitialised(s))
  }

  lemma TrackedNotify(o: Operation, c: Call, was: bool)
    requires Tracked(o.state, was)
    ensures var (o', events) := Notify(o, c); Tracked(o'.state, UnderWayAfter(was, events))
  {}

  /** Notifications keep the two together. */
  lemma {:induction false} TrackedAll(o: Operation, calls: seq<Call>, was: bool)
    requires Tracked(o.state, was)
    ensures var (o', events) := NotifyAll(o, calls); Tracked(o'.state, UnderWayAfter(was, events))
  {
    if calls != [] {
      var n := |calls| - 1;
      var (o1, first) := NotifyAll(o, calls[..n]);
      var (o2, more) := Notify(o1, calls[n]);
      TrackedAll(o, calls[..n], was);
      TrackedNotify(o1, calls[n], UnderWayAfter(was, first));
      UnderWayJoin(was, first, more);
    }
  }

  lemma UntilFinishedNotify(o: Operation, c: Call, was: bool)
    requires InProgress(o.state) || IsInitialised(o.state) || IsFinished(o.state)
    requires was <==> !IsFinished(o.state)
    ensures var (o', events) := Notify(o, c);
            && (InProgress(o'.state) || IsInitialised(o'.state) || IsFinished(o'.state))
            && (UnderWayAfter(was, events) <==> !IsFinished(o'.state))
  {}

  /** An operation handed over stays under way exactly until it is finished. */
  lemma {:induction false} UntilFinished(o: Operation, calls: seq<Call>)
    requires InProgress(o.state) || IsInitialised(o.state)
    ensures var (o', events) := NotifyAll(o, calls);
            && (InProgress(o'.state) || IsInitialised(o'.state) || IsFinished(o'.state))
            && (UnderWayAfter(true, events) <==> !IsFinished(o'.state))
  {
    hide Notify, UnderWayAfter, InProgress, IsInitialised, IsFinished;
    if calls == [] {
      NothingHappened(o);
    } else {
      var n := |calls| - 1;
      var (o1, first) := NotifyAll(o, calls[..n]);
      var (o2, more) := Notify(o1, calls[n]);
      UntilFinished(o, calls[..n]);
      UntilFinishedNotify(o1, calls[n], UnderWayAfter(true, first));
      UnderWayJoin(true, first, more);
    }
  }

  lemma NothingHappened(o: Operation)
    requires InProgress(o.state) || IsInitialised(o.state)
    ensures UnderWayAfter(true, []) && !IsFinished(o.state)
  {}

  function KindOf(s: StateType): Kind
    requires IsInitialised(s)
  {
    if s.ReadInitialised? then Read else if s.WriteInitialised? then Write else Barrier
  }

  /** What init_io_operation notifies: whatever it likes, and if it is a prompt one and that has left the operation
      initialised, its initiation. */
  function InitCalls(o: Operation, round: seq<Call>, prompt: bool): seq<Call>
    requires IsInitialised(o.state)
  {
    if prompt && IsInitialised(NotifyAll(o, round).0.state) then round + [NotifyInitiated(KindOf(o.state))] else round
  }

  lemma StillInitialisedNotify(o: Operation, c: Call)
    requires IsInitialised(Notify(o, c).0.state)
    ensures IsInitialised(o.state) && Notify(o, c) == (o, [])
  {}

  lemma {:induction false} StillInitialised(o: Operation, calls: seq<Call>)
    requires IsInitialised(NotifyAll(o, calls).0.state)
    ensures NotifyAll(o, calls) == (o, [])
  {
    hide Notify, IsInitialised;
    if calls != [] {
      var n := |calls| - 1;
      var (o1, first) := NotifyAll(o, calls[..n]);
      StillInitialisedNotify(o1, calls[n]);
      StillInitialised(o, calls[..n]);
      assert first + [] == first;
    }
  }

  /** A prompt multiplexer leaves nothing just initialised. */
  lemma PromptInitiates(o: Operation, round: seq<Call>)
    requires IsInitialised(o.state)
    ensures !IsInitialised(NotifyAll(o, InitCalls(o, round, true)).0.state)
  {
    var first := NotifyAll(o, round).0;
    if IsInitialised(first.state) {
      StillInitialised(o, round);
      NotifyAllConcat(o, round, [NotifyInitiated(KindOf(o.state))]);
      assert [NotifyInitiated(KindOf(o.state))][..0] == [];
    }
  }

  /** All the notifications of some rounds of polling, in order. */
  function Flatten(rounds: seq<seq<Call>>): seq<Call> {
    if rounds == [] then [] else rounds[0] + Flatten(rounds[1..])
  }

  /** The polling is enough to finish the operation. */
  ghost predicate WillFinish(o: Operation, rounds: seq<seq<Call>>) {
    IsFinished(NotifyAll(o, Flatten(rounds)).0.state)
  }

  lemma NothingLeft(o: Operation)
    requires WillFinish(o, [])
    ensures IsFinished(o.state)
  {}

  lemma OneRoundLess(o: Operation, rounds: seq<seq<Call>>)
    requires rounds != []
    ensures WillFinish(o, rounds) == WillFinish(NotifyAll(o, rounds[0]).0, rounds[1..])
  {
    NotifyAllConcat(o, rounds[0], Flatten(rounds[1..]));
  }

  lemma {:induction false} FinishedStays(o: Operation, calls: seq<Call>)
    requires IsFinished(o.state)
    ensures NotifyAll(o, calls).0 == o
  {
    if calls != [] {
      FinishedStays(o, calls[..|calls| - 1]);
    }
  }

  /** What has been added to a journal: only these operations, none while in progress, none destroyed twice. */
  ghost predicate Retired(before: seq<Entry>, after: seq<Entry>, ops: set<OperationState?>) {
    && before <= after
    && (forall k :: |before| <= k < |after| ==> after[k].op in ops && !InProgress(after[k].state))
    && (forall j, k :: |before| <= j < k < |after| && after[j].Destroyed? && after[k].Destroyed? ==> after[j].op != after[k].op)
  }

  /** Something under way was moved or destroyed. */
  ghost predicate Caught(before: seq<Entry>, after: seq<Entry>) {
    exists k :: |before| <= k < |after| && after[k].underWay
  }

  /** If it was, its tag still said initialised. */
  ghost predicate OnlyLoose(before: seq<Entry>, after: seq<Entry>) {
    forall k :: |before| <= k < |after| && after[k].underWay ==> IsInitialised(after[k].state)
  }

  lemma NothingRetires(before: seq<Entry>, ops: set<OperationState?>)
    ensures Retired(before, before, ops) && OnlyLoose(before, before) && !Caught(before, before)
  {}

  lemma DropRetires(before: seq<Entry>, op: OperationState, s: StateType, underWay: bool)
    requires !InProgress(s)
    ensures var after := before + [Destroyed(op, s, underWay)];
            && Retired(before, after, {op})
            && ((underWay ==> IsInitialised(s)) ==> OnlyLoose(before, after))
            && (Caught(before, after) <==> underWay)
  {
    var after := before + [Destroyed(op, s, underWay)];
    assert after[|before|].underWay == underWay;
  }

  lemma OneMoveRetires(before: seq<Entry>, op: OperationState, s: StateType, underWay: bool)
    requires !InProgress(s)
    ensures Retired(before, before + [Relocated(op, s, underWay), Destroyed(op, Unknown, false)], {op})
  {}

  lemma MoveRetires(before: seq<Entry>, op: OperationState, s: StateType, underWay: bool)
    requires underWay ==> IsInitialised(s)
    ensures var after := before + [Relocated(op, s, underWay), Destroyed(op, Unknown, false)];
            OnlyLoose(before, after) && (Caught(before, after) <==> underWay)
  {
    var after := before + [Relocated(op, s, underWay), Destroyed(op, Unknown, false)];
    assert after[|before|] == Relocated(op, s, underWay);
  }

  /** How a piece of program ends: it goes on, the process is terminated, or it waits for ever. */
  datatype Ending = Done | Aborted | Blocked

  /** The multiplexer: each poll makes the notifications of the next round, and with none left it does nothing. A
      prompt one initiates or completes an operation before init_io_operation returns. */
  class Multiplexer {
    const prompt: bool
    var rounds: seq<seq<Call>>

    constructor (prompt: bool, rounds: seq<seq<Call>>)
      ensures this.prompt == prompt && this.rounds == rounds
    {
      this.prompt, this.rounds := prompt, rounds;
    }

    /** init_io_operation. From here on, until it is finished, the operation must stay where it is. */
    method Init(a: Awaitable)
      requires a.op != null && a.Valid() && IsInitialised(a.op.state)
      modifies this, a`coro, a.op
      ensures a.op == old(a.op) && a.Valid()
      ensures rounds == if old(rounds) == [] then [] else old(rounds)[1..]
      ensures a.op.Value()
           == NotifyAll(old(a.op.Value()), InitCalls(old(a.op.Value()), if old(rounds) == [] then [] else old(rounds)[0], prompt)).0
      ensures a.coro == (old(a.coro) && !IsFinished(a.op.state))
      ensures prompt ==> !IsInitialised(a.op.state)
      ensures a.Tracks() && (a.op.underWay <==> !IsFinished(a.op.state))
    {
      ghost var start := a.op.Value();
      var calls := [];
      if rounds != [] {
        calls := rounds[0];
        rounds := rounds[1..];
      }
      calls := InitCalls(a.op.Value(), calls, prompt);
      a.op.underWay := true;
      UntilFinished(start, calls);
      if prompt {
        PromptInitiates(start, if old(rounds) == [] then [] else old(rounds)[0]);
      }
      a.Hear(calls);
    }

    /** check_io_operation, cancel_io_operation and check_for_any_completed_io, as far as one awaitable sees them. */
    method Poll(a: Awaitable)
      requires a.op != null && a.Valid()
      modifies this, a`coro, a.op
      ensures a.op == old(a.op) && a.Valid()
      ensures rounds == if old(rounds) == [] then [] else old(rounds)[1..]
      ensures a.op.Value() == if old(rounds) == [] then old(a.op.Value()) else NotifyAll(old(a.op.Value()), old(rounds)[0]).0
      ensures a.coro == (old(a.coro) && !IsFinished(a.op.state))
      ensures WillFinish(old(a.op.Value()), old(rounds)) ==> WillFinish(a.op.Value(), rounds)
      ensures old(IsFinished(a.op.state)) ==> a.op.Value() == old(a.op.Value())
      ensures old(a.Tracks()) ==> a.Tracks()
      ensures IsInitialised(a.op.state) ==> a.op.Value() == old(a.op.Value()) && a.op.underWay == old(a.op.underWay)
    {
      if rounds != [] {
        OneRoundLess(a.op.Value(), rounds);
        if IsFinished(a.op.state) {
          FinishedStays(a.op.Value(), rounds[0]);
        }
        hide WillFinish;
        var calls := rounds[0];
        rounds := rounds[1..];
        a.Hear(calls);
      }
    }
  }

  class Awaitable {
    var op: OperationState?
    var coro: bool                // a suspended coroutine's handle is stored

    ghost predicate Valid()
      reads this, if op == null then {} else {op}
    {
      && (op != null ==> op.Valid() && op.Balanced() && op.visited)
      && (coro ==> op != null && !IsFinished(op.state))
    }

    ghost predicate Tracks()
      reads this, if op == null then {} else {op}
    {
      op != null ==> Tracked(op.state, op.underWay)
    }

    /** Handed to the multiplexer and not finished, though the tag does not say so. */
    ghost predicate Loose()
      reads this, if op == null then {} else {op}
    {
      op != null && op.underWay && IsInitialised(op.state)
    }

    /** Holds nothing. */
    constructor ()
      ensures Valid() && op == null
    {
      op, coro := null, false;
    }

    /** Takes in an operation, initialised in the awaitable's own storage or already finished. */
    method Adopt(o: OperationState)
      requires op == null && Valid() && o.Valid() && o.Balanced() && o.visited
      modifies this`op
      ensures Valid() && op == o
    {
      op := o;
    }

    /** Notifications: the finish takes the stored handle, and resumes the coroutine. */
    method Hear(calls: seq<Call>)
      requires op != null && Valid()
      modifies this`coro, op
      ensures op == old(op) && Valid() && op.Value() == NotifyAll(old(op.Value()), calls).0
      ensures coro == (old(coro) && !IsFinished(op.state))
      ensures op.underWay == UnderWayAfter(old(op.underWay), NotifyAll(old(op.Value()), calls).1)
      ensures old(Tracks()) ==> Tracks()
      ensures IsInitialised(op.state) ==> op.Value() == old(op.Value()) && op.underWay == old(op.underWay)
    {
      if Tracks() {
        TrackedAll(op.Value(), calls, op.underWay);
      }
      if IsInitialised(NotifyAll(op.Value(), calls).0.state) {
        StillInitialised(op.Value(), calls);
      }
      Deliver(op, calls);
      if coro && IsFinished(op.state) {
        coro := false;
      }
    }

    /** The move constructor's body. Where the program aborts nothing has been touched; where it does not, the
        operation lives on unchanged in the new storage and the old storage is empty. */
    method MoveFrom(from: Awaitable, ghost journal: Journal) returns (aborted: bool)
      requires op == null && from != this && from.op != null && from.Valid()
      modifies this, from, from.op, journal
      ensures aborted <==> old(InProgress(from.op.state) || from.op.state.Unknown?)
      ensures aborted ==>
                && op == null && from.op == old(from.op) && from.Valid() && coro == old(coro)
                && from.op.Value() == old(from.op.Value()) && from.op.underWay == old(from.op.underWay) && from.coro == old(from.coro)
                && journal.entries == old(journal.entries)
      ensures !aborted ==>
                && op != null && fresh(op) && Valid() && op.Value() == old(from.op.Value()) && coro == old(from.coro)
                && from.op == null && from.Valid() && old(from.op).Gone()
                && journal.entries == old(journal.entries) + [Relocated(old(from.op), old(from.op.state), old(from.op.underWay)),
                                                              Destroyed(old(from.op), Unknown, false)]
                && op.underWay == old(from.op.underWay)
      ensures old(from.Tracks()) ==> (if aborted then from.Tracks() else Tracks())
      ensures (Loose() <==> !aborted && old(from.Loose())) && (from.Loose() <==> aborted && old(from.Loose()))
      ensures old(from.Loose()) ==> !aborted
      ensures if aborted then Tracks() && (old(Valid()) ==> Valid()) else from.Tracks()
      ensures !aborted ==> Retired(old(journal.entries), journal.entries, {old(from.op)})
      ensures !aborted && old(from.Tracks()) ==>
                OnlyLoose(old(journal.entries), journal.entries) && (Caught(old(journal.entries), journal.entries) <==> old(from.Loose()))
    {
      var state := from.op.state;
      if !IsInitialised(state) && !IsFinished(state) {
        return true;
      }
      hide Retired, Caught, OnlyLoose;
      if from.Tracks() {
        MoveRetires(journal.entries, from.op, from.op.state, from.op.underWay);
      }
      OneMoveRetires(journal.entries, from.op, from.op.state, from.op.underWay);
      var to := from.op.RelocateTo(journal);
      from.op.Destroy(journal);
      op, coro := to, from.coro;
      from.op, from.coro := null, false;
      aborted := false;
    }

    /** Starts the operation if its tag still says initialised; never says yes before the finish. */
    method AwaitReady(multiplexer: Multiplexer) returns (ready: bool)
      requires op != null && Valid()
      modifies multiplexer, this`coro, op
      ensures op == old(op) && Valid() && (ready <==> IsFinished(op.state))
      ensures if old(IsInitialised(op.state)) then
                var round := if old(multiplexer.rounds) == [] then [] else old(multiplexer.rounds)[0];
                && op.Value() == NotifyAll(old(op.Value()), InitCalls(old(op.Value()), round, multiplexer.prompt)).0
                && multiplexer.rounds == (if old(multiplexer.rounds) == [] then [] else old(multiplexer.rounds)[1..])
                && (op.underWay <==> !ready) && (multiplexer.prompt ==> !IsInitialised(op.state))
              else op.Value() == old(op.Value()) && op.underWay == old(op.underWay) && multiplexer.rounds == old(multiplexer.rounds)
      ensures coro == (old(coro) && !IsFinished(op.state))
      ensures old(Tracks()) ==> Tracks()
    {
      var state := op.state;
      if IsInitialised(state) {
        multiplexer.Init(this);
        state := op.state;
      }
      ready := IsFinished(state);
    }

    /** Stores the coroutine's handle unless the operation has finished, in which case the coroutine goes on. */
    method AwaitSuspend() returns (resumed: bool)
      requires op != null && Valid()
      modifies this`coro
      ensures Valid() && (resumed <==> IsFinished(op.state)) && coro == if resumed then old(coro) else true
    {
      resumed := IsFinished(op.state);
      if !resumed {
        coro := true;
      }
    }

    /** co_await up to suspension: await_ready, and await_suspend if that says no. */
    method Await(multiplexer: Multiplexer) returns (goesOn: bool)
      requires op != null && Valid()
      modifies multiplexer, this`coro, op
      ensures op == old(op) && Valid() && (goesOn <==> IsFinished(op.state)) && (coro <==> !goesOn)
      ensures if old(IsInitialised(op.state)) then
                var round := if old(multiplexer.rounds) == [] then [] else old(multiplexer.rounds)[0];
                && op.Value() == NotifyAll(old(op.Value()), InitCalls(old(op.Value()), round, multiplexer.prompt)).0
                && multiplexer.rounds == (if old(multiplexer.rounds) == [] then [] else old(multiplexer.rounds)[1..])
                && (op.underWay <==> !goesOn) && (multiplexer.prompt ==> !IsInitialised(op.state))
              else op.Value() == old(op.Value()) && op.underWay == old(op.underWay) && multiplexer.rounds == old(multiplexer.rounds)
      ensures old(Tracks()) ==> Tracks()
    {
      goesOn := AwaitReady(multiplexer);
      if !goesOn {
        goesOn := AwaitSuspend();
      }
    }

    /** Fetches the result, when there is one. */
    method AwaitResume() returns (r: IoResult)
      requires op != null && Valid() && (IsCompleted(op.state) || IsFinished(op.state))
      modifies this`coro, op
      ensures op == old(op) && Valid() && r == old(op.payload.result) && op.Value() == Operation(Unknown, Empty) && coro == old(coro)
      ensures op.underWay == old(op.underWay)
    {
      if op.state.ReadCompleted? || op.state.ReadFinished? {
        r := op.GetCompletedRead();
      } else {
        r := op.GetCompletedWriteOrBarrier();
      }
    }

    /** The destructor. It blocks from the operation's initiation to its finish, for ever if no poll finishes it, so the
        storage goes only when the operation is still initialised, has been finished, or has had its result taken. */
    method Destroy(multiplexer: Multiplexer, ghost journal: Journal) returns (blocked: bool)
      requires Valid()
      modifies this, op, multiplexer, journal
      ensures blocked ==> op == old(op) && op != null && Valid() && old(InProgress(op.state)) && multiplexer.rounds == []
      ensures blocked ==> !old(WillFinish(op.Value(), multiplexer.rounds)) && journal.entries == old(journal.entries)
      ensures !blocked ==> op == null && Valid() && (old(op) != null ==> old(op).Gone())
      ensures old(op) == null ==> !blocked && journal.entries == old(journal.entries) && multiplexer.rounds == old(multiplexer.rounds)
      ensures !blocked && old(op) != null ==>
                && |journal.entries| == |old(journal.entries)| + 1 && old(journal.entries) <= journal.entries
                && var e := journal.entries[|journal.entries| - 1];
                   && e.Destroyed? && e.op == old(op)
                   && if old(InProgress(op.state)) then IsFinished(e.state) && (old(Tracks()) ==> !e.underWay)
                      else e.state == old(op.state) && e.underWay == old(op.underWay) && multiplexer.rounds == old(multiplexer.rounds)
      ensures Retired(old(journal.entries), journal.entries, {old(op)}) && !Loose()
      ensures old(Loose()) ==> !blocked && multiplexer.rounds == old(multiplexer.rounds)
      ensures old(Tracks()) ==>
                && Tracks() && OnlyLoose(old(journal.entries), journal.entries)
                && (Caught(old(journal.entries), journal.entries) <==> old(Loose()))
      ensures blocked ==> !IsInitialised(op.state) && (old(Tracks()) ==> Tracks())
    {
      hide Retired, OnlyLoose, Caught;
      NothingRetires(journal.entries, {op});
      blocked := false;
      if op == null {
        return;
      }
      var state := op.state;
      if state != Unknown && !IsInitialised(state) && !IsFinished(state) {
        coro := false;
        blocked := Wait(multiplexer);
        if blocked {
          return;
        }
      }
      assert old(Loose()) ==> op.underWay;
      DropRetires(journal.entries, op, op.state, op.underWay);
      op.Destroy(journal);
      op, coro := null, false;
    }

    /** The destructor's polling, once the handle is thrown away. */
    method Wait(multiplexer: Multiplexer) returns (blocked: bool)
      requires op != null && Valid() && !coro
      modifies this`coro, op, multiplexer
      ensures op == old(op) && Valid() && !coro
      ensures if blocked then multiplexer.rounds == [] && !old(WillFinish(op.Value(), multiplexer.rounds)) else IsFinished(op.state)
      ensures old(Tracks()) ==> Tracks()
      ensures IsInitialised(op.state) ==> old(IsInitialised(op.state))
    {
      ghost var enough := WillFinish(op.Value(), multiplexer.rounds);
      hide WillFinish;
      multiplexer.Poll(this);
      var state := op.state;
      if !IsCompleted(state) {
        multiplexer.Poll(this);
      }
      while !IsFinished(state)
        invariant op == old(op) && Valid() && !coro
        invariant enough ==> WillFinish(op.Value(), multiplexer.rounds)
        invariant old(Tracks()) ==> Tracks()
        invariant IsInitialised(op.state) ==> old(IsInitialised(op.state))
        invariant IsFinished(state) ==> IsFinished(op.state)
        decreases |multiplexer.rounds| + if IsFinished(state) then 0 else 1
      {
        multiplexer.Poll(this);
        state := op.state;
        if multiplexer.rounds == [] && enough {
          NothingLeft(op.Value());
        }
        if multiplexer.rounds == [] && !IsFinished(state) {
          return true;
        }
      }
      blocked := false;
    }
  }
}
