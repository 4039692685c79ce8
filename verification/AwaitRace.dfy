/** A coroutine awaiting an operation races the multiplexer's threads to the finish. One awaiting thread, any
    number of notifying threads, a spin lock, and one step for each access to shared state. */
module AwaitRace {
  import opened IoOperation

  /** Where the awaiting thread is. */
  datatype Awaiter =
    | NotAwaited
    | Starting                     // await_ready has called init_io_operation
    | Suspending                   // await_ready said no
    | Deciding(saw: StateType)     // in await_suspend, holding the lock
    | Storing                      // has stored its handle, still holds the lock
    | Parked                       // suspended
    | ResumedInside                // await_suspend resumed it at once, still holding the lock
    | ResumedOutside
    | WasReady                     // await_ready said yes
    | Woken                        // resumed by a notifier

  /** Where a notifying thread is. Its lock guard is in the middle four; `locked` is the guard's flag. */
  datatype Notifier =
    | Idle
    | Waiting(call: Call)
    | Inside(call: Call)
    | Visiting                     // the call has finished the operation, the visitor is about to look
    | Taken                        // the visitor has taken and cleared the stored handle
    | Resuming                     // and unlocked the guard
    | Returning(locked: bool)      // only the guard's destructor is left

  datatype Lock = Free | ByAwaiter | ByNotifier(index: nat)

  datatype Wakeup = Ready | InSuspend | ByFinish(index: nat)

  datatype State = State(
    op: Operation,
    coro: bool,                    // the awaitable holds a handle
    lock: Lock,
    awaiter: Awaiter,
    notifiers: seq<Notifier>,
    wakeups: seq<Wakeup>,
    alive: bool)                   // the awaitable, and the operation inside it, exist

  datatype Step =
    | AskReady | InitReturns(ready: bool)
    | LockForSuspend | Decide | UnlockSuspend
    | Enter(i: nat, call: Call) | Acquire(i: nat) | Body(i: nat) | Visit(i: nat) | VisitorUnlocks(i: nat)
    | Resume(i: nat) | Return(i: nat)
    | Destroy

  predicate TellsFinished(events: seq<Event>) {
    events != [] && (events[0].FinishedRead? || events[0].FinishedWriteOrBarrier?)
  }

  predicate At(s: State, i: nat, n: Notifier) { i < |s.notifiers| && s.notifiers[i] == n }

  predicate Enabled(s: State, step: Step) {
    match step
    case AskReady => s.awaiter.NotAwaited? && s.lock.Free? && s.alive
    case InitReturns(ready) =>
      s.awaiter.Starting? && (ready ==> IsFinished(s.op.state) && s.lock.Free?)
    case LockForSuspend => s.awaiter.Suspending? && s.lock.Free?
    case Decide => s.awaiter.Deciding?
    case UnlockSuspend => s.awaiter.Storing? || s.awaiter.ResumedInside?
    case Enter(i, call) => At(s, i, Idle) && s.alive
    case Acquire(i) => i < |s.notifiers| && s.notifiers[i].Waiting? && s.lock.Free?
    case Body(i) => i < |s.notifiers| && s.notifiers[i].Inside?
    case Visit(i) => At(s, i, Visiting)
    case VisitorUnlocks(i) => At(s, i, Taken)
    case Resume(i) => At(s, i, Resuming)
    case Return(i) => i < |s.notifiers| && s.notifiers[i].Returning?
    case Destroy => s.alive && (s.awaiter.WasReady? || s.awaiter.Woken?)
  }

  /** The steps that read or write the awaitable or the operation. */
  predicate Touches(s: State, step: Step)
    requires Enabled(s, step)
  {
    match step
    case Resume(_) => false
    case Return(i) => s.notifiers[i].locked
    case _ => true
  }

  function Apply(s: State, step: Step): State
    requires Enabled(s, step)
  {
    match step
    case AskReady =>
      if IsInitialised(s.op.state) then s.(awaiter := Starting)
      else if IsFinished(s.op.state) then s.(awaiter := WasReady, wakeups := s.wakeups + [Ready])
      else s.(awaiter := Suspending)
    case InitReturns(ready) =>
      if ready then s.(awaiter := WasReady, wakeups := s.wakeups + [Ready]) else s.(awaiter := Suspending)
    case LockForSuspend => s.(awaiter := Deciding(s.op.state), lock := ByAwaiter)
    case Decide =>
      if IsFinished(s.awaiter.saw) then s.(awaiter := ResumedInside, wakeups := s.wakeups + [InSuspend])
      else s.(awaiter := Storing, coro := true)
    case UnlockSuspend => s.(awaiter := if s.awaiter.Storing? then Parked else ResumedOutside, lock := Free)
    case Enter(i, call) => Move(s, i, Waiting(call))
    case Acquire(i) => Move(s, i, Inside(s.notifiers[i].call)).(lock := ByNotifier(i))
    case Body(i) =>
      var (o, events) := Notify(s.op, s.notifiers[i].call);
      Move(s, i, if TellsFinished(events) then Visiting else Returning(true)).(op := o)
    case Visit(i) => if s.coro then Move(s, i, Taken).(coro := false) else Move(s, i, Returning(true))
    case VisitorUnlocks(i) => Move(s, i, Resuming).(lock := Free)
    case Resume(i) => Move(s, i, Returning(false)).(awaiter := Woken, wakeups := s.wakeups + [ByFinish(i)])
    case Return(i) => if s.notifiers[i].locked then Move(s, i, Idle).(lock := Free) else Move(s, i, Idle)
    case Destroy => s.(alive := false)
  }

  function Move(s: State, i: nat, n: Notifier): State
    requires i < |s.notifiers|
  {
    s.(notifiers := s.notifiers[i := n])
  }

  predicate Start(s: State) {
    && s.awaiter.NotAwaited? && !s.coro && s.lock.Free? && s.wakeups == [] && s.alive
    && forall i :: 0 <= i < |s.notifiers| ==> s.notifiers[i].Idle?
  }

  ghost predicate Run(s: State, steps: seq<Step>, t: State)
    decreases |steps|
  {
    if steps == [] then s == t
    else Enabled(s, steps[0]) && Run(Apply(s, steps[0]), steps[1..], t)
  }

  // The invariant.

  predicate HoldsLock(n: Notifier) {
    n.Inside? || n.Visiting? || n.Taken? || (n.Returning? && n.locked)
  }

  predicate Carries(n: Notifier) { n.Taken? || n.Resuming? }

  predicate AwaiterHolds(a: Awaiter) { a.Deciding? || a.Storing? || a.ResumedInside? }

  predicate Awake(a: Awaiter) { a.ResumedInside? || a.ResumedOutside? || a.WasReady? || a.Woken? }

  ghost predicate Locking(s: State) {
    && (s.lock.ByAwaiter? <==> AwaiterHolds(s.awaiter))
    && (s.lock.ByNotifier? ==> s.lock.index < |s.notifiers|)
    && forall i :: 0 <= i < |s.notifiers| ==> (HoldsLock(s.notifiers[i]) <==> s.lock == ByNotifier(i))
  }

  predicate WakeupOf(a: Awaiter, w: Wakeup) {
    match a
    case WasReady => w.Ready?
    case ResumedInside => w.InSuspend?
    case ResumedOutside => w.InSuspend?
    case Woken => w.ByFinish?
    case _ => false
  }

  ghost predicate Waking(s: State) {
    && (if Awake(s.awaiter) then |s.wakeups| == 1 && WakeupOf(s.awaiter, s.wakeups[0]) && IsFinished(s.op.state)
        else s.wakeups == [])
    && (s.awaiter.Deciding? ==> s.awaiter.saw == s.op.state)
    && (s.coro ==> s.awaiter.Storing? || s.awaiter.Parked?)
    && (s.awaiter.Storing? ==> s.coro && !IsFinished(s.op.state))
    && (s.coro && IsFinished(s.op.state) ==> s.lock.ByNotifier? && At(s, s.lock.index, Visiting))
  }

  /** A parked coroutine's handle is stored, or one thread is carrying it. */
  ghost predicate Carried(s: State) {
    s.awaiter.Parked? && !s.coro ==> exists i :: 0 <= i < |s.notifiers| && Carries(s.notifiers[i])
  }

  ghost predicate Alone(s: State) {
    && (forall i :: 0 <= i < |s.notifiers| && Carries(s.notifiers[i]) ==>
          s.awaiter.Parked? && !s.coro && IsFinished(s.op.state))
    && (forall i, j :: 0 <= i < j < |s.notifiers| ==> !(Carries(s.notifiers[i]) && Carries(s.notifiers[j])))
  }

  ghost predicate Visited(s: State) {
    forall i :: 0 <= i < |s.notifiers| && s.notifiers[i].Visiting? ==> IsFinished(s.op.state)
  }

  ghost predicate Inv(s: State) { Locking(s) && Waking(s) && Visited(s) && Carried(s) && Alone(s) }

  /** The operation finishes once, in one call, and stays finished. */
  lemma FinishesOnce(o: Operation, c: Call)
    ensures var (o', events) := Notify(o, c);
            && (TellsFinished(events) <==> !IsFinished(o.state) && IsFinished(o'.state))
            && (IsFinished(o.state) ==> o' == o)
  {}

  lemma LockingStep(s: State, step: Step)
    requires Inv(s) && Enabled(s, step)
    ensures Locking(Apply(s, step))
  {
    hide Notify, TellsFinished, IsFinished, IsInitialised, Waking, Visited, Carried;
  }

  lemma WakingStep(s: State, step: Step)
    requires Inv(s) && Enabled(s, step)
    ensures Waking(Apply(s, step))
  {
    hide Notify, IsFinished, IsInitialised;
    if step.Body? {
      FinishesOnce(s.op, s.notifiers[step.i].call);
    }
  }

  lemma CarriedStep(s: State, step: Step)
    requires Inv(s) && Enabled(s, step)
    ensures Carried(Apply(s, step))
  {
    hide Notify, IsFinished, IsInitialised, Alone;
    var t := Apply(s, step);
    if s.awaiter.Parked? && !s.coro {
      var c :| 0 <= c < |s.notifiers| && Carries(s.notifiers[c]);
      assert t.awaiter.Parked? ==> Carries(t.notifiers[c]);
    } else if step.Visit? {
      assert s.coro ==> Carries(t.notifiers[step.i]);
    }
  }

  /** A handle comes into a notifier's hands only by its visit. */
  lemma CarriersFrom(s: State, step: Step)
    requires Inv(s) && Enabled(s, step)
    ensures var t := Apply(s, step);
            && |t.notifiers| == |s.notifiers|
            && (forall i :: 0 <= i < |s.notifiers| && Carries(t.notifiers[i]) ==> Carries(s.notifiers[i]) || (step == Visit(i) && s.coro))
            && (step.Visit? && s.coro ==> !t.coro && t.awaiter.Parked? && IsFinished(t.op.state))
  {
    hide Notify, TellsFinished, IsFinished, IsInitialised, Carried, Alone;
  }

  /** What keeps a carrier the only one: the coroutine stays parked until it is resumed, by the carrier. */
  lemma CarriersStay(s: State, step: Step)
    requires Inv(s) && Enabled(s, step) && s.awaiter.Parked? && IsFinished(s.op.state) && !s.coro
    ensures var t := Apply(s, step);
            && IsFinished(t.op.state) && !t.coro
            && (t.awaiter.Parked? || (step.Resume? && forall i :: 0 <= i < |t.notifiers| ==> !Carries(t.notifiers[i])))
  {
    hide Notify, TellsFinished, IsFinished, IsInitialised, Carried, Visited;
    if step.Body? {
      FinishesOnce(s.op, s.notifiers[step.i].call);
    }
  }

  lemma AloneStep(s: State, step: Step)
    requires Inv(s) && Enabled(s, step)
    ensures Alone(Apply(s, step))
  {
    hide Apply, Enabled, IsFinished, Carried, Carries;
    CarriersFrom(s, step);
    if s.awaiter.Parked? && IsFinished(s.op.state) && !s.coro {
      CarriersStay(s, step);
    }
  }

  lemma VisitedStep(s: State, step: Step)
    requires Inv(s) && Enabled(s, step)
    ensures Visited(Apply(s, step))
  {
    hide Notify, IsFinished, IsInitialised, Carried, Alone;
    if step.Body? {
      FinishesOnce(s.op, s.notifiers[step.i].call);
    }
  }

  lemma StepKeepsInv(s: State, step: Step)
    requires Inv(s) && Enabled(s, step)
    ensures Inv(Apply(s, step))
  {
    hide Locking, Waking, Visited, Carried, Alone, Enabled, Apply;
    LockingStep(s, step);
    WakingStep(s, step);
    CarriedStep(s, step);
    AloneStep(s, step);
    VisitedStep(s, step);
  }

  lemma {:induction false} RunInv(s: State, steps: seq<Step>, t: State)
    requires Inv(s) && Run(s, steps, t)
    ensures Inv(t)
    decreases |steps|
  {
    hide Inv, Enabled, Apply;
    if steps != [] {
      StepKeepsInv(s, steps[0]);
      RunInv(Apply(s, steps[0]), steps[1..], t);
    }
  }

  lemma StartInv(s: State)
    requires Start(s)
    ensures Inv(s)
  {}

  // No wakeup is lost, none happens twice.

  /** The awaiting thread is through with await_ready and await_suspend, and no notifier is on its way from
      finishing the operation to resuming the coroutine. */
  ghost predicate Settled(s: State) {
    && (s.awaiter.Parked? || Awake(s.awaiter))
    && forall i :: 0 <= i < |s.notifiers| ==> !s.notifiers[i].Visiting? && !Carries(s.notifiers[i])
  }

  /** In every interleaving the coroutine goes on at most once, and only once the operation has finished; and
      when nobody is halfway, it has gone on exactly if the operation has finished. */
  lemma ExactlyOneWakeup(s: State, steps: seq<Step>, t: State)
    requires Start(s) && Run(s, steps, t)
    ensures |t.wakeups| <= 1
    ensures t.wakeups != [] ==> IsFinished(t.op.state)
    ensures Settled(t) ==> (|t.wakeups| == 1 <==> IsFinished(t.op.state))
  {
    hide Enabled, Apply, Start, IsFinished;
    StartInv(s);
    RunInv(s, steps, t);
  }

  // The operation is begun.

  /** The states in which await_ready found the operation. */
  ghost function Asked(s: State, steps: seq<Step>, t: State): seq<StateType>
    requires Run(s, steps, t)
    decreases |steps|
  {
    if steps == [] then []
    else (if steps[0].AskReady? then [s.op.state] else []) + Asked(Apply(s, steps[0]), steps[1..], t)
  }

  /** How often init_io_operation has returned. */
  function Begun(steps: seq<Step>): nat {
    if steps == [] then 0 else (if steps[0].InitReturns? then 1 else 0) + Begun(steps[1..])
  }

  function Beginning(s: State): nat { if s.awaiter.Starting? then 1 else 0 }

  lemma AwaiterStep(s: State, step: Step)
    requires Enabled(s, step)
    ensures var t := Apply(s, step);
            if s.awaiter.NotAwaited? then
              if step.AskReady? then
                && !t.awaiter.NotAwaited? && Beginning(t) == (if IsInitialised(s.op.state) then 1 else 0)
                && (IsFinished(s.op.state) ==> t.awaiter.WasReady?)
              else (t.awaiter.NotAwaited? && !step.InitReturns?) || step.Resume?
            else !t.awaiter.NotAwaited? && !step.AskReady?
                 && (step.Resume? || (s.awaiter.WasReady? ==> t.awaiter.WasReady?))
                 && (step.Resume? || Beginning(t) + (if step.InitReturns? then 1 else 0) == Beginning(s))
  {
    hide Notify, TellsFinished;
  }

  /** Only a parked coroutine is resumed by a notifier. */
  lemma ResumesParked(s: State, step: Step)
    requires Inv(s) && Enabled(s, step) && step.Resume?
    ensures s.awaiter.Parked? && !Apply(s, step).awaiter.Starting? && !Apply(s, step).awaiter.NotAwaited?
  {
    hide Locking, Waking, Visited, Carried;
  }

  lemma {:induction false} BegunFrom(s: State, steps: seq<Step>, t: State)
    requires Inv(s) && Run(s, steps, t)
    ensures if s.awaiter.NotAwaited? then
              if t.awaiter.NotAwaited? then Asked(s, steps, t) == [] && Begun(steps) == 0
              else |Asked(s, steps, t)| == 1
                   && Begun(steps) + Beginning(t) == (if IsInitialised(Asked(s, steps, t)[0]) then 1 else 0)
                   && (IsFinished(Asked(s, steps, t)[0]) ==> t.awaiter.WasReady?)
            else
              && Asked(s, steps, t) == [] && !t.awaiter.NotAwaited? && Begun(steps) + Beginning(t) == Beginning(s)
              && (s.awaiter.WasReady? ==> t.awaiter.WasReady?)
    decreases |steps|
  {
    hide Inv, Enabled, Apply, IsInitialised, IsFinished;
    if steps != [] {
      AwaiterStep(s, steps[0]);
      StepKeepsInv(s, steps[0]);
      if steps[0].Resume? {
        ResumesParked(s, steps[0]);
      }
      BegunFrom(Apply(s, steps[0]), steps[1..], t);
    }
  }

  /** In every interleaving await_ready asks once; it calls init_io_operation, once, exactly if it finds the operation
      initialised, and the coroutine is neither suspended nor told that it is ready before that has returned; and if it
      finds it finished it says so. */
  lemma BegunOnce(s: State, steps: seq<Step>, t: State)
    requires Start(s) && Run(s, steps, t) && !t.awaiter.NotAwaited? && !t.awaiter.Starting?
    ensures |Asked(s, steps, t)| == 1 && Begun(steps) == (if IsInitialised(Asked(s, steps, t)[0]) then 1 else 0)
    ensures IsFinished(Asked(s, steps, t)[0]) ==> t.awaiter.WasReady?
  {
    hide Inv, Run, IsFinished;
    StartInv(s);
    BegunFrom(s, steps, t);
  }

  /** The lock is balanced: it is free exactly when no guard holds it, and never held twice. */
  lemma LockHeldOnce(s: State, steps: seq<Step>, t: State)
    requires Start(s) && Run(s, steps, t)
    ensures t.lock.Free? <==>
              !AwaiterHolds(t.awaiter) && forall i :: 0 <= i < |t.notifiers| ==> !HoldsLock(t.notifiers[i])
    ensures forall i :: 0 <= i < |t.notifiers| && HoldsLock(t.notifiers[i]) ==>
              !AwaiterHolds(t.awaiter) && forall j :: 0 <= j < |t.notifiers| && j != i ==> !HoldsLock(t.notifiers[j])
  {
    hide Enabled, Apply, Start, HoldsLock, AwaiterHolds, Waking, Carried, Alone;
    StartInv(s);
    RunInv(s, steps, t);
  }

  /** Notifier i is on its way from finishing the operation to resuming the parked coroutine. */
  predicate Waker(s: State, i: nat) {
    && i < |s.notifiers| && s.awaiter.Parked? && IsFinished(s.op.state)
    && (Carries(s.notifiers[i]) || (s.notifiers[i].Visiting? && s.coro))
  }

  /** How many steps it has still to make, and the next of them. */
  function Left(n: Notifier): nat {
    if n.Visiting? then 3 else if n.Taken? then 2 else if n.Resuming? then 1 else 0
  }

  function NextOf(n: Notifier, i: nat): Step {
    if n.Visiting? then Visit(i) else if n.Taken? then VisitorUnlocks(i) else Resume(i)
  }

  /** The step is one of notifier i's. */
  predicate By(step: Step, i: nat) {
    match step
    case Enter(j, _) => i == j
    case Acquire(j) => i == j
    case Body(j) => i == j
    case Visit(j) => i == j
    case VisitorUnlocks(j) => i == j
    case Resume(j) => i == j
    case Return(j) => i == j
    case _ => false
  }

  /** While a finished operation leaves the coroutine parked, some notifier is at most three steps from waking it,
      and can make the next. */
  lemma WakeupIsOnItsWay(s: State)
    requires Inv(s) && s.awaiter.Parked? && IsFinished(s.op.state)
    ensures exists i: nat :: Waker(s, i) && 0 < Left(s.notifiers[i]) <= 3 && Enabled(s, NextOf(s.notifiers[i], i))
  {
    hide Alone, IsFinished;
    if s.coro {
      assert Waker(s, s.lock.index);
    } else {
      var i :| 0 <= i < |s.notifiers| && Carries(s.notifiers[i]);
      assert Waker(s, i);
    }
  }

  /** Its own step brings the wakeup nearer, and the last one is it. */
  lemma WakerStep(s: State, i: nat, step: Step)
    requires Waker(s, i) && Enabled(s, step) && By(step, i)
    ensures step == NextOf(s.notifiers[i], i)
    ensures var t := Apply(s, step);
            if Left(s.notifiers[i]) == 1 then t.wakeups == s.wakeups + [ByFinish(i)]
            else Waker(t, i) && Left(t.notifiers[i]) == Left(s.notifiers[i]) - 1 && t.wakeups == s.wakeups
  {
    hide Notify, IsFinished, IsInitialised;
  }

  /** No other thread's step holds it up: its next step is what it was, and stays possible. */
  lemma NothingHoldsItUp(s: State, i: nat, step: Step)
    requires Inv(s) && Waker(s, i) && Enabled(s, step) && !By(step, i)
    ensures var t := Apply(s, step);
            && Waker(t, i) && t.notifiers[i] == s.notifiers[i] && t.wakeups == s.wakeups
            && Enabled(t, NextOf(t.notifiers[i], i))
  {
    hide Notify, IsFinished, IsInitialised;
    if step.Body? {
      FinishesOnce(s.op, s.notifiers[step.i].call);
    }
  }

  function Count(steps: seq<Step>, i: nat): nat {
    if steps == [] then 0 else (if By(steps[0], i) then 1 else 0) + Count(steps[1..], i)
  }

  lemma {:induction false} WakeupsStand(s: State, steps: seq<Step>, t: State)
    requires Run(s, steps, t)
    ensures s.wakeups <= t.wakeups
    decreases |steps|
  {
    if steps != [] {
      hide Notify;
      WakeupsStand(Apply(s, steps[0]), steps[1..], t);
    }
  }

  /** However the threads are interleaved, once that notifier has made the steps it had left, at most three, the
      coroutine has been resumed by it; until then it is still on its way. */
  lemma {:induction false} WakeupArrives(s: State, steps: seq<Step>, t: State, i: nat)
    requires Inv(s) && Waker(s, i) && Run(s, steps, t)
    ensures if Count(steps, i) >= Left(s.notifiers[i]) then t.wakeups == [ByFinish(i)]
            else Waker(t, i) && Left(t.notifiers[i]) == Left(s.notifiers[i]) - Count(steps, i)
    decreases |steps|
  {
    hide Enabled, Apply, IsFinished, Waker;
    if steps != [] {
      var step := steps[0];
      var s' := Apply(s, step);
      WakerIs(s, i);
      StepKeepsInv(s, step);
      if !By(step, i) {
        NothingHoldsItUp(s, i, step);
        WakeupArrives(s', steps[1..], t, i);
      } else {
        WakerStep(s, i, step);
        if Left(s.notifiers[i]) == 1 {
          WakeupsStand(s', steps[1..], t);
          RunInv(s', steps[1..], t);
        } else {
          WakeupArrives(s', steps[1..], t, i);
        }
      }
    } else {
      WakerIs(s, i);
    }
  }

  lemma WakerIs(s: State, i: nat)
    requires Waker(s, i)
    ensures i < |s.notifiers| && s.awaiter.Parked? && Left(s.notifiers[i]) > 0
  {}

  /** The thread that resumes the coroutine holds the lock exactly when it does so inside await_suspend: there
      the resumed coroutine cannot take the lock, elsewhere it can. */
  lemma LockAtWakeup(s: State, step: Step)
    requires Inv(s) && Enabled(s, step)
    ensures var t := Apply(s, step);
            t.wakeups != s.wakeups ==>
              && |t.wakeups| == 1
              && (t.wakeups[0].InSuspend? <==> t.lock.ByAwaiter?)
              && (t.wakeups[0].ByFinish? ==> t.lock != ByNotifier(t.wakeups[0].index))
  {
    hide Notify, IsFinished, IsInitialised, Alone, Carried;
    StepKeepsInv(s, step);
  }

  // What the visitor's early unlock is for: the resumed coroutine may destroy the awaitable at once.

  /** Under way, and about to say the operation has finished. */
  predicate Finishing(n: Notifier) { (n.Waiting? || n.Inside?) && n.call.NotifyFinished? }

  /** A multiplexer that may notify from many threads at once, but makes a finished notification by itself: none is
      begun with it, or after the one that finishes the operation. */
  ghost predicate FinishesAlone(s: State, step: Step) {
    step.Enter? ==>
      && !IsFinished(s.op.state)
      && (forall j :: 0 <= j < |s.notifiers| ==> !Finishing(s.notifiers[j]))
      && (step.call.NotifyFinished? ==> forall j :: 0 <= j < |s.notifiers| ==> s.notifiers[j].Idle?)
  }

  ghost predicate LifetimeRun(s: State, steps: seq<Step>, t: State)
    decreases |steps|
  {
    if steps == [] then s == t
    else Enabled(s, steps[0]) && FinishesAlone(s, steps[0]) && LifetimeRun(Apply(s, steps[0]), steps[1..], t)
  }

  /** A finished notification is under way alone, and so is what follows the finish. */
  ghost predicate Lone(s: State) {
    forall i, j :: 0 <= i < |s.notifiers| && 0 <= j < |s.notifiers| && i != j ==>
      (Finishing(s.notifiers[i]) || IsFinished(s.op.state) ==> s.notifiers[i].Idle? || s.notifiers[j].Idle?)
  }

  ghost predicate Lifetime(s: State) {
    && Lone(s)
    && (IsFinished(s.op.state) ==>
          forall i :: 0 <= i < |s.notifiers| ==> !s.notifiers[i].Waiting? && !s.notifiers[i].Inside?)
    && (s.awaiter.WasReady? || s.awaiter.Woken? ==>
          forall i :: 0 <= i < |s.notifiers| ==> s.notifiers[i].Idle? || s.notifiers[i] == Returning(false))
    && (s.alive || s.awaiter.WasReady? || s.awaiter.Woken?)
  }

  lemma FinishesByFinished(o: Operation, c: Call)
    ensures !IsFinished(o.state) && IsFinished(Notify(o, c).0.state) ==> c.NotifyFinished?
  {}

  lemma LoneStep(s: State, step: Step)
    requires Lone(s) && Enabled(s, step) && FinishesAlone(s, step)
    ensures Lone(Apply(s, step))
  {
    hide Notify, IsFinished, IsInitialised;
    if step.Body? {
      FinishesByFinished(s.op, s.notifiers[step.i].call);
    }
  }

  lemma LifetimeStep(s: State, step: Step)
    requires Inv(s) && Lifetime(s) && Enabled(s, step) && FinishesAlone(s, step)
    ensures Lifetime(Apply(s, step))
  {
    LoneStep(s, step);
    hide Notify, IsFinished, IsInitialised, Carried;
    if step.Body? {
      FinishesOnce(s.op, s.notifiers[step.i].call);
      FinishesByFinished(s.op, s.notifiers[step.i].call);
    }
  }

  lemma {:induction false} RunLifetime(s: State, steps: seq<Step>, t: State)
    requires Inv(s) && Lifetime(s) && LifetimeRun(s, steps, t)
    ensures Inv(t) && Lifetime(t)
    decreases |steps|
  {
    hide Inv, Lifetime, Enabled, Apply, FinishesAlone;
    if steps != [] {
      StepKeepsInv(s, steps[0]);
      LifetimeStep(s, steps[0]);
      RunLifetime(Apply(s, steps[0]), steps[1..], t);
    }
  }

  /** Once the coroutine, woken by a ready answer or by a notifier, has destroyed the awaitable, no thread
      touches it again, not even the notifier whose lock guard is still on its stack. */
  lemma NothingTouchesTheDead(s: State, steps: seq<Step>, t: State, step: Step)
    requires Start(s) && LifetimeRun(s, steps, t) && !t.alive
    requires Enabled(t, step) && FinishesAlone(t, step)
    ensures !Touches(t, step)
  {
    RunLifetime(s, steps, t);
  }

  // And exactly when it may.

  /** No thread is still on its way into or out of a notification, but for giving up a guard already unlocked. */
  ghost predicate Quiet(s: State) {
    forall i :: 0 <= i < |s.notifiers| ==> s.notifiers[i].Idle? || s.notifiers[i] == Returning(false)
  }

  lemma {:induction false} QuietForEver(s: State, steps: seq<Step>, t: State)
    requires Quiet(s) && !s.alive && (s.awaiter.WasReady? || s.awaiter.Woken?) && Run(s, steps, t)
    ensures Quiet(t) && !t.alive && (t.awaiter.WasReady? || t.awaiter.Woken?)
    decreases |steps|
  {
    if steps != [] {
      hide Notify;
      QuietForEver(Apply(s, steps[0]), steps[1..], t);
    }
  }

  /** Of a notification not yet quiet, some step touches the awaitable and can be made at once. */
  lemma NotQuietTouches(s: State) returns (step: Step)
    requires Inv(s) && !Quiet(s) && (s.awaiter.WasReady? || s.awaiter.Woken?)
    ensures Enabled(s.(alive := false), step) && Touches(s.(alive := false), step)
  {
    hide IsFinished, IsInitialised, Notify;
    var i :| 0 <= i < |s.notifiers| && !s.notifiers[i].Idle? && s.notifiers[i] != Returning(false);
    if s.lock.Free? {
      step := Acquire(i);
    } else {
      var j := s.lock.index;
      var n := s.notifiers[j];
      assert HoldsLock(n);
      step := if n.Inside? then Body(j) else if n.Visiting? then Visit(j) else Return(j);
    }
  }

  ghost predicate NeverTouched(s: State) {
    forall later, u, step :: Run(s, later, u) && Enabled(u, step) ==> !Touches(u, step)
  }

  lemma TouchedAtOnce(s: State, step: Step)
    requires Enabled(s, step) && Touches(s, step)
    ensures !NeverTouched(s)
  {
    hide Enabled, Touches;
    assert Run(s, [], s);
  }

  /** Whatever the multiplexer does: an awaitable may be destroyed without any thread touching it ever after, if
      and only if no notification is still under way then. */
  lemma DestroySafeExactly(s: State, steps: seq<Step>, t: State)
    requires Start(s) && Run(s, steps, t) && Enabled(t, Destroy)
    ensures Quiet(t) <==> NeverTouched(Apply(t, Destroy))
  {
    hide Inv, Start, Run, Touches, Notify, IsFinished, IsInitialised;
    StartInv(s);
    RunInv(s, steps, t);
    var dead := Apply(t, Destroy);
    if Quiet(t) {
      QuietIsUntouched(dead);
    } else {
      var step := NotQuietTouches(t);
      TouchedAtOnce(dead, step);
    }
  }

  lemma QuietIsUntouched(s: State)
    requires Quiet(s) && !s.alive && (s.awaiter.WasReady? || s.awaiter.Woken?)
    ensures NeverTouched(s)
  {
    forall later, u, step | Run(s, later, u) && Enabled(u, step)
      ensures !Touches(u, step)
    {
      QuietForEver(s, later, u);
    }
  }

  /** A multiplexer that makes finished notifications by themselves leaves none under way. */
  lemma FinishedAloneIsQuiet(s: State, steps: seq<Step>, t: State)
    requires Start(s) && LifetimeRun(s, steps, t) && Enabled(t, Destroy)
    ensures Quiet(t)
  {
    RunLifetime(s, steps, t);
  }

  lemma {:induction false} OneMore(s: State, steps: seq<Step>, t: State, step: Step)
    requires Run(s, steps, t) && Enabled(t, step)
    ensures Run(s, steps + [step], Apply(t, step))
    decreases |steps|
  {
    hide Enabled, Apply;
    if steps == [] {
      assert [step][1..] == [];
    } else {
      OneMore(Apply(s, steps[0]), steps[1..], t, step);
      assert (steps + [step])[1..] == steps[1..] + [step];
    }
  }

  /** A run may be continued by another that begins where it ends. */
  lemma {:induction false} Onward(s: State, steps: seq<Step>, t: State, more: seq<Step>, u: State)
    requires Run(s, steps, t) && Run(t, more, u)
    ensures Run(s, steps + more, u)
    decreases |more|
  {
    hide Enabled, Apply;
    if more == [] {
      assert steps + more == steps;
    } else {
      OneMore(s, steps, t, more[0]);
      Onward(s, steps + [more[0]], Apply(t, more[0]), more[1..], u);
      assert steps + [more[0]] + more[1..] == steps + more;
    }
  }

  // A run of another kind of multiplexer.

  function Awaited(result: Payload, state: StateType, notifiers: seq<Notifier>): State {
    State(Operation(state, result), true, Free, Parked, notifiers, [], true)
  }

  const LATE := Waiting(NotifyInitiated(Read))

  lemma Parks() returns (s: State, steps: seq<Step>)
    ensures Start(s) && s.op.state.ReadInitialised?
    ensures Run(s, steps, Awaited(Pending(0, 0, Read, 0), ReadInitialised, [Idle, LATE]))
  {
    hide Notify;
    s := State(Operation(ReadInitialised, Pending(0, 0, Read, 0)), false, Free, NotAwaited, [Idle, Idle], [], true);
    steps := [AskReady, InitReturns(false), LockForSuspend, Decide, UnlockSuspend, Enter(1, NotifyInitiated(Read))];
  }

  lemma Completes() returns (steps: seq<Step>)
    ensures Run(Awaited(Pending(0, 0, Read, 0), ReadInitialised, [Idle, LATE]), steps,
                Awaited(CompletedRead(Result(0)), ReadCompleted, [Idle, LATE]))
  {
    steps := [Enter(0, NotifyCompleted(Read, 0, false)), Acquire(0), Body(0), Return(0)];
  }

  function Finished(awaiter: Awaiter, notifier: Notifier): State {
    State(Operation(ReadFinished, CompletedRead(Result(0))), awaiter.Parked?, if awaiter.Parked? then ByNotifier(0) else Free,
      awaiter, [notifier, LATE], if awaiter.Parked? then [] else [ByFinish(0)], true)
  }

  lemma Finishes() returns (steps: seq<Step>)
    ensures Run(Awaited(CompletedRead(Result(0)), ReadCompleted, [Idle, LATE]), steps, Finished(Parked, Visiting))
  {
    steps := [Enter(0, NotifyFinished(true)), Acquire(0), Body(0)];
  }

  lemma Wakes() returns (steps: seq<Step>)
    ensures Run(Finished(Parked, Visiting), steps, Finished(Woken, Returning(false)))
  {
    hide Notify;
    steps := [Visit(0), VisitorUnlocks(0), Resume(0)];
  }

  /** One thread completes and finishes a read while the initiated notification of another waits for the lock, which
      it takes when the coroutine has been resumed and the awaitable destroyed. */
  lemma LateNotification() returns (s: State, steps: seq<Step>, t: State)
    ensures Start(s) && s.op.state.ReadInitialised? && Run(s, steps, t)
    ensures steps != [] && steps[|steps| - 1] == Destroy && !t.alive && |t.wakeups| == 1
    ensures Enabled(t, Acquire(1)) && Touches(t, Acquire(1))
  {
    hide Run;
    var parking, completing, finishing, waking;
    s, parking := Parks();
    completing := Completes();
    finishing := Finishes();
    waking := Wakes();
    var woken := Finished(Woken, Returning(false));
    var completed := Awaited(CompletedRead(Result(0)), ReadCompleted, [Idle, LATE]);
    Onward(s, parking, Awaited(Pending(0, 0, Read, 0), ReadInitialised, [Idle, LATE]), completing, completed);
    Onward(s, parking + completing, completed, finishing, Finished(Parked, Visiting));
    Onward(s, parking + completing + finishing, Finished(Parked, Visiting), waking, woken);
    OneMore(s, parking + completing + finishing + waking, woken, Destroy);
    steps, t := parking + completing + finishing + waking + [Destroy], Apply(woken, Destroy);
  }
}
