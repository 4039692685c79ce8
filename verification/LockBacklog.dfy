/** Why the lock needs its backlog bound: a run that breaks nothing else puts two writers inside. */
module LockBacklog {
  import opened LockLog
  import opened LockScan
  import opened LockScanMeaning
  import opened LockProtocol

  /** A run held to everything but the backlog bound. */
  ghost predicate UnboundedRun(r: seq<State>, steps: seq<Step>) {
    && |r| == |steps| + 1 && Init(r[0])
    && forall i :: 0 <= i < |steps| ==>
         Punctual(r[i]) && Possible(r[i], steps[i]) && r[i + 1] == Apply(r[i], steps[i])
  }

  lemma OneMore(r: seq<State>, steps: seq<Step>, step: Step) returns (r': seq<State>, steps': seq<Step>)
    requires UnboundedRun(r, steps) && Punctual(r[|steps|]) && Possible(r[|steps|], step)
    ensures UnboundedRun(r', steps') && |steps'| == |steps| + 1 && r'[|steps'|] == Apply(r[|steps|], step)
  {
    hide Init, Punctual, Possible, Apply;
    r', steps' := r + [Apply(r[|steps|], step)], steps + [step];
  }

  // Writer 0 registers and takes the lock while alone. Then writers 1 to k register.

  function IdleProc(): Proc {
    Proc(Idle, ZERO, Scan(NONE, true, [], 0, (false, NONE), 0, false), 0, 0, 0, 0, true, 0, 0, false, 0)
  }

  function Newcomer(p: nat, at: nat): Proc {
    Proc(Registered, Message(Interest, 1, p), Scan(NONE, true, [], 0, (false, NONE), 0, false), 1, 0, 0, 0, true, at, at, false, 1)
  }

  function Holder(): Proc {
    Proc(Entering, Message(HaveLock, 1, 0), Scan(0, false, [], 0, (false, NONE), 0, false), 0, 1, 0, 0, true, 0, 1, true, 1)
  }

  function Queue(k: nat): (h: seq<Message>)
    ensures |h| == k + 2
  {
    [Message(Interest, 1, 0), Message(HaveLock, 1, 0)] + seq(k, (i: nat) => Message(Interest, 1, i + 1))
  }

  /** 258 writers, of whom the first holds the lock and the next k have registered. */
  function Crowd(k: nat): State
  {
    State(1, Queue(k), Queue(k), "", [],
          seq(WINDOW + 2, (p: nat) => if p == 0 then Holder() else if p <= k then Newcomer(p, p + 1) else IdleProc()))
  }

  lemma CrowdIsPunctual(k: nat)
    requires k <= WINDOW
    ensures Punctual(Crowd(k))
  {}

  lemma CrowdGrows(k: nat)
    requires k < WINDOW
    ensures Possible(Crowd(k), Act(k + 1, 0)) && Apply(Crowd(k), Act(k + 1, 0)) == Crowd(k + 1)
  {
    assert Crowd(k).procs[k + 1] == IdleProc();
    hide Covered, ReadWindow, Punch, Entry;
    var s, s' := Crowd(k), Register(Crowd(k), k + 1);
    assert s'.log == Queue(k + 1);
    forall p | 0 <= p < |s.procs| ensures s'.procs[p] == Crowd(k + 1).procs[p] {
    }
    assert s'.procs == Crowd(k + 1).procs;
  }

  // The steps of the first writer, alone.

  function Lonely(log: seq<Message>, a: Proc): State {
    State(1, log, log, "", [], seq(WINDOW + 2, (p: nat) => if p == 0 then a else IdleProc()))
  }

  function Scanning(a: Proc, size: nat, w: nat): Proc {
    a.(pc := Reading, size := size, w := w, s := a.s.(valid := 0, cut := false, lockid := (false, NONE)))
  }

  function Decider(a: Proc, size: nat, w: nat, my: nat, quiet: bool): Proc {
    Scanning(a, size, w).(pc := Deciding, now := 0, quiet := quiet, s := Scan(my, false, [], 0, (false, NONE), 0, false))
  }

  lemma AlonePunctual(log: seq<Message>, a: Proc)
    requires forall i :: 0 <= i < |log| ==> log[i].timestamp == 1
    ensures Punctual(Lonely(log, a))
  {}

  lemma FirstRegisters()
    ensures Possible(Lonely([], IdleProc()), Act(0, 0))
    ensures Apply(Lonely([], IdleProc()), Act(0, 0)) == Lonely([Message(Interest, 1, 0)], Newcomer(0, 0))
  {
    assert Register(Lonely([], IdleProc()), 0).procs == Lonely([], Newcomer(0, 0)).procs;
  }

  lemma FirstQueriesExtent(log: seq<Message>, a: Proc)
    requires a.pc.Registered? && a.s.start == 0
    ensures Possible(Lonely(log, a), Act(0, 0))
    ensures Apply(Lonely(log, a), Act(0, 0)) == Lonely(log, a.(pc := Stating))
  {
    assert QueryExtent(Lonely(log, a), 0, 0).procs == Lonely(log, a.(pc := Stating)).procs;
  }

  lemma FirstQueriesSize()
    ensures var log, a := [Message(Interest, 1, 0)], Newcomer(0, 0).(pc := Stating);
            && Possible(Lonely(log, a), Act(0, 0))
            && Apply(Lonely(log, a), Act(0, 0)) == Lonely(log, Scanning(a, 1, 0).(quiet := true))
  {
    var log, a := [Message(Interest, 1, 0)], Newcomer(0, 0).(pc := Stating);
    assert NoneLiveBelow(log, 0);
    assert QuerySize(Lonely(log, a), 0).procs == Lonely(log, Scanning(a, 1, 0).(quiet := true)).procs;
  }

  lemma FirstReads()
    ensures var log, a := [Message(Interest, 1, 0)], Newcomer(0, 0);
            var s := Lonely(log, Scanning(a, 1, 0).(quiet := true));
            && Possible(s, Act(0, 0)) && Apply(s, Act(0, 0)) == Lonely(log, Decider(a, 1, 0, 0, true))
  {
    var log, a := [Message(Interest, 1, 0)], Newcomer(0, 0);
    var b := Scanning(a, 1, 0).(quiet := true);
    var r := Examine(b.s, log[0], 0, b.temp, b.now);
    assert Range(b.s, log, 0, 1, b.temp, b.now) == Range(r, log, 0, 0, b.temp, b.now) == r;
    assert ReadWindow(b.s, log, 0, 1, b.temp, b.now) == r;
    assert Read(Lonely(log, b), 0).procs == Lonely(log, Decider(a, 1, 0, 0, true)).procs;
  }

  lemma FirstClaims()
    ensures var log, a := [Message(Interest, 1, 0)], Newcomer(0, 0);
            var s := Lonely(log, Decider(a, 1, 0, 0, true));
            && Possible(s, Act(0, 0)) && Apply(s, Act(0, 0)) == Crowd(0)
  {
    var log, a := [Message(Interest, 1, 0)], Newcomer(0, 0);
    var s := Lonely(log, Decider(a, 1, 0, 0, true));
    assert s.procs[0] == Decider(a, 1, 0, 0, true);
    assert Decide(s, 0).log == Queue(0);
    assert Decide(s, 0).procs[0] == Holder();
    assert forall p: nat :: 0 < p < WINDOW + 2 ==> Crowd(0).procs[p] == IdleProc() == Decide(s, 0).procs[p];
    assert Decide(s, 0).procs == Crowd(0).procs;
  }

  lemma FirstHolds() returns (r: seq<State>, steps: seq<Step>)
    ensures UnboundedRun(r, steps) && r[|steps|] == Crowd(0)
  {
    hide Punctual, Possible, Apply, Lonely, Crowd, Decider, Scanning;
    var log, a := [Message(Interest, 1, 0)], Newcomer(0, 0);
    r, steps := [Lonely([], IdleProc())], [];
    EmptyStarts();
    AlonePunctual([], IdleProc());
    FirstRegisters();
    r, steps := OneMore(r, steps, Act(0, 0));
    AlonePunctual(log, a);
    FirstQueriesExtent(log, a);
    r, steps := OneMore(r, steps, Act(0, 0));
    AlonePunctual(log, a.(pc := Stating));
    FirstQueriesSize();
    ScanningFrom(a, 1, 0);
    r, steps := OneMore(r, steps, Act(0, 0));
    AlonePunctual(log, Scanning(a, 1, 0).(quiet := true));
    FirstReads();
    r, steps := OneMore(r, steps, Act(0, 0));
    AlonePunctual(log, Decider(a, 1, 0, 0, true));
    FirstClaims();
    r, steps := OneMore(r, steps, Act(0, 0));
  }

  lemma EmptyStarts()
    ensures Init(Lonely([], IdleProc()))
  {}

  lemma ScanningFrom(a: Proc, size: nat, w: nat)
    ensures Scanning(a.(pc := Stating), size, w) == Scanning(a, size, w)
  {}

  // The steps of the second writer, when 256 have registered.

  function Late(log: seq<Message>, a: Proc): State
    requires WINDOW + 2 <= |log|
  {
    var s := Crowd(WINDOW);
    s.(log := log, history := log, procs := s.procs[1 := a])
  }

  lemma LatePunctual(log: seq<Message>, a: Proc)
    requires WINDOW + 2 <= |log| && forall i :: 0 <= i < |log| ==> log[i].timestamp == 1
    ensures Punctual(Late(log, a))
  {}

  lemma SecondQueriesExtent()
    ensures var s, a := Crowd(WINDOW), Newcomer(1, 2);
            && Possible(s, Act(1, 0)) && Apply(s, Act(1, 0)) == Late(Queue(WINDOW), a.(pc := Stating))
  {
    var s, a := Crowd(WINDOW), Newcomer(1, 2);
    assert s.procs[1] == a;
  }

  lemma SecondQueriesSize() returns (quiet: bool)
    ensures var log, a := Queue(WINDOW), Newcomer(1, 2);
            var s := Late(log, a.(pc := Stating));
            && Possible(s, Act(1, 0)) && Apply(s, Act(1, 0)) == Late(log, Scanning(a, WINDOW + 2, 2).(quiet := quiet))
  {
    var log, a := Queue(WINDOW), Newcomer(1, 2);
    quiet := NoneLiveBelow(log, 2);
    var s := Late(log, a.(pc := Stating));
    assert s.procs[1] == a.(pc := Stating);
    assert QuerySize(s, 1).procs == Late(log, Scanning(a, WINDOW + 2, 2).(quiet := quiet)).procs;
  }

  /** The window it reads begins with its own interest: nothing before that is read. */
  lemma SecondReads(quiet: bool)
    ensures var log, a := Queue(WINDOW), Newcomer(1, 2);
            var s := Late(log, Scanning(a, WINDOW + 2, 2).(quiet := quiet));
            && Possible(s, Act(1, 0)) && Apply(s, Act(1, 0)) == Late(log, Decider(a, WINDOW + 2, 2, 2 * RECORD, quiet))
  {
    var log, a := Queue(WINDOW), Newcomer(1, 2);
    var b := Scanning(a, WINDOW + 2, 2).(quiet := quiet);
    var s := Late(log, b);
    assert s.procs[1] == b;
    var top := WINDOW + 2;
    assert Top(2, top) == top && b.s.(cut := false) == b.s;
    RangeSplit(b.s, log, 2, 3, top, b.temp, b.now);
    assert forall i :: 3 <= i < top ==> log[i] == Message(Interest, 1, i - 1);
    RangeSkips(b.s, log, 3, top, b.temp, b.now);
    InterestsKeepLockId(b.s, log, 3, top, b.temp, b.now);
    var r := Range(b.s, log, 3, top, b.temp, b.now);
    assert log[2] == b.temp;
    var r' := Examine(r, log[2], 2 * RECORD, b.temp, b.now);
    assert Range(r, log, 2, 3, b.temp, b.now) == Range(r', log, 2, 2, b.temp, b.now) == r';
    assert ReadWindow(b.s, log, 2, top, b.temp, b.now) == r';
    assert Read(s, 1).procs == Late(log, Decider(a, top, 2, 2 * RECORD, quiet)).procs;
  }

  lemma {:induction false} InterestsKeepLockId(s: Scan, v: seq<Message>, lo: nat, hi: nat, temp: Message, now: nat)
    requires lo <= hi <= |v| && forall i :: lo <= i < hi ==> v[i].code.Interest? && !Stale(v[i], now) && v[i] != temp
    requires s.my == NONE && Going(s)
    ensures Range(s, v, lo, hi, temp, now) == s
    decreases hi
  {
    if lo < hi {
      InterestsKeepLockId(s, v, lo, hi - 1, temp, now);
    }
  }

  lemma SecondClaims(quiet: bool)
    ensures var log, a := Queue(WINDOW), Newcomer(1, 2);
            var s := Late(log, Decider(a, WINDOW + 2, 2, 2 * RECORD, quiet));
            && Possible(s, Act(1, 0))
            && var s' := Apply(s, Act(1, 0)); |s'.procs| > 1 && Claimed(s'.procs[0]) && Claimed(s'.procs[1])
  {
    var a := Decider(Newcomer(1, 2), WINDOW + 2, 2, 2 * RECORD, quiet);
    var s := Late(Queue(WINDOW), a);
    assert s.procs[0] == Holder() && s.procs[1] == a;
  }

  /** Drop the backlog bound, and keep the timing, the order of events and everything else, and there is a run
      at whose end two writers are between havelock and unlock. */
  lemma BoundIsNeeded() returns (r: seq<State>, steps: seq<Step>)
    ensures UnboundedRun(r, steps)
    ensures var s := r[|steps|]; |s.procs| > 1 && Claimed(s.procs[0]) && Claimed(s.procs[1])
  {
    hide Punctual, Possible, Apply, Crowd, Late, Decider, Scanning;
    r, steps := FirstHolds();
    for k := 0 to WINDOW
      invariant UnboundedRun(r, steps) && r[|steps|] == Crowd(k)
    {
      CrowdIsPunctual(k);
      CrowdGrows(k);
      r, steps := OneMore(r, steps, Act(k + 1, 0));
    }
    var log, a := Queue(WINDOW), Newcomer(1, 2);
    CrowdIsPunctual(WINDOW);
    SecondQueriesExtent();
    r, steps := OneMore(r, steps, Act(1, 0));
    LatePunctual(log, a.(pc := Stating));
    var quiet := SecondQueriesSize();
    r, steps := OneMore(r, steps, Act(1, 0));
    LatePunctual(log, Scanning(a, WINDOW + 2, 2).(quiet := quiet));
    SecondReads(quiet);
    r, steps := OneMore(r, steps, Act(1, 0));
    LatePunctual(log, Decider(a, WINDOW + 2, 2, 2 * RECORD, quiet));
    SecondClaims(quiet);
    r, steps := OneMore(r, steps, Act(1, 0));
  }
}
