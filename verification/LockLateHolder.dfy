/** Why holders must release within twenty seconds: a run in which one takes a second longer puts two writers inside. */
module LockLateHolder {
  import opened LockLog
  import opened LockScan
  import opened LockProtocol
  import opened LockBacklog

  /** A run held to everything, and to the timing discipline up to the time given. */
  ghost predicate LateRun(r: seq<State>, steps: seq<Step>, until: nat) {
    && |r| == |steps| + 1 && Init(r[0])
    && forall i :: 0 <= i < |steps| ==>
         (r[i].clock <= until ==> Punctual(r[i])) && Enabled(r[i], steps[i]) && r[i + 1] == Apply(r[i], steps[i])
  }

  lemma OneMoreLate(r: seq<State>, steps: seq<Step>, until: nat, step: Step) returns (r': seq<State>, steps': seq<Step>)
    requires LateRun(r, steps, until) && (r[|steps|].clock <= until ==> Punctual(r[|steps|])) && Enabled(r[|steps|], step)
    ensures LateRun(r', steps', until) && |steps'| == |steps| + 1 && r'[|steps'|] == Apply(r[|steps|], step)
  {
    hide Init, Punctual, Possible, Covered, Apply;
    r', steps' := r + [Apply(r[|steps|], step)], steps + [step];
  }

  lemma FirstIsCovered()
    ensures Covered(Lonely([Message(Interest, 1, 0)], Newcomer(0, 0).(pc := Stating)), 0)
  {}

  lemma LonelyPc(log: seq<Message>, a: Proc)
    ensures |Lonely(log, a).procs| > 0 && Lonely(log, a).procs[0] == a && Lonely(log, a).clock == 1
  {}

  /** Writer 0 takes the lock at time 1. */
  lemma HoldsAtOne() returns (r: seq<State>, steps: seq<Step>)
    ensures LateRun(r, steps, 21) && r[|steps|] == Crowd(0)
  {
    hide Punctual, Possible, Apply, Lonely, Crowd, Decider, Scanning, Covered;
    var log, a := [Message(Interest, 1, 0)], Newcomer(0, 0);
    r, steps := [Lonely([], IdleProc())], [];
    EmptyStarts();
    LonelyPc([], IdleProc());
    LonelyPc(log, a);
    LonelyPc(log, a.(pc := Stating));
    LonelyPc(log, Scanning(a, 1, 0).(quiet := true));
    LonelyPc(log, Decider(a, 1, 0, 0, true));
    AlonePunctual([], IdleProc());
    FirstRegisters();
    r, steps := OneMoreLate(r, steps, 21, Act(0, 0));
    AlonePunctual(log, a);
    FirstQueriesExtent(log, a);
    r, steps := OneMoreLate(r, steps, 21, Act(0, 0));
    AlonePunctual(log, a.(pc := Stating));
    FirstQueriesSize();
    FirstIsCovered();
    ScanningFrom(a, 1, 0);
    r, steps := OneMoreLate(r, steps, 21, Act(0, 0));
    AlonePunctual(log, Scanning(a, 1, 0).(quiet := true));
    FirstReads();
    DecidersReady(a);
    r, steps := OneMoreLate(r, steps, 21, Act(0, 0));
    AlonePunctual(log, Decider(a, 1, 0, 0, true));
    FirstClaims();
    r, steps := OneMoreLate(r, steps, 21, Act(0, 0));
  }

  lemma DecidersReady(a: Proc)
    ensures Scanning(a, 1, 0).(quiet := true).pc.Reading? && Decider(a, 1, 0, 0, true).pc.Deciding?
  {}

  /** The same at a later time. */
  function Aged(clock: nat): State { Crowd(0).(clock := clock) }

  lemma AgedIsPunctual(clock: nat)
    requires clock <= 21
    ensures Punctual(Aged(clock))
  {
    assert forall p: nat :: 0 < p < |Aged(clock).procs| ==> Aged(clock).procs[p] == IdleProc();
    assert Aged(clock).procs[0] == Holder();
  }

  // Writer 1 comes at time 22.

  const OLD_FILE := [Message(Interest, 1, 0), Message(HaveLock, 1, 0), Message(Interest, 22, 1)]

  function Comer(): Proc {
    Proc(Registered, Message(Interest, 22, 1), Scan(NONE, true, [], 0, (false, NONE), 0, false), 22, 0, 0, 0, true, 2, 2, false, 22)
  }

  function With(a: Proc): State { State(22, OLD_FILE, OLD_FILE, "", [], Crowd(0).procs[1 := a]) }

  lemma WithIs(a: Proc)
    ensures |With(a).procs| > 1 && With(a).procs[0] == Holder() && With(a).procs[1] == a && With(a).clock == 22
  {}

  lemma Registers()
    ensures Enabled(Aged(22), Act(1, 0)) && Apply(Aged(22), Act(1, 0)) == With(Comer())
  {
    var s := Aged(22);
    assert s.procs[1] == IdleProc();
    assert Register(s, 1).log == OLD_FILE;
    assert Register(s, 1).procs == With(Comer()).procs;
  }

  lemma QueriesExtent()
    ensures Enabled(With(Comer()), Act(1, 0)) && Apply(With(Comer()), Act(1, 0)) == With(Comer().(pc := Stating))
  {
    WithIs(Comer());
    assert QueryExtent(With(Comer()), 1, 0).procs == With(Comer().(pc := Stating)).procs;
  }

  lemma StillCovered()
    ensures |With(Comer().(pc := Stating)).procs| > 1 && Covered(With(Comer().(pc := Stating)), 1)
  {
    var s := With(Comer().(pc := Stating));
    WithIs(Comer().(pc := Stating));
    assert Live(OLD_FILE, 0) && Claims(OLD_FILE, 1, 0);
    assert InReach(OLD_FILE, 2, 0, 2);
  }

  lemma QueriesSize() returns (quiet: bool)
    ensures var s := With(Comer().(pc := Stating));
            && Enabled(s, Act(1, 0)) && Apply(s, Act(1, 0)) == With(Scanning(Comer(), 3, 0).(quiet := quiet))
  {
    var s := With(Comer().(pc := Stating));
    quiet := NoneLiveBelow(OLD_FILE, 2);
    WithIs(Comer().(pc := Stating));
    StillCovered();
    hide Covered, Crowd, NoneLiveBelow;
    assert QuerySize(s, 1).procs == With(Scanning(Comer(), 3, 0).(quiet := quiet)).procs;
  }

  function Unaware(quiet: bool): Proc {
    Scanning(Comer(), 3, 0).(pc := Deciding, now := 0, quiet := quiet, s := Scan(32, false, [], 0, (false, NONE), 16, true))
  }

  /** The claim it meets is 21 seconds old, and there it stops. */
  lemma Reads(quiet: bool)
    ensures var s := With(Scanning(Comer(), 3, 0).(quiet := quiet));
            Enabled(s, Act(1, 0)) && Apply(s, Act(1, 0)) == With(Unaware(quiet))
  {
    var a := Scanning(Comer(), 3, 0).(quiet := quiet);
    var s := With(a);
    WithIs(a);
    hide Crowd;
    var found := Examine(a.s, OLD_FILE[2], 32, a.temp, 22);
    assert found == a.s.(my := 32);
    var stopped := Examine(found, OLD_FILE[1], 16, a.temp, 22);
    assert stopped == found.(start := 16, cut := true);
    assert Range(a.s, OLD_FILE, 0, 3, a.temp, 22) == Range(found, OLD_FILE, 0, 2, a.temp, 22)
        == Range(stopped, OLD_FILE, 0, 1, a.temp, 22) == stopped;
    assert a.s.(cut := false) == a.s;
    assert ReadWindow(a.s, OLD_FILE, 0, 3, a.temp, 22) == stopped;
    assert Read(s, 1).procs == With(Unaware(quiet)).procs;
  }

  lemma Takes(quiet: bool)
    ensures var s := With(Unaware(quiet));
            && Enabled(s, Act(1, 0))
            && var s' := Apply(s, Act(1, 0));
               |s'.procs| > 1 && Claimed(s'.procs[0]) && Claimed(s'.procs[1]) && s'.clock == 22
               && |s'.history| > 1 && s'.history[1] == Message(HaveLock, 1, 0)
  {
    WithIs(Unaware(quiet));
  }

  /** Twenty seconds are allowed, twenty-one are too many: the lock is taken at time 1, at time 21 all is still well, and
      at time 22, in a run that keeps the backlog bound and everything else, a second writer takes it too. */
  lemma OneSecondLate() returns (r: seq<State>, steps: seq<Step>)
    ensures LateRun(r, steps, 21)
    ensures var s := r[|steps|];
            && |s.procs| > 1 && Claimed(s.procs[0]) && Claimed(s.procs[1])
            && s.clock == 22 && |s.history| > 1 && s.history[1] == Message(HaveLock, 1, 0)
  {
    hide Punctual, Enabled, Apply, Crowd, Decider, Scanning, With;
    r, steps := HoldsAtOne();
    AgedOne();
    for clock := 1 to 22
      invariant LateRun(r, steps, 21) && r[|steps|] == Aged(clock)
    {
      AgedIsPunctual(clock);
      TickAges(clock);
      r, steps := OneMoreLate(r, steps, 21, Tick);
    }
    Registers();
    WithIs(Comer());
    r, steps := OneMoreLate(r, steps, 21, Act(1, 0));
    QueriesExtent();
    WithIs(Comer().(pc := Stating));
    r, steps := OneMoreLate(r, steps, 21, Act(1, 0));
    var quiet := QueriesSize();
    WithIs(Scanning(Comer(), 3, 0).(quiet := quiet));
    r, steps := OneMoreLate(r, steps, 21, Act(1, 0));
    Reads(quiet);
    WithIs(Unaware(quiet));
    r, steps := OneMoreLate(r, steps, 21, Act(1, 0));
    Takes(quiet);
    r, steps := OneMoreLate(r, steps, 21, Act(1, 0));
  }

  lemma AgedOne()
    ensures Aged(1) == Crowd(0)
  {}

  lemma TickAges(clock: nat)
    ensures Enabled(Aged(clock), Tick) && Apply(Aged(clock), Tick) == Aged(clock + 1) && Aged(clock).clock == clock
  {}
}
