/** Hole punching, and what the scan can and cannot see of the lock file. */
module LockHoles {
  import opened LockLog
  import opened LockScan
  import opened LockScanMeaning
  import opened LockProtocol
  import opened LockInvariant
  import opened LockSteps
  import opened LockReading
  import opened LockTheorems

  // The untimed model: no message left in the file ever goes stale.

  ghost predicate NothingStale(s: State) {
    forall i :: 0 <= i < |s.log| && s.log[i] != ZERO ==> !Stale(s.log[i], s.clock)
  }

  ghost predicate UntimedRun(r: seq<State>, steps: seq<Step>) {
    && |r| == |steps| + 1 && Init(r[0])
    && forall i :: 0 <= i < |steps| ==>
         NothingStale(r[i]) && Enabled(r[i], steps[i]) && r[i + 1] == Apply(r[i], steps[i])
  }

  lemma NothingStaleIsPunctual(s: State)
    requires Inv(s) && NothingStale(s)
    ensures Punctual(s)
  {
    hide Stage;
    forall p | 0 <= p < |s.procs| && !s.procs[p].pc.Idle? && s.procs[p].renewed < |s.history|
      ensures !Stale(s.history[s.procs[p].renewed], s.clock)
    {
      assert ProcOk(s.history, s.clock, p, s.procs[p]);
      assert s.log[s.procs[p].renewed] == s.history[s.procs[p].renewed];
    }
  }

  ghost predicate ZeroBelow(log: seq<Message>, n: nat) {
    forall i :: 0 <= i < n && i < |log| ==> log[i] == ZERO
  }

  /** The holes are a prefix of the file, and every writer's start of interest lies in or just after it. */
  ghost predicate HolesOk(s: State) {
    && (forall i, j :: 0 <= i < j < |s.log| && s.log[j] == ZERO ==> s.log[i] == ZERO)
    && (forall p :: 0 <= p < |s.procs| && !s.procs[p].pc.Idle? ==> StartOk(s.log, s.procs[p].s.start))
  }

  ghost predicate StartOk(log: seq<Message>, start: nat) {
    start / RECORD <= |log| && ZeroBelow(log, start / RECORD)
  }

  lemma ReadStart(s: State, p: nat)
    requires Inv(s) && HolesOk(s) && NothingStale(s) && p < |s.procs| && s.procs[p].pc.Reading? && Enabled(s, Act(p, 0))
    ensures StartOk(s.log, Read(s, p).procs[p].s.start)
  {
    hide Live;
    hide Orderly;
    hide Owned;
    hide InOrder;
    hide ValidOnly;
    hide Range;
    hide Lowest;
    hide Visible;
    hide Reached;
    var a := s.procs[p];
    assert ProcOk(s.history, s.clock, p, a);
    var top := Top(a.w, a.size);
    RangeStart(a.s.(cut := false), s.log, a.w, top, a.temp, a.now);
    var scan := Range(a.s.(cut := false), s.log, a.w, top, a.temp, a.now);
    if scan.cut {
      var i :| a.w <= i < top && scan.start == RECORD * i && Stale(s.log[i], a.now);
      StaleLater(s.log[i], a.now, s.clock);
      assert s.log[i] == ZERO;
    }
  }

  lemma ZeroHoles(s: State, p: nat)
    requires HolesOk(s) && p < |s.procs| && s.procs[p].pc.Zeroing?
    ensures HolesOk(Zero(s, p))
  {
    assert StartOk(s.log, s.procs[p].s.start);
    assert ZeroBelow(Zero(s, p).log, s.procs[p].s.start / RECORD);
  }

  /** A step of writer p that punches nothing. */
  lemma HolesFrame(s: State, s': State, p: nat)
    requires HolesOk(s) && p < |s.procs| == |s'.procs| && s'.procs == s.procs[p := s'.procs[p]]
    requires s'.log == s.log || exists m :: m != ZERO && s'.log == s.log + [m]
    requires !s'.procs[p].pc.Idle? ==> StartOk(s.log, s'.procs[p].s.start)
    ensures HolesOk(s')
  {
  }

  lemma HolesStep(s: State, step: Step)
    requires Inv(s) && HolesOk(s) && NothingStale(s) && Enabled(s, step)
    ensures HolesOk(Apply(s, step))
  {
    hide FileOk;
    hide ProcOk;
    hide ReadWindow;
    hide ValidOnly;
    hide Covered;
    hide Zero;
    hide ZeroBelow;
    ClockPositive(s);
    if step.Act? {
      assert !s.procs[step.p].pc.Idle? ==> StartOk(s.log, s.procs[step.p].s.start);
      if s.procs[step.p].pc.Zeroing? {
        ZeroHoles(s, step.p);
      } else {
        if s.procs[step.p].pc.Reading? {
          ReadStart(s, step.p);
        }
        StartStep(s, step);
        HolesFrame(s, Apply(s, step), step.p);
      }
    } else {
      assert HolesOk(s.(clock := s.clock + 1));
    }
  }

  lemma StartStep(s: State, step: Step)
    requires s.clock > 0 && Enabled(s, step) && step.Act? && !s.procs[step.p].pc.Zeroing?
    ensures var s' := Apply(s, step);
            && s'.procs == s.procs[step.p := s'.procs[step.p]]
            && (s'.log == s.log || exists m :: m != ZERO && s'.log == s.log + [m])
            && (if s.procs[step.p].pc.Idle? then s'.procs[step.p].s.start == 0
                else if s.procs[step.p].pc.Registered? then StartOk(s.log, s'.procs[step.p].s.start)
                else s.procs[step.p].pc.Reading? || s'.procs[step.p].s.start == s.procs[step.p].s.start)
  {
    hide ReadWindow;
    hide ValidOnly;
    hide Covered;
  }

  lemma ClockPositive(s: State)
    requires Inv(s)
    ensures s.clock > 0
  {
  }

  /** In the untimed model the holes are always a prefix of the lock file below every live ticket, and
      the timing discipline holds of itself. */
  lemma {:induction false} HolesArePrefix(r: seq<State>, steps: seq<Step>, k: nat)
    requires UntimedRun(r, steps) && k < |r|
    ensures Inv(r[k]) && HolesOk(r[k])
    ensures exists z: nat :: z <= |r[k].log| && ZeroBelow(r[k].log, z) && r[k].log[z..] == r[k].history[z..]
                             && forall t: nat :: Live(r[k].history, t) ==> z <= t
  {
    hide Apply;
    hide Enabled;
    hide Stage;
    hide HasTicket;
    if k == 0 {
      InitInv(r[0]);
    } else {
      HolesArePrefix(r, steps, k - 1);
      NothingStaleIsPunctual(r[k - 1]);
      StepKeepsInv(r[k - 1], steps[k - 1]);
      HolesStep(r[k - 1], steps[k - 1]);
    }
    var z := PrefixEnd(r[k]);
  }

  lemma PrefixEnd(s: State) returns (z: nat)
    requires Inv(s) && HolesOk(s)
    ensures z <= |s.log| && ZeroBelow(s.log, z) && s.log[z..] == s.history[z..]
    ensures forall t: nat :: Live(s.history, t) ==> z <= t
  {
    hide Stage;
    hide Orderly;
    hide Owned;
    hide InOrder;
    z := 0;
    while z < |s.log| && s.log[z] == ZERO
      invariant z <= |s.log| && ZeroBelow(s.log, z)
    {
      z := z + 1;
    }
    forall i | z <= i < |s.log|
      ensures s.log[i] == s.history[i]
    {
    }
    forall t: nat | Live(s.history, t)
      ensures z <= t
    {
      if t < z {
        assert false;
      }
    }
  }

  // What is punched.

  /** The punch turns every message from the start of interest up to the holder's ticket into sixteen zero bytes, and
      touches no other. */
  lemma ZeroPunches(s: State, p: nat)
    requires Inv(s) && p < |s.procs| && s.procs[p].pc.Zeroing?
    ensures var a, s' := s.procs[p], Zero(s, p);
            && |s'.log| == |s.log| && s'.history == s.history && s'.procs == s.procs[p := a.(pc := Entering)]
            && forall i :: 0 <= i < |s.log| ==>
                 s'.log[i] == if a.s.start / 16 <= i < a.mine then Message(Unlock, 0, 0) else s.log[i]
  {
    hide MidScan, Fresh, HasTicket, FileOk;
    assert ProcOk(s.history, s.clock, p, s.procs[p]);
  }

  /** Past the punch, and not yet out. */
  predicate Inside(a: Proc) { a.pc.Entering? || a.pc.Extending? || a.pc.Writing? || a.pc.Leaving? }

  ghost predicate ZeroFrom(log: seq<Message>, from: nat, to: nat) {
    to <= |log| && forall i :: from <= i < to ==> log[i] == Message(Unlock, 0, 0)
  }

  ghost predicate PunchedOk(s: State) {
    forall p :: 0 <= p < |s.procs| && Inside(s.procs[p]) ==> ZeroFrom(s.log, s.procs[p].s.start / 16, s.procs[p].mine)
  }

  /** What has been punched stays so. */
  lemma ZerosStay(s: State, step: Step)
    requires Enabled(s, step)
    ensures var s' := Apply(s, step);
            |s.log| <= |s'.log| && forall i :: 0 <= i < |s.log| && s.log[i] == ZERO ==> s'.log[i] == ZERO
  {
    hide ReadWindow, Covered, Finish;
  }

  lemma InsideShape(s: State, step: Step)
    requires Enabled(s, step) && step.Act? && step.p < |Apply(s, step).procs| && Inside(Apply(s, step).procs[step.p])
    ensures var a, b := s.procs[step.p], Apply(s, step).procs[step.p];
            && !a.pc.Idle? && b.s == a.s && b.mine == a.mine
            && (Inside(a) || (a.pc.Zeroing? && Apply(s, step) == Zero(s, step.p)) || (a.pc.Deciding? && a.s.my <= a.s.start))
  {
    hide ReadWindow, Covered, Finish, LoopAgain, NoneLiveBelow, Punch, Resize, Overwrite, Entry, FirstOffset;
    FinishIsOutside();
  }

  lemma ComesInside(s: State, step: Step)
    requires Inv(s) && Enabled(s, step) && step.Act? && step.p < |Apply(s, step).procs| && Inside(Apply(s, step).procs[step.p])
    ensures var a, b := s.procs[step.p], Apply(s, step).procs[step.p];
            && b.s.start == a.s.start && b.mine == a.mine < |s.log|
            && (Inside(a) || (a.pc.Zeroing? && Apply(s, step) == Zero(s, step.p)) || a.mine <= a.s.start / 16)
  {
    InsideShape(s, step);
    SameLogs(s);
    assert step.p < |s.procs|;
    hide Enabled, Apply, MidScan, FileOk, Zero, Inside;
    assert ProcOk(s.history, s.clock, step.p, s.procs[step.p]);
  }

  lemma FinishIsOutside()
    ensures forall a: Proc, scan: Scan :: !Inside(Finish(a, scan))
  {
    hide ValidOnly;
  }

  lemma PunchedStep(s: State, step: Step)
    requires Inv(s) && Enabled(s, step) && PunchedOk(s)
    ensures PunchedOk(Apply(s, step))
  {
    var s' := Apply(s, step);
    ZerosStay(s, step);
    SameLogs(s);
    forall p | 0 <= p < |s'.procs| && Inside(s'.procs[p]) ensures ZeroFrom(s'.log, s'.procs[p].s.start / 16, s'.procs[p].mine) {
      SameWriters(s, step);
      StepShape(s, step, p);
      hide Inv, Enabled, Apply, Inside, Zero;
      if step.Act? && step.p == p {
        ComesInside(s, step);
        if s.procs[p].pc.Zeroing? {
          ZeroPunches(s, p);
        }
      }
    }
  }

  lemma SameLogs(s: State)
    requires Inv(s)
    ensures |s.log| == |s.history|
  {}

  lemma SameWriters(s: State, step: Step)
    requires Enabled(s, step)
    ensures |Apply(s, step).procs| == |s.procs|
  {
    hide ReadWindow, Covered, Finish;
  }

  /** In every run, while a writer is inside, every message from where its scan broke off to its ticket is punched. */
  lemma HolderHasPunched(r: seq<State>, steps: seq<Step>, k: nat, p: nat)
    requires Run(r, steps) && k < |r| && p < |r[k].procs| && Inside(r[k].procs[p])
    ensures ZeroFrom(r[k].log, r[k].procs[p].s.start / 16, r[k].procs[p].mine)
  {
    hide Run;
    RunPunched(r, steps, k);
  }

  lemma {:induction false} RunPunched(r: seq<State>, steps: seq<Step>, k: nat)
    requires Run(r, steps) && k < |r|
    ensures PunchedOk(r[k])
  {
    hide Inv, Apply, Enabled, PunchedOk;
    if k == 0 {
      NobodyInside(r[0]);
    } else {
      RunPunched(r, steps, k - 1);
      RunInv(r, steps, k - 1);
      PunchedStep(r[k - 1], steps[k - 1]);
    }
  }

  lemma NobodyInside(s: State)
    requires Init(s)
    ensures PunchedOk(s)
  {}

  lemma UntimedIsRun(r: seq<State>, steps: seq<Step>)
    requires UntimedRun(r, steps)
    ensures Run(r, steps)
  {
    forall i | 0 <= i < |steps| ensures Punctual(r[i]) {
      HolesArePrefix(r, steps, i);
      hide UntimedRun, Inv, Punctual, NothingStale;
      assert NothingStale(r[i]);
      NothingStaleIsPunctual(r[i]);
    }
  }

  /** In the untimed model, while a writer is inside, every message below its ticket is punched. */
  lemma EverythingBelowIsPunched(r: seq<State>, steps: seq<Step>, k: nat, p: nat)
    requires UntimedRun(r, steps) && k < |r| && p < |r[k].procs| && Inside(r[k].procs[p])
    ensures ZeroFrom(r[k].log, 0, r[k].procs[p].mine)
  {
    hide UntimedRun, Run, Inv;
    HolesArePrefix(r, steps, k);
    UntimedIsRun(r, steps);
    HolderHasPunched(r, steps, k, p);
    assert StartOk(r[k].log, r[k].procs[p].s.start);
  }

  /** Hole punching is invisible: a rescan of the punched file gives the verdict that a rescan of
      everything ever appended would give. */
  lemma HolesAreInvisible(r: seq<State>, steps: seq<Step>, k: nat, scan: Scan, m: nat, temp: Message, now: nat)
    requires UntimedRun(r, steps) && k < |r| && NothingStale(r[k]) && now <= r[k].clock
    requires Rescanning(scan, m, |r[k].history|)
    requires forall i :: 0 <= i < |r[k].history| ==> !Stale(r[k].history[i], now)
    ensures |r[k].log| == |r[k].history|
    ensures var log, h := r[k].log, r[k].history;
            Windows(scan, _ => log, 0, FirstOffset(|h|), |h|, temp, now).valid > 0
            <==> Windows(scan, _ => h, 0, FirstOffset(|h|), |h|, temp, now).valid > 0
  {
    hide Windows;
    HolesArePrefix(r, steps, k);
    var log, h := r[k].log, r[k].history;
    RescanExact(scan, h, log, m, temp, now);
    RescanExact(scan, h, h, m, temp, now);
    var lo := Lowest(FirstOffset(|h|), scan.start);
    forall t: nat, e: nat
      ensures Meets(h, log, now, m, lo, |h|, t, e) <==> Meets(h, h, now, m, lo, |h|, t, e)
    {
      SameMeeting(r[k], m, now, lo, t, e);
    }
  }

  lemma SameMeeting(s: State, m: nat, now: nat, lo: nat, t: nat, e: nat)
    requires Inv(s) && forall i :: 0 <= i < |s.history| ==> !Stale(s.history[i], now)
    ensures Meets(s.history, s.log, now, m, lo, |s.history|, t, e) <==> Meets(s.history, s.history, now, m, lo, |s.history|, t, e)
  {
    hide Stage;
    if Meets(s.history, s.history, now, m, lo, |s.history|, t, e) {
      ClaimIsAfterInterest(s.history, e, t);
      forall i | e <= i < |s.history|
        ensures s.log[i] == s.history[i]
      {
      }
    }
  }

  // Where the scan is blind.

  /** Windows are whole, so the messages before the last whole window down from the end are never read. */
  lemma {:induction false} HeadIsNeverRead(size: nat)
    requires size > 256
    ensures Lowest(FirstOffset(size), 0) == size % 256
  {
    LowestFromZero(size - WINDOW);
  }

  lemma {:induction false} LowestFromZero(w: nat)
    ensures Lowest(w, 0) == w % WINDOW
  {
    if w >= WINDOW {
      LowestFromZero(w - WINDOW);
    }
  }

  /** So a rescan can overlook a live ticket: here 257 writers have registered, and a rescan by the second
      reports nothing preceding it. */
  lemma TicketMissed() returns (h: seq<Message>)
    ensures Orderly(h) && Live(h, 0) && Live(h, 1) && |h| == 257
    ensures forall i :: 0 <= i < |h| ==> h[i] == Message(Interest, 1, i)
    ensures var s := Scan(RECORD, true, [], 0, (false, NONE), 0, false);
            Rescanning(s, 1, |h|) && Windows(s, _ => h, 0, FirstOffset(|h|), |h|, h[1], 1).valid == 0
  {
    hide Windows;
    h := seq(WINDOW + 1, (i: nat) => Message(Interest, 1, i));
    var s := Scan(RECORD, true, [], 0, (false, NONE), 0, false);
    HeadIsNeverRead(|h|);
    RescanExact(s, h, h, 1, h[1], 1);
  }

  /** What the reads of a scan may find while every ticket live in h stays live: more messages, and holes only
      below the live tickets. */
  ghost predicate ViewsOf(h: seq<Message>, views: nat -> seq<Message>) {
    forall k :: |views(k)| >= |h| && PunchedBelowLive(views(k)[..|h|], h)
  }

  lemma AsReadOf(h: seq<Message>, views: nat -> seq<Message>) returns (v: seq<Message>)
    requires ViewsOf(h, views)
    ensures v == AsRead(views, |h|) && PunchedBelowLive(v, h)
    ensures forall k :: Punched(views(k), h)
  {
    hide Live, ReadOf;
    v := AsRead(views, |h|);
    forall k: nat | true ensures Punched(views(k), h) {
      assert PunchedBelowLive(views(k)[..|h|], h);
      forall i | 0 <= i < |h| ensures views(k)[i] == h[i] || views(k)[i] == ZERO {
        assert views(k)[i] == views(k)[..|h|][i];
      }
    }
    forall i | 0 <= i < |h|
      ensures v[i] == h[i] || v[i] == ZERO
      ensures v[i] == ZERO ==> forall t: nat :: Live(h, t) ==> i < t
    {
      assert v[i] == views(ReadOf(i, |h|))[..|h|][i];
    }
    assert PunchedBelowLive(views(0)[..|h|], h);
  }

  /** A scan that collects nothing because the start of interest is beyond its first window. */
  lemma NothingToRead(s: Scan, views: nat -> seq<Message>, size: nat, temp: Message, now: nat)
    requires (forall j :: |views(j)| >= size) && s.start > RECORD * FirstOffset(size)
    ensures Windows(s, views, 0, FirstOffset(size), size, temp, now) == s
  {
    hide Range;
  }

  /** A scan of v down to lo meets a live ticket below m. */
  ghost predicate Met(h: seq<Message>, v: seq<Message>, now: nat, m: nat, lo: nat)
    requires |h| <= |v|
  {
    exists t: nat, e: nat :: Meets(h, v, now, m, lo, |h|, t, e)
  }

  /** RescanExactMeanwhile over what the reads find. */
  lemma RescanReports(s: Scan, h: seq<Message>, views: nat -> seq<Message>, v: seq<Message>, m: nat, temp: Message, now: nat)
    requires Rescanning(s, m, |h|) && (forall k :: |views(k)| >= |h| && Punched(views(k), h)) && Orderly(h)
    requires v == AsRead(views, |h|)
    ensures var lo := Lowest(FirstOffset(|h|), s.start);
            Windows(s, views, 0, FirstOffset(|h|), |h|, temp, now).valid > 0
            <==> Met(h, v, now, m, lo)
  {
    hide Windows, Meets, Lowest, AsRead;
    RescanExactMeanwhile(s, h, views, m, temp, now);
  }

  /** The backlog bound is exact: while a smaller ticket is live, and all live tickets stay live to the end of the
      scan, a rescan reports nothing preceding if and only if the bound does not hold when it starts. */
  lemma OverlooksExactly(s: State, p: nat, views: nat -> seq<Message>)
    requires Inv(s) && Punctual(s) && p < |s.procs|
    requires s.procs[p].pc.Stating? && !s.procs[p].first && !NoneLiveBelow(s.history, s.procs[p].mine)
    requires ViewsOf(s.history, views)
    ensures |s.log| == |s.history|
    ensures var a := s.procs[p];
            var scan := a.s.(valid := 0, cut := false, lockid := (false, NONE));
            Windows(scan, views, 0, FirstOffset(|s.log|), |s.log|, a.temp, a.now).valid == 0 <==> !Covered(s, p)
  {
    hide Windows, Met, AsRead, ReadOf, Timed, Live, Lowest, InOrder, Owned, Visible, PunchedBelowLive;
    var a, h := s.procs[p], s.history;
    assert ProcOk(h, s.clock, p, a);
    Lengths(s, a.mine);
    var scan := a.s.(valid := 0, cut := false, lockid := (false, NONE));
    var w := FirstOffset(|h|);
    var lo := Lowest(w, scan.start);
    var v := AsReadOf(h, views);
    if a.s.start > RECORD * w {
      NothingToRead(scan, views, |h|, a.temp, a.now);
    } else {
      RescanReports(scan, h, views, v, a.mine, a.temp, a.now);
      InReachIsMet(s, p, v, lo);
    }
  }

  lemma Lengths(s: State, m: nat)
    requires Inv(s) && !NoneLiveBelow(s.history, m)
    ensures |s.log| == |s.history| > 0 && RECORD * |s.history| <= OFF_T / 2
  {}

  /** A live smaller ticket has a message in reach if and only if a scan of what it reads meets one. */
  lemma InReachIsMet(s: State, p: nat, v: seq<Message>, lo: nat)
    requires Inv(s) && Punctual(s) && p < |s.procs| && !s.procs[p].pc.Idle? && |v| == |s.history| && PunchedBelowLive(v, s.history)
    requires !NoneLiveBelow(s.history, s.procs[p].mine)
    ensures var h, a := s.history, s.procs[p];
            InReach(h, a.mine, lo, |h|) <==> Met(h, v, a.now, a.mine, lo)
  {
    hide Stage, HasTicket, Timed, InOrder, Owned, Visible, Orderly, PunchedBelowLive;
    var a, h := s.procs[p], s.history;
    assert ProcOk(h, s.clock, p, a);
    if InReach(h, a.mine, lo, |h|) {
      AllVisible(s, a.mine, a.now);
      ReachedFrom(h, s.clock, a.mine, a.now, lo, |h|);
      var t: nat, e: nat :| Reaches(h, a.mine, a.now, lo, |h|, t, e);
      ClaimIsAfterInterest(h, e, t);
      ReadableFrom(h, v, s.clock, t, e, a.now, e, |h|);
      assert Meets(h, v, a.now, a.mine, lo, |h|, t, e);
    }
  }

  // How far down a writer looks.

  /** A window that breaks off raises the start of interest. */
  lemma ReadRaisesStart(s: State, p: nat)
    requires Inv(s) && p < |s.procs| && s.procs[p].pc.Reading? && Enabled(s, Act(p, 0))
    ensures Read(s, p).procs[p].s.start >= s.procs[p].s.start
  {
    var a := s.procs[p];
    WindowAtStart(s, p);
    hide Inv, Range;
    ReadStartIs(s, p);
    hide Read;
    RangeStart(a.s.(cut := false), s.log, a.w, Top(a.w, a.size), a.temp, a.now);
  }

  lemma ReadStartIs(s: State, p: nat)
    requires p < |s.procs| && s.procs[p].w < s.procs[p].size <= |s.log|
    ensures var a := s.procs[p];
            p < |Read(s, p).procs| && Read(s, p).procs[p].s.start == ReadWindow(a.s, s.log, a.w, a.size, a.temp, a.now).start
  {
    hide ReadWindow, ValidOnly, LoopAgain;
  }

  lemma WindowAtStart(s: State, p: nat)
    requires Inv(s) && p < |s.procs| && s.procs[p].pc.Reading?
    ensures var a := s.procs[p]; a.w < a.size <= |s.log| && RECORD * a.w >= a.s.start
  {
    hide HasTicket, Fresh, Visible, Reached, Truthful, Noted, Timed, Orderly, InOrder, Owned;
    assert ProcOk(s.history, s.clock, p, s.procs[p]);
  }

  lemma StartStays(s: State, step: Step, p: nat)
    requires Enabled(s, step) && p < |s.procs| == |Apply(s, step).procs|
    requires var a := s.procs[p]; !a.pc.Idle? && !a.pc.Registered? && !(a.pc.Reading? && step.Act? && step.p == p)
    ensures Apply(s, step).procs[p].s.start == s.procs[p].s.start
  {
    hide ReadWindow, Covered, ValidOnly, NoneLiveBelow, Punch, Resize, Overwrite, Entry;
  }

  /** From the query of the first extent until it has released the lock a writer reads no message, and punches none,
      below that extent. */
  lemma {:induction false} NothingBelowExtent(r: seq<State>, steps: seq<Step>, i: nat, j: nat, p: nat, extent: nat)
    requires Run(r, steps) && i < j < |r| == |steps| + 1 && p < |r[i].procs|
    requires steps[i] == Act(p, extent) && r[i].procs[p].pc.Registered?
    requires forall k :: i < k <= j ==> p < |r[k].procs| && !r[k].procs[p].pc.Idle?
    ensures var a := r[j].procs[p];
            && !a.pc.Registered? && (if j == i + 1 then a.s.start == 16 * extent else a.s.start >= 16 * extent)
            && (a.pc.Reading? ==> a.w >= extent)
  {
    hide Run, Inv, Enabled, Apply;
    RunInv(r, steps, j);
    RunInv(r, steps, j - 1);
    RunGoes(r, steps, j - 1);
    if j > i + 1 {
      NothingBelowExtent(r, steps, i, j - 1, p, extent);
      StartGoesUp(r[j - 1], steps[j - 1], p);
    } else {
      ExtentIsStart(r[i], p, extent);
    }
    if r[j].procs[p].pc.Reading? {
      WindowAtStart(r[j], p);
    }
  }

  lemma ExtentIsStart(s: State, p: nat, extent: nat)
    requires p < |s.procs| && s.procs[p].pc.Registered? && Enabled(s, Act(p, extent))
    ensures var s' := Apply(s, Act(p, extent));
            p < |s'.procs| && !s'.procs[p].pc.Registered? && s'.procs[p].s.start == 16 * extent
  {
    hide Covered;
  }

  lemma StartGoesUp(s: State, step: Step, p: nat)
    requires Inv(s) && Enabled(s, step) && p < |s.procs| && !s.procs[p].pc.Idle? && !s.procs[p].pc.Registered?
    ensures var s' := Apply(s, step);
            p < |s'.procs| && !s'.procs[p].pc.Registered? && s'.procs[p].s.start >= s.procs[p].s.start
  {
    SameWriters(s, step);
    NeverBack(s, step, p);
    hide Inv, Read;
    if step.Act? && step.p == p && s.procs[p].pc.Reading? {
      ReadRaisesStart(s, p);
    } else {
      StartStays(s, step, p);
      hide Apply;
    }
  }

  lemma RunGoes(r: seq<State>, steps: seq<Step>, k: nat)
    requires Run(r, steps) && k < |steps|
    ensures |r| == |steps| + 1 && Enabled(r[k], steps[k]) && r[k + 1] == Apply(r[k], steps[k])
  {}

  lemma NeverBack(s: State, step: Step, p: nat)
    requires Enabled(s, step) && p < |s.procs| == |Apply(s, step).procs| && !s.procs[p].pc.Idle? && !s.procs[p].pc.Registered?
    ensures !Apply(s, step).procs[p].pc.Registered?
  {
    hide ReadWindow, Covered, ValidOnly, NoneLiveBelow, Punch, Resize, Overwrite, Entry;
  }
}
