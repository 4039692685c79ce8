/** The steps by which a writer scans in a run, other writers' steps between them, are one call of the scan. */
module LockScanRuns {
  import opened LockLog
  import opened LockScan
  import opened LockProtocol
  import opened LockInvariant
  import opened LockReading
  import opened LockTheorems

  /** The reading steps of one writer, the k-th of which sees the file as views(k). */
  function Reads(a: Proc, views: nat -> seq<Message>, k: nat): Proc
    requires a.pc.Reading? ==> a.w < a.size
    requires forall j :: |views(j)| >= a.size
    decreases if a.pc.Reading? then a.w + 1 else 0
  {
    if !a.pc.Reading? then a
    else Reads(After(a, ReadWindow(a.s, views(k), a.w, a.size, a.temp, a.now)), views, k + 1)
  }

  lemma {:induction false} ReadsAreWindows(a: Proc, views: nat -> seq<Message>, k: nat)
    requires a.pc.Reading? && LoopAgain(a.s, a.w, a.size) && forall j :: |views(j)| >= a.size
    ensures var b := Reads(a, views, k);
            b == Finish(a.(w := b.w), Windows(a.s, views, k, a.w, a.size, a.temp, a.now))
    decreases a.w
  {
    hide ReadWindow;
    var r := ReadWindow(a.s, views(k), a.w, a.size, a.temp, a.now);
    if a.w >= WINDOW && LoopAgain(r, a.w - WINDOW, a.size) {
      ReadsAreWindows(a.(w := a.w - WINDOW, s := r), views, k + 1);
    }
  }

  /** Writer p reads a window at step k of the run. */
  predicate ReadsAt(r: seq<State>, steps: seq<Step>, p: nat, k: nat)
    requires |r| == |steps| + 1 && k < |steps|
  {
    steps[k].Act? && steps[k].p == p && p < |r[k].procs| && r[k].procs[p].pc.Reading?
  }

  /** The lock file as writer p's reads between i and j find it, one after another. */
  function Seen(r: seq<State>, steps: seq<Step>, p: nat, i: nat, j: nat): seq<seq<Message>>
    requires |r| == |steps| + 1 && i <= j <= |steps|
    decreases j - i
  {
    if i == j then []
    else (if ReadsAt(r, steps, p, i) then [r[i].log] else []) + Seen(r, steps, p, i + 1, j)
  }

  /** Those files as the views of a scan; what it would find in further reads does not matter. */
  function Views(seen: seq<seq<Message>>, further: seq<Message>): nat -> seq<Message> {
    (k: nat) => if k < |seen| then seen[k] else further
  }

  /** What one step of the run does to writer p while it scans: its own reads a window, others' nothing. */
  lemma ScanStep(r: seq<State>, steps: seq<Step>, p: nat, i: nat)
    requires Run(r, steps) && i < |steps| && p < |r[i].procs| && r[i].procs[p].pc.Reading?
    ensures |r[i + 1].procs| == |r[i].procs|
    ensures var a := r[i].procs[p];
            && a.w < a.size <= |r[i].log|
            && r[i + 1].procs[p] == if ReadsAt(r, steps, p, i) then After(a, ReadWindow(a.s, r[i].log, a.w, a.size, a.temp, a.now)) else a
  {
    hide ReadWindow, Finish, Inv, Run;
    RunStep(r, steps, i);
    RunInv(r, steps, i);
    SameLength(r[i]);
    StepShape(r[i], steps[i], p);
    ReadNeverPastEnd(r, steps, i, p);
    if ReadsAt(r, steps, p, i) {
      ReadIsAfter(r[i], p);
    }
  }

  lemma RunStep(r: seq<State>, steps: seq<Step>, i: nat)
    requires Run(r, steps) && i < |steps|
    ensures |r| == |steps| + 1 && Enabled(r[i], steps[i]) && r[i + 1] == Apply(r[i], steps[i])
  {}

  lemma SameLength(s: State)
    requires Inv(s)
    ensures |s.log| == |s.history|
  {}

  lemma ReadIsAfter(s: State, p: nat)
    requires p < |s.procs| && s.procs[p].w < s.procs[p].size <= |s.log|
    ensures var a := s.procs[p];
            Read(s, p) == Set(s, p, After(a, ReadWindow(a.s, s.log, a.w, a.size, a.temp, a.now)))
  {
    hide ReadWindow;
  }

  /** From i until writer p has read its last window at j. */
  ghost predicate ScansUntil(r: seq<State>, steps: seq<Step>, p: nat, i: nat, j: nat)
    requires |r| == |steps| + 1 && i <= j <= |steps|
  {
    forall k :: i <= k < j ==> p < |r[k].procs| && r[k].procs[p].pc.Reading?
  }

  lemma SeenNext(r: seq<State>, steps: seq<Step>, p: nat, i: nat, j: nat)
    requires |r| == |steps| + 1 && i < j <= |steps|
    ensures Seen(r, steps, p, i, j)
         == if ReadsAt(r, steps, p, i) then [r[i].log] + Seen(r, steps, p, i + 1, j) else Seen(r, steps, p, i + 1, j)
  {}

  lemma SomeSeen(r: seq<State>, steps: seq<Step>, p: nat, i: nat, j: nat)
    requires |r| == |steps| + 1 && i <= j <= |steps| && Seen(r, steps, p, i, j) != []
    ensures i < j
  {}

  lemma AfterKeepsSize(a: Proc, s: Scan)
    ensures After(a, s).size == a.size
  {}

  lemma RunShape(r: seq<State>, steps: seq<Step>)
    requires Run(r, steps)
    ensures |r| == |steps| + 1
  {}

  /** From its n-th on, the views are those seen. */
  predicate Matches(views: nat -> seq<Message>, n: nat, seen: seq<seq<Message>>) {
    forall k :: 0 <= k < |seen| ==> views(n + k) == seen[k]
  }

  lemma MatchesTail(views: nat -> seq<Message>, n: nat, first: seq<Message>, later: seq<seq<Message>>)
    requires Matches(views, n, [first] + later)
    ensures views(n) == first && Matches(views, n + 1, later)
  {
    var seen := [first] + later;
    assert views(n + 0) == seen[0];
    forall k | 0 <= k < |later| ensures views(n + 1 + k) == later[k] {
      assert views(n + (k + 1)) == seen[k + 1];
    }
  }

  lemma {:induction false} RunReads(r: seq<State>, steps: seq<Step>, p: nat, i: nat, j: nat, views: nat -> seq<Message>, n: nat)
    requires Run(r, steps) && i <= j <= |steps| && ScansUntil(r, steps, p, i, j) && p < |r[i].procs| && p < |r[j].procs|
    requires !r[j].procs[p].pc.Reading?
    requires forall k :: |views(k)| >= r[i].procs[p].size
    requires Matches(views, n, Seen(r, steps, p, i, j))
    ensures r[i].procs[p].pc.Reading? ==> r[i].procs[p].w < r[i].procs[p].size
    ensures r[j].procs[p] == Reads(r[i].procs[p], views, n)
    decreases j - i
  {
    RunShape(r, steps);
    hide Run, ReadWindow, After, Seen, ReadsAt, Matches;
    if i < j {
      ScanStep(r, steps, p, i);
      SeenNext(r, steps, p, i, j);
      if ReadsAt(r, steps, p, i) {
        MatchesTail(views, n, r[i].log, Seen(r, steps, p, i + 1, j));
        var a := r[i].procs[p];
        AfterKeepsSize(a, ReadWindow(a.s, r[i].log, a.w, a.size, a.temp, a.now));
        RunReads(r, steps, p, i + 1, j, views, n + 1);
      } else {
        RunReads(r, steps, p, i + 1, j, views, n);
      }
    }
  }

  /** Every file read is at least as long as it was when its size was queried. */
  lemma {:induction false} SeenLong(r: seq<State>, steps: seq<Step>, p: nat, i: nat, j: nat, k: nat)
    requires Run(r, steps) && i <= j <= |steps| && ScansUntil(r, steps, p, i, j) && p < |r[i].procs|
    requires k < |Seen(r, steps, p, i, j)|
    ensures |Seen(r, steps, p, i, j)[k]| >= r[i].procs[p].size
    decreases j - i
  {
    RunShape(r, steps);
    hide Run, ReadWindow, After, Seen, ReadsAt;
    SomeSeen(r, steps, p, i, j);
    ScanStep(r, steps, p, i);
    SeenNext(r, steps, p, i, j);
    var later := Seen(r, steps, p, i + 1, j);
    if ReadsAt(r, steps, p, i) {
      if k > 0 {
        var a := r[i].procs[p];
        AfterKeepsSize(a, ReadWindow(a.s, r[i].log, a.w, a.size, a.temp, a.now));
        SeenLong(r, steps, p, i + 1, j, k - 1);
      }
    } else {
      SeenLong(r, steps, p, i + 1, j, k);
    }
  }

  /** In any run, from the query of the size at i to the end of the reading at j, whatever the other writers
      append and punch in between, writer p's steps come to what one call of the scan comes to. */
  lemma RunScansAsIterate(r: seq<State>, steps: seq<Step>, p: nat, i: nat, j: nat)
    requires Run(r, steps) && i < j <= |steps| && p < |r[i].procs| && p < |r[j].procs|
    requires steps[i].Act? && steps[i].p == p && r[i].procs[p].pc.Stating?
    requires ScansUntil(r, steps, p, i + 1, j) && !r[j].procs[p].pc.Reading?
    ensures var a, b, size := r[i].procs[p], r[j].procs[p], |r[i].log|;
            var views := Views(Seen(r, steps, p, i + 1, j), r[i].log);
            && (forall k :: |views(k)| >= size)
            && var scan := a.s.(valid := 0, cut := false, lockid := (false, NONE));
               b == Finish(a.(size := size, w := b.w, quiet := b.quiet),
                           Windows(scan, views, 0, FirstOffset(size), size, a.temp, a.now))
  {
    hide Run, ReadWindow, Finish, Seen, Windows, Reads, LoopAgain, Views, Matches;
    RunShape(r, steps);
    Queried(r, steps, p, i);
    var a, b, size := r[i].procs[p], r[i + 1].procs[p], |r[i].log|;
    var seen := Seen(r, steps, p, i + 1, j);
    var views := Views(seen, r[i].log);
    ViewsLong(r, steps, p, i, j, views);
    StepsAreIterate(a.(size := size, w := FirstOffset(size), quiet := b.quiet), views);
    if b.pc.Reading? {
      ViewsAre(seen, r[i].log);
      RunReads(r, steps, p, i + 1, j, views, 0);
    } else {
      Unmoved(r, steps, p, i + 1, j);
    }
    FinishKeeps(a.(size := size, w := r[j].procs[p].w, quiet := b.quiet),
                Windows(a.s.(valid := 0, cut := false, lockid := (false, NONE)), views, 0, FirstOffset(size), size, a.temp, a.now));
  }

  lemma FinishKeeps(a: Proc, s: Scan)
    ensures Finish(a, s).quiet == a.quiet
  {}

  lemma ViewsAre(seen: seq<seq<Message>>, further: seq<Message>)
    ensures Matches(Views(seen, further), 0, seen)
  {}

  lemma ViewsLong(r: seq<State>, steps: seq<Step>, p: nat, i: nat, j: nat, views: nat -> seq<Message>)
    requires Run(r, steps) && i < j <= |steps| && p < |r[i].procs| && |r| == |steps| + 1 && p < |r[i + 1].procs|
    requires ScansUntil(r, steps, p, i + 1, j) && r[i + 1].procs[p].size == |r[i].log|
    requires views == Views(Seen(r, steps, p, i + 1, j), r[i].log)
    ensures forall k :: |views(k)| >= |r[i].log|
  {
    hide Run, Seen;
    var seen := Seen(r, steps, p, i + 1, j);
    forall k: nat | true ensures |views(k)| >= |r[i].log| {
      if k < |seen| {
        SeenLong(r, steps, p, i + 1, j, k);
      }
    }
  }

  /** A writer that queried the size and then reads window after window ends where one call of the scan ends. */
  lemma StepsAreIterate(a: Proc, views: nat -> seq<Message>)
    requires a.w == FirstOffset(a.size) && forall j :: |views(j)| >= a.size
    ensures var scan := a.s.(valid := 0, cut := false, lockid := (false, NONE));
            var b := if LoopAgain(scan, a.w, a.size) then Reads(a.(pc := Reading, s := scan), views, 0) else Finish(a, scan);
            b == Finish(a.(w := b.w), Windows(scan, views, 0, FirstOffset(a.size), a.size, a.temp, a.now))
  {
    var scan := a.s.(valid := 0, cut := false, lockid := (false, NONE));
    if LoopAgain(scan, a.w, a.size) {
      ReadsAreWindows(a.(pc := Reading, s := scan), views, 0);
    }
  }

  /** The query of the size, with which the scan begins. */
  lemma Queried(r: seq<State>, steps: seq<Step>, p: nat, i: nat)
    requires Run(r, steps) && i < |steps| && p < |r[i].procs|
    requires steps[i].Act? && steps[i].p == p && r[i].procs[p].pc.Stating?
    ensures |r| == |steps| + 1 && p < |r[i + 1].procs|
    ensures var a, b, size := r[i].procs[p], r[i + 1].procs[p], |r[i].log|;
            var scan := a.s.(valid := 0, cut := false, lockid := (false, NONE));
            var c := a.(size := size, w := FirstOffset(size), quiet := b.quiet);
            && b.size == size && (b.pc.Reading? <==> LoopAgain(scan, FirstOffset(size), size))
            && b == if LoopAgain(scan, FirstOffset(size), size) then c.(pc := Reading, s := scan) else Finish(c, scan)
  {
    RunStep(r, steps, i);
    hide Run, Covered, ValidOnly, LoopAgain, NoneLiveBelow;
  }

  /** A writer not reading has nothing to read. */
  lemma Unmoved(r: seq<State>, steps: seq<Step>, p: nat, i: nat, j: nat)
    requires |r| == |steps| + 1 && i <= j <= |steps| && p < |r[i].procs| && !r[i].procs[p].pc.Reading? && ScansUntil(r, steps, p, i, j)
    ensures i == j
  {}
}
