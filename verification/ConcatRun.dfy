/** Running the plan: any number of operations at once, moving their bytes one at a time, each begun when the one
    it waits for has ended. */
module ConcatRun {
  import opened ConcatPlan

  type byte = bv8

  datatype World = World(
    done: set<Node>,
    running: map<Node, set<nat>>,   // operations under way, and which of their bytes have moved
    buffers: seq<seq<byte>>,        // one for each source
    out: seq<byte>,
    written: nat)

  datatype Step =
    | Begin(n: Node)
    | Transfer(n: Node, j: nat)     // byte j of the chunk, in any order, any number of times
    | End(n: Node)

  function Sizes(sources: seq<seq<byte>>): (sizes: seq<nat>)
    ensures |sizes| == |sources|
  {
    seq(|sources|, i requires 0 <= i < |sources| => |sources[i]|)
  }

  predicate Ready(d: Dependency, done: set<Node>) { d.Resized? || d.node in done }

  predicate InBounds(n: Node, t: Task, sources: seq<seq<byte>>, w: World) {
    && n.idx < |sources| && n.idx < |w.buffers| && t.amount <= |w.buffers[n.idx]|
    && (n.op.Read? ==> t.at + t.amount <= |sources[n.idx]|)
    && (n.op.Write? ==> t.at + t.amount <= |w.out|)
  }

  predicate Enabled(sources: seq<seq<byte>>, plan: map<Node, Task>, w: World, step: Step) {
    && step.n in plan && InBounds(step.n, plan[step.n], sources, w)
    && match step
       case Begin(n) => n !in w.running && n !in w.done && Ready(plan[n].after, w.done)
       case Transfer(n, j) => n in w.running && j < plan[n].amount && !n.op.Count?
       case End(n) => n in w.running && (n.op.Count? || forall j :: 0 <= j < plan[n].amount ==> j in w.running[n])
  }

  function Apply(sources: seq<seq<byte>>, plan: map<Node, Task>, w: World, step: Step): World
    requires Enabled(sources, plan, w, step)
  {
    var t := plan[step.n];
    match step
    case Begin(n) => w.(running := w.running[n := {}])
    case Transfer(n, j) =>
      var moved := w.(running := w.running[n := w.running[n] + {j}]);
      if n.op.Read? then
        moved.(buffers := w.buffers[n.idx := w.buffers[n.idx][j := sources[n.idx][t.at + j]]])
      else
        moved.(out := w.out[t.at + j := w.buffers[n.idx][j]])
    case End(n) =>
      World(w.done + {n}, w.running - {n}, w.buffers, w.out, if n.op.Count? then w.written + t.amount else w.written)
  }

  ghost predicate Run(sources: seq<seq<byte>>, plan: map<Node, Task>, w: World, steps: seq<Step>, w': World)
    decreases |steps|
  {
    if steps == [] then w == w'
    else
      && Enabled(sources, plan, w, steps[0])
      && Run(sources, plan, Apply(sources, plan, w, steps[0]), steps[1..], w')
  }

  /** Buffers just made, the output just resized: whatever they hold, nothing is done yet. */
  ghost predicate Start(sources: seq<seq<byte>>, size: nat, w: World) {
    && w.done == {} && w.running == map[] && w.written == 0
    && |w.buffers| == |sources| && (forall i :: 0 <= i < |sources| ==> |w.buffers[i]| == size)
    && |w.out| == Offset(Sizes(sources), |sources|)
  }

  function Concat(sources: seq<seq<byte>>): seq<byte> {
    if sources == [] then [] else Concat(sources[..|sources| - 1]) + sources[|sources| - 1]
  }

  // The invariant: every source is at one stage of one chunk.

  /** Stages of chunk c: 0 nothing yet, 1 reading, 2 read, 3 writing, 4 written, 5 counting. */
  datatype Progress = Progress(c: nat, stage: nat)

  function Rank(op: Op): nat { match op case Read => 0 case Write => 2 case Count => 4 }

  predicate IsDone(p: Progress, n: Node) { n.chunk < p.c || (n.chunk == p.c && Rank(n.op) + 1 < p.stage) }

  predicate IsRunning(p: Progress, n: Node) { n.chunk == p.c && p.stage == Rank(n.op) + 1 }

  predicate Sane(p: Progress, bytes: nat, size: nat) {
    && p.stage <= 5
    && (p.stage > 0 ==> Begins(p.c, size) < bytes)
    && (p.c > 0 ==> Begins(p.c - 1, size) < bytes)
  }

  ghost predicate Tracks(sources: seq<seq<byte>>, size: nat, plan: map<Node, Task>, w: World, prog: seq<Progress>) {
    && |prog| == |sources|
    && (forall i :: 0 <= i < |prog| ==> Sane(prog[i], |sources[i]|, size))
    && (forall n :: n in plan ==> n.idx < |prog|)
    && (forall n :: n in w.done <==> n in plan && IsDone(prog[n.idx], n))
    && (forall n :: n in w.running <==> n in plan && IsRunning(prog[n.idx], n))
  }

  /** How much of the source is in the output for good. */
  function Settled(p: Progress, bytes: nat, size: nat): nat {
    Upto(bytes, if p.stage < 4 then p.c else p.c + 1, size)
  }

  function ChunkLength(bytes: nat, c: nat, size: nat): nat
    requires Begins(c, size) < bytes
  {
    if bytes - Begins(c, size) > size then size else bytes - Begins(c, size)
  }

  /** Byte j of the chunk is in the buffer. */
  predicate Buffered(source: seq<byte>, buffer: seq<byte>, o: nat, j: nat) {
    j < |buffer| && o + j < |source| && buffer[j] == source[o + j]
  }

  /** Byte k of the source is in the output. */
  predicate Placed(source: seq<byte>, out: seq<byte>, offset: nat, k: nat) {
    k < |source| && offset + k < |out| && out[offset + k] == source[k]
  }

  /** The operation under way for source i, at an odd stage. */
  function Current(p: Progress, i: nat): Node {
    Node(if p.stage == 1 then Read else if p.stage == 3 then Write else Count, i, p.c)
  }

  function Moved(running: map<Node, set<nat>>, p: Progress, i: nat): set<nat> {
    if p.stage % 2 == 1 && Current(p, i) in running then running[Current(p, i)] else {}
  }

  ghost predicate SourceData(source: seq<byte>, size: nat, p: Progress, buffer: seq<byte>, out: seq<byte>, offset: nat, moved: set<nat>) {
    && |buffer| == size && offset + |source| <= |out| && Sane(p, |source|, size)
    && (p.stage == 1 ==>
          forall j :: j in moved && j < ChunkLength(|source|, p.c, size) ==> Buffered(source, buffer, Begins(p.c, size), j))
    && (p.stage == 2 || p.stage == 3 ==>
          forall j :: 0 <= j < ChunkLength(|source|, p.c, size) ==> Buffered(source, buffer, Begins(p.c, size), j))
    && (p.stage == 3 ==>
          forall j :: j in moved && j < ChunkLength(|source|, p.c, size) ==> Placed(source, out, offset, Begins(p.c, size) + j))
    && forall k :: 0 <= k < Settled(p, |source|, size) ==> Placed(source, out, offset, k)
  }

  ghost predicate Data(sources: seq<seq<byte>>, size: nat, w: World, prog: seq<Progress>) {
    && |w.buffers| == |sources| == |prog|
    && |w.out| == Offset(Sizes(sources), |sources|)
    && forall i :: 0 <= i < |sources| ==>
         SourceData(sources[i], size, prog[i], w.buffers[i], w.out, Offset(Sizes(sources), i), Moved(w.running, prog[i], i))
  }

  function Counted(sources: seq<seq<byte>>, size: nat, prog: seq<Progress>): nat
    requires |sources| == |prog|
  {
    if sources == [] then 0
    else
      var n := |sources| - 1;
      Counted(sources[..n], size, prog[..n]) + Upto(|sources[n]|, prog[n].c, size)
  }

  ghost predicate Inv(sources: seq<seq<byte>>, size: nat, plan: map<Node, Task>, w: World, prog: seq<Progress>) {
    && Tracks(sources, size, plan, w, prog)
    && Data(sources, size, w, prog)
    && w.written == Counted(sources, size, prog)
  }

  // Tracking.

  function Advance(prog: seq<Progress>, step: Step): seq<Progress>
    requires step.n.idx < |prog|
  {
    prog[step.n.idx := Onward(prog[step.n.idx], step)]
  }

  /** An operation can begin only when its source is exactly there. */
  lemma BeginsInTurn(sources: seq<seq<byte>>, size: nat, plan: map<Node, Task>, w: World, prog: seq<Progress>, n: Node)
    requires IsPlan(plan, Sizes(sources), size) && Tracks(sources, size, plan, w, prog)
    requires Enabled(sources, plan, w, Begin(n))
    ensures n in plan && prog[n.idx] == Progress(n.chunk, Rank(n.op))
  {
    var p := prog[n.idx];
    var before := plan[n].after;
    if before.After? {
      assert before.node in w.done && IsDone(p, before.node);
    }
  }

  function Onward(p: Progress, step: Step): Progress {
    match step
    case Begin(n) => Progress(p.c, p.stage + 1)
    case Transfer(_, _) => p
    case End(n) => if n.op.Count? then Progress(p.c + 1, 0) else Progress(p.c, p.stage + 1)
  }

  lemma OnwardBegin(p: Progress, n: Node, m: Node)
    requires p == Progress(n.chunk, Rank(n.op)) && m.idx == n.idx
    ensures var p' := Onward(p, Begin(n));
            (IsDone(p', m) <==> IsDone(p, m)) && (IsRunning(p', m) <==> IsRunning(p, m) || m == n)
  {}

  lemma OnwardEnd(p: Progress, n: Node, m: Node)
    requires IsRunning(p, n) && m.idx == n.idx
    ensures var p' := Onward(p, End(n));
            (IsDone(p', m) <==> IsDone(p, m) || m == n) && (IsRunning(p', m) <==> IsRunning(p, m) && m != n)
  {}

  lemma TracksBegin(sources: seq<seq<byte>>, size: nat, plan: map<Node, Task>, w: World, prog: seq<Progress>, n: Node)
    requires IsPlan(plan, Sizes(sources), size) && Tracks(sources, size, plan, w, prog)
    requires Enabled(sources, plan, w, Begin(n))
    ensures n.idx < |prog|
    ensures Tracks(sources, size, plan, Apply(sources, plan, w, Begin(n)), Advance(prog, Begin(n)))
  {
    BeginsInTurn(sources, size, plan, w, prog, n);
    hide TaskOf, Begins, Offset, IsDone, IsRunning, Rank;
    RankBound(n.op);
    forall m: Node | m.idx == n.idx
      ensures var p' := Onward(prog[n.idx], Begin(n));
              (IsDone(p', m) <==> IsDone(prog[n.idx], m)) && (IsRunning(p', m) <==> IsRunning(prog[n.idx], m) || m == n)
    {
      OnwardBegin(prog[n.idx], n, m);
    }
  }

  lemma RankBound(op: Op)
    ensures Rank(op) <= 4 && (Rank(op) == 4 <==> op.Count?)
  {}

  lemma OnwardSane(p: Progress, n: Node, bytes: nat, size: nat)
    requires IsRunning(p, n) && Begins(n.chunk, size) < bytes && Sane(p, bytes, size)
    ensures Sane(Onward(p, End(n)), bytes, size)
  {}

  lemma TracksEnd(sources: seq<seq<byte>>, size: nat, plan: map<Node, Task>, w: World, prog: seq<Progress>, n: Node)
    requires IsPlan(plan, Sizes(sources), size) && Tracks(sources, size, plan, w, prog)
    requires Enabled(sources, plan, w, End(n))
    ensures n.idx < |prog|
    ensures Tracks(sources, size, plan, Apply(sources, plan, w, End(n)), Advance(prog, End(n)))
  {
    assert IsRunning(prog[n.idx], n);
    hide TaskOf, IsDone, IsRunning, Sane, Onward, InBounds;
    OnwardSane(prog[n.idx], n, |sources[n.idx]|, size);
    forall m: Node | m.idx == n.idx
      ensures var p' := Onward(prog[n.idx], End(n));
              (IsDone(p', m) <==> IsDone(prog[n.idx], m) || m == n) && (IsRunning(p', m) <==> IsRunning(prog[n.idx], m) && m != n)
    {
      OnwardEnd(prog[n.idx], n, m);
    }
  }

  lemma TracksTransfer(sources: seq<seq<byte>>, size: nat, plan: map<Node, Task>, w: World, prog: seq<Progress>, n: Node, j: nat)
    requires IsPlan(plan, Sizes(sources), size) && Tracks(sources, size, plan, w, prog)
    requires Enabled(sources, plan, w, Transfer(n, j))
    ensures n.idx < |prog|
    ensures Tracks(sources, size, plan, Apply(sources, plan, w, Transfer(n, j)), prog)
  {
    hide TaskOf, Begins, Offset;
  }

  // What the data does at each step, one source at a time.

  lemma UptoNext(bytes: nat, c: nat, size: nat)
    requires Begins(c, size) < bytes
    ensures Upto(bytes, c, size) == Begins(c, size)
    ensures Upto(bytes, c + 1, size) == Begins(c, size) + ChunkLength(bytes, c, size)
  {}

  lemma DataBegins(source: seq<byte>, size: nat, p: Progress, buffer: seq<byte>, out: seq<byte>, offset: nat, n: Node)
    requires SourceData(source, size, p, buffer, out, offset, {})
    requires p == Progress(n.chunk, Rank(n.op)) && Begins(n.chunk, size) < |source|
    ensures SourceData(source, size, Onward(p, Begin(n)), buffer, out, offset, {})
  {}

  lemma DataEnds(source: seq<byte>, size: nat, p: Progress, buffer: seq<byte>, out: seq<byte>, offset: nat, moved: set<nat>, n: Node)
    requires SourceData(source, size, p, buffer, out, offset, moved)
    requires IsRunning(p, n) && Begins(n.chunk, size) < |source|
    requires n.op.Count? || forall j :: 0 <= j < ChunkLength(|source|, p.c, size) ==> j in moved
    ensures SourceData(source, size, Onward(p, End(n)), buffer, out, offset, {})
  {
    UptoNext(|source|, p.c, size);
    hide Upto, Begins, ChunkLength;
    if n.op.Write? {
      var o := Begins(p.c, size);
      forall k | 0 <= k < Upto(|source|, p.c + 1, size) ensures Placed(source, out, offset, k) {
        if k >= o {
          assert (k - o) in moved;
          assert Placed(source, out, offset, o + (k - o));
        }
      }
    }
  }

  lemma DataReads(source: seq<byte>, size: nat, p: Progress, buffer: seq<byte>, out: seq<byte>, offset: nat, moved: set<nat>, j: nat)
    requires SourceData(source, size, p, buffer, out, offset, moved)
    requires p.stage == 1 && j < ChunkLength(|source|, p.c, size) && j < |buffer|
    ensures SourceData(source, size, p, buffer[j := source[Begins(p.c, size) + j]], out, offset, moved + {j})
  {
    hide Upto, Begins;
  }

  lemma DataWrites(source: seq<byte>, size: nat, p: Progress, buffer: seq<byte>, out: seq<byte>, offset: nat, moved: set<nat>, j: nat)
    requires SourceData(source, size, p, buffer, out, offset, moved)
    requires p.stage == 3 && j < ChunkLength(|source|, p.c, size) && j < |buffer|
    ensures SourceData(source, size, p, buffer, out[offset + Begins(p.c, size) + j := buffer[j]], offset, moved + {j})
  {
    assert Buffered(source, buffer, Begins(p.c, size), j);
    hide Upto, Begins;
    var out' := out[offset + Begins(p.c, size) + j := buffer[j]];
    assert forall k :: 0 <= k < |source| ==> (Placed(source, out, offset, k) ==> Placed(source, out', offset, k));
  }

  lemma DataElsewhere(source: seq<byte>, size: nat, p: Progress, buffer: seq<byte>, out: seq<byte>, offset: nat, moved: set<nat>,
                      at: nat, b: byte)
    requires SourceData(source, size, p, buffer, out, offset, moved)
    requires at < |out| && (at < offset || offset + |source| <= at)
    ensures SourceData(source, size, p, buffer, out[at := b], offset, moved)
  {
    hide Upto, Begins;
    var out' := out[at := b];
    assert forall k :: 0 <= k < |source| ==> (Placed(source, out, offset, k) ==> Placed(source, out', offset, k));
    if p.stage == 3 {
      forall j | j in moved && j < ChunkLength(|source|, p.c, size) ensures Placed(source, out', offset, Begins(p.c, size) + j) {
        assert Placed(source, out, offset, Begins(p.c, size) + j);
      }
    }
  }

  // And for all sources together.

  lemma {:induction false} OffsetsMonotone(sizes: seq<nat>, i: nat, k: nat)
    requires i <= k <= |sizes|
    ensures Offset(sizes, i) <= Offset(sizes, k)
    decreases k
  {
    if i < k {
      OffsetsMonotone(sizes, i, k - 1);
    }
  }

  /** No place in the output belongs to two sources. */
  lemma RegionsApart(sizes: seq<nat>, i: nat, k: nat, at: nat)
    requires i < |sizes| && k < |sizes| && i != k
    requires Offset(sizes, k) <= at < Offset(sizes, k) + sizes[k]
    ensures at < Offset(sizes, i) || Offset(sizes, i) + sizes[i] <= at
  {
    hide Offset;
    if i < k {
      OffsetNext(sizes, i);
      OffsetsMonotone(sizes, i + 1, k);
    } else {
      OffsetNext(sizes, k);
      OffsetsMonotone(sizes, k + 1, i);
    }
  }

  lemma RunsNow(sources: seq<seq<byte>>, size: nat, plan: map<Node, Task>, w: World, prog: seq<Progress>, n: Node)
    requires IsPlan(plan, Sizes(sources), size) && Tracks(sources, size, plan, w, prog) && n in w.running
    ensures n in plan && n.idx < |sources| && IsRunning(prog[n.idx], n) && Current(prog[n.idx], n.idx) == n
    ensures Begins(n.chunk, size) < |sources[n.idx]|
    ensures plan[n].amount == ChunkLength(|sources[n.idx]|, n.chunk, size)
    ensures Moved(w.running, prog[n.idx], n.idx) == w.running[n]
    ensures prog[n.idx].c == n.chunk && (n.op.Read? ==> prog[n.idx].stage == 1) && (n.op.Write? ==> prog[n.idx].stage == 3)
  {}

  lemma DataOf(sources: seq<seq<byte>>, size: nat, w: World, prog: seq<Progress>, i: nat)
    requires Data(sources, size, w, prog) && i < |sources|
    ensures |w.buffers| == |sources| == |prog|
    ensures SourceData(sources[i], size, prog[i], w.buffers[i], w.out, Offset(Sizes(sources), i), Moved(w.running, prog[i], i))
  {}

  lemma OthersStill(running: map<Node, set<nat>>, running': map<Node, set<nat>>, n: Node, p: Progress, k: nat)
    requires forall m :: m != n ==> (m in running <==> m in running') && (m in running ==> running[m] == running'[m])
    requires k != n.idx
    ensures Moved(running', p, k) == Moved(running, p, k)
  {}

  lemma NothingMoved(running: map<Node, set<nat>>, p: Progress, i: nat)
    requires p.stage % 2 == 1 && Current(p, i) in running ==> running[Current(p, i)] == {}
    ensures Moved(running, p, i) == {}
  {}

  lemma CurrentAfterBegin(p: Progress, n: Node)
    requires p == Progress(n.chunk, Rank(n.op))
    ensures Current(Onward(p, Begin(n)), n.idx) == n && p.stage % 2 == 0
  {}

  lemma StageAfterEnd(p: Progress, n: Node)
    requires IsRunning(p, n)
    ensures Onward(p, End(n)).stage % 2 == 0
  {}

  lemma DataBegin(sources: seq<seq<byte>>, size: nat, plan: map<Node, Task>, w: World, prog: seq<Progress>, n: Node)
    requires IsPlan(plan, Sizes(sources), size) && Tracks(sources, size, plan, w, prog) && Data(sources, size, w, prog)
    requires Enabled(sources, plan, w, Begin(n)) && n.idx < |prog|
    ensures Data(sources, size, Apply(sources, plan, w, Begin(n)), Advance(prog, Begin(n)))
  {
    BeginsInTurn(sources, size, plan, w, prog, n);
    hide Offset, SourceData, IsDone, IsRunning, TaskOf, Moved, Current, Onward, Rank;
    var i := n.idx;
    var w' := Apply(sources, plan, w, Begin(n));
    CurrentAfterBegin(prog[i], n);
    NothingMoved(w.running, prog[i], i);
    NothingMoved(w'.running, Onward(prog[i], Begin(n)), i);
    forall k | 0 <= k < |sources| && k != i ensures Moved(w'.running, prog[k], k) == Moved(w.running, prog[k], k) {
      OthersStill(w.running, w'.running, n, prog[k], k);
    }
    DataBegins(sources[i], size, prog[i], w.buffers[i], w.out, Offset(Sizes(sources), i), n);
  }

  lemma DataEnd(sources: seq<seq<byte>>, size: nat, plan: map<Node, Task>, w: World, prog: seq<Progress>, n: Node)
    requires IsPlan(plan, Sizes(sources), size) && Tracks(sources, size, plan, w, prog) && Data(sources, size, w, prog)
    requires Enabled(sources, plan, w, End(n)) && n.idx < |prog|
    ensures Data(sources, size, Apply(sources, plan, w, End(n)), Advance(prog, End(n)))
  {
    RunsNow(sources, size, plan, w, prog, n);
    hide Offset, Begins, SourceData, IsDone, IsRunning, TaskOf, ChunkLength, Moved, Current, Onward, Rank;
    var i := n.idx;
    var w' := Apply(sources, plan, w, End(n));
    StageAfterEnd(prog[i], n);
    NothingMoved(w'.running, Onward(prog[i], End(n)), i);
    forall k | 0 <= k < |sources| && k != i ensures Moved(w'.running, prog[k], k) == Moved(w.running, prog[k], k) {
      OthersStill(w.running, w'.running, n, prog[k], k);
    }
    DataEnds(sources[i], size, prog[i], w.buffers[i], w.out, Offset(Sizes(sources), i), w.running[n], n);
  }

  lemma MovedMore(running: map<Node, set<nat>>, p: Progress, n: Node, j: nat)
    requires n in running && IsRunning(p, n)
    ensures Moved(running[n := running[n] + {j}], p, n.idx) == running[n] + {j}
  {}

  lemma ReadEffect(sources: seq<seq<byte>>, size: nat, plan: map<Node, Task>, w: World, n: Node, j: nat)
    requires IsPlan(plan, Sizes(sources), size) && Enabled(sources, plan, w, Transfer(n, j)) && n.op.Read?
    ensures n in w.running && n.idx < |sources| && n.idx < |w.buffers| && j < |w.buffers[n.idx]|
    ensures Begins(n.chunk, size) + j < |sources[n.idx]|
    ensures n in plan && j < plan[n].amount
    ensures Apply(sources, plan, w, Transfer(n, j))
         == w.(running := w.running[n := w.running[n] + {j}],
               buffers := w.buffers[n.idx := w.buffers[n.idx][j := sources[n.idx][Begins(n.chunk, size) + j]]])
  {
    hide Begins, Offset;
  }

  lemma DataTransferRead(sources: seq<seq<byte>>, size: nat, plan: map<Node, Task>, w: World, prog: seq<Progress>, n: Node, j: nat)
    requires IsPlan(plan, Sizes(sources), size) && Tracks(sources, size, plan, w, prog) && Data(sources, size, w, prog)
    requires Enabled(sources, plan, w, Transfer(n, j)) && n.idx < |prog| && n.op.Read?
    ensures Data(sources, size, Apply(sources, plan, w, Transfer(n, j)), prog)
  {
    hide IsPlan, Tracks, Enabled, Apply, Begins, Offset, SourceData, IsRunning, Moved, Current, ChunkLength;
    ReadEffect(sources, size, plan, w, n, j);
    RunsNow(sources, size, plan, w, prog, n);
    var i, running' := n.idx, w.running[n := w.running[n] + {j}];
    MovedMore(w.running, prog[i], n, j);
    DataReads(sources[i], size, prog[i], w.buffers[i], w.out, Offset(Sizes(sources), i), w.running[n], j);
    forall k | 0 <= k < |sources| && k != i ensures Moved(running', prog[k], k) == Moved(w.running, prog[k], k) {
      OthersStill(w.running, running', n, prog[k], k);
    }
  }

  /** Where a write puts its bytes: in its own source's part of the output. */
  lemma WritesInside(sources: seq<seq<byte>>, size: nat, plan: map<Node, Task>, n: Node, j: nat)
    requires IsPlan(plan, Sizes(sources), size) && n in plan && n.op.Write? && j < plan[n].amount
    ensures n.idx < |sources|
    ensures plan[n].at == Offset(Sizes(sources), n.idx) + Begins(n.chunk, size)
    ensures Offset(Sizes(sources), n.idx) <= plan[n].at + j < Offset(Sizes(sources), n.idx) + |sources[n.idx]|
  {
    hide Begins, Offset;
  }

  lemma WriteElsewhere(sources: seq<seq<byte>>, size: nat, w: World, prog: seq<Progress>, k: nat, i: nat, at: nat, b: byte)
    requires Data(sources, size, w, prog) && k < |sources| && i < |sources| && k != i && at < |w.out|
    requires Offset(Sizes(sources), i) <= at < Offset(Sizes(sources), i) + |sources[i]|
    ensures SourceData(sources[k], size, prog[k], w.buffers[k], w.out[at := b], Offset(Sizes(sources), k),
                       Moved(w.running, prog[k], k))
  {
    hide Begins, Offset, SourceData, Moved;
    RegionsApart(Sizes(sources), k, i, at);
    DataElsewhere(sources[k], size, prog[k], w.buffers[k], w.out, Offset(Sizes(sources), k), Moved(w.running, prog[k], k), at, b);
  }

  lemma WriteEffect(sources: seq<seq<byte>>, plan: map<Node, Task>, w: World, n: Node, j: nat)
    requires Enabled(sources, plan, w, Transfer(n, j)) && n.op.Write?
    ensures n in plan && j < plan[n].amount && n in w.running
    ensures n.idx < |w.buffers| && j < |w.buffers[n.idx]| && plan[n].at + j < |w.out|
    ensures Apply(sources, plan, w, Transfer(n, j))
         == w.(running := w.running[n := w.running[n] + {j}], out := w.out[plan[n].at + j := w.buffers[n.idx][j]])
  {}

  lemma WriteAtHome(sources: seq<seq<byte>>, size: nat, plan: map<Node, Task>, w: World, prog: seq<Progress>, n: Node, j: nat)
    requires IsPlan(plan, Sizes(sources), size) && Tracks(sources, size, plan, w, prog) && Data(sources, size, w, prog)
    requires Enabled(sources, plan, w, Transfer(n, j)) && n.idx < |prog| && n.op.Write?
    ensures n in w.running && n.idx < |sources| && n.idx < |w.buffers| && j < |w.buffers[n.idx]| && plan[n].at + j < |w.out|
    ensures SourceData(sources[n.idx], size, prog[n.idx], w.buffers[n.idx], w.out[plan[n].at + j := w.buffers[n.idx][j]],
                       Offset(Sizes(sources), n.idx), Moved(w.running[n := w.running[n] + {j}], prog[n.idx], n.idx))
  {
    hide IsPlan, Tracks, Data, Enabled, Apply, Begins, Offset, SourceData, IsRunning, Moved, Current, ChunkLength;
    WriteEffect(sources, plan, w, n, j);
    RunsNow(sources, size, plan, w, prog, n);
    WritesInside(sources, size, plan, n, j);
    DataOf(sources, size, w, prog, n.idx);
    MovedMore(w.running, prog[n.idx], n, j);
    DataWrites(sources[n.idx], size, prog[n.idx], w.buffers[n.idx], w.out, Offset(Sizes(sources), n.idx), w.running[n], j);
  }

  lemma DataTransferWrite(sources: seq<seq<byte>>, size: nat, plan: map<Node, Task>, w: World, prog: seq<Progress>, n: Node, j: nat)
    requires IsPlan(plan, Sizes(sources), size) && Tracks(sources, size, plan, w, prog) && Data(sources, size, w, prog)
    requires Enabled(sources, plan, w, Transfer(n, j)) && n.idx < |prog| && n.op.Write?
    ensures Data(sources, size, Apply(sources, plan, w, Transfer(n, j)), prog)
  {
    hide IsPlan, Tracks, Enabled, Apply, Offset, SourceData, Moved;
    WriteAtHome(sources, size, plan, w, prog, n, j);
    WriteEffect(sources, plan, w, n, j);
    WritesInside(sources, size, plan, n, j);
    var running' := w.running[n := w.running[n] + {j}];
    forall k | 0 <= k < |sources| && k != n.idx
      ensures SourceData(sources[k], size, prog[k], w.buffers[k], w.out[plan[n].at + j := w.buffers[n.idx][j]],
                         Offset(Sizes(sources), k), Moved(running', prog[k], k))
    {
      OthersStill(w.running, running', n, prog[k], k);
      WriteElsewhere(sources, size, w, prog, k, n.idx, plan[n].at + j, w.buffers[n.idx][j]);
    }
  }

  // The count.

  lemma {:induction false} CountedUpdate(sources: seq<seq<byte>>, size: nat, prog: seq<Progress>, i: nat, p: Progress)
    requires |sources| == |prog| && i < |prog|
    ensures Counted(sources, size, prog[i := p])
         == Counted(sources, size, prog) - Upto(|sources[i]|, prog[i].c, size) + Upto(|sources[i]|, p.c, size)
  {
    var n := |sources| - 1;
    if i == n {
      assert prog[i := p][..n] == prog[..n];
    } else {
      CountedUpdate(sources[..n], size, prog[..n], i, p);
      assert prog[i := p][..n] == prog[..n][i := p];
    }
  }

  lemma CountStep(sources: seq<seq<byte>>, size: nat, plan: map<Node, Task>, w: World, prog: seq<Progress>, step: Step)
    requires IsPlan(plan, Sizes(sources), size) && Inv(sources, size, plan, w, prog)
    requires Enabled(sources, plan, w, step) && step.n.idx < |prog|
    ensures Apply(sources, plan, w, step).written == Counted(sources, size, Advance(prog, step))
  {
    var n := step.n;
    hide Data, Counted, Upto, Begins, IsPlan;
    match step {
      case Begin(_) => CountedUpdate(sources, size, prog, n.idx, Onward(prog[n.idx], step));
      case Transfer(_, _) => assert Advance(prog, step) == prog;
      case End(_) =>
        RunsNow(sources, size, plan, w, prog, n);
        UptoNext(|sources[n.idx]|, n.chunk, size);
        CountedUpdate(sources, size, prog, n.idx, Onward(prog[n.idx], step));
    }
  }

  lemma NodeInRange(sources: seq<seq<byte>>, size: nat, plan: map<Node, Task>, w: World, prog: seq<Progress>, step: Step)
    requires Tracks(sources, size, plan, w, prog) && Enabled(sources, plan, w, step)
    ensures step.n.idx < |prog| && (step.Transfer? ==> !step.n.op.Count? && Advance(prog, step) == prog)
  {}

  lemma StepKeepsInv(sources: seq<seq<byte>>, size: nat, plan: map<Node, Task>, w: World, prog: seq<Progress>, step: Step)
    requires IsPlan(plan, Sizes(sources), size) && Inv(sources, size, plan, w, prog)
    requires Enabled(sources, plan, w, step)
    ensures step.n.idx < |prog| && Inv(sources, size, plan, Apply(sources, plan, w, step), Advance(prog, step))
  {
    NodeInRange(sources, size, plan, w, prog, step);
    hide Tracks, Data, IsPlan, Counted, Apply, Enabled;
    CountStep(sources, size, plan, w, prog, step);
    match step {
      case Begin(n) =>
        TracksBegin(sources, size, plan, w, prog, n);
        DataBegin(sources, size, plan, w, prog, n);
      case End(n) =>
        TracksEnd(sources, size, plan, w, prog, n);
        DataEnd(sources, size, plan, w, prog, n);
      case Transfer(n, j) =>
        TracksTransfer(sources, size, plan, w, prog, n, j);
        if n.op.Read? {
          DataTransferRead(sources, size, plan, w, prog, n, j);
        } else {
          DataTransferWrite(sources, size, plan, w, prog, n, j);
        }
    }
  }
}
