/** What the concatenation promises, whatever the order its operations happen in. */
module ConcatTheorems {
  import opened ConcatPlan
  import opened ConcatRun

  function Fresh(n: nat): (prog: seq<Progress>)
    ensures |prog| == n && forall i :: 0 <= i < n ==> prog[i] == Progress(0, 0)
  {
    if n == 0 then [] else Fresh(n - 1) + [Progress(0, 0)]
  }

  lemma {:induction false} CountedFresh(sources: seq<seq<byte>>, size: nat)
    ensures Counted(sources, size, Fresh(|sources|)) == 0
  {
    if sources != [] {
      var n := |sources| - 1;
      assert Fresh(|sources|)[..n] == Fresh(n);
      CountedFresh(sources[..n], size);
    }
  }

  lemma InPlan(plan: map<Node, Task>, sources: seq<seq<byte>>, size: nat, n: Node)
    requires IsPlan(plan, Sizes(sources), size) && n in plan
    ensures n.idx < |sources| && Begins(n.chunk, size) < |sources[n.idx]|
  {}

  /** Every source has its place in the output. */
  lemma PlaceInside(sources: seq<seq<byte>>, i: nat)
    requires i < |sources|
    ensures Offset(Sizes(sources), i) + |sources[i]| <= Offset(Sizes(sources), |sources|)
  {
    OffsetNext(Sizes(sources), i);
    OffsetsMonotone(Sizes(sources), i + 1, |sources|);
  }

  lemma NothingYet(source: seq<byte>, size: nat, buffer: seq<byte>, out: seq<byte>, offset: nat)
    requires |buffer| == size && offset + |source| <= |out|
    ensures SourceData(source, size, Progress(0, 0), buffer, out, offset, {})
  {}

  lemma StartTracks(sources: seq<seq<byte>>, size: nat, plan: map<Node, Task>, w: World)
    requires IsPlan(plan, Sizes(sources), size) && Start(sources, size, w)
    ensures Tracks(sources, size, plan, w, Fresh(|sources|))
  {
    hide Offset, Begins, IsPlan, IsDone, IsRunning, Sane;
    forall n: Node | true ensures !IsDone(Progress(0, 0), n) && !IsRunning(Progress(0, 0), n) {
      NoneAtStart(n);
    }
    forall bytes: nat | true ensures Sane(Progress(0, 0), bytes, size) {
      SaneAtStart(bytes, size);
    }
    forall n | n in plan ensures n.idx < |sources| {
      InPlan(plan, sources, size, n);
    }
  }

  lemma NoneAtStart(n: Node)
    ensures !IsDone(Progress(0, 0), n) && !IsRunning(Progress(0, 0), n)
  {}

  lemma SaneAtStart(bytes: nat, size: nat)
    ensures Sane(Progress(0, 0), bytes, size)
  {}

  lemma StartInv(sources: seq<seq<byte>>, size: nat, plan: map<Node, Task>, w: World)
    requires IsPlan(plan, Sizes(sources), size) && Start(sources, size, w)
    ensures Inv(sources, size, plan, w, Fresh(|sources|))
  {
    hide Offset, IsPlan, Counted, Tracks, SourceData;
    CountedFresh(sources, size);
    StartTracks(sources, size, plan, w);
    forall i | 0 <= i < |sources|
      ensures SourceData(sources[i], size, Progress(0, 0), w.buffers[i], w.out, Offset(Sizes(sources), i), {})
    {
      PlaceInside(sources, i);
      NothingYet(sources[i], size, w.buffers[i], w.out, Offset(Sizes(sources), i));
    }
  }

  lemma {:induction false} RunInv(sources: seq<seq<byte>>, size: nat, plan: map<Node, Task>, w: World, prog: seq<Progress>,
                                  steps: seq<Step>, w': World) returns (prog': seq<Progress>)
    requires IsPlan(plan, Sizes(sources), size) && Inv(sources, size, plan, w, prog)
    requires Run(sources, plan, w, steps, w')
    ensures Inv(sources, size, plan, w', prog')
    decreases |steps|
  {
    hide Inv, IsPlan, Enabled, Apply;
    if steps == [] {
      prog' := prog;
    } else {
      StepKeepsInv(sources, size, plan, w, prog, steps[0]);
      prog' := RunInv(sources, size, plan, Apply(sources, plan, w, steps[0]), Advance(prog, steps[0]), steps[1..], w');
    }
  }

  /** Where the run has come to. */
  lemma Reached(sources: seq<seq<byte>>, size: nat, plan: map<Node, Task>, w: World, steps: seq<Step>, w': World)
    returns (prog: seq<Progress>)
    requires IsPlan(plan, Sizes(sources), size) && Start(sources, size, w) && Run(sources, plan, w, steps, w')
    ensures Inv(sources, size, plan, w', prog)
  {
    StartInv(sources, size, plan, w);
    prog := RunInv(sources, size, plan, w, Fresh(|sources|), steps, w');
  }

  ghost predicate AllLasts(lasts: seq<Dependency>, sources: seq<seq<byte>>, size: nat) {
    && |lasts| == |sources|
    && forall i :: 0 <= i < |sources| ==> IsLast(lasts[i], i, |sources[i]|, size)
  }

  ghost predicate AllReady(lasts: seq<Dependency>, w: World) {
    forall i :: 0 <= i < |lasts| ==> Ready(lasts[i], w.done)
  }

  lemma ProgressOf(sources: seq<seq<byte>>, size: nat, plan: map<Node, Task>, w: World, prog: seq<Progress>, n: Node)
    requires Tracks(sources, size, plan, w, prog)
    ensures n in w.done || n in w.running ==> n in plan
    ensures n in plan ==> n.idx < |prog|
    ensures n in plan ==> (n in w.done <==> IsDone(prog[n.idx], n)) && (n in w.running <==> IsRunning(prog[n.idx], n))
  {}

  lemma ProgressSane(sources: seq<seq<byte>>, size: nat, plan: map<Node, Task>, w: World, prog: seq<Progress>, i: nat)
    requires Tracks(sources, size, plan, w, prog) && i < |sources|
    ensures |prog| == |sources| && Sane(prog[i], |sources[i]|, size)
  {}

  lemma CompleteWhenLastDone(p: Progress, last: Dependency, i: nat, bytes: nat, size: nat)
    requires Sane(p, bytes, size) && IsLast(last, i, bytes, size) && (last.After? ==> IsDone(p, last.node))
    ensures Upto(bytes, p.c, size) == bytes && Settled(p, bytes, size) == bytes
  {
    if last.After? {
      BeginsMonotone(last.node.chunk + 1, p.c, size);
    }
  }

  /** The end of a source's chain is done only when all of it is in the output. */
  lemma SourceComplete(sources: seq<seq<byte>>, size: nat, plan: map<Node, Task>, w: World, prog: seq<Progress>, last: Dependency, i: nat)
    requires Inv(sources, size, plan, w, prog) && i < |sources|
    requires IsLast(last, i, |sources[i]|, size) && Ready(last, w.done)
    ensures Upto(|sources[i]|, prog[i].c, size) == |sources[i]| && Settled(prog[i], |sources[i]|, size) == |sources[i]|
  {
    hide Tracks, Data, Counted, IsDone, Upto, Settled;
    ProgressSane(sources, size, plan, w, prog, i);
    if last.After? {
      ProgressOf(sources, size, plan, w, prog, last.node);
    }
    CompleteWhenLastDone(prog[i], last, i, |sources[i]|, size);
  }

  lemma {:induction false} CountedAll(sources: seq<seq<byte>>, size: nat, prog: seq<Progress>)
    requires |prog| == |sources|
    requires forall i :: 0 <= i < |sources| ==> Upto(|sources[i]|, prog[i].c, size) == |sources[i]|
    ensures Counted(sources, size, prog) == |Concat(sources)|
  {
    if sources != [] {
      var n := |sources| - 1;
      CountedAll(sources[..n], size, prog[..n]);
    }
  }

  lemma {:induction false} OutputUpto(sources: seq<seq<byte>>, out: seq<byte>, i: nat)
    requires i <= |sources| && Offset(Sizes(sources), i) <= |out|
    requires forall j, k :: 0 <= j < i && 0 <= k < |sources[j]| ==> Placed(sources[j], out, Offset(Sizes(sources), j), k)
    ensures out[..Offset(Sizes(sources), i)] == Concat(sources[..i])
  {
    hide Offset;
    var sizes := Sizes(sources);
    NoOffset(sizes);
    if i > 0 {
      OffsetNext(sizes, i - 1);
      OutputUpto(sources, out, i - 1);
      assert sources[..i][..i - 1] == sources[..i - 1];
      var o := Offset(sizes, i - 1);
      var source := sources[i - 1];
      var part := out[o..o + |source|];
      forall k | 0 <= k < |source| ensures part[k] == source[k] {
        assert Placed(source, out, o, k);
      }
      assert out[..o + |source|] == out[..o] + part;
    }
  }

  /** In every order the dependencies allow, once all the sources' chains have ended the output is the sources
      one after another, and the count is its length. */
  lemma OutputIsConcatenation(sources: seq<seq<byte>>, size: nat, plan: map<Node, Task>, lasts: seq<Dependency>,
                              w: World, steps: seq<Step>, w': World)
    requires IsPlan(plan, Sizes(sources), size) && AllLasts(lasts, sources, size)
    requires Start(sources, size, w) && Run(sources, plan, w, steps, w') && AllReady(lasts, w')
    ensures w'.out == Concat(sources) && w'.written == |w'.out|
  {
    hide IsPlan, Start, Run, IsLast, Offset, Upto, Tracks, Settled;
    var prog := Reached(sources, size, plan, w, steps, w');
    forall i | 0 <= i < |sources|
      ensures Upto(|sources[i]|, prog[i].c, size) == |sources[i]| && Settled(prog[i], |sources[i]|, size) == |sources[i]|
    {
      SourceComplete(sources, size, plan, w', prog, lasts[i], i);
    }
    CountedAll(sources, size, prog);
    forall j, k | 0 <= j < |sources| && 0 <= k < |sources[j]|
      ensures Placed(sources[j], w'.out, Offset(Sizes(sources), j), k)
    {
      DataOf(sources, size, w', prog, j);
    }
    OutputUpto(sources, w'.out, |sources|);
    assert sources[..|sources|] == sources && w'.out[..|w'.out|] == w'.out;
  }

  lemma ChainOrder(p: Progress, n: Node, m: Node)
    requires IsRunning(p, n) && m.idx == n.idx && m != n
    ensures !IsRunning(p, m)
    ensures IsDone(p, m) <==> m.chunk < n.chunk || (m.chunk == n.chunk && Rank(m.op) < Rank(n.op))
  {}

  /** A buffer is filled again only when everything it held before was written and counted, and it is neither
      filled while it is written nor written before it is full. */
  lemma BufferNotReusedEarly(sources: seq<seq<byte>>, size: nat, plan: map<Node, Task>, w: World, steps: seq<Step>, w': World, n: Node, m: Node)
    requires IsPlan(plan, Sizes(sources), size) && Start(sources, size, w) && Run(sources, plan, w, steps, w')
    requires n in w'.running && m in plan && m.idx == n.idx && m != n
    ensures m !in w'.running
    ensures m in w'.done <==> m.chunk < n.chunk || (m.chunk == n.chunk && Rank(m.op) < Rank(n.op))
  {
    hide IsPlan, Start, Run, Tracks, Data, Counted, IsRunning, IsDone, Rank;
    var prog := Reached(sources, size, plan, w, steps, w');
    ProgressOf(sources, size, plan, w', prog, n);
    ProgressOf(sources, size, plan, w', prog, m);
    ChainOrder(prog[n.idx], n, m);
  }

  /** No operation ever leaves its buffer, its source or the output. */
  lemma AlwaysInBounds(sources: seq<seq<byte>>, size: nat, plan: map<Node, Task>, w: World, prog: seq<Progress>, n: Node)
    requires IsPlan(plan, Sizes(sources), size) && Inv(sources, size, plan, w, prog) && n in plan
    ensures InBounds(n, plan[n], sources, w)
  {
    hide Begins, Offset;
    InPlan(plan, sources, size, n);
    DataOf(sources, size, w, prog, n.idx);
  }

  /** What the source's chain does next. */
  function Next(p: Progress, i: nat): Node {
    Node(if p.stage < 2 then Read else if p.stage < 4 then Write else Count, i, p.c)
  }

  /** Until all chains have ended, something can begin, end, or move a byte not yet moved. */
  lemma NeverStuck(sources: seq<seq<byte>>, size: nat, plan: map<Node, Task>, lasts: seq<Dependency>,
                   w: World, steps: seq<Step>, w': World)
    requires IsPlan(plan, Sizes(sources), size) && AllLasts(lasts, sources, size)
    requires Start(sources, size, w) && Run(sources, plan, w, steps, w') && !AllReady(lasts, w')
    ensures exists step :: Enabled(sources, plan, w', step)
                        && (step.Transfer? ==> step.j !in w'.running[step.n])
  {
    var prog := Reached(sources, size, plan, w, steps, w');
    var i :| 0 <= i < |lasts| && !Ready(lasts[i], w'.done);
    ChainGoesOn(sources, size, plan, w', prog, lasts[i], i);
  }

  lemma NextInChain(p: Progress, i: nat, last: Dependency, sizes: seq<nat>, size: nat)
    requires i < |sizes| && Sane(p, sizes[i], size) && IsLast(last, i, sizes[i], size) && last.After? && !IsDone(p, last.node)
    ensures Needed(Next(p, i), sizes, size) && !IsDone(p, Next(p, i))
    ensures IsRunning(p, Next(p, i)) <==> p.stage % 2 == 1
    ensures var before := TaskOf(Next(p, i), sizes, size).after;
            before.After? ==> before.node.idx == i && Needed(before.node, sizes, size) && (p.stage % 2 == 0 ==> IsDone(p, before.node))
  {
    BeginsMonotone(p.c, last.node.chunk, size);
  }

  lemma ChainGoesOn(sources: seq<seq<byte>>, size: nat, plan: map<Node, Task>, w: World, prog: seq<Progress>, last: Dependency, i: nat)
    requires IsPlan(plan, Sizes(sources), size) && Inv(sources, size, plan, w, prog) && i < |sources|
    requires IsLast(last, i, |sources[i]|, size) && !Ready(last, w.done)
    ensures exists step :: Enabled(sources, plan, w, step)
                        && (step.Transfer? ==> step.j !in w.running[step.n])
  {
    hide Tracks, Data, Counted, IsDone, IsRunning, TaskOf, Needed, Next, InBounds;
    ProgressSane(sources, size, plan, w, prog, i);
    var p := prog[i];
    var n := Next(p, i);
    LastInPlan(last, i, Sizes(sources), size);
    ProgressOf(sources, size, plan, w, prog, last.node);
    NextInChain(p, i, last, Sizes(sources), size);
    NextIdx(p, i);
    ProgressOf(sources, size, plan, w, prog, n);
    AlwaysInBounds(sources, size, plan, w, prog, n);
    if p.stage % 2 == 0 {
      if plan[n].after.After? {
        ProgressOf(sources, size, plan, w, prog, plan[n].after.node);
      }
      assert Enabled(sources, plan, w, Begin(n));
    } else if n.op.Count? || forall j :: 0 <= j < plan[n].amount ==> j in w.running[n] {
      assert Enabled(sources, plan, w, End(n));
    } else {
      var j: nat :| j < plan[n].amount && j !in w.running[n];
      assert Enabled(sources, plan, w, Transfer(n, j));
    }
  }

  lemma LastInPlan(last: Dependency, i: nat, sizes: seq<nat>, size: nat)
    requires i < |sizes| && IsLast(last, i, sizes[i], size) && last.After?
    ensures Needed(last.node, sizes, size) && last.node.idx == i
  {}

  lemma NextIdx(p: Progress, i: nat)
    ensures Next(p, i).idx == i
  {}

  /** Byte k of source i is in chunk c. */
  predicate InChunk(sizes: seq<nat>, size: nat, i: nat, c: nat, k: nat) {
    && Needed(Node(Read, i, c), sizes, size)
    && var t := TaskOf(Node(Read, i, c), sizes, size);
       t.at <= k < t.at + t.amount
  }

  lemma {:induction false} ChunkOf(size: nat, k: nat, c: nat) returns (d: nat)
    requires k < Begins(c, size)
    ensures Begins(d, size) <= k < Begins(d + 1, size)
  {
    if Begins(c - 1, size) <= k {
      d := c - 1;
    } else {
      d := ChunkOf(size, k, c - 1);
    }
  }

  lemma {:induction false} ChunksReach(size: nat, k: nat)
    requires size > 0
    ensures k < Begins(k + 1, size)
  {
    if k > 0 {
      ChunksReach(size, k - 1);
    }
  }

  /** The chunks tile every source: each byte is read in one chunk and no other. */
  lemma ChunksTile(sizes: seq<nat>, size: nat, i: nat, k: nat)
    requires size > 0 && i < |sizes| && k < sizes[i]
    ensures exists c :: InChunk(sizes, size, i, c, k) && forall d :: InChunk(sizes, size, i, d, k) ==> d == c
  {
    ChunksReach(size, k);
    var c := ChunkOf(size, k, k + 1);
    assert InChunk(sizes, size, i, c, k);
    forall d | InChunk(sizes, size, i, d, k) ensures d == c {
      if d < c {
        BeginsMonotone(d + 1, c, size);
      } else if c < d {
        BeginsMonotone(c + 1, d, size);
      }
    }
  }
}
