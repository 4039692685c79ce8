/** Scheduling a parallel file concatenation: every source is cut in chunks, and each chunk is read, written and
    counted in turn through the source's one scratch buffer. */
module ConcatPlan {

  datatype Op = Read | Write | Count

  /** An asynchronous operation: what it does, for which source, on which chunk. */
  datatype Node = Node(op: Op, idx: nat, chunk: nat)

  datatype Dependency = Resized | After(node: Node)

  datatype Place = Place(offset: nat, bytes: nat)

  datatype Task = Task(at: nat, amount: nat, after: Dependency)

  /** Where chunk c begins. */
  function Begins(c: nat, size: nat): nat {
    if c == 0 then 0 else Begins(c - 1, size) + size
  }

  /** How much of the source the first c chunks hold. */
  function Upto(bytes: nat, c: nat, size: nat): (n: nat)
    ensures n <= bytes
  {
    if Begins(c, size) < bytes then Begins(c, size) else bytes
  }

  /** Where source i begins in the output. */
  function Offset(sizes: seq<nat>, i: nat): nat
    requires i <= |sizes|
  {
    if i == 0 then 0 else Offset(sizes, i - 1) + sizes[i - 1]
  }

  predicate Needed(n: Node, sizes: seq<nat>, size: nat) {
    n.idx < |sizes| && Begins(n.chunk, size) < sizes[n.idx]
  }

  /** What the operation has to do, and after which other. */
  function TaskOf(n: Node, sizes: seq<nat>, size: nat): Task
    requires Needed(n, sizes, size)
  {
    var o := Begins(n.chunk, size);
    var left := sizes[n.idx] - o;
    var amount := if left > size then size else left;
    match n.op
    case Read => Task(o, amount, if n.chunk == 0 then Resized else After(Node(Count, n.idx, n.chunk - 1)))
    case Write => Task(Offset(sizes, n.idx) + o, amount, After(Node(Read, n.idx, n.chunk)))
    case Count => Task(0, amount, After(Node(Write, n.idx, n.chunk)))
  }

  ghost predicate IsPlan(plan: map<Node, Task>, sizes: seq<nat>, size: nat) {
    && (forall n :: n in plan <==> Needed(n, sizes, size))
    && (forall n :: n in plan ==> plan[n] == TaskOf(n, sizes, size))
  }

  /** What to wait for after c rounds of scheduling. */
  function Last(i: nat, bytes: nat, c: nat, size: nat): Dependency {
    if c == 0 then Resized
    else if Begins(c - 1, size) < bytes then After(Node(Count, i, c - 1))
    else Last(i, bytes, c - 1, size)
  }

  /** The dependency stands for all of source i: an empty one has nothing to wait for, another its last chunk. */
  predicate IsLast(d: Dependency, i: nat, bytes: nat, size: nat) {
    if bytes == 0 then d.Resized?
    else
      && d.After? && d.node.op.Count? && d.node.idx == i
      && Begins(d.node.chunk, size) < bytes <= Begins(d.node.chunk + 1, size)
  }

  lemma {:induction false} LastIsLast(i: nat, bytes: nat, c: nat, size: nat)
    requires Begins(c, size) >= bytes
    ensures IsLast(Last(i, bytes, c, size), i, bytes, size)
  {
    if c == 0 {
    } else if Begins(c - 1, size) >= bytes {
      LastIsLast(i, bytes, c - 1, size);
    }
  }

  lemma {:induction false} BeginsMonotone(c: nat, d: nat, size: nat)
    requires c <= d
    ensures Begins(c, size) <= Begins(d, size)
    decreases d
  {
    if c < d {
      BeginsMonotone(c, d - 1, size);
    }
  }

  /** What one round of scheduling adds for one source. */
  function AddChunk(plan: map<Node, Task>, i: nat, c: nat, offset: nat, o: nat, amount: nat, last: Dependency): map<Node, Task> {
    plan[Node(Read, i, c) := Task(o, amount, last)]
        [Node(Write, i, c) := Task(offset + o, amount, After(Node(Read, i, c)))]
        [Node(Count, i, c) := Task(0, amount, After(Node(Write, i, c)))]
  }

  /** The plan after c whole rounds and i sources of the next. */
  ghost predicate PlanSoFar(plan: map<Node, Task>, sizes: seq<nat>, size: nat, c: nat, i: nat) {
    && (forall n :: n in plan <==> Needed(n, sizes, size) && (n.chunk < c || (n.chunk == c && n.idx < i)))
    && (forall n :: n in plan ==> plan[n] == TaskOf(n, sizes, size))
  }

  lemma NoOffset(sizes: seq<nat>)
    ensures Offset(sizes, 0) == 0
  {}

  lemma OffsetNext(sizes: seq<nat>, i: nat)
    requires i < |sizes|
    ensures Offset(sizes, i + 1) == Offset(sizes, i) + sizes[i]
  {}

  /** The output offset and length of every source, and the total. */
  method Layout(sizes: seq<nat>) returns (offsets: seq<Place>, total: nat, longest: nat)
    ensures |offsets| == |sizes|
    ensures forall i :: 0 <= i < |sizes| ==> offsets[i] == Place(Offset(sizes, i), sizes[i])
    ensures total == Offset(sizes, |sizes|)
    ensures forall i :: 0 <= i < |sizes| ==> sizes[i] <= longest
  {
    hide Offset;
    NoOffset(sizes);
    var offset := 0;
    offsets, longest := [], 0;
    for i := 0 to |sizes|
      invariant |offsets| == i && offset == Offset(sizes, i)
      invariant forall j :: 0 <= j < i ==> offsets[j] == Place(Offset(sizes, j), sizes[j]) && sizes[j] <= longest
    {
      OffsetNext(sizes, i);
      var bytes := sizes[i];
      if bytes > longest {
        longest := bytes;
      }
      offsets := offsets + [Place(offset, bytes)];
      offset := offset + bytes;
    }
    total := offset;
  }

  /** Schedules everything: a plan with exactly the operations needed, each waiting for the right other, and for
      every source the operation that ends its chain. */
  method Schedule(sizes: seq<nat>, size: nat) returns (total: nat, plan: map<Node, Task>, lasts: seq<Dependency>)
    requires size > 0
    ensures total == Offset(sizes, |sizes|)
    ensures IsPlan(plan, sizes, size)
    ensures |lasts| == |sizes|
    ensures forall i :: 0 <= i < |sizes| ==> IsLast(lasts[i], i, sizes[i], size)
  {
    var offsets, sum, longest := Layout(sizes);
    total := sum;
    plan := map[];
    lasts := seq(|sizes|, _ => Resized);
    var o := 0;
    var c := 0;   // names the round's operations
    while o < longest
      invariant o == Begins(c, size) && |lasts| == |sizes|
      invariant PlanSoFar(plan, sizes, size, c, 0)
      invariant forall j :: 0 <= j < |sizes| ==> lasts[j] == Last(j, sizes[j], c, size)
    {
      plan, lasts := ScheduleRound(sizes, size, offsets, plan, lasts, o, c);
      o, c := o + size, c + 1;
    }
    AllNeeded(plan, sizes, size, c);
    forall i | 0 <= i < |sizes| ensures IsLast(lasts[i], i, sizes[i], size) {
      LastIsLast(i, sizes[i], c, size);
    }
  }

  lemma AllNeeded(plan: map<Node, Task>, sizes: seq<nat>, size: nat, c: nat)
    requires PlanSoFar(plan, sizes, size, c, 0)
    requires forall i :: 0 <= i < |sizes| ==> sizes[i] <= Begins(c, size)
    ensures IsPlan(plan, sizes, size)
  {
    forall n | Needed(n, sizes, size) ensures n.chunk < c {
      if n.chunk >= c {
        BeginsMonotone(c, n.chunk, size);
      }
    }
  }

  /** The inner loop: one chunk for every source that still has one. */
  method ScheduleRound(sizes: seq<nat>, size: nat, offsets: seq<Place>, plan0: map<Node, Task>, lasts0: seq<Dependency>,
                       o: nat, c: nat)
    returns (plan: map<Node, Task>, lasts: seq<Dependency>)
    requires o == Begins(c, size) && |offsets| == |lasts0| == |sizes|
    requires forall i :: 0 <= i < |sizes| ==> offsets[i] == Place(Offset(sizes, i), sizes[i])
    requires PlanSoFar(plan0, sizes, size, c, 0)
    requires forall j :: 0 <= j < |sizes| ==> lasts0[j] == Last(j, sizes[j], c, size)
    ensures PlanSoFar(plan, sizes, size, c + 1, 0) && |lasts| == |sizes|
    ensures forall j :: 0 <= j < |sizes| ==> lasts[j] == Last(j, sizes[j], c + 1, size)
  {
    hide PlanSoFar, Last, Offset, Begins, AddChunk;
    plan, lasts := plan0, lasts0;
    for i := 0 to |sizes|
      invariant PlanSoFar(plan, sizes, size, c, i) && |lasts| == |sizes|
      invariant forall j :: 0 <= j < |sizes| ==> lasts[j] == Last(j, sizes[j], if j < i then c + 1 else c, size)
    {
      LastNext(i, sizes[i], c, size);
      var Place(offset, bytes) := offsets[i];
      if o < bytes {
        var thischunk := bytes - o;
        if thischunk > size {
          thischunk := size;
        }
        AddChunkStep(plan, sizes, size, c, i, thischunk, lasts[i]);
        plan := AddChunk(plan, i, c, offset, o, thischunk, lasts[i]);
        lasts := lasts[i := After(Node(Count, i, c))];
      } else {
        SkipChunkStep(plan, sizes, size, c, i);
      }
    }
    RoundDone(plan, sizes, size, c);
  }

  lemma LastNext(i: nat, bytes: nat, c: nat, size: nat)
    ensures Last(i, bytes, c + 1, size)
         == if Begins(c, size) < bytes then After(Node(Count, i, c)) else Last(i, bytes, c, size)
    ensures Begins(c, size) < bytes ==> Last(i, bytes, c, size) == if c == 0 then Resized else After(Node(Count, i, c - 1))
  {}

  lemma AddChunkStep(plan: map<Node, Task>, sizes: seq<nat>, size: nat, c: nat, i: nat, amount: nat, last: Dependency)
    requires PlanSoFar(plan, sizes, size, c, i) && i < |sizes| && Begins(c, size) < sizes[i]
    requires amount == if sizes[i] - Begins(c, size) > size then size else sizes[i] - Begins(c, size)
    requires last == if c == 0 then Resized else After(Node(Count, i, c - 1))
    ensures PlanSoFar(AddChunk(plan, i, c, Offset(sizes, i), Begins(c, size), amount, last), sizes, size, c, i + 1)
  {
    hide Offset, Begins;
    var next := AddChunk(plan, i, c, Offset(sizes, i), Begins(c, size), amount, last);
    forall n: Node | true
      ensures n in next <==> Needed(n, sizes, size) && (n.chunk < c || (n.chunk == c && n.idx < i + 1))
      ensures n in next ==> next[n] == TaskOf(n, sizes, size)
    {
      if n.idx == i && n.chunk == c {
        match n.op
        case Read => assert n == Node(Read, i, c);
        case Write => assert n == Node(Write, i, c);
        case Count => assert n == Node(Count, i, c);
      }
    }
  }

  lemma SkipChunkStep(plan: map<Node, Task>, sizes: seq<nat>, size: nat, c: nat, i: nat)
    requires PlanSoFar(plan, sizes, size, c, i) && i < |sizes| && Begins(c, size) >= sizes[i]
    ensures PlanSoFar(plan, sizes, size, c, i + 1)
  {}

  lemma RoundDone(plan: map<Node, Task>, sizes: seq<nat>, size: nat, c: nat)
    requires PlanSoFar(plan, sizes, size, c, |sizes|)
    ensures PlanSoFar(plan, sizes, size, c + 1, 0)
  {}
}
