/** RAII guards of an operation state's lock: whatever is done with them, the lock is held for as long as exactly
    one of them holds it, and a guard that does not hold it leaves it alone, so the state may be gone by then. */
module LockGuards {

  /** The lock of one operation state. */
  class StateLock {
    var held: bool
    var alive: bool               // the state has not been destroyed
    ghost var uses: nat           // how often it was locked or unlocked
    ghost var usesWhenGone: nat   // and how often it had been when the state was destroyed

    constructor ()
      ensures !held && alive && uses == 0
    {
      held, alive, uses, usesWhenGone := false, true, 0, 0;
    }

    /** Spins until the lock is free, so on return it was. */
    method Lock()
      requires alive && !held
      modifies this`held, this`uses
      ensures held && uses == old(uses) + 1
    {
      held := true;
      uses := uses + 1;
    }

    method Unlock()
      requires alive && held
      modifies this`held, this`uses
      ensures !held && uses == old(uses) + 1
    {
      held := false;
      uses := uses + 1;
    }

    method Die()
      requires alive && !held
      modifies this`alive, this`usesWhenGone
      ensures !alive && usesWhenGone == uses
    {
      alive, usesWhenGone := false, uses;
    }
  }

  class LockGuard {
    var state: StateLock?
    var isLocked: bool

    /** The lock this guard holds, if any. */
    function Holding(): StateLock?
      reads this
    {
      if isLocked then state else null
    }

    constructor (s: StateLock, lock: bool)
      requires lock ==> s.alive && !s.held
      modifies if lock then {s} else {}
      ensures state == s && isLocked == lock
      ensures lock ==> s.held && s.uses == old(s.uses) + 1 && s.alive && s.usesWhenGone == old(s.usesWhenGone)
    {
      state, isLocked := s, lock;
      new;
      if lock {
        s.Lock();
      }
    }

    /** Move construction leaves the source's own flag as it was, and takes its state away. */
    constructor Move(o: LockGuard)
      modifies o`state
      ensures state == old(o.state) && isLocked == old(o.isLocked) && o.state == null
    {
      state, isLocked := o.state, o.isLocked;
      new;
      o.state := null;
    }

    /** Unlocking, the destructor, only touches a lock this guard holds. */
    method Unlock()
      requires state != null && isLocked ==> state.alive && state.held
      modifies this`isLocked, if state != null && isLocked then {state} else {}
      ensures state == old(state) && (isLocked <==> old(isLocked) && state == null)
      ensures state != null && old(isLocked) ==>
                !state.held && state.uses == old(state.uses) + 1 && state.alive && state.usesWhenGone == old(state.usesWhenGone)
    {
      if state != null && isLocked {
        state.Unlock();
        isLocked := false;
      }
    }

    method Lock()
      requires state != null && !isLocked ==> state.alive && !state.held
      modifies this`isLocked, if state != null && !isLocked then {state} else {}
      ensures state == old(state) && (state != null ==> isLocked) && (state == null ==> isLocked == old(isLocked))
      ensures state != null && !old(isLocked) ==>
                state.held && state.uses == old(state.uses) + 1 && state.alive && state.usesWhenGone == old(state.usesWhenGone)
    {
      if state != null && !isLocked {
        state.Lock();
        isLocked := true;
      }
    }

    method Destroy()
      requires state != null && isLocked ==> state.alive && state.held
      modifies this`isLocked, if state != null && isLocked then {state} else {}
      ensures state == old(state) && (isLocked <==> old(isLocked) && state == null)
      ensures state != null && old(isLocked) ==>
                !state.held && state.uses == old(state.uses) + 1 && state.alive && state.usesWhenGone == old(state.usesWhenGone)
    {
      Unlock();
    }

    /** Destroys itself and moves o into its place; from itself, that leaves it without a state. */
    method MoveAssign(o: LockGuard)
      requires state != null && isLocked ==> state.alive && state.held
      modifies this, o`state, if state != null && isLocked then {state} else {}
      ensures if o == this then state == null && (isLocked <==> old(isLocked && state == null))
              else state == old(o.state) && isLocked == old(o.isLocked) && o.state == null
      ensures old(state) != null && old(isLocked) ==>
                && !old(state).held && old(state).uses == old(state.uses) + 1 && old(state).alive
                && old(state).usesWhenGone == old(state.usesWhenGone)
    {
      Destroy();
      state, isLocked := o.state, o.isLocked;
      o.state := null;
    }
  }

  // Balance.

  /** Lock l is held exactly if one of the guards, and no other, holds it. */
  ghost predicate HeldOnce(held: bool, holdings: seq<StateLock?>, l: StateLock) {
    && (held <==> l in holdings)
    && forall i, j :: 0 <= i < j < |holdings| ==> !(holdings[i] == l && holdings[j] == l)
  }

  lemma LetGo(held: bool, holdings: seq<StateLock?>, i: nat, l: StateLock)
    requires HeldOnce(held, holdings, l) && i < |holdings|
    ensures HeldOnce(held && holdings[i] != l, holdings[i := null], l)
  {
    if held && holdings[i] != l {
      var j :| 0 <= j < |holdings| && holdings[j] == l;
      assert holdings[i := null][j] == l;
    }
  }

  lemma TakeUp(held: bool, holdings: seq<StateLock?>, i: nat, x: StateLock?, l: StateLock)
    requires HeldOnce(held, holdings, l) && i < |holdings| && holdings[i] == null && (x == l ==> !held)
    ensures HeldOnce(held || x == l, holdings[i := x], l)
  {
    var after := holdings[i := x];
    assert after[i] == x;
    if held {
      var j :| 0 <= j < |holdings| && holdings[j] == l;
      assert after[j] == l;
    }
  }

  /** What guard `to` holds is let go, and it takes over what guard `from` holds. */
  lemma HandOver(held: bool, holdings: seq<StateLock?>, to: nat, from: nat, l: StateLock)
    requires HeldOnce(held, holdings, l) && to < |holdings| && from < |holdings|
    ensures HeldOnce(held && (to == from || holdings[to] != l), holdings[from := null][to := holdings[from]], l)
  {
    if to == from {
      assert holdings[from := null][to := holdings[from]] == holdings;
    } else {
      var free, still := holdings[to := null], held && holdings[to] != l;
      LetGo(held, holdings, to, l);
      LetGo(still, free, from, l);
      var x := holdings[from];
      TakeUp(still && x != l, free[from := null], to, x, l);
      assert free[from := null][to := x] == holdings[from := null][to := x];
      assert x == l ==> free[from] == l;
    }
  }

  ghost function Holdings(gs: seq<LockGuard>): (hs: seq<StateLock?>)
    reads gs
    ensures |hs| == |gs| && forall i :: 0 <= i < |gs| ==> hs[i] == gs[i].Holding()
  {
    seq(|gs|, i requires 0 <= i < |gs| reads gs => gs[i].Holding())
  }

  /** Every lock is balanced, and one whose state is gone is free and has not been touched since. */
  ghost predicate Balanced(ls: seq<StateLock>, gs: seq<LockGuard>)
    reads ls, gs
  {
    && (forall i, j :: 0 <= i < j < |gs| ==> gs[i] != gs[j])
    && (forall i :: 0 <= i < |gs| && gs[i].state != null ==> gs[i].state in ls)
    && (forall l :: l in ls ==> HeldOnce(l.held, Holdings(gs), l))
    && (forall l :: l in ls && !l.alive ==> !l.held && l.uses == l.usesWhenGone)
  }

  lemma HolderHolds(ls: seq<StateLock>, gs: seq<LockGuard>, i: nat)
    requires Balanced(ls, gs) && i < |gs| && gs[i].Holding() != null
    ensures gs[i].state.held && gs[i].state.alive && gs[i].state in ls
  {
    assert Holdings(gs)[i] == gs[i].state;
  }

  // Programs.

  datatype Cmd =
    | Construct(to: nat, k: nat, lock: bool)   // a new guard of state k takes the place of guard `to`
    | MoveConstruct(to: nat, from: nat)        // a guard move-constructed from `from` takes the place of `to`
    | MoveAssign(to: nat, from: nat)
    | LockNow(to: nat)
    | UnlockNow(to: nat)
    | Drop(to: nat)
    | Kill(k: nat)                             // the state is destroyed

  predicate InScope(c: Cmd, ls: nat, gs: nat) {
    match c
    case Construct(to, k, _) => to < gs && k < ls
    case MoveConstruct(to, from) => to < gs && from < gs
    case MoveAssign(to, from) => to < gs && from < gs
    case LockNow(to) => to < gs
    case UnlockNow(to) => to < gs
    case Drop(to) => to < gs
    case Kill(k) => k < ls
  }

  // What each command does to every guard.

  /** The value of a guard. */
  datatype Grip = Grip(state: StateLock?, isLocked: bool) {
    function Holding(): StateLock? { if isLocked then state else null }

    function LetGo(): Grip { Grip(state, isLocked && state == null) }

    function Emptied(): Grip { Grip(null, isLocked) }
  }

  /** All guards, and the states that are gone. */
  datatype Scene = Scene(grips: seq<Grip>, gone: set<StateLock>)

  ghost predicate Taken(grips: seq<Grip>, l: StateLock) {
    exists i :: 0 <= i < |grips| && grips[i].Holding() == l
  }

  ghost function After(s: Scene, ls: seq<StateLock>, c: Cmd): (t: Scene)
    requires InScope(c, |ls|, |s.grips|)
    ensures |t.grips| == |s.grips|
  {
    var g := s.grips;
    match c
    case Construct(to, k, lock) =>
      var free := g[to := g[to].LetGo()];
      s.(grips := if lock && (ls[k] in s.gone || Taken(free, ls[k])) then free else free[to := Grip(ls[k], lock)])
    case MoveConstruct(to, from) => s.(grips := g[from := g[from].Emptied()][to := g[from]])
    case MoveAssign(to, from) =>
      s.(grips := if to == from then g[to := g[to].LetGo().Emptied()] else g[from := g[from].Emptied()][to := g[from]])
    case LockNow(to) =>
      if g[to].state != null && g[to].state !in s.gone && !Taken(g, g[to].state) then s.(grips := g[to := Grip(g[to].state, true)])
      else s
    case UnlockNow(to) => s.(grips := g[to := g[to].LetGo()])
    case Drop(to) => s.(grips := g[to := g[to].LetGo()])
    case Kill(k) => if Taken(g, ls[k]) then s else s.(gone := s.gone + {ls[k]})
  }

  ghost function AfterAll(s: Scene, ls: seq<StateLock>, program: seq<Cmd>): (t: Scene)
    requires forall c :: c in program ==> InScope(c, |ls|, |s.grips|)
    ensures |t.grips| == |s.grips|
    decreases |program|
  {
    if program == [] then s else AfterAll(After(s, ls, program[0]), ls, program[1..])
  }

  lemma {:induction false} AfterAllNext(s: Scene, ls: seq<StateLock>, program: seq<Cmd>, c: Cmd)
    requires (forall b :: b in program ==> InScope(b, |ls|, |s.grips|)) && InScope(c, |ls|, |s.grips|)
    ensures forall b :: b in program + [c] ==> InScope(b, |ls|, |s.grips|)
    ensures AfterAll(s, ls, program + [c]) == After(AfterAll(s, ls, program), ls, c)
    decreases |program|
  {
    hide After;
    if program == [] {
      assert program + [c] == [c] && [c][1..] == [];
    } else {
      assert program[0] in program;
      AfterAllNext(After(s, ls, program[0]), ls, program[1..], c);
      assert (program + [c])[1..] == program[1..] + [c];
    }
  }

  datatype Place = At(i: nat) | Nowhere

  /** Where a lock that guard i holds is held after a command: it goes along with moves to other guards, and is let go
      when its guard is moved to itself, unlocked, destroyed or replaced. */
  function Follow(i: nat, c: Cmd): Place {
    match c
    case MoveConstruct(to, from) => if from == i then At(to) else if to == i then Nowhere else At(i)
    case MoveAssign(to, from) => if to == i then Nowhere else if from == i then At(to) else At(i)
    case Construct(to, _, _) => if to == i then Nowhere else At(i)
    case UnlockNow(to) => if to == i then Nowhere else At(i)
    case Drop(to) => if to == i then Nowhere else At(i)
    case _ => At(i)
  }

  function FollowAll(i: nat, program: seq<Cmd>): Place
    decreases |program|
  {
    if program == [] then At(i)
    else
      match Follow(i, program[0])
      case At(j) => FollowAll(j, program[1..])
      case Nowhere => Nowhere
  }

  /** Whatever else is done, a lock stays held by the guard it was last moved to. */
  lemma {:induction false} HeldWhereMoved(s: Scene, ls: seq<StateLock>, program: seq<Cmd>, i: nat)
    requires i < |s.grips| && (forall c :: c in program ==> InScope(c, |ls|, |s.grips|)) && s.grips[i].Holding() != null
    ensures var at := FollowAll(i, program); at.At? ==> at.i < |s.grips| && AfterAll(s, ls, program).grips[at.i] == s.grips[i]
    decreases |program|
  {
    if program != [] {
      var c := program[0];
      assert c in program;
      if Follow(i, c).At? {
        FollowOne(s, ls, c, i);
        HeldWhereMoved(After(s, ls, c), ls, program[1..], Follow(i, c).i);
      }
    }
  }

  lemma FollowOne(s: Scene, ls: seq<StateLock>, c: Cmd, i: nat)
    requires i < |s.grips| && InScope(c, |ls|, |s.grips|) && s.grips[i].Holding() != null && Follow(i, c).At?
    ensures Follow(i, c).i < |s.grips| && After(s, ls, c).grips[Follow(i, c).i] == s.grips[i]
  {}

  /** A guard constructed to lock a free lock, or told to, holds it. */
  lemma TakesFreeLock(s: Scene, ls: seq<StateLock>, c: Cmd)
    requires InScope(c, |ls|, |s.grips|) && (c.Construct? || c.LockNow?)
    requires var l := if c.Construct? then ls[c.k] else s.grips[c.to].state; l != null && l !in s.gone && !Taken(s.grips, l)
    ensures var l := if c.Construct? then ls[c.k] else s.grips[c.to].state;
            After(s, ls, c).grips[c.to] == Grip(l, c.Construct? ==> c.lock)
  {
    if c.Construct? {
      LetGoTakesNothing(s.grips, c.to, ls[c.k]);
    }
  }

  lemma LetGoTakesNothing(grips: seq<Grip>, i: nat, l: StateLock)
    requires i < |grips| && !Taken(grips, l)
    ensures !Taken(grips[i := grips[i].LetGo()], l)
  {
    var free := grips[i := grips[i].LetGo()];
    forall j | 0 <= j < |free| ensures free[j].Holding() != l {
      assert grips[j].Holding() != l;
    }
  }

  ghost function Grips(gs: seq<LockGuard>): (grips: seq<Grip>)
    reads gs
    ensures |grips| == |gs| && forall i :: 0 <= i < |gs| ==> grips[i] == Grip(gs[i].state, gs[i].isLocked)
  {
    seq(|gs|, i requires 0 <= i < |gs| reads gs => Grip(gs[i].state, gs[i].isLocked))
  }

  ghost function Gone(ls: seq<StateLock>): set<StateLock>
    reads ls
  {
    set l | l in ls && !l.alive
  }

  ghost function Now(ls: seq<StateLock>, gs: seq<LockGuard>): Scene
    reads ls, gs
  {
    Scene(Grips(gs), Gone(ls))
  }

  lemma HeldIsTaken(ls: seq<StateLock>, gs: seq<LockGuard>, l: StateLock)
    requires Balanced(ls, gs) && l in ls
    ensures l.held <==> Taken(Grips(gs), l)
  {
    if l.held {
      var i :| 0 <= i < |gs| && Holdings(gs)[i] == l;
      assert Grips(gs)[i].Holding() == l;
    }
    if Taken(Grips(gs), l) {
      var i :| 0 <= i < |gs| && Grips(gs)[i].Holding() == l;
      assert Holdings(gs)[i] == l;
    }
  }

  /** The lock that guard i holds, if any, may be let go. */
  ghost predicate MayLetGo(ls: seq<StateLock>, g: LockGuard)
    reads ls, g
  {
    g.Holding() != null ==> g.state in ls && g.state.held && g.state.alive
  }

  /** One lock, if any, has been let go, and the others are as they were. */
  twostate predicate LetGoOnly(ls: seq<StateLock>, x: StateLock?)
    reads ls
  {
    forall l :: l in ls ==>
      && l.alive == old(l.alive) && l.usesWhenGone == old(l.usesWhenGone)
      && (if l == x then !l.held && l.alive else l.held == old(l.held) && l.uses == old(l.uses))
  }

  method UnlockSlots(ls: seq<StateLock>, gs: seq<LockGuard>, i: nat, destroy: bool)
    requires i < |gs| && MayLetGo(ls, gs[i]) && forall j, k :: 0 <= j < k < |gs| ==> gs[j] != gs[k]
    modifies gs, ls
    ensures LetGoOnly(ls, old(gs[i].Holding()))
    ensures Grips(gs) == old(Grips(gs))[i := old(Grips(gs))[i].LetGo()]
    ensures Holdings(gs) == old(Holdings(gs))[i := null]
  {
    if destroy {
      gs[i].Destroy();
    } else {
      gs[i].Unlock();
    }
  }

  method UnlockGuard(ls: seq<StateLock>, gs: seq<LockGuard>, i: nat, destroy: bool)
    requires Balanced(ls, gs) && i < |gs|
    modifies gs, ls
    ensures Balanced(ls, gs) && Holdings(gs) == old(Holdings(gs))[i := null]
    ensures Grips(gs) == old(Grips(gs))[i := old(Grips(gs))[i].LetGo()]
    ensures forall l :: l in ls ==> l.alive == old(l.alive)
  {
    hide HeldOnce;
    ghost var before := Holdings(gs);
    if gs[i].Holding() != null {
      HolderHolds(ls, gs, i);
    }
    UnlockSlots(ls, gs, i, destroy);
    forall l | l in ls ensures HeldOnce(l.held, Holdings(gs), l) {
      LetGo(old(l.held), before, i, l);
    }
  }

  /** A thread asks guard i for its lock. While the lock is held it waits, and it does not ask for one that is gone. */
  method LockGuardNow(ls: seq<StateLock>, gs: seq<LockGuard>, i: nat)
    requires Balanced(ls, gs) && i < |gs|
    modifies gs, ls
    ensures Balanced(ls, gs)
    ensures forall l :: l in ls ==> l.alive == old(l.alive)
    ensures Gone(ls) == old(Gone(ls))
    ensures var g := old(Grips(gs));
            Grips(gs) == if g[i].state != null && g[i].state !in old(Gone(ls)) && !Taken(g, g[i].state)
                         then g[i := Grip(g[i].state, true)] else g
  {
    hide HeldOnce, Taken;
    if gs[i].state != null {
      HeldIsTaken(ls, gs, gs[i].state);
    }
    ghost var before := Holdings(gs);
    var state := gs[i].state;
    if state != null && !gs[i].isLocked && state.alive && !state.held {
      gs[i].Lock();
      assert Holdings(gs) == before[i := state];
      forall l | l in ls ensures HeldOnce(l.held, Holdings(gs), l) {
        TakeUp(old(l.held), before, i, state, l);
      }
    } else if state != null && !state.held && gs[i].isLocked {
      HolderHolds(ls, gs, i);
    }
  }

  method MoveAssignSlots(ls: seq<StateLock>, gs: seq<LockGuard>, to: nat, from: nat)
    requires to < |gs| && from < |gs| && MayLetGo(ls, gs[to]) && forall i, j :: 0 <= i < j < |gs| ==> gs[i] != gs[j]
    modifies gs, ls
    ensures LetGoOnly(ls, old(gs[to].Holding()))
    ensures var g := old(Grips(gs));
            Grips(gs) == if to == from then g[to := g[to].LetGo().Emptied()] else g[from := g[from].Emptied()][to := g[from]]
    ensures Holdings(gs) == if to == from then old(Holdings(gs))[to := null]
                            else old(Holdings(gs))[from := null][to := old(Holdings(gs))[from]]
  {
    gs[to].MoveAssign(gs[from]);
  }

  method MoveConstructSlots(ls: seq<StateLock>, gs: seq<LockGuard>, to: nat, from: nat) returns (gs': seq<LockGuard>)
    requires to < |gs| && from < |gs| && MayLetGo(ls, gs[to]) && forall i, j :: 0 <= i < j < |gs| ==> gs[i] != gs[j]
    modifies gs, ls
    ensures |gs'| == |gs| && fresh(gs'[to]) && gs' == gs[to := gs'[to]]
    ensures LetGoOnly(ls, if to == from then null else old(gs[to].Holding()))
    ensures var g := old(Grips(gs)); Grips(gs') == g[from := g[from].Emptied()][to := g[from]]
    ensures Holdings(gs') == old(Holdings(gs))[from := null][to := old(Holdings(gs))[from]]
  {
    var g := new LockGuard.Move(gs[from]);
    gs[to].Destroy();
    gs' := gs[to := g];
  }

  /** Move assignment, to itself too: there the guard lets go and is left without a state. */
  method MoveAssignGuard(ls: seq<StateLock>, gs: seq<LockGuard>, to: nat, from: nat)
    requires Balanced(ls, gs) && to < |gs| && from < |gs|
    modifies gs, ls
    ensures Balanced(ls, gs)
    ensures forall l :: l in ls ==> l.alive == old(l.alive)
    ensures var g := old(Grips(gs));
            Grips(gs) == if to == from then g[to := g[to].LetGo().Emptied()] else g[from := g[from].Emptied()][to := g[from]]
    ensures Holdings(gs) == if to == from then old(Holdings(gs))[to := null]
                            else old(Holdings(gs))[from := null][to := old(Holdings(gs))[from]]
  {
    hide HeldOnce;
    ghost var before := Holdings(gs);
    if gs[to].Holding() != null {
      HolderHolds(ls, gs, to);
    }
    MoveAssignSlots(ls, gs, to, from);
    forall l | l in ls ensures HeldOnce(l.held, Holdings(gs), l) {
      if to == from {
        LetGo(old(l.held), before, to, l);
      } else {
        HandOver(old(l.held), before, to, from, l);
      }
    }
  }

  /** A guard move-constructed from `from` replaces guard `to`, whose destructor then runs. */
  method MoveConstructGuard(ls: seq<StateLock>, gs: seq<LockGuard>, to: nat, from: nat) returns (gs': seq<LockGuard>)
    requires Balanced(ls, gs) && to < |gs| && from < |gs|
    modifies gs, ls
    ensures |gs'| == |gs| && fresh(gs'[to]) && gs' == gs[to := gs'[to]] && Balanced(ls, gs')
    ensures forall l :: l in ls ==> l.alive == old(l.alive)
    ensures Holdings(gs') == old(Holdings(gs))[from := null][to := old(Holdings(gs))[from]]
    ensures var g := old(Grips(gs)); Grips(gs') == g[from := g[from].Emptied()][to := g[from]]
  {
    hide HeldOnce;
    ghost var before := Holdings(gs);
    if gs[to].Holding() != null {
      HolderHolds(ls, gs, to);
    }
    gs' := MoveConstructSlots(ls, gs, to, from);
    forall l | l in ls ensures HeldOnce(l.held, Holdings(gs'), l) {
      HandOver(old(l.held), before, to, from, l);
    }
  }

  /** A new guard of state k replaces guard `to`, destroyed first. A thread that would lock it waits if it must. */
  method ConstructGuard(ls: seq<StateLock>, gs: seq<LockGuard>, to: nat, k: nat, lock: bool) returns (gs': seq<LockGuard>)
    requires Balanced(ls, gs) && to < |gs| && k < |ls|
    modifies gs, ls
    ensures |gs'| == |gs| && (gs'[to] == gs[to] || fresh(gs'[to])) && gs' == gs[to := gs'[to]] && Balanced(ls, gs')
    ensures forall l :: l in ls ==> l.alive == old(l.alive)
    ensures var g := old(Grips(gs));
            var free := g[to := g[to].LetGo()];
            Grips(gs') == if lock && (!ls[k].alive || Taken(free, ls[k])) then free else free[to := Grip(ls[k], lock)]
  {
    hide HeldOnce, Taken;
    UnlockGuard(ls, gs, to, true);
    HeldIsTaken(ls, gs, ls[k]);
    if lock && (ls[k].held || !ls[k].alive) {
      return gs;
    }
    gs' := AddGuard(ls, gs, to, k, lock);
  }

  method AddGuard(ls: seq<StateLock>, gs: seq<LockGuard>, to: nat, k: nat, lock: bool) returns (gs': seq<LockGuard>)
    requires Balanced(ls, gs) && to < |gs| && k < |ls| && gs[to].Holding() == null
    requires lock ==> ls[k].alive && !ls[k].held
    modifies ls
    ensures |gs'| == |gs| && fresh(gs'[to]) && gs' == gs[to := gs'[to]] && Balanced(ls, gs')
    ensures forall l :: l in ls ==> l.alive == old(l.alive)
    ensures Grips(gs') == old(Grips(gs))[to := Grip(ls[k], lock)]
  {
    hide HeldOnce;
    ghost var before := Holdings(gs);
    var g := new LockGuard(ls[k], lock);
    gs' := gs[to := g];
    ghost var x := if lock then ls[k] else null;
    assert Holdings(gs') == before[to := x];
    forall l | l in ls ensures HeldOnce(l.held, Holdings(gs'), l) {
      TakeUp(old(l.held), before, to, x, l);
    }
  }

  /** One command. */
  method Execute(c: Cmd, ls: seq<StateLock>, gs: seq<LockGuard>) returns (gs': seq<LockGuard>)
    requires InScope(c, |ls|, |gs|) && Balanced(ls, gs)
    modifies gs, ls
    ensures |gs'| == |gs| && Balanced(ls, gs')
    ensures forall i :: 0 <= i < |gs'| ==> gs'[i] in gs || fresh(gs'[i])
    ensures forall l :: l in ls && !old(l.alive) ==> !l.alive
    ensures Now(ls, gs') == After(old(Now(ls, gs)), ls, c)
  {
    hide Balanced, Taken, Grip.LetGo, Grip.Emptied;
    gs' := gs;
    match c {
      case Construct(to, k, lock) => gs' := ConstructGuard(ls, gs, to, k, lock);
      case MoveConstruct(to, from) => gs' := MoveConstructGuard(ls, gs, to, from);
      case MoveAssign(to, from) => MoveAssignGuard(ls, gs, to, from);
      case _ => ExecuteHere(c, ls, gs);
    }
  }

  /** A command to one guard or one state. */
  method ExecuteHere(c: Cmd, ls: seq<StateLock>, gs: seq<LockGuard>)
    requires InScope(c, |ls|, |gs|) && Balanced(ls, gs) && !c.Construct? && !c.MoveConstruct? && !c.MoveAssign?
    modifies gs, ls
    ensures Balanced(ls, gs)
    ensures forall l :: l in ls && !old(l.alive) ==> !l.alive
    ensures Now(ls, gs) == After(old(Now(ls, gs)), ls, c)
  {
    hide Balanced, Taken, Grip.LetGo, Grip.Emptied;
    match c {
      case LockNow(to) => LockGuardNow(ls, gs, to);
      case UnlockNow(to) => UnlockGuard(ls, gs, to, false);
      case Drop(to) => UnlockGuard(ls, gs, to, true);
      case Kill(k) => KillState(ls, gs, k);
    }
  }

  method KillState(ls: seq<StateLock>, gs: seq<LockGuard>, k: nat)
    requires Balanced(ls, gs) && k < |ls|
    modifies ls
    ensures Balanced(ls, gs) && Gone(ls) == old(if Taken(Grips(gs), ls[k]) then Gone(ls) else Gone(ls) + {ls[k]})
    ensures forall l :: l in ls && !old(l.alive) ==> !l.alive
  {
    hide HeldOnce, Taken;
    HeldIsTaken(ls, gs, ls[k]);
    if ls[k].alive && !ls[k].held {
      ls[k].Die();
    }
  }

  /** Through any program of constructions, moves, locks, unlocks and destructions, every lock is held exactly when
      one guard holds it and never by two; a state destroyed while nobody holds its lock is not touched again,
      whatever guards still refer to it. */
  method Perform(program: seq<Cmd>, ls: seq<StateLock>, gs: seq<LockGuard>) returns (gs': seq<LockGuard>)
    requires forall c :: c in program ==> InScope(c, |ls|, |gs|)
    requires Balanced(ls, gs)
    modifies gs, ls
    ensures |gs'| == |gs| && Balanced(ls, gs')
    ensures forall i :: 0 <= i < |gs'| ==> gs'[i] in gs || fresh(gs'[i])
    ensures forall l :: l in ls && !old(l.alive) ==> !l.alive
    ensures Now(ls, gs') == AfterAll(old(Now(ls, gs)), ls, program)
  {
    hide HeldOnce, After, Balanced, Now;
    gs' := gs;
    ghost var start := Now(ls, gs);
    NowIs(ls, gs);
    assert program[..0] == [];
    for n := 0 to |program|
      invariant |gs'| == |gs| && Balanced(ls, gs')
      invariant forall i :: 0 <= i < |gs'| ==> gs'[i] in gs || fresh(gs'[i])
      invariant forall l :: l in ls && !old(l.alive) ==> !l.alive
      invariant Now(ls, gs') == AfterAll(start, ls, program[..n])
    {
      gs' := Execute(program[n], ls, gs');
      AfterAllNext(start, ls, program[..n], program[n]);
      assert program[..n + 1] == program[..n] + [program[n]];
    }
    assert program[..|program|] == program;
  }

  lemma NowIs(ls: seq<StateLock>, gs: seq<LockGuard>)
    ensures |Now(ls, gs).grips| == |gs|
  {}

  /** And when at its end all guards are destroyed, every lock is free. */
  method Run(program: seq<Cmd>, ls: seq<StateLock>, gs: seq<LockGuard>) returns (gs': seq<LockGuard>)
    requires forall c :: c in program ==> InScope(c, |ls|, |gs|)
    requires Balanced(ls, gs)
    modifies gs, ls
    ensures |gs'| == |gs| && Balanced(ls, gs')
    ensures forall l :: l in ls ==> !l.held
  {
    hide HeldOnce;
    gs' := Perform(program, ls, gs);
    for n := 0 to |gs'|
      invariant Balanced(ls, gs')
      invariant forall i :: 0 <= i < n ==> Holdings(gs')[i] == null
    {
      UnlockGuard(ls, gs', n, true);
    }
    forall l | l in ls ensures !l.held {
      NobodyHolds(l.held, Holdings(gs'), l);
    }
  }

  lemma NobodyHolds(held: bool, holdings: seq<StateLock?>, l: StateLock)
    requires HeldOnce(held, holdings, l) && forall i :: 0 <= i < |holdings| ==> holdings[i] == null
    ensures !held
  {}
}
