/** RAII guards of locked byte ranges: whatever is done with them, a range is locked on its handle
    for as long as, and as often as, some guard owns it. */
module ExtentGuards {

  datatype LockKind = Unlocked | Shared | Exclusive

  /** A lockable handle, as far as its byte range locks go. */
  class Handle {
    var locked: multiset<(nat, nat)>     // (offset, length)

    constructor ()
      ensures locked == multiset{}
    {
      locked := multiset{};
    }

    /** The lock taken by lock_file_range; granted is its outcome. */
    method LockFileRange(offset: nat, length: nat, kind: LockKind, granted: bool) returns (g: Guard?)
      modifies this
      ensures locked == old(locked) + (if granted then multiset{(offset, length)} else multiset{})
      ensures if granted then g != null && fresh(g) && g.View() == Owner(this, offset, length, kind) else g == null
    {
      if !granted {
        return null;
      }
      locked := locked + multiset{(offset, length)};
      g := new Guard(this, offset, length, kind);
    }

    /** Only ever asked to unlock a range that is locked. */
    method UnlockFileRange(offset: nat, length: nat)
      requires (offset, length) in locked
      modifies this
      ensures locked == old(locked) - multiset{(offset, length)}
    {
      locked := locked - multiset{(offset, length)};
    }
  }

  /** The value of a guard. */
  datatype Slot = Free | Owner(h: Handle, offset: nat, length: nat, kind: LockKind)

  class Guard {
    var h: Handle?
    var offset: nat
    var length: nat
    var kind: LockKind

    constructor (h: Handle?, offset: nat, length: nat, kind: LockKind)
      ensures this.h == h && this.offset == offset && this.length == length && this.kind == kind
    {
      this.h, this.offset, this.length, this.kind := h, offset, length, kind;
    }

    /** Move construction. */
    constructor Move(o: Guard)
      modifies o
      ensures View() == old(o.View()) && o.View() == Free
    {
      h, offset, length, kind := o.h, o.offset, o.length, o.kind;
      new;
      o.Release();
    }

    function View(): Slot
      reads this
    {
      if h == null then Free else Owner(h, offset, length, kind)
    }

    method Release()
      modifies this
      ensures View() == Free && offset == 0 && length == 0 && kind == Unlocked
    {
      h, offset, length, kind := null, 0, 0, Unlocked;
    }

    method Unlock()
      requires h != null ==> (offset, length) in h.locked
      modifies this, if h == null then {} else {h}
      ensures View() == Free
      ensures old(h) != null ==> old(h).locked == old(h.locked) - multiset{(old(offset), old(length))}
    {
      if h != null {
        h.UnlockFileRange(offset, length);
        Release();
      }
    }

    method MoveAssign(o: Guard)
      requires h != null ==> (offset, length) in h.locked
      modifies this, o, if h == null then {} else {h}
      ensures if o == this then View() == old(View()) else View() == old(o.View()) && o.View() == Free
      ensures old(h) != null ==>
                old(h).locked == if o == this then old(h.locked) else old(h.locked) - multiset{(old(offset), old(length))}
    {
      if this == o {
        return;
      }
      Unlock();
      h := o.h;
      offset := o.offset;
      length := o.length;
      kind := o.kind;
      o.Release();
    }

    /** The destructor; the storage then counts as a guard owning nothing. */
    method Destroy()
      requires h != null ==> (offset, length) in h.locked
      modifies this, if h == null then {} else {h}
      ensures View() == Free
      ensures old(h) != null ==> old(h).locked == old(h.locked) - multiset{(old(offset), old(length))}
    {
      if h != null {
        Unlock();
      }
    }
  }

  // Conservation.

  ghost function Range(s: Slot, h: Handle): multiset<(nat, nat)> {
    if s.Owner? && s.h == h then multiset{(s.offset, s.length)} else multiset{}
  }

  /** The ranges of h that the guards own. */
  ghost function Owned(slots: seq<Slot>, h: Handle): multiset<(nat, nat)> {
    if slots == [] then multiset{} else Range(slots[0], h) + Owned(slots[1..], h)
  }

  lemma Replace(a: multiset<(nat, nat)>, b: multiset<(nat, nat)>, c: multiset<(nat, nat)>, d: multiset<(nat, nat)>)
    requires c <= b
    ensures c <= a + b && a + (b - c + d) == (a + b) - c + d
  {
  }

  lemma {:induction false} OwnedUpdate(slots: seq<Slot>, i: nat, s: Slot, h: Handle)
    requires i < |slots|
    ensures Range(slots[i], h) <= Owned(slots, h)
    ensures Owned(slots[i := s], h) == Owned(slots, h) - Range(slots[i], h) + Range(s, h)
  {
    hide Range;
    if i == 0 {
      assert slots[0 := s][1..] == slots[1..];
    } else {
      assert slots[i := s][1..] == slots[1..][i - 1 := s];
      OwnedUpdate(slots[1..], i - 1, s, h);
      Replace(Range(slots[0], h), Owned(slots[1..], h), Range(slots[i], h), Range(s, h));
    }
  }

  ghost function Slots(gs: seq<Guard>): (slots: seq<Slot>)
    reads gs
    ensures |slots| == |gs| && forall i :: 0 <= i < |gs| ==> slots[i] == gs[i].View()
  {
    seq(|gs|, i requires 0 <= i < |gs| reads gs => gs[i].View())
  }

  /** On every handle, the ranges locked are exactly the ranges owned. */
  ghost predicate Conserved(hs: seq<Handle>, gs: seq<Guard>)
    reads hs, gs
  {
    && (forall i, j :: 0 <= i < j < |gs| ==> gs[i] != gs[j])
    && (forall i :: 0 <= i < |gs| ==> gs[i].h != null ==> gs[i].h in hs)
    && (forall h :: h in hs ==> h.locked == Owned(Slots(gs), h))
  }

  datatype Cmd =
    | Lock(to: nat, handle: nat, offset: nat, length: nat, kind: LockKind, granted: bool)
    | MoveTo(to: nat, from: nat)
    | MoveNew(to: nat, from: nat)      // a guard move-constructed from `from` takes the place of guard `to`
    | UnlockNow(to: nat)
    | Drop(to: nat)

  predicate InScope(c: Cmd, hs: nat, gs: nat) {
    c.to < gs && (c.Lock? ==> c.handle < hs) && (c.MoveTo? || c.MoveNew? ==> c.from < gs)
  }

  /** The range a guard owns is locked. */
  ghost predicate Backed(hs: seq<Handle>, g: Guard)
    reads hs, g
  {
    (g.h != null ==> g.h in hs) && forall h :: h in hs ==> Range(g.View(), h) <= h.locked
  }

  /** What the two ways of unlocking one guard do to every handle. */
  method DropOne(hs: seq<Handle>, g: Guard, destroy: bool)
    requires Backed(hs, g)
    modifies hs, g
    ensures g.View() == Free
    ensures forall h :: h in hs ==> h.locked == old(h.locked) - old(Range(g.View(), h))
  {
    assert g.h != null ==> Range(g.View(), g.h) <= g.h.locked;
    if destroy {
      g.Destroy();
    } else {
      g.Unlock();
    }
  }

  method AssignOne(hs: seq<Handle>, g: Guard, o: Guard)
    requires Backed(hs, g)
    modifies hs, g, o
    ensures if o == g then g.View() == old(g.View()) else g.View() == old(o.View()) && o.View() == Free
    ensures forall h :: h in hs ==> h.locked == if o == g then old(h.locked) else old(h.locked) - old(Range(g.View(), h))
  {
    assert g.h != null ==> Range(g.View(), g.h) <= g.h.locked;
    g.MoveAssign(o);
  }

  method LockOne(hs: seq<Handle>, g: Guard, k: nat, offset: nat, length: nat, kind: LockKind, granted: bool)
    requires Backed(hs, g) && k < |hs|
    modifies hs, g
    ensures g.View() == if granted then Owner(hs[k], offset, length, kind) else old(g.View())
    ensures forall h :: h in hs ==>
              h.locked == if granted then old(h.locked) - old(Range(g.View(), h)) + Range(g.View(), h) else old(h.locked)
  {
    var temp := Grant(hs, k, offset, length, kind, granted);
    if temp != null {
      hide Range;
      forall h | h in hs
        ensures Range(g.View(), h) <= h.locked
        ensures h.locked - Range(g.View(), h) == old(h.locked) - Range(g.View(), h) + Range(temp.View(), h)
      {
        AddThenTake(old(h.locked), Range(g.View(), h), Range(temp.View(), h));
      }
      AssignOne(hs, g, temp);
    }
  }

  method Grant(hs: seq<Handle>, k: nat, offset: nat, length: nat, kind: LockKind, granted: bool) returns (g: Guard?)
    requires k < |hs|
    modifies hs
    ensures if granted then g != null && fresh(g) && g.View() == Owner(hs[k], offset, length, kind) else g == null
    ensures forall h :: h in hs ==> h.locked == old(h.locked) + (if granted then Range(Owner(hs[k], offset, length, kind), h) else multiset{})
  {
    g := hs[k].LockFileRange(offset, length, kind, granted);
  }

  lemma AddThenTake(a: multiset<(nat, nat)>, r: multiset<(nat, nat)>, x: multiset<(nat, nat)>)
    requires r <= a
    ensures r <= a + x && a + x - r == a - r + x
  {
  }

  lemma GuardIsBacked(hs: seq<Handle>, gs: seq<Guard>, i: nat)
    requires i < |gs| && Conserved(hs, gs)
    ensures Backed(hs, gs[i])
  {
    hide Owned;
    hide Range;
    forall h | h in hs
      ensures Range(gs[i].View(), h) <= h.locked
    {
      OwnedUpdate(Slots(gs), i, Free, h);
    }
  }

  /** Unlocking or destroying guard i. */
  method DropGuard(hs: seq<Handle>, gs: seq<Guard>, i: nat, destroy: bool)
    requires i < |gs| && Conserved(hs, gs)
    modifies hs, gs
    ensures Conserved(hs, gs)
    ensures gs[i].h == null && Slots(gs) == old(Slots(gs))[i := Free]
  {
    hide Owned;
    hide Range;
    hide Backed;
    ghost var before := Slots(gs);
    GuardIsBacked(hs, gs, i);
    DropOne(hs, gs[i], destroy);
    assert Slots(gs) == before[i := Free];
    forall h | h in hs
      ensures h.locked == Owned(Slots(gs), h)
    {
      OwnedUpdate(before, i, Free, h);
      FreeOwnsNothing(h);
    }
  }

  lemma FreeOwnsNothing(h: Handle)
    ensures Range(Free, h) == multiset{}
  {
  }

  /** A granted lock is moved into guard i. */
  method LockInto(hs: seq<Handle>, gs: seq<Guard>, i: nat, k: nat, offset: nat, length: nat, kind: LockKind, granted: bool)
    requires i < |gs| && k < |hs| && Conserved(hs, gs)
    modifies hs, gs
    ensures Conserved(hs, gs)
    ensures Slots(gs) == if granted then old(Slots(gs))[i := Owner(hs[k], offset, length, kind)] else old(Slots(gs))
  {
    hide Owned;
    hide Range;
    hide Backed;
    ghost var before := Slots(gs);
    GuardIsBacked(hs, gs, i);
    LockOne(hs, gs[i], k, offset, length, kind, granted);
    assert Slots(gs) == before[i := gs[i].View()];
    forall h | h in hs
      ensures h.locked == Owned(Slots(gs), h)
    {
      OwnedUpdate(before, i, gs[i].View(), h);
    }
  }

  method AssignSlots(hs: seq<Handle>, gs: seq<Guard>, to: nat, from: nat)
    requires to < |gs| && from < |gs| && to != from && Backed(hs, gs[to])
    requires forall i, j :: 0 <= i < j < |gs| ==> gs[i] != gs[j]
    modifies hs, gs
    ensures Slots(gs) == old(Slots(gs))[from := Free][to := old(gs[from].View())]
    ensures forall h :: h in hs ==> h.locked == old(h.locked) - old(Range(gs[to].View(), h))
  {
    hide Backed, Range;
    AssignOne(hs, gs[to], gs[from]);
  }

  /** Every guard's handle is among the handles. */
  ghost predicate Listed(hs: seq<Handle>, slots: seq<Slot>) {
    forall i :: 0 <= i < |slots| && slots[i].Owner? ==> slots[i].h in hs
  }

  lemma OwnersListed(hs: seq<Handle>, gs: seq<Guard>)
    requires Conserved(hs, gs)
    ensures Listed(hs, Slots(gs))
  {
    hide Owned;
  }

  /** After a move from `from` to `to`, by which what `to` owned has been unlocked. */
  lemma StillConserved(hs: seq<Handle>, gs: seq<Guard>, before: seq<Slot>, to: nat, from: nat)
    requires to < |before| && from < |before| && Listed(hs, before)
    requires forall i, j :: 0 <= i < j < |gs| ==> gs[i] != gs[j]
    requires Slots(gs) == before[from := Free][to := before[from]]
    requires forall h :: h in hs ==>
               h.locked == if to == from then Owned(before, h) else Owned(before, h) - Range(before[to], h)
    ensures Conserved(hs, gs)
  {
    hide Owned, Range;
    var after := Slots(gs);
    forall h | h in hs ensures h.locked == Owned(after, h) {
      if to == from {
        assert after == before;
      } else {
        Moved(before, to, from, h);
      }
    }
    forall i | 0 <= i < |gs| && gs[i].h != null ensures gs[i].h in hs {
      assert after[i].Owner? && after[i].h == gs[i].h;
      assert after[i] == before[i] || (i == to && after[i] == before[from]);
    }
  }

  /** Guard `from` is move-assigned to guard `to`, which may be the same. */
  method MoveGuard(hs: seq<Handle>, gs: seq<Guard>, to: nat, from: nat)
    requires to < |gs| && from < |gs| && Conserved(hs, gs)
    modifies hs, gs
    ensures Conserved(hs, gs)
    ensures Slots(gs) == old(Slots(gs))[from := Free][to := old(Slots(gs))[from]]
  {
    hide Owned, Range, Backed, Listed, Slots;
    ghost var before := Slots(gs);
    GuardIsBacked(hs, gs, to);
    OwnersListed(hs, gs);
    if to == from {
      AssignOne(hs, gs[to], gs[from]);
      assert Slots(gs) == before;
    } else {
      AssignSlots(hs, gs, to, from);
      StillConserved(hs, gs, before, to, from);
    }
  }

  /** A guard move-constructed from `from` replaces guard `to`, whose destructor then runs. */
  method MoveNewGuard(hs: seq<Handle>, gs: seq<Guard>, to: nat, from: nat) returns (gs': seq<Guard>)
    requires to < |gs| && from < |gs| && Conserved(hs, gs)
    modifies hs, gs
    ensures |gs'| == |gs| && fresh(gs'[to]) && gs' == gs[to := gs'[to]] && Conserved(hs, gs')
    ensures Slots(gs') == old(Slots(gs))[from := Free][to := old(Slots(gs))[from]]
  {
    hide Owned, Range, Backed, Listed, Slots;
    ghost var before := Slots(gs);
    GuardIsBacked(hs, gs, to);
    OwnersListed(hs, gs);
    gs' := MoveNewSlots(hs, gs, to, from);
    StillConserved(hs, gs', before, to, from);
  }

  method MoveNewSlots(hs: seq<Handle>, gs: seq<Guard>, to: nat, from: nat) returns (gs': seq<Guard>)
    requires to < |gs| && from < |gs| && Backed(hs, gs[to])
    requires forall i, j :: 0 <= i < j < |gs| ==> gs[i] != gs[j]
    modifies hs, gs
    ensures |gs'| == |gs| && fresh(gs'[to]) && gs' == gs[to := gs'[to]]
    ensures Slots(gs') == old(Slots(gs))[from := Free][to := old(gs[from].View())]
    ensures forall h :: h in hs ==>
              h.locked == if to == from then old(h.locked) else old(h.locked) - old(Range(gs[to].View(), h))
  {
    hide Backed, Range, Slots;
    ghost var before := Slots(gs);
    var g := new Guard.Move(gs[from]);
    if to == from {
      gs[to].Destroy();
    } else {
      DropOne(hs, gs[to], true);
    }
    gs' := gs[to := g];
    assert Slots(gs') == before[from := Free][to := before[from]];
  }

  /** Moving takes away just what the target owned. */
  lemma Moved(slots: seq<Slot>, to: nat, from: nat, h: Handle)
    requires to < |slots| && from < |slots| && to != from
    ensures Owned(slots[from := Free][to := slots[from]], h) == Owned(slots, h) - Range(slots[to], h)
  {
    hide Owned;
    hide Range;
    var moved, mine, other := slots[from := Free], slots[from], slots[to];
    OwnedUpdate(slots, from, Free, h);
    OwnedUpdate(moved, to, mine, h);
    FreeOwnsNothing(h);
    assert moved[to] == other;
    Exchange(Owned(slots, h), Range(mine, h), Range(other, h));
  }

  lemma Exchange(all: multiset<(nat, nat)>, a: multiset<(nat, nat)>, b: multiset<(nat, nat)>)
    requires a <= all && b <= all - a
    ensures (all - a + multiset{}) - b + a == all - b
  {
  }

  // What each command does to every guard.

  function After(slots: seq<Slot>, hs: seq<Handle>, c: Cmd): (after: seq<Slot>)
    requires InScope(c, |hs|, |slots|)
    ensures |after| == |slots|
  {
    match c
    case Lock(to, k, offset, length, kind, granted) => if granted then slots[to := Owner(hs[k], offset, length, kind)] else slots
    case MoveTo(to, from) => slots[from := Free][to := slots[from]]
    case MoveNew(to, from) => slots[from := Free][to := slots[from]]
    case UnlockNow(to) => slots[to := Free]
    case Drop(to) => slots[to := Free]
  }

  function AfterAll(slots: seq<Slot>, hs: seq<Handle>, program: seq<Cmd>): (after: seq<Slot>)
    requires forall c :: c in program ==> InScope(c, |hs|, |slots|)
    ensures |after| == |slots|
    decreases |program|
  {
    if program == [] then slots else AfterAll(After(slots, hs, program[0]), hs, program[1..])
  }

  datatype Place = At(i: nat) | Nowhere

  /** Where the range owned by guard i is owned after a command: it goes along with moves, and is gone when its owner
      is unlocked, destroyed or given another. */
  function Follow(i: nat, c: Cmd): Place {
    if (c.MoveTo? || c.MoveNew?) && c.from == i then At(c.to)
    else if c.to == i && (c.Lock? ==> c.granted) then Nowhere
    else At(i)
  }

  function FollowAll(i: nat, program: seq<Cmd>): Place
    decreases |program|
  {
    if program == [] then At(i)
    else
      match Follow(i, program[0])
      case At(j) => FollowAll(j, program[1..])
      case Nowhere => Nowhere
  }

  /** Whatever a guard owns stays owned, unchanged, by the guard it was last moved to, until that one is unlocked,
      destroyed or given another; no other command touches it. */
  lemma {:induction false} OwnedWhereMoved(slots: seq<Slot>, hs: seq<Handle>, program: seq<Cmd>, i: nat)
    requires i < |slots| && forall c :: c in program ==> InScope(c, |hs|, |slots|)
    ensures var at := FollowAll(i, program); at.At? ==> at.i < |slots| && AfterAll(slots, hs, program)[at.i] == slots[i]
    decreases |program|
  {
    if program != [] {
      var c := program[0];
      assert c in program;
      if Follow(i, c).At? {
        OwnedWhereMoved(After(slots, hs, c), hs, program[1..], Follow(i, c).i);
      }
    }
  }

  /** And a lock just granted is owned as asked for. */
  lemma GrantedIsOwned(slots: seq<Slot>, hs: seq<Handle>, program: seq<Cmd>, c: Cmd)
    requires (forall b :: b in program ==> InScope(b, |hs|, |slots|)) && InScope(c, |hs|, |slots|) && c.Lock? && c.granted
    ensures forall b :: b in program + [c] ==> InScope(b, |hs|, |slots|)
    ensures AfterAll(slots, hs, program + [c])[c.to] == Owner(hs[c.handle], c.offset, c.length, c.kind)
  {
    AfterAllNext(slots, hs, program, c);
  }

  lemma {:induction false} AfterAllNext(slots: seq<Slot>, hs: seq<Handle>, program: seq<Cmd>, c: Cmd)
    requires (forall b :: b in program ==> InScope(b, |hs|, |slots|)) && InScope(c, |hs|, |slots|)
    ensures forall b :: b in program + [c] ==> InScope(b, |hs|, |slots|)
    ensures AfterAll(slots, hs, program + [c]) == After(AfterAll(slots, hs, program), hs, c)
    decreases |program|
  {
    hide After;
    if program == [] {
      assert program + [c] == [c] && [c][1..] == [];
    } else {
      assert program[0] in program;
      AfterAllNext(After(slots, hs, program[0]), hs, program[1..], c);
      assert (program + [c])[1..] == program[1..] + [c];
    }
  }

  /** One command. */
  method Execute(c: Cmd, hs: seq<Handle>, gs: seq<Guard>) returns (gs': seq<Guard>)
    requires InScope(c, |hs|, |gs|) && Conserved(hs, gs)
    modifies hs, gs
    ensures |gs'| == |gs| && Conserved(hs, gs')
    ensures forall i :: 0 <= i < |gs'| ==> gs'[i] in gs || fresh(gs'[i])
    ensures Slots(gs') == After(old(Slots(gs)), hs, c)
  {
    gs' := gs;
    match c {
      case Lock(to, k, offset, length, kind, granted) => LockInto(hs, gs, to, k, offset, length, kind, granted);
      case MoveTo(to, from) => MoveGuard(hs, gs, to, from);
      case MoveNew(to, from) => gs' := MoveNewGuard(hs, gs, to, from);
      case UnlockNow(to) => DropGuard(hs, gs, to, false);
      case Drop(to) => DropGuard(hs, gs, to, true);
    }
  }

  /** Any program of locks, moves, unlocks and destructions conserves. */
  method Perform(program: seq<Cmd>, hs: seq<Handle>, gs: seq<Guard>) returns (gs': seq<Guard>)
    requires forall c :: c in program ==> InScope(c, |hs|, |gs|)
    requires Conserved(hs, gs)
    modifies hs, gs
    ensures |gs'| == |gs| && Conserved(hs, gs')
    ensures forall i :: 0 <= i < |gs'| ==> gs'[i] in gs || fresh(gs'[i])
    ensures Slots(gs') == AfterAll(old(Slots(gs)), hs, program)
  {
    hide Owned, Conserved, Slots, After;
    gs' := gs;
    ghost var start := Slots(gs);
    assert program[..0] == [];
    for n := 0 to |program|
      invariant |gs'| == |gs| && Conserved(hs, gs')
      invariant forall i :: 0 <= i < |gs'| ==> gs'[i] in gs || fresh(gs'[i])
      invariant Slots(gs') == AfterAll(start, hs, program[..n])
    {
      gs' := Execute(program[n], hs, gs');
      AfterAllNext(start, hs, program[..n], program[n]);
      assert program[..n + 1] == program[..n] + [program[n]];
    }
    assert program[..|program|] == program;
  }

  /** And once every guard is destroyed nothing is left locked: each lock granted has been unlocked exactly once. */
  method Run(program: seq<Cmd>, hs: seq<Handle>, gs: seq<Guard>) returns (gs': seq<Guard>)
    requires forall c :: c in program ==> InScope(c, |hs|, |gs|)
    requires Conserved(hs, gs)
    modifies hs, gs
    ensures Conserved(hs, gs')
    ensures forall h :: h in hs ==> h.locked == multiset{}
  {
    hide Owned;
    gs' := Perform(program, hs, gs);
    for n := 0 to |gs'|
      invariant Conserved(hs, gs')
      invariant forall i :: 0 <= i < n ==> gs'[i].h == null
    {
      DropGuard(hs, gs', n, true);
    }
    forall h | h in hs
      ensures h.locked == multiset{}
    {
      NothingOwned(Slots(gs'), h);
    }
  }

  lemma {:induction false} NothingOwned(slots: seq<Slot>, h: Handle)
    requires forall i :: 0 <= i < |slots| ==> slots[i] == Free
    ensures Owned(slots, h) == multiset{}
  {
    if slots != [] {
      NothingOwned(slots[1..], h);
    }
  }
}
