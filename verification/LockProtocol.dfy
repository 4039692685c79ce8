/** The atomic-append lock as a state machine: any number of writers, one step per file operation. */
module LockProtocol {
  import opened LockLog
  import opened LockScan

  const RENOMINATE_AFTER: nat := 10   // seconds

  /** The file operation a writer performs next. */
  datatype Pc =
    | Idle         // append an interest
    | Registered   // query the first extent of the lock file
    | Stating      // query the size of the lock file
    | Reading      // read the window at w
    | Deciding     // append havelock, or renominate and rescan
    | Zeroing      // punch out the dead prefix
    | Entering     // query the size of the log
    | Extending    // extend the log
    | Writing      // write the entry
    | Leaving      // append unlock

  datatype Proc = Proc(
    pc: Pc,
    temp: Message,
    s: Scan,
    now: nat,        // nowtimestamp
    size: nat,       // messages in the lock file when it was last queried
    w: nat,          // the window read next
    where: nat,
    first: bool,     // still in the loop that waits for my interest to appear
    // Auxiliary, never read by a step:
    mine: nat,       // where my interest landed
    renewed: nat,    // where my newest interest, nomination or lock claim landed
    quiet: bool,     // no smaller ticket was live when the size was last queried
    decided: nat)    // when it last decided, or if it has not, when it registered

  datatype State = State(
    clock: nat,
    log: seq<Message>,       // the lock file
    history: seq<Message>,   // what was appended to it, hole punching ignored
    data: string,            // the log the lock protects
    served: seq<nat>,        // writers in the order they released the lock
    procs: seq<Proc>)

  datatype Step = Tick | Act(p: nat, extent: nat)

  function Digits(n: nat): string {
    (if n < 10 then "" else Digits(n / 10)) + [('0' as int + n % 10) as char]
  }

  function Entry(p: nat): (r: string)
    ensures |r| > 0
  {
    "I am log writer " + Digits(p) + "!\n"
  }

  function Blank(n: nat): string { seq(n, _ => '\0') }

  function Resize(data: string, n: nat): string {
    if n <= |data| then data[..n] else data + Blank(n - |data|)
  }

  function Overwrite(data: string, at: nat, text: string): string
    requires at + |text| <= |data|
  {
    data[..at] + text + data[at + |text|..]
  }

  function Punch(log: seq<Message>, from: nat, to: nat): (r: seq<Message>)
    ensures |r| == |log|
  {
    seq(|log|, i requires 0 <= i < |log| => if from <= i < to then ZERO else log[i])
  }

  /** Between appending havelock and appending unlock. */
  predicate Claimed(a: Proc) {
    a.pc.Zeroing? || a.pc.Entering? || a.pc.Extending? || a.pc.Writing? || a.pc.Leaving?
  }

  ghost predicate Init(s: State) {
    && s.clock > 0 && s.log == [] && s.history == [] && s.data == "" && s.served == []
    && forall p :: 0 <= p < |s.procs| ==> s.procs[p].pc.Idle?
  }

  // The assumptions on the environment.

  /** Some live ticket below m has a message from lo up to lim. */
  ghost predicate InReach(h: seq<Message>, m: nat, lo: nat, lim: nat) {
    exists t: nat, e: nat :: t < m && Live(h, t) && lo <= e < lim && Claims(h, e, t)
  }

  /** The backlog bound: the first extent starts no later than the first window, and if any smaller ticket is live
      the windows that will be read reach down to some message of a live smaller ticket, on the first scan to one
      before my own interest, and to that. */
  ghost predicate Covered(s: State, p: nat)
    requires p < |s.procs|
  {
    var a := s.procs[p];
    var w := FirstOffset(|s.log|);
    var lo := Lowest(w, a.s.start);
    && a.s.start <= RECORD * w
    && (a.first ==> lo <= a.mine)
    && (NoneLiveBelow(s.history, a.mine) || InReach(s.history, a.mine, lo, if a.first then a.mine else |s.log|))
  }

  /** The timing discipline: waiters renominate and holders unlock before their newest message goes stale. */
  ghost predicate Punctual(s: State) {
    forall p :: 0 <= p < |s.procs| && !s.procs[p].pc.Idle? && s.procs[p].renewed < |s.history| ==>
      !Stale(s.history[s.procs[p].renewed], s.clock)
  }

  predicate Fits(s: State) { RECORD * (|s.log| + 1) <= OFF_T / 2 }

  /** A step the file system and the program allow. */
  ghost predicate Possible(s: State, step: Step) {
    match step
    case Tick => true
    case Act(p, extent) =>
      && p < |s.procs|
      && match s.procs[p].pc
         case Idle => Fits(s)
         case Registered => extent <= |s.log| && forall i :: 0 <= i < extent ==> s.log[i] == ZERO
         case Reading => s.procs[p].w < s.procs[p].size <= |s.log|
         case Deciding => Fits(s)
         case Writing => s.procs[p].where + |Entry(p)| <= |s.data|
         case Leaving => Fits(s)
         case _ => true
  }

  /** And one the backlog bound allows. */
  ghost predicate Enabled(s: State, step: Step) {
    Possible(s, step) && (step.Act? && s.procs[step.p].pc.Stating? ==> Covered(s, step.p))
  }

  // The steps.

  function Append(s: State, m: Message): State {
    s.(log := s.log + [m], history := s.history + [m])
  }

  function Set(s: State, p: nat, a: Proc): State
    requires p < |s.procs|
  {
    s.(procs := s.procs[p := a])
  }

  function Register(s: State, p: nat): State
    requires p < |s.procs|
  {
    var m := Message(Interest, s.clock, p);
    var scan := Scan(NONE, true, [], 0, (false, NONE), 0, false);
    Set(Append(s, m), p, Proc(Registered, m, scan, s.clock, 0, 0, 0, true, |s.log|, |s.log|, false, s.clock))
  }

  function QueryExtent(s: State, p: nat, extent: nat): State
    requires p < |s.procs|
  {
    var a := s.procs[p];
    Set(s, p, a.(pc := Stating, s := a.s.(start := RECORD * extent)))
  }

  /** The scan is over: erase the entries not valid, and retry if my own interest did not turn up. */
  function Finish(a: Proc, s: Scan): Proc {
    var s := if s.find then s.(preceding := ValidOnly(s.preceding), find := false) else s;
    if s.my == NONE then a.(pc := Stating, s := s)
    else a.(pc := Deciding, s := s, now := if a.first then 0 else a.now)
  }

  ghost function QuerySize(s: State, p: nat): State
    requires p < |s.procs|
  {
    var a := s.procs[p];
    var size := |s.log|;
    var scan := a.s.(valid := 0, cut := false, lockid := (false, NONE));
    var b := a.(size := size, w := FirstOffset(size), quiet := NoneLiveBelow(s.history, a.mine));
    Set(s, p, if LoopAgain(scan, FirstOffset(size), size) then b.(pc := Reading, s := scan) else Finish(b, scan))
  }

  function Read(s: State, p: nat): State
    requires p < |s.procs| && s.procs[p].w < s.procs[p].size <= |s.log|
  {
    var a := s.procs[p];
    var scan := ReadWindow(a.s, s.log, a.w, a.size, a.temp, a.now);
    Set(s, p, if a.w >= WINDOW && LoopAgain(scan, a.w - WINDOW, a.size)
              then a.(w := a.w - WINDOW, s := scan) else Finish(a, scan))
  }

  function Decide(s: State, p: nat): State
    requires p < |s.procs|
  {
    var a := s.procs[p];
    if a.s.preceding == [] then
      var m := Message(HaveLock, s.clock, a.s.my);
      Set(Append(s, m), p, a.(temp := m, renewed := |s.log|, decided := s.clock, pc := if a.s.start < a.s.my then Zeroing else Entering))
    else
      var b := a.(pc := Stating, first := false, decided := s.clock, s := a.s.(preceding := [], find := true));
      if s.clock >= a.now + RENOMINATE_AFTER then
        var m := Message(Nominate, s.clock, a.s.my);
        Set(Append(s, m), p, b.(temp := m, renewed := |s.log|, now := s.clock))
      else
        Set(s, p, b)
  }

  function Zero(s: State, p: nat): State
    requires p < |s.procs|
  {
    var a := s.procs[p];
    Set(s.(log := Punch(s.log, a.s.start / RECORD, a.s.my / RECORD)), p, a.(pc := Entering))
  }

  function Enter(s: State, p: nat): State
    requires p < |s.procs|
  {
    Set(s, p, s.procs[p].(where := |s.data|, pc := Extending))
  }

  function Extend(s: State, p: nat): State
    requires p < |s.procs|
  {
    var a := s.procs[p];
    Set(s.(data := Resize(s.data, a.where + |Entry(p)|)), p, a.(pc := Writing))
  }

  function Write(s: State, p: nat): State
    requires p < |s.procs| && s.procs[p].where + |Entry(p)| <= |s.data|
  {
    var a := s.procs[p];
    Set(s.(data := Overwrite(s.data, a.where, Entry(p))), p, a.(pc := Leaving))
  }

  function Leave(s: State, p: nat): State
    requires p < |s.procs|
  {
    var m := Message(Unlock, s.clock, s.procs[p].s.my);
    Set(Append(s, m).(served := s.served + [p]), p, s.procs[p].(temp := m, pc := Idle))
  }

  ghost function Apply(s: State, step: Step): State
    requires Possible(s, step)
  {
    match step
    case Tick => s.(clock := s.clock + 1)
    case Act(p, extent) =>
      match s.procs[p].pc
      case Idle => Register(s, p)
      case Registered => QueryExtent(s, p, extent)
      case Stating => QuerySize(s, p)
      case Reading => Read(s, p)
      case Deciding => Decide(s, p)
      case Zeroing => Zero(s, p)
      case Entering => Enter(s, p)
      case Extending => Extend(s, p)
      case Writing => Write(s, p)
      case Leaving => Leave(s, p)
  }

  /** A run: enabled steps from an initial state, the timing discipline holding at every step. */
  ghost predicate Run(r: seq<State>, steps: seq<Step>) {
    && |r| == |steps| + 1 && Init(r[0])
    && forall i :: 0 <= i < |steps| ==>
         Punctual(r[i]) && Enabled(r[i], steps[i]) && r[i + 1] == Apply(r[i], steps[i])
  }
}
