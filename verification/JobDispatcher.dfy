/** JobDispatcher: the main thread's calls and the workers' loop, as interleaved steps. */
module JobDispatcher {
  import opened SpinKicker

  // ----- States

  /** A call that the owner of the dispatcher makes. */
  datatype Command = Kick(action: nat) | KickOne(index: nat, action: nat)
    | KickMulti(targets: nat, action: nat) | Resize(threads: nat)

  /** Where the main thread is in such a call. From Sizing to Sized it is inside setNumSpawnedThreads. */
  datatype Stage =
    | Idle
    | Setting         // m_threadFilter, m_action and m_param
    | Sizing
    | Spawning
    | Clearing        // resetAction
    | Marking         // mustExit of thread t
    | ShrinkSpin      // m_startGate.kick: loading
    | ShrinkStore     // m_startGate.kick: storing
    | Joining         // thread t
    | Resizing
    | ShrinkEndSpin   // m_endGate.kick: loading
    | ShrinkEndStore  // m_endGate.kick: storing
    | Sized
    | StartSpin
    | StartStore
    | Own             // about to call the action on thread 0
    | OwnRunning
    | EndSpin
    | EndStore
    | Resetting       // resetAction

  /** The action that does nothing. */
  const NO_ACTION: nat := 0

  /** `calls` counts the calls of each action but noAction, by thread, since the current command began;
      `size0` is how many threads there were then. Thread 0 is the main thread. */
  datatype State = State(size: nat, gates: Gates, filter: int, action: nat, stage: Stage, cmd: Command, t: nat,
                         calls: multiset<(nat, nat)>, size0: nat)

  // ----- Steps

  /** TURF_ASSERT(numThreads > 0), and there is an action to call. */
  predicate Proper(cmd: Command) {
    match cmd
    case Kick(a) => a != NO_ACTION
    case KickOne(_, a) => a != NO_ACTION
    case KickMulti(k, a) => k > 0 && a != NO_ACTION
    case Resize(k) => k > 0
  }

  /** The argument of setNumSpawnedThreads. */
  function Target(c: Command): nat {
    match c
    case Kick(_) => 0
    case KickOne(i, _) => i + 1
    case KickMulti(k, _) => k
    case Resize(k) => k
  }

  function Began(s: State, c: Command): State {
    s.(cmd := c, stage := if c.Resize? then Sizing else Setting, calls := multiset{}, size0 := s.size)
  }

  predicate Picks(filter: int, i: nat) {
    filter < 0 || filter == i
  }

  /** A call of the current action on thread `i`. */
  function Call(s: State, i: nat): State {
    if s.action == NO_ACTION then s else s.(calls := s.calls + multiset{(s.action, i)})
  }

  /** The main thread is neither idle nor spinning nor blocked in join. */
  predicate MainCanStep(s: State) {
    match s.stage
    case Idle => false
    case ShrinkSpin => s.gates.start >= s.size - 1
    case Joining => s.t < s.size ==> s.t in s.gates.workers && s.gates.workers[s.t] == Exited
    case ShrinkEndSpin => s.gates.end >= s.size - 1
    case StartSpin => s.gates.start >= s.size - 1
    case EndSpin => s.gates.end >= s.size - 1
    case _ => true
  }

  /** Setting the action and the filter. */
  function Set(s: State): State {
    match s.cmd
    case Kick(a) => s.(action := a, stage := StartSpin)
    case KickOne(i, a) => s.(filter := i, action := a, stage := if i >= s.size then Sizing else StartSpin)
    case KickMulti(_, a) => s.(action := a, stage := Sizing)
    case Resize(_) => s
  }

  function MainStep(s: State): State {
    var g := s.gates;
    match s.stage
    case Idle => s
    case Setting => Set(s)
    case Sizing => s.(stage := if Target(s.cmd) < s.size then Clearing else Spawning)
    case Spawning =>
      if s.size < Target(s.cmd) then s.(gates := g.(workers := g.workers[s.size := Arriving]), size := s.size + 1)
      else s.(stage := Sized)
    case Clearing => s.(filter := -1, action := NO_ACTION, t := Target(s.cmd), stage := Marking)
    case Marking =>
      if s.t < s.size then s.(gates := g.(mustExit := g.mustExit + {s.t}), t := s.t + 1) else s.(stage := ShrinkSpin)
    case ShrinkSpin => s.(stage := ShrinkStore)
    case ShrinkStore => s.(gates := g.(start := 0), t := Target(s.cmd), stage := Joining)
    case Joining =>
      if s.t < s.size then s.(gates := g.(workers := g.workers - {s.t}, mustExit := g.mustExit - {s.t}), t := s.t + 1)
      else s.(stage := Resizing)
    case Resizing => s.(size := Target(s.cmd), stage := ShrinkEndSpin)
    case ShrinkEndSpin => s.(stage := ShrinkEndStore)
    case ShrinkEndStore => s.(gates := g.(end := 0), stage := Sized)
    case Sized => s.(stage := if s.cmd.Resize? then Idle else StartSpin)
    case StartSpin => s.(stage := StartStore)
    case StartStore => s.(gates := g.(start := 0), stage := Own)
    case Own => if s.cmd.KickOne? && s.cmd.index != 0 then s.(stage := EndSpin) else Call(s, 0).(stage := OwnRunning)
    case OwnRunning => s.(stage := EndSpin)
    case EndSpin => s.(stage := EndStore)
    case EndStore => s.(gates := g.(end := 0), stage := Resetting)
    case Resetting => s.(filter := -1, action := NO_ACTION, stage := Idle)
  }

  function WorkerStep(s: State, i: nat): State
    requires i in s.gates.workers
  {
    var picked := Picks(s.filter, i);
    var s' := if s.gates.workers[i] == Deciding && picked then Call(s, i) else s;
    s'.(gates := Step(s.gates, i, picked))
  }

  ghost predicate Next(s: State, s': State) {
    || (s.stage == Idle && exists c :: Proper(c) && s' == Began(s, c))
    || (MainCanStep(s) && s' == MainStep(s))
    || (exists i :: CanStep(s.gates, i) && s' == WorkerStep(s, i))
  }

  /** A dispatcher without workers. */
  predicate Init(s: State) {
    && s.size == 1 && s.gates == Gates(map[], {}, 0, 0) && s.filter == -1 && s.action == NO_ACTION
    && s.stage == Idle && s.calls == multiset{} && s.size0 == 1
  }

  ghost predicate Run(r: seq<State>) {
    && |r| > 0 && Init(r[0])
    && forall j | 0 <= j < |r| - 1 :: Next(r[j], r[j + 1])
  }

  // ----- The invariant

  /** The start gate was kicked and the end gate not yet. */
  predicate Open(m: Stage) {
    m.Joining? || m.Resizing? || m.ShrinkEndSpin? || m.ShrinkEndStore? || m.Own? || m.OwnRunning? || m.EndSpin? ||
      m.EndStore?
  }

  /** The part of a shrink that happens with all threads still in m_threads. */
  predicate Retiring(m: Stage) {
    m.Clearing? || m.Marking? || m.ShrinkSpin? || m.ShrinkStore? || m.Joining? || m.Resizing?
  }

  predicate Kicking(m: Stage) {
    m.StartSpin? || m.StartStore? || m.Own? || m.OwnRunning? || m.EndSpin? || m.EndStore? || m.Resetting?
  }

  /** The worker threads that there are. */
  predicate Exists(s: State, i: nat) {
    && 1 <= i < s.size
    && (s.stage.Joining? ==> i < Target(s.cmd) || s.t <= i)
    && (s.stage.Resizing? ==> i < Target(s.cmd))
  }

  /** The threads that were told to exit. */
  predicate Told(s: State, i: nat) {
    match s.stage
    case Marking => Target(s.cmd) <= i < s.t
    case ShrinkSpin => Target(s.cmd) <= i < s.size
    case ShrinkStore => Target(s.cmd) <= i < s.size
    case Joining => s.t <= i < s.size
    case _ => false
  }

  ghost predicate ThreadsOk(s: State) {
    && (forall i: nat :: i in s.gates.workers <==> Exists(s, i))
    && (forall i: nat :: i in s.gates.mustExit <==> Told(s, i))
  }

  /** When the main thread is about to kick a gate, all workers wait at it. */
  ghost predicate StoreOk(s: State) {
    && (s.stage.ShrinkStore? || s.stage.StartStore? ==> AllAt(s.gates, AtStart))
    && (s.stage.ShrinkEndStore? || s.stage.EndStore? ==> AllAt(s.gates, AtEnd))
  }

  /** The command lowers the number of threads. */
  predicate Shrinks(c: Command, size0: nat) {
    (c.KickMulti? || c.Resize?) && Target(c) < size0
  }

  /** The number of threads that a command runs on, or leaves. */
  function SizeFor(c: Command, size0: nat): nat {
    if c.Kick? || (c.KickOne? && Target(c) < size0) then size0 else Target(c)
  }

  predicate SizesOk(s: State) {
    && s.size >= 1 && s.size0 >= 1 && (!s.stage.Idle? ==> Proper(s.cmd))
    && (s.stage.Setting? || s.stage.Sizing? ==> s.size == s.size0)
    && (s.stage.Setting? || Kicking(s.stage) ==> !s.cmd.Resize?)
    && (s.stage.Sizing? || s.stage.Spawning? ==> !s.cmd.Kick? && (s.cmd.KickOne? ==> s.cmd.index >= s.size0))
    && (s.stage.Spawning? ==> s.size0 <= s.size <= Target(s.cmd))
    && (Retiring(s.stage) ==> s.size == s.size0 && Shrinks(s.cmd, s.size0))
    && (s.stage.Marking? || s.stage.Joining? ==> Target(s.cmd) <= s.t <= s.size)
    && (s.stage.ShrinkEndSpin? || s.stage.ShrinkEndStore? ==> s.size == Target(s.cmd) && Shrinks(s.cmd, s.size0))
    && (s.stage.Sized? || Kicking(s.stage) ==> s.size == SizeFor(s.cmd, s.size0))
  }

  /** The action that the workers find, and which of them are to call it. */
  function ActionFor(c: Command, size0: nat): nat {
    match c
    case Kick(a) => a
    case KickOne(_, a) => a
    case KickMulti(_, a) => if Shrinks(c, size0) then NO_ACTION else a
    case Resize(_) => NO_ACTION
  }

  function FilterFor(c: Command): int {
    if c.KickOne? then c.index else -1
  }

  predicate ActionOk(s: State) {
    var st := s.stage;
    if st.Idle? || st.Setting? || (Retiring(st) && !st.Clearing?) || st.ShrinkEndSpin? || st.ShrinkEndStore?
    then s.filter == -1 && s.action == NO_ACTION
    else
      s.filter == FilterFor(s.cmd)
      && ((Shrinks(s.cmd, s.size0) && (st.Sizing? || st.Clearing?)) || s.action == ActionFor(s.cmd, s.size0))
  }

  /** Thread `i` has begun its call, or would have if it were picked. */
  predicate Begun(s: State, i: nat) {
    var w := s.gates.workers;
    match s.stage
    case Own => i in w && (w[i] == Running || w[i] == Leaving || w[i] == AtEnd)
    case OwnRunning => i == 0 || (i in w && (w[i] == Running || w[i] == Leaving || w[i] == AtEnd))
    case EndSpin => i == 0 || (i in w && (w[i] == Running || w[i] == Leaving || w[i] == AtEnd))
    case EndStore => i < s.size
    case Resetting => i < s.size
    case _ => false
  }

  /** How often action `x.0` was called on thread `x.1`. */
  function CallsDue(s: State, x: (nat, nat)): nat {
    if x.0 == s.action && x.0 != NO_ACTION && Begun(s, x.1) && Picks(s.filter, x.1) then 1 else 0
  }

  ghost predicate CallsOk(s: State) {
    s.stage.Idle? || forall x: (nat, nat) :: s.calls[x] == CallsDue(s, x)
  }

  ghost predicate Inv(s: State) {
    ThreadsOk(s) && GatesOk(s.gates, Open(s.stage)) && StoreOk(s) && SizesOk(s) && ActionOk(s) && CallsOk(s)
  }

  lemma InitInv(s: State)
    requires Init(s)
    ensures Inv(s)
  {
    assert Waiting(s.gates.workers, AtStart) == {};
  }

  lemma BeganInv(s: State, c: Command)
    requires Inv(s) && s.stage.Idle? && Proper(c)
    ensures Inv(Began(s, c))
  {
    hide GatesOk;
  }

  // ----- Worker steps

  lemma WorkerStore(s: State, i: nat)
    requires GatesOk(s.gates, Open(s.stage)) && StoreOk(s) && CanStep(s.gates, i)
    ensures !s.stage.ShrinkStore? && !s.stage.StartStore? && !s.stage.ShrinkEndStore? && !s.stage.EndStore?
  {
    hide GatesOk, CanStep;
    if s.stage.ShrinkStore? || s.stage.StartStore? || s.stage.ShrinkEndStore? || s.stage.EndStore? {
      assert i in s.gates.workers by { InWorkers(s.gates, i); }
      Spins(s.gates, Open(s.stage), i);
    }
  }

  lemma InWorkers(g: Gates, i: nat)
    requires CanStep(g, i)
    ensures i in g.workers
  {
  }

  lemma WorkerThreads(s: State, i: nat)
    requires ThreadsOk(s) && SizesOk(s) && ActionOk(s) && i in s.gates.workers
    ensures ThreadsOk(WorkerStep(s, i)) && SizesOk(WorkerStep(s, i)) && ActionOk(WorkerStep(s, i))
  {
    hide Picks, NextPc, Kicking, Retiring, Target;
    var s' := WorkerStep(s, i);
    forall j: nat ensures j in s'.gates.workers <==> Exists(s', j) { assert j in s.gates.workers <==> Exists(s, j); }
    forall j: nat ensures j in s'.gates.mustExit <==> Told(s', j) { assert j in s.gates.mustExit <==> Told(s, j); }
  }

  /** What a worker step changes in the count of calls. */
  lemma WorkerDue(s: State, i: nat, x: (nat, nat))
    requires GatesOk(s.gates, Open(s.stage)) && CanStep(s.gates, i) && 1 <= i && s.calls[x] == CallsDue(s, x)
    requires !s.stage.EndStore? && (s.action != NO_ACTION ==>
        !s.stage.Joining? && !s.stage.Resizing? && !s.stage.ShrinkEndSpin? && !s.stage.ShrinkEndStore?)
    ensures WorkerStep(s, i).calls[x] == CallsDue(WorkerStep(s, i), x)
  {
    hide Picks;
    assert PcOk(Open(s.stage), i in s.gates.mustExit, s.gates.workers[i]);
    if s.gates.workers[i] == AtEnd && Open(s.stage) {
      Spins(s.gates, true, i);
    }
  }

  lemma WorkerCalls(s: State, i: nat)
    requires Inv(s) && CanStep(s.gates, i)
    ensures CallsOk(WorkerStep(s, i))
  {
    hide GatesOk, CanStep, SizesOk, CallsDue;
    WorkerStore(s, i);
    InWorkers(s.gates, i);
    assert Exists(s, i);
    if !s.stage.Idle? {
      forall x: (nat, nat) ensures WorkerStep(s, i).calls[x] == CallsDue(WorkerStep(s, i), x) {
        WorkerDue(s, i, x);
      }
    }
  }

  lemma WorkerInv(s: State, i: nat)
    requires Inv(s) && CanStep(s.gates, i)
    ensures Inv(WorkerStep(s, i))
  {
    hide ThreadsOk, GatesOk, StoreOk, SizesOk, ActionOk, CallsOk, CanStep, Step;
    InWorkers(s.gates, i);
    StepOk(s.gates, Open(s.stage), i, Picks(s.filter, i));
    WorkerThreads(s, i);
    WorkerCalls(s, i);
    assert StoreOk(WorkerStep(s, i)) by { WorkerStore(s, i); NoStore(WorkerStep(s, i)); }
  }

  lemma NoStore(s: State)
    requires !s.stage.ShrinkStore? && !s.stage.StartStore? && !s.stage.ShrinkEndStore? && !s.stage.EndStore?
    ensures StoreOk(s)
  {
  }

  // ----- Main thread steps

  lemma ExistAll(s: State)
    requires ThreadsOk(s) && !s.stage.Joining? && !s.stage.Resizing?
    ensures forall i: nat :: i in s.gates.workers <==> 1 <= i < s.size
  {
    forall i: nat ensures i in s.gates.workers <==> 1 <= i < s.size { assert i in s.gates.workers <==> Exists(s, i); }
  }

  lemma TargetPositive(c: Command)
    requires Proper(c) && !c.Kick?
    ensures Target(c) >= 1 && (c.KickOne? ==> Target(c) == c.index + 1)
  {
  }

  lemma SetStage(s: State)
    requires !s.cmd.Resize?
    ensures var s' := Set(s); s'.size == s.size && s'.size0 == s.size0 && s'.cmd == s.cmd
    ensures Set(s).stage == (if s.cmd.Kick? || (s.cmd.KickOne? && s.cmd.index < s.size) then StartSpin else Sizing)
  {
  }

  lemma SetSizes(s: State)
    requires SizesOk(s) && s.stage.Setting?
    ensures SizesOk(Set(s))
  {
    hide Set, Proper, Target;
    SetStage(s);
    if !s.cmd.Kick? { TargetPositive(s.cmd); }
  }

  lemma SizingSizes(s: State)
    requires SizesOk(s) && (s.stage.Sizing? || s.stage.Spawning? || Retiring(s.stage))
    ensures SizesOk(MainStep(s))
  {
    hide Proper, Target, Set;
    if !s.cmd.Kick? { TargetPositive(s.cmd); }
  }

  lemma MainSizes(s: State)
    requires SizesOk(s) && MainCanStep(s)
    ensures SizesOk(MainStep(s))
  {
    hide Proper, MainCanStep, Target, Set;
    if s.stage.Setting? {
      SetSizes(s);
    } else if s.stage.Sizing? || s.stage.Spawning? || Retiring(s.stage) {
      SizingSizes(s);
    }
  }

  lemma MainAction(s: State)
    requires ActionOk(s) && SizesOk(s) && MainCanStep(s)
    ensures ActionOk(MainStep(s))
  {
  }

  lemma SetGates(s: State)
    ensures Set(s).gates == s.gates
  {
  }

  lemma MainThreads(s: State)
    requires ThreadsOk(s) && SizesOk(s) && MainCanStep(s)
    ensures ThreadsOk(MainStep(s))
  {
    hide ActionFor, Kicking, Set, Proper, SizeFor;
    if s.stage.Setting? { SetStage(s); SetGates(s); }
    var s' := MainStep(s);
    forall i: nat ensures i in s'.gates.workers <==> Exists(s', i) { assert i in s.gates.workers <==> Exists(s, i); }
    forall i: nat ensures i in s'.gates.mustExit <==> Told(s', i) { assert i in s.gates.mustExit <==> Told(s, i); }
  }

  lemma SpawnedOk(g: Gates, n: nat)
    requires GatesOk(g, false) && n !in g.workers
    ensures GatesOk(g.(workers := g.workers[n := Arriving]), false)
  {
    assert Waiting(g.workers[n := Arriving], AtStart) == Waiting(g.workers, AtStart);
  }

  lemma MarkedOk(g: Gates, t: nat)
    requires GatesOk(g, false)
    ensures GatesOk(g.(mustExit := g.mustExit + {t}), false)
  {
    forall i | i in g.workers ensures PcOk(false, i in g.mustExit + {t}, g.workers[i]) {
      assert PcOk(false, i in g.mustExit, g.workers[i]);
    }
  }

  lemma JoinedOk(g: Gates, t: nat)
    requires GatesOk(g, true) && t in g.workers && g.workers[t] == Exited
    ensures GatesOk(g.(workers := g.workers - {t}, mustExit := g.mustExit - {t}), true)
  {
    assert Waiting(g.workers - {t}, AtEnd) == Waiting(g.workers, AtEnd);
    forall i | i in g.workers - {t} ensures PcOk(true, i in g.mustExit - {t}, g.workers[i]) {
      assert PcOk(true, i in g.mustExit, g.workers[i]);
    }
  }

  lemma MainGates(s: State)
    requires ThreadsOk(s) && SizesOk(s) && StoreOk(s) && MainCanStep(s) && GatesOk(s.gates, Open(s.stage))
    ensures GatesOk(MainStep(s).gates, Open(MainStep(s).stage))
  {
    hide GatesOk, AllAt, ThreadsOk, Kicking, Retiring, Shrinks, Target, SizeFor;
    var g := s.gates;
    match s.stage
    case Spawning => ExistAll(s); SpawnedOk(g, s.size);
    case Marking => MarkedOk(g, s.t);
    case ShrinkStore => StartKicked(g);
    case StartStore => StartKicked(g);
    case ShrinkEndStore => EndKicked(g);
    case EndStore => EndKicked(g);
    case Joining => if s.t < s.size { JoinedOk(g, s.t); }
    case _ =>
  }

  lemma MainStore(s: State)
    requires ThreadsOk(s) && SizesOk(s) && MainCanStep(s) && GatesOk(s.gates, Open(s.stage))
    ensures StoreOk(MainStep(s))
  {
    hide GatesOk, AllAt, ThreadsOk, Kicking, Retiring, Shrinks, Target, SizeFor;
    if s.stage.ShrinkSpin? || s.stage.StartSpin? || s.stage.ShrinkEndSpin? || s.stage.EndSpin? {
      ExistAll(s);
      KickWaitsForAll(s.gates, Open(s.stage), s.size);
    }
  }

  /** Nobody is in the action once all wait at the start gate, and all are past it once they wait at the end gate. */
  lemma MainDue(s: State, x: (nat, nat))
    requires StoreOk(s) && ActionOk(s) && SizesOk(s) && MainCanStep(s) && s.calls[x] == CallsDue(s, x) && !s.stage.Idle?
    requires !s.stage.Joining? && !s.stage.Resizing? ==> forall i: nat :: i in s.gates.workers <==> 1 <= i < s.size
    requires s.stage.EndSpin? ==> AllAt(s.gates, AtEnd)
    ensures MainStep(s).stage.Idle? || MainStep(s).calls[x] == CallsDue(MainStep(s), x)
  {
    hide Kicking, Retiring, SizeFor;
  }

  lemma MainCalls(s: State)
    requires Inv(s) && MainCanStep(s)
    ensures CallsOk(MainStep(s))
  {
    hide GatesOk, StoreOk, SizesOk, ActionOk, CallsDue, MainStep, AllAt, ThreadsOk;
    if !s.stage.Joining? && !s.stage.Resizing? { ExistAll(s); }
    if s.stage.EndSpin? { KickWaitsForAll(s.gates, true, s.size) by { SizePositive(s); } }
    if !s.stage.Idle? {
      forall x: (nat, nat) ensures MainStep(s).stage.Idle? || MainStep(s).calls[x] == CallsDue(MainStep(s), x) {
        MainDue(s, x);
      }
    }
  }

  lemma SizePositive(s: State)
    requires SizesOk(s)
    ensures s.size >= 1
  {
  }

  lemma MainInv(s: State)
    requires Inv(s) && MainCanStep(s)
    ensures Inv(MainStep(s))
  {
    hide ThreadsOk, GatesOk, StoreOk, SizesOk, ActionOk, CallsOk, MainStep;
    MainSizes(s);
    MainAction(s);
    MainThreads(s);
    MainGates(s);
    MainStore(s);
    MainCalls(s);
  }

  /** Every step of every thread keeps the invariant. */
  lemma StepInv(s: State, s': State)
    requires Inv(s) && Next(s, s')
    ensures Inv(s')
  {
    hide Inv, MainStep, WorkerStep, Began, MainCanStep;
    if s.stage == Idle && exists c :: Proper(c) && s' == Began(s, c) {
      var c :| Proper(c) && s' == Began(s, c);
      BeganInv(s, c);
    } else if MainCanStep(s) && s' == MainStep(s) {
      MainInv(s);
    } else {
      var i :| CanStep(s.gates, i) && s' == WorkerStep(s, i);
      WorkerInv(s, i);
    }
  }

  /** The invariant holds throughout every run, with any number of threads and any interleaving. */
  lemma {:induction false} RunInv(r: seq<State>, j: nat)
    requires Run(r) && j < |r|
    ensures Inv(r[j])
  {
    hide Inv, Next, Init;
    if j == 0 {
      InitInv(r[0]);
    } else {
      RunInv(r, j - 1);
      assert Next(r[j - 1], r[j - 1 + 1]);
      StepInv(r[j - 1], r[j]);
    }
  }

  // ----- What a kick does

  /** The calls that a kick owes: each once. */
  ghost predicate Owed(c: Command, size0: nat, x: (nat, nat)) {
    match c
    case Kick(a) => x.0 == a && x.1 < size0
    case KickOne(i, a) => x.0 == a && x.1 == i
    case KickMulti(k, a) => x.0 == a && x.1 < k
    case Resize(_) => false
  }

  /** The action ran on all threads that the kick is for, once on each, and on no others. */
  ghost predicate RanOnceEach(s: State) {
    forall x: (nat, nat) :: s.calls[x] == if Owed(s.cmd, s.size0, x) then 1 else 0
  }

  /** When the end gate has been kicked, nobody is inside an action, and the action was called exactly once
      on each thread that it was meant for; but not if kickMulti lowered the number of threads, when
      nothing was called at all. */
  lemma KickReturns(s: State)
    requires Inv(s) && s.stage.Resetting?
    ensures forall i | i in s.gates.workers :: s.gates.workers[i] != Deciding && s.gates.workers[i] != Running
    ensures RanOnceEach(s) <==> !Shrinks(s.cmd, s.size0)
    ensures Shrinks(s.cmd, s.size0) ==> s.calls == multiset{}
  {
    hide GatesOk, StoreOk, ThreadsOk;
    forall i | i in s.gates.workers ensures s.gates.workers[i] != Deciding && s.gates.workers[i] != Running {
      ClosedPc(s.gates, i);
    }
    if Shrinks(s.cmd, s.size0) {
      forall x: (nat, nat) ensures s.calls[x] == 0 { assert s.calls[x] == CallsDue(s, x); }
      assert s.calls[(s.cmd.action, 0)] == 0 && Owed(s.cmd, s.size0, (s.cmd.action, 0));
    } else {
      forall x: (nat, nat) ensures s.calls[x] == if Owed(s.cmd, s.size0, x) then 1 else 0 {
        assert s.calls[x] == CallsDue(s, x);
      }
    }
  }

  lemma ClosedPc(g: Gates, i: nat)
    requires GatesOk(g, false) && i in g.workers
    ensures g.workers[i] == Arriving || g.workers[i] == AtStart || g.workers[i] == AtEnd
  {
    assert PcOk(false, i in g.mustExit, g.workers[i]);
  }

  /** Before the start gate of a kick is kicked, nothing has been called and nobody can call anything. */
  lemma NothingEarly(r: seq<State>, j: nat)
    requires Run(r) && j < |r| && !r[j].stage.Idle? && !r[j].stage.Resetting? && !Open(r[j].stage)
    ensures r[j].calls == multiset{}
    ensures var w := r[j].gates.workers; forall i | i in w :: w[i] != Deciding && w[i] != Running
  {
    hide Run, GatesOk, StoreOk, ThreadsOk, SizesOk, ActionOk;
    RunInv(r, j);
    var s := r[j];
    forall x: (nat, nat) ensures s.calls[x] == 0 { assert s.calls[x] == CallsDue(s, x); }
    forall i | i in s.gates.workers ensures s.gates.workers[i] != Deciding && s.gates.workers[i] != Running {
      ClosedPc(s.gates, i);
    }
  }

  /** A thread that was told to exit never looks at the action, and while threads are being retired
      the action is noAction. */
  lemma ExitingRunNothing(r: seq<State>, j: nat, i: nat)
    requires Run(r) && j < |r| && i in r[j].gates.workers && i in r[j].gates.mustExit
    ensures r[j].gates.workers[i] != Deciding && r[j].gates.workers[i] != Running
    ensures r[j].action == NO_ACTION && r[j].calls == multiset{}
  {
    hide Run, StoreOk;
    RunInv(r, j);
    var s := r[j];
    assert PcOk(Open(s.stage), i in s.gates.mustExit, s.gates.workers[i]);
    assert Told(s, i);
    forall x: (nat, nat) ensures s.calls[x] == 0 { assert s.calls[x] == CallsDue(s, x); }
  }

  /** When setNumSpawnedThreads returns, exactly the threads asked for are left, and all are on their way to, or at,
      the start gate. */
  lemma ShrinkLeaves(r: seq<State>, j: nat)
    requires Run(r) && j < |r| && r[j].stage.Sized?
    ensures forall i: nat :: i in r[j].gates.workers <==> 1 <= i < SizeFor(r[j].cmd, r[j].size0)
    ensures r[j].gates.mustExit == {} && r[j].gates.end == 0
    ensures var w := r[j].gates.workers; forall i | i in w :: w[i] == Arriving || w[i] == AtStart || w[i] == AtEnd
  {
    hide Run, StoreOk, ActionOk, CallsOk;
    RunInv(r, j);
    var s := r[j];
    ExistAll(s);
    forall i: nat ensures i !in s.gates.mustExit { assert i in s.gates.mustExit <==> Told(s, i); }
    var w := s.gates.workers;
    forall i | i in w ensures w[i] == Arriving || w[i] == AtStart || w[i] == AtEnd {
      ClosedPc(s.gates, i);
    }
  }

  // ----- Deadlock freedom

  lemma LateWorker(g: Gates, open: bool, i: nat)
    requires GatesOk(g, open) && i in g.workers && i !in g.mustExit && g.workers[i] != (if open then AtEnd else AtStart)
    ensures CanStep(g, i)
  {
    assert PcOk(open, i in g.mustExit, g.workers[i]);
  }

  lemma ExitingWorker(g: Gates, i: nat)
    requires GatesOk(g, true) && i in g.workers && i in g.mustExit && g.workers[i] != Exited
    ensures CanStep(g, i)
  {
    assert PcOk(true, i in g.mustExit, g.workers[i]);
  }

  lemma ClosedMoves(g: Gates, i: nat)
    requires GatesOk(g, false) && i in g.workers && g.workers[i] != AtStart
    ensures CanStep(g, i)
  {
    assert PcOk(false, i in g.mustExit, g.workers[i]);
  }

  /** Whenever the main thread is inside a call, it or some worker can take a step that is not spinning. */
  lemma SomeoneMoves(s: State)
    requires Inv(s) && !s.stage.Idle?
    ensures MainCanStep(s) || exists i :: CanStep(s.gates, i)
  {
    hide GatesOk, StoreOk, ActionOk, CallsOk, CanStep, AllAt;
    if !MainCanStep(s) {
      if s.stage.Joining? {
        assert s.t in s.gates.workers by { assert Exists(s, s.t); }
        assert s.t in s.gates.mustExit by { assert Told(s, s.t); }
        ExitingWorker(s.gates, s.t);
      } else {
        ExistAll(s);
        KickWaitsForAll(s.gates, Open(s.stage), s.size);
        SomeLate(s.gates, if Open(s.stage) then AtEnd else AtStart);
        var i :| i in s.gates.workers && s.gates.workers[i] != (if Open(s.stage) then AtEnd else AtStart);
        if Open(s.stage) {
          assert i !in s.gates.mustExit by { assert !Told(s, i); }
          LateWorker(s.gates, true, i);
        } else {
          ClosedMoves(s.gates, i);
        }
      }
    }
  }

  lemma SomeLate(g: Gates, p: Pc)
    requires !AllAt(g, p)
    ensures exists i :: i in g.workers && g.workers[i] != p
  {
  }

  // ----- Every call returns

  /** How many steps a worker can still take before the next kick. */
  function Cost(g: Gates, open: bool, i: nat): nat {
    if i !in g.workers then 0
    else match g.workers[i]
         case Arriving => 1
         case AtStart => if open then 5 else 0
         case Checking => 4
         case Deciding => 3
         case Running => 2
         case Leaving => 1
         case AtEnd => if open then 0 else 2
         case Exited => 0
  }

  function Costs(g: Gates, open: bool, n: nat): nat {
    if n == 0 then 0 else Costs(g, open, n - 1) + Cost(g, open, n - 1)
  }

  lemma {:induction false} CostsBound(g: Gates, open: bool, n: nat)
    ensures Costs(g, open, n) <= 5 * n
  {
    if n > 0 {
      CostsBound(g, open, n - 1);
    }
  }

  lemma StepCost(g: Gates, open: bool, i: nat, picked: bool)
    requires GatesOk(g, open) && CanStep(g, i)
    ensures Cost(Step(g, i, picked), open, i) < Cost(g, open, i)
  {
    hide GatesOk;
    StepPcs(g, open, i, picked);
  }

  lemma {:induction false} StepCosts(g: Gates, open: bool, i: nat, picked: bool, n: nat)
    requires GatesOk(g, open) && CanStep(g, i)
    ensures Costs(Step(g, i, picked), open, n) <= Costs(g, open, n) - (if i < n then 1 else 0)
  {
    hide GatesOk, Cost;
    if n > 0 {
      StepCosts(g, open, i, picked, n - 1);
      if i == n - 1 {
        StepCost(g, open, i, picked);
      } else {
        OtherCost(g, open, i, picked, n - 1);
      }
    }
  }

  lemma OtherCost(g: Gates, open: bool, i: nat, picked: bool, j: nat)
    requires i in g.workers && j != i
    ensures Cost(Step(g, i, picked), open, j) == Cost(g, open, j)
  {
  }

  /** How many steps the main thread can still take in its call. */
  function MainLeft(s: State): int {
    var k := Target(s.cmd);
    match s.stage
    case Idle => 0
    case Setting => 20 + 2 * s.size + k
    case Sizing => 17 + (if k < s.size then 2 * (s.size - k) else k - s.size)
    case Spawning => 9 + (k - s.size)
    case Clearing => 16 + 2 * (s.size - k)
    case Marking => 15 + (s.size - s.t) + (s.size - k)
    case ShrinkSpin => 14 + (s.size - k)
    case ShrinkStore => 13 + (s.size - k)
    case Joining => 12 + (s.size - s.t)
    case Resizing => 11
    case ShrinkEndSpin => 10
    case ShrinkEndStore => 9
    case Sized => 8
    case StartSpin => 7
    case StartStore => 6
    case Own => 5
    case OwnRunning => 4
    case EndSpin => 3
    case EndStore => 2
    case Resetting => 1
  }

  /** As many threads as there can be during the call. */
  function MostThreads(s: State): nat {
    s.size0 + Target(s.cmd)
  }

  /** A bound on the steps until the call returns. */
  function Bound(s: State): int {
    MainLeft(s) * (5 * MostThreads(s) + 1) + Costs(s.gates, Open(s.stage), MostThreads(s))
  }

  lemma SetLess(s: State)
    requires SizesOk(s) && s.stage.Setting?
    ensures 0 <= MainLeft(Set(s)) < MainLeft(s) && MostThreads(Set(s)) == MostThreads(s)
  {
    hide Proper, Kicking, SizeFor, Set, Target, Retiring, Shrinks;
    SetStage(s);
  }

  lemma SizingLess(s: State)
    requires SizesOk(s) && (s.stage.Sizing? || s.stage.Spawning? || Retiring(s.stage))
    ensures 0 <= MainLeft(MainStep(s)) < MainLeft(s) && MostThreads(MainStep(s)) == MostThreads(s)
  {
    hide Proper, Kicking, SizeFor, Target, Set;
  }

  lemma MainLess(s: State)
    requires SizesOk(s) && !s.stage.Idle?
    ensures 0 <= MainLeft(MainStep(s)) < MainLeft(s) && MostThreads(MainStep(s)) == MostThreads(s)
  {
    hide Proper, Kicking, SizeFor, Target, Set, Shrinks, SizesOk;
    if s.stage.Setting? {
      SetLess(s);
    } else if s.stage.Sizing? || s.stage.Spawning? || Retiring(s.stage) {
      SizingLess(s);
    }
  }

  lemma BoundLess(m: int, m': int, c: int, x: int, y: int)
    requires 0 <= m' < m && 0 <= x && 0 <= y < c
    ensures 0 <= m' * c + y < m * c + x
  {
    assert m' * c + c == (m' + 1) * c <= m * c;
    assert m' * c >= 0;
  }

  /** Every step that is not spinning brings the main thread's call closer to its end. */
  lemma StepsDecrease(s: State, s': State)
    requires Inv(s) && !s.stage.Idle? && Next(s, s')
    ensures 0 <= Bound(s') < Bound(s)
  {
    hide Inv, MainStep, WorkerStep, MainCanStep, MainLeft, MostThreads, Costs, Step;
    InvSizes(s);
    var n, c := MostThreads(s), 5 * MostThreads(s) + 1;
    if MainCanStep(s) && s' == MainStep(s) {
      MainLess(s);
      CostsBound(s'.gates, Open(s'.stage), n);
      BoundLess(MainLeft(s), MainLeft(s'), c, Costs(s.gates, Open(s.stage), n), Costs(s'.gates, Open(s'.stage), n));
    } else {
      var i :| CanStep(s.gates, i) && s' == WorkerStep(s, i);
      WorkerLess(s, i);
    }
  }

  lemma InvSizes(s: State)
    requires Inv(s)
    ensures SizesOk(s) && GatesOk(s.gates, Open(s.stage)) && ThreadsOk(s)
  {
    hide SizesOk, GatesOk, ThreadsOk, StoreOk, ActionOk, CallsOk;
  }

  lemma FewThreads(s: State, i: nat)
    requires ThreadsOk(s) && SizesOk(s) && i in s.gates.workers && !s.stage.Idle?
    ensures i < MostThreads(s)
  {
    assert Exists(s, i);
  }

  lemma LeftPositive(s: State)
    requires SizesOk(s)
    ensures MainLeft(s) >= 0
  {
  }

  lemma WorkerLess(s: State, i: nat)
    requires Inv(s) && CanStep(s.gates, i) && !s.stage.Idle?
    ensures 0 <= Bound(WorkerStep(s, i)) < Bound(s)
  {
    hide Inv, CanStep, MainLeft, MostThreads, Costs, Step;
    InvSizes(s);
    InWorkers(s.gates, i);
    FewThreads(s, i);
    StepCosts(s.gates, Open(s.stage), i, Picks(s.filter, i), MostThreads(s));
    var s' := WorkerStep(s, i);
    SameLeft(s, s');
    LeftPositive(s);
    assert MainLeft(s) * (5 * MostThreads(s) + 1) >= 0;
  }

  lemma SameLeft(s: State, s': State)
    requires s'.stage == s.stage && s'.cmd == s.cmd && s'.size == s.size && s'.size0 == s.size0 && s'.t == s.t
    ensures MainLeft(s') == MainLeft(s) && MostThreads(s') == MostThreads(s)
  {
  }

  /** In any run, a call of the main thread returns after a bounded number of steps that are not spinning. */
  lemma {:induction false} CallReturns(r: seq<State>, j: nat, n: nat)
    requires Run(r) && j + n < |r| && n >= Bound(r[j])
    ensures exists m :: j <= m <= j + n && r[m].stage.Idle?
    decreases n
  {
    hide Inv, Next, Bound, Init;
    if !r[j].stage.Idle? {
      RunInv(r, j);
      BoundPositive(r[j]);
      assert Next(r[j], r[j + 1]);
      StepsDecrease(r[j], r[j + 1]);
      CallReturns(r, j + 1, n - 1);
    }
  }

  lemma BoundPositive(s: State)
    requires Inv(s) && !s.stage.Idle?
    ensures Bound(s) > 0
  {
    hide Inv, Costs, MainLeft, MostThreads;
    InvSizes(s);
    MainLess(s);
    assert MainLeft(s) * (5 * MostThreads(s) + 1) >= 1;
  }

  // ----- For every run

  /** In every run, whatever the interleaving and the number of threads: a kick that returns has run its
      action exactly once on each thread it is for, unless it was a kickMulti with fewer targets than
      there were threads; and while a call has not returned, some thread can take a step. */
  lemma EveryKick(r: seq<State>, j: nat)
    requires Run(r) && j < |r|
    ensures var s := r[j]; s.stage.Resetting? ==> (RanOnceEach(s) <==> !(s.cmd.KickMulti? && s.cmd.targets < s.size0))
    ensures r[j].stage.Idle? || MainCanStep(r[j]) || exists i :: CanStep(r[j].gates, i)
  {
    hide Run, Inv, RanOnceEach, MainCanStep, CanStep;
    RunInv(r, j);
    if r[j].stage.Resetting? {
      KickReturns(r[j]);
      assert !r[j].cmd.Resize? by { NotResize(r[j]); }
    }
    if !r[j].stage.Idle? {
      SomeoneMoves(r[j]);
    }
  }

  lemma NotResize(s: State)
    requires Inv(s) && s.stage.Resetting?
    ensures !s.cmd.Resize?
  {
  }

  // ----- kickMulti with fewer targets than threads

  ghost predicate Reached(s: State) {
    exists r :: Run(r) && r[|r| - 1] == s
  }

  lemma Onward(s: State, s': State)
    requires Reached(s) && Next(s, s')
    ensures Reached(s')
  {
    hide Next, Init;
    var r :| Run(r) && r[|r| - 1] == s;
    var q := r + [s'];
    forall j | 0 <= j < |q| - 1 ensures Next(q[j], q[j + 1]) {
      if j < |r| - 1 { assert Next(r[j], r[j + 1]); }
    }
    assert Run(q) && q[|q| - 1] == s';
  }

  lemma MainOnward(s: State, s': State)
    requires Reached(s) && MainCanStep(s) && s' == MainStep(s)
    ensures Reached(s')
  {
    hide MainStep, MainCanStep, Reached;
    Onward(s, s');
  }

  lemma WorkerOnward(s: State, i: nat, s': State)
    requires Reached(s) && CanStep(s.gates, i) && s' == WorkerStep(s, i)
    ensures Reached(s')
  {
    hide WorkerStep, CanStep, Reached;
    Onward(s, s');
  }

  function Fresh(): State {
    State(1, Gates(map[], {}, 0, 0), -1, NO_ACTION, Idle, Kick(1), 0, multiset{}, 1)
  }

  lemma FreshReached()
    ensures Reached(Fresh())
  {
    hide Next;
    var r := [Fresh()];
    assert Run(r) && r[|r| - 1] == Fresh();
  }

  /** A state on the way to two threads. */
  function Growing(size: nat, workers: map<nat, Pc>, stage: Stage): State {
    State(size, Gates(workers, {}, 0, 0), -1, NO_ACTION, stage, Resize(2), 0, multiset{}, 1)
  }

  /** Two threads, from the beginning. */
  lemma TwoThreads()
    ensures Reached(Growing(2, map[1 := Arriving], Idle))
  {
    hide Reached, Next;
    FreshReached();
    assert Next(Fresh(), Growing(1, map[], Sizing)) by { BeganNext(Fresh(), Resize(2)); }
    Onward(Fresh(), Growing(1, map[], Sizing));
    MainOnward(Growing(1, map[], Sizing), Growing(1, map[], Spawning));
    MainOnward(Growing(1, map[], Spawning), Growing(2, map[1 := Arriving], Spawning));
    MainOnward(Growing(2, map[1 := Arriving], Spawning), Growing(2, map[1 := Arriving], Sized));
    MainOnward(Growing(2, map[1 := Arriving], Sized), Growing(2, map[1 := Arriving], Idle));
  }

  lemma BeganNext(s: State, c: Command)
    requires s.stage.Idle? && Proper(c)
    ensures Next(s, Began(s, c))
  {
  }

  /** A state on the way through kickMulti with one target, called when there were two threads. */
  function Retired(size: nat, gates: Gates, action: nat, stage: Stage, t: nat): State {
    State(size, gates, -1, action, stage, KickMulti(1, 7), t, multiset{}, 2)
  }

  lemma OneTargetBegins()
    ensures Reached(Retired(2, Gates(map[1 := Arriving], {1}, 0, 0), NO_ACTION, ShrinkSpin, 2))
  {
    hide Reached, Next;
    var w: map<nat, Pc> := map[1 := Arriving];
    TwoThreads();
    var g, h := Gates(w, {}, 0, 0), Gates(w, {1}, 0, 0);
    BeganNext(Growing(2, w, Idle), KickMulti(1, 7));
    Onward(Growing(2, w, Idle), Retired(2, g, NO_ACTION, Setting, 0));
    MainOnward(Retired(2, g, NO_ACTION, Setting, 0), Retired(2, g, 7, Sizing, 0));
    MainOnward(Retired(2, g, 7, Sizing, 0), Retired(2, g, 7, Clearing, 0));
    MainOnward(Retired(2, g, 7, Clearing, 0), Retired(2, g, NO_ACTION, Marking, 1));
    MainOnward(Retired(2, g, NO_ACTION, Marking, 1), Retired(2, h, NO_ACTION, Marking, 2));
    MainOnward(Retired(2, h, NO_ACTION, Marking, 2), Retired(2, h, NO_ACTION, ShrinkSpin, 2));
  }

  lemma WorkerRetires()
    ensures Reached(Retired(2, Gates(map[1 := Exited], {1}, 0, 0), NO_ACTION, Joining, 1))
  {
    hide Reached, Next;
    OneTargetBegins();
    var g0, g1 := Gates(map[1 := Arriving], {1}, 0, 0), Gates(map[1 := AtStart], {1}, 1, 0);
    WorkerOnward(Retired(2, g0, NO_ACTION, ShrinkSpin, 2), 1, Retired(2, g1, NO_ACTION, ShrinkSpin, 2));
    MainOnward(Retired(2, g1, NO_ACTION, ShrinkSpin, 2), Retired(2, g1, NO_ACTION, ShrinkStore, 2));
    var g2, g3 := Gates(map[1 := AtStart], {1}, 0, 0), Gates(map[1 := Checking], {1}, 0, 0);
    MainOnward(Retired(2, g1, NO_ACTION, ShrinkStore, 2), Retired(2, g2, NO_ACTION, Joining, 1));
    WorkerOnward(Retired(2, g2, NO_ACTION, Joining, 1), 1, Retired(2, g3, NO_ACTION, Joining, 1));
    WorkerOnward(Retired(2, g3, NO_ACTION, Joining, 1), 1,
                 Retired(2, Gates(map[1 := Exited], {1}, 0, 0), NO_ACTION, Joining, 1));
  }

  lemma OneThreadLeft()
    ensures Reached(Retired(1, Gates(map[], {}, 0, 0), NO_ACTION, ShrinkEndStore, 2))
  {
    hide Reached, Next;
    WorkerRetires();
    var g, h := Gates(map[1 := Exited], {1}, 0, 0), Gates(map[], {}, 0, 0);
    assert g.workers - {1} == map[] && g.mustExit - {1} == {};
    MainOnward(Retired(2, g, NO_ACTION, Joining, 1), Retired(2, h, NO_ACTION, Joining, 2));
    MainOnward(Retired(2, h, NO_ACTION, Joining, 2), Retired(2, h, NO_ACTION, Resizing, 2));
    MainOnward(Retired(2, h, NO_ACTION, Resizing, 2), Retired(1, h, NO_ACTION, ShrinkEndSpin, 2));
    MainOnward(Retired(1, h, NO_ACTION, ShrinkEndSpin, 2), Retired(1, h, NO_ACTION, ShrinkEndStore, 2));
  }

  /** The rest of the call, all alone. */
  lemma Alone(a: Stage, b: Stage)
    requires Reached(Retired(1, Gates(map[], {}, 0, 0), NO_ACTION, a, 2))
    requires (a == ShrinkEndStore && b == Sized) || (a == Sized && b == StartSpin) ||
      (a == StartSpin && b == StartStore) || (a == StartStore && b == Own)
          || (a == Own && b == OwnRunning) || (a == OwnRunning && b == EndSpin)
          || (a == EndSpin && b == EndStore) || (a == EndStore && b == Resetting)
    ensures Reached(Retired(1, Gates(map[], {}, 0, 0), NO_ACTION, b, 2))
  {
    hide Reached, Next;
    MainOnward(Retired(1, Gates(map[], {}, 0, 0), NO_ACTION, a, 2),
               Retired(1, Gates(map[], {}, 0, 0), NO_ACTION, b, 2));
  }

  /** kickMulti on one target, made while there are two threads, can return without having called its action. */
  lemma KickMultiCallsNothing()
    ensures var s := Retired(1, Gates(map[], {}, 0, 0), NO_ACTION, Resetting, 2);
      Reached(s) && s.cmd == KickMulti(1, 7) && s.size0 == 2 && s.calls == multiset{} && !RanOnceEach(s)
  {
    hide Reached, Next;
    OneThreadLeft();
    Alone(ShrinkEndStore, Sized);
    Alone(Sized, StartSpin);
    Alone(StartSpin, StartStore);
    Alone(StartStore, Own);
    Alone(Own, OwnRunning);
    Alone(OwnRunning, EndSpin);
    Alone(EndSpin, EndStore);
    Alone(EndStore, Resetting);
    var s := Retired(1, Gates(map[], {}, 0, 0), NO_ACTION, Resetting, 2);
    assert s.calls[(7, 0)] == 0 && Owed(s.cmd, s.size0, (7, 0));
  }
}
