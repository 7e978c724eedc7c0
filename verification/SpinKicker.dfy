/** Two SpinKicker gates that the same worker threads pass in turn. */
module SpinKicker {

  /** Where a worker is in the loop of threadRun. */
  datatype Pc =
    | Arriving   // about to fetchAdd on the start gate
    | AtStart    // busy-waiting on the start gate
    | Checking   // about to read mustExit
    | Deciding   // about to read m_threadFilter and m_action
    | Running    // inside the action
    | Leaving    // about to fetchAdd on the end gate
    | AtEnd      // busy-waiting on the end gate
    | Exited

  /** The kick variables of both gates, the threads that run, by index, and those told to exit. */
  datatype Gates = Gates(workers: map<nat, Pc>, mustExit: set<nat>, start: nat, end: nat)

  /** Worker `i` is neither spinning nor gone. */
  predicate CanStep(g: Gates, i: nat) {
    && i in g.workers
    && (g.workers[i] == AtStart ==> g.start == 0)
    && (g.workers[i] == AtEnd ==> g.end == 0)
    && g.workers[i] != Exited
  }

  function NextPc(p: Pc, exits: bool, picked: bool): Pc {
    match p
    case Arriving => AtStart
    case AtStart => Checking
    case Checking => if exits then Exited else Deciding
    case Deciding => if picked then Running else Leaving
    case Running => Leaving
    case Leaving => AtEnd
    case AtEnd => Arriving
    case Exited => Exited
  }

  /** A step of worker `i`; `picked` says whether it finds itself chosen to run the action. */
  function Step(g: Gates, i: nat, picked: bool): Gates
    requires i in g.workers
  {
    var p := g.workers[i];
    Gates(g.workers[i := NextPc(p, i in g.mustExit, picked)], g.mustExit,
          if p == Arriving then g.start + 1 else g.start, if p == Leaving then g.end + 1 else g.end)
  }

  /** `open`: the start gate was kicked and the end gate not yet. */
  predicate PcOk(open: bool, exits: bool, p: Pc) {
    if open then p != Arriving && (p == Exited ==> exits) &&
      (p == Deciding || p == Running || p == Leaving || p == AtEnd ==> !exits)
    else p == Arriving || p == AtStart || p == AtEnd
  }

  function Waiting(w: map<nat, Pc>, p: Pc): set<nat> {
    set i | i in w && w[i] == p
  }

  /** Each kick variable counts the threads that wait at its gate, if they wait for the next kick. */
  ghost predicate GatesOk(g: Gates, open: bool) {
    && (forall i | i in g.workers :: PcOk(open, i in g.mustExit, g.workers[i]))
    && (if open then g.start == 0 && g.end == |Waiting(g.workers, AtEnd)|
        else g.end == 0 && g.start == |Waiting(g.workers, AtStart)|)
  }

  ghost predicate AllAt(g: Gates, p: Pc) {
    forall i | i in g.workers :: g.workers[i] == p
  }

  lemma Moved(w: map<nat, Pc>, i: nat, p: Pc, q: Pc)
    requires i in w
    ensures Waiting(w[i := p], q) == if p == q then Waiting(w, q) + {i} else Waiting(w, q) - {i}
  {
  }

  /** A thread that waits for the next kick spins. */
  lemma Spins(g: Gates, open: bool, i: nat)
    requires GatesOk(g, open) && i in g.workers && g.workers[i] == (if open then AtEnd else AtStart)
    ensures !CanStep(g, i)
  {
    assert i in Waiting(g.workers, g.workers[i]);
  }

  lemma StepPc(g: Gates, open: bool, i: nat, picked: bool)
    requires GatesOk(g, open) && CanStep(g, i)
    ensures PcOk(open, i in g.mustExit, NextPc(g.workers[i], i in g.mustExit, picked))
  {
    assert PcOk(open, i in g.mustExit, g.workers[i]);
    if g.workers[i] == (if open then AtEnd else AtStart) {
      Spins(g, open, i);
    }
  }

  /** Worker steps keep the gates in order. */
  lemma StepOk(g: Gates, open: bool, i: nat, picked: bool)
    requires GatesOk(g, open) && CanStep(g, i)
    ensures GatesOk(Step(g, i, picked), open)
  {
    hide PcOk;
    StepPc(g, open, i, picked);
    var p := NextPc(g.workers[i], i in g.mustExit, picked);
    StepPcs(g, open, i, picked);
    Moved(g.workers, i, p, AtStart);
    Moved(g.workers, i, p, AtEnd);
  }

  /** Which steps move a gate's count. */
  lemma StepPcs(g: Gates, open: bool, i: nat, picked: bool)
    requires GatesOk(g, open) && CanStep(g, i)
    ensures var p, q := g.workers[i], NextPc(g.workers[i], i in g.mustExit, picked);
      if open then p != AtEnd && p != Arriving && (q == AtEnd <==> p == Leaving)
      else p != AtStart && p != Leaving && (q == AtStart <==> p == Arriving)
  {
    assert PcOk(open, i in g.mustExit, g.workers[i]);
    if g.workers[i] == (if open then AtEnd else AtStart) {
      Spins(g, open, i);
    }
  }

  function Upto(n: nat): set<nat> {
    if n <= 1 then {} else Upto(n - 1) + {n - 1}
  }

  lemma {:induction false} UptoSize(n: nat)
    requires n >= 1
    ensures |Upto(n)| == n - 1 && forall i: nat :: i in Upto(n) <==> 1 <= i < n
  {
    if n > 1 {
      UptoSize(n - 1);
    }
  }

  lemma SubsetSize(a: set<nat>, b: set<nat>)
    requires a <= b
    ensures |a| <= |b| && (|a| >= |b| ==> a == b)
  {
    assert |b| == |a| + |b - a| by { assert b == a + (b - a); }
    if |a| >= |b| { assert b - a == {}; }
  }

  /** kick(n - 1) passes its loop exactly when all workers wait at the gate, if they are the threads 1 to n - 1. */
  lemma KickWaitsForAll(g: Gates, open: bool, n: nat)
    requires GatesOk(g, open) && n >= 1 && forall i: nat :: i in g.workers <==> 1 <= i < n
    ensures var p, v := if open then AtEnd else AtStart, if open then g.end else g.start;
      v <= n - 1 && (v >= n - 1 <==> AllAt(g, p))
  {
    hide PcOk;
    var p := if open then AtEnd else AtStart;
    UptoSize(n);
    SubsetSize(Waiting(g.workers, p), Upto(n));
    if |Waiting(g.workers, p)| >= n - 1 {
      forall i | i in g.workers ensures g.workers[i] == p { assert i in Upto(n); }
    }
    if AllAt(g, p) {
      assert Waiting(g.workers, p) == Upto(n);
    }
  }

  /** Kicking the start gate when all wait there: nobody waits at the end gate. */
  lemma StartKicked(g: Gates)
    requires GatesOk(g, false) && AllAt(g, AtStart)
    ensures GatesOk(g.(start := 0), true)
  {
    assert Waiting(g.workers, AtEnd) == {};
  }

  /** Kicking the end gate when all wait there. */
  lemma EndKicked(g: Gates)
    requires GatesOk(g, true) && AllAt(g, AtEnd)
    ensures GatesOk(g.(end := 0), false)
  {
    assert Waiting(g.workers, AtStart) == {};
  }
}
