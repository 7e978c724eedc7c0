/** Trace_MemLog: logging by any number of threads, as interleaved steps. */
module TraceMemLog {

  const MAX_NUM_PAGES: nat := 4
  const EVENTS_PER_PAGE: nat := 16384

  // ----- States

  /** A page, by the order of creation, and an index on it. */
  type Slot = (nat, nat)

  /** Where a thread is in `log`; from Locked to Releasing it is in allocateEventFromNewPage, holding the lock. */
  datatype Pc =
    | Entering
    | Loaded(page: nat)
    | WaitingForLock
    | Locked
    | Adding(page: nat)
    | Full(page: nat)               // about to create a page
    | Made(page: nat, made: nat)    // about to link it
    | Linked(made: nat)             // about to publish it as the tail
    | Published(made: nat)          // about to count it, or to drop the oldest page
    | Releasing(slot: Slot)
    | Writing(slot: Slot)

  /** The pages: their counters and links (-1 for NULL), and the fields of Trace_MemLog. */
  datatype Pages = Pages(idx: seq<nat>, next: seq<int>, head: nat, tail: nat, numPages: nat)

  datatype Thread = Thread(call: nat, pc: Pc)

  /** `threads` are those inside `log`; calls are numbered, and `runner` says which thread
      is making each. `slotOf` and `owner` record which call claimed which slot, and `events` which call's
      event a slot holds. */
  datatype State = State(pages: Pages, lock: int, threads: map<nat, Thread>, calls: nat,
                         runner: map<nat, nat>, slotOf: map<nat, Slot>, owner: map<Slot, nat>, events: map<Slot, nat>)

  predicate Init(s: State) {
    && s.pages == Pages([0], [-1], 0, 0, 1) && s.lock == -1 && s.threads == map[] && s.calls == 0
    && s.runner == map[] && s.slotOf == map[] && s.owner == map[] && s.events == map[]
  }

  // ----- Steps

  function Bump(g: Pages, p: nat): Pages
    requires p < |g.idx|
  {
    g.(idx := g.idx[p := g.idx[p] + 1])
  }

  /** What a thread at `pc` reads, or writes, is there. */
  predicate Ready(g: Pages, pc: Pc) {
    match pc
    case Loaded(p) => p < |g.idx|
    case Locked => g.tail < |g.idx|
    case Adding(p) => p < |g.idx|
    case Made(p, _) => p < |g.next|
    case Published(_) => g.head < |g.next| && (g.numPages >= MAX_NUM_PAGES ==> g.next[g.head] >= 0)
    case _ => true
  }

  /** The thread gets a slot in this step, namely ClaimedSlot. */
  predicate Claims(g: Pages, pc: Pc)
    requires Ready(g, pc)
  {
    match pc
    case Loaded(p) => g.idx[p] < EVENTS_PER_PAGE
    case Adding(p) => g.idx[p] < EVENTS_PER_PAGE
    case Full(_) => true
    case _ => false
  }

  function ClaimedSlot(g: Pages, pc: Pc): Slot
    requires Ready(g, pc)
  {
    match pc
    case Loaded(p) => (p, g.idx[p])
    case Adding(p) => (p, g.idx[p])
    case _ => (|g.idx|, 0)
  }

  function NextPages(g: Pages, pc: Pc): Pages
    requires Ready(g, pc)
  {
    match pc
    case Loaded(p) => Bump(g, p)
    case Adding(p) => Bump(g, p)
    case Full(_) => g.(idx := g.idx + [1], next := g.next + [-1])
    case Made(p, n) => g.(next := g.next[p := n])
    case Linked(n) => g.(tail := n)
    case Published(_) => if g.numPages >= MAX_NUM_PAGES then g.(head := g.next[g.head]) else g.(numPages := g.numPages + 1)
    case _ => g
  }

  function NextPc(g: Pages, pc: Pc): Pc
    requires Ready(g, pc)
  {
    match pc
    case Entering => Loaded(g.tail)
    case Loaded(p) => if g.idx[p] < EVENTS_PER_PAGE then Writing((p, g.idx[p])) else WaitingForLock
    case WaitingForLock => Locked
    case Locked => if g.idx[g.tail] < EVENTS_PER_PAGE then Adding(g.tail) else Full(g.tail)
    case Adding(p) => if g.idx[p] < EVENTS_PER_PAGE then Releasing((p, g.idx[p])) else Full(p)
    case Full(p) => Made(p, |g.idx|)
    case Made(_, n) => Linked(n)
    case Linked(n) => Published(n)
    case Published(n) => Releasing((n, 0))
    case Releasing(x) => Writing(x)
    case Writing(x) => Writing(x)
  }

  predicate CanStep(s: State, t: nat) {
    t in s.threads && Ready(s.pages, s.threads[t].pc) && (s.threads[t].pc.WaitingForLock? ==> s.lock == -1)
  }

  /** A step of thread `t`; the last one writes its event. */
  function Step(s: State, t: nat): State
    requires CanStep(s, t)
  {
    var c, pc, g := s.threads[t].call, s.threads[t].pc, s.pages;
    if pc.Writing? then
      s.(events := s.events[pc.slot := c], threads := s.threads - {t}, runner := s.runner - {c})
    else
      var s' := if Claims(g, pc) then s.(slotOf := s.slotOf[c := ClaimedSlot(g, pc)],
            owner := s.owner[ClaimedSlot(g, pc) := c]) else s;
      s'.(pages := NextPages(g, pc), lock := if pc.WaitingForLock? then t else if pc.Releasing? then -1 else s.lock,
          threads := s.threads[t := Thread(c, NextPc(g, pc))])
  }

  /** Thread `t` calls `log`. */
  function Call(s: State, t: nat): State {
    s.(threads := s.threads[t := Thread(s.calls, Entering)], runner := s.runner[s.calls := t], calls := s.calls + 1)
  }

  ghost predicate Next(s: State, s': State) {
    exists t: nat :: (t !in s.threads && s' == Call(s, t)) || (CanStep(s, t) && s' == Step(s, t))
  }

  ghost predicate Run(r: seq<State>) {
    && |r| > 0 && Init(r[0])
    && forall j | 0 <= j < |r| - 1 :: Next(r[j], r[j + 1])
  }

  // ----- The invariant

  predicate InLock(pc: Pc) {
    pc.Locked? || pc.Adding? || pc.Full? || pc.Made? || pc.Linked? || pc.Published? || pc.Releasing?
  }

  /** The pages from the oldest retained one to the tail are chained, all pages before the tail are full, the tail is
      empty only if it is the first page of all, and no page has been dropped unless there were enough. */
  ghost predicate Chained(g: Pages) {
    && |g.idx| == |g.next| && g.head <= g.tail < |g.idx| && 1 <= g.numPages <= MAX_NUM_PAGES
    && (g.head > 0 ==> g.numPages == MAX_NUM_PAGES) && (g.tail > 0 ==> g.idx[g.tail] > 0)
    && forall p | 0 <= p < g.tail :: g.idx[p] >= EVENTS_PER_PAGE && g.next[p] == p + 1
  }

  /** Nobody is adding a page. */
  ghost predicate Quiet(g: Pages) {
    Chained(g) && g.tail == |g.idx| - 1 && g.next[g.tail] == -1 && g.numPages == g.tail - g.head + 1
  }

  /** Page `n` is made but not published. */
  ghost predicate Hidden(g: Pages, n: nat) {
    && Chained(g) && n == g.tail + 1 == |g.idx| - 1 && g.idx[g.tail] >= EVENTS_PER_PAGE && g.idx[n] == 1
    && g.next[n] == -1
    && g.numPages == g.tail - g.head + 1
  }

  /** What the thread at `pc` that holds the lock can rely on. */
  ghost predicate Making(g: Pages, pc: Pc) {
    match pc
    case Adding(p) => Quiet(g) && p == g.tail
    case Full(p) => Quiet(g) && p == g.tail && g.idx[p] >= EVENTS_PER_PAGE
    case Made(p, n) => Hidden(g, n) && p == g.tail
    case Linked(n) => Hidden(g, n) && g.next[g.tail] == n
    case Published(n) => Chained(g) && n == g.tail == |g.idx| - 1 && g.next[g.tail] == -1 &&
      g.numPages == g.tail - g.head
    case _ => Quiet(g)
  }

  ghost predicate LockOk(s: State) {
    && (s.lock == -1 ||
        (s.lock >= 0 && s.lock in s.threads && InLock(s.threads[s.lock].pc) && Making(s.pages, s.threads[s.lock].pc)))
    && (s.lock == -1 ==> Quiet(s.pages))
    && forall t | t in s.threads && InLock(s.threads[t].pc) :: t == s.lock
  }

  /** The claimed slots are those that the counters say. */
  predicate Taken(g: Pages, x: Slot) {
    x.0 < |g.idx| && x.1 < g.idx[x.0] && x.1 < EVENTS_PER_PAGE
  }

  ghost predicate SlotsOk(s: State) {
    && (forall x: Slot :: x in s.owner <==> Taken(s.pages, x))
    && (forall x | x in s.owner :: s.owner[x] in s.slotOf && s.slotOf[s.owner[x]] == x)
    && (forall c | c in s.slotOf :: s.slotOf[c] in s.owner && s.owner[s.slotOf[c]] == c)
  }

  /** Calls whose thread has not claimed a slot yet. */
  predicate Unclaimed(pc: Pc) {
    pc.Entering? || pc.Loaded? || pc.WaitingForLock? || pc.Locked? || pc.Adding? || pc.Full?
  }

  function SlotAt(pc: Pc): Slot {
    match pc
    case Made(_, n) => (n, 0)
    case Linked(n) => (n, 0)
    case Published(n) => (n, 0)
    case Releasing(x) => x
    case Writing(x) => x
    case _ => (0, 0)
  }

  ghost predicate ThreadOk(s: State, t: nat)
    requires t in s.threads
  {
    var c, pc := s.threads[t].call, s.threads[t].pc;
    && c in s.runner && s.runner[c] == t
    && (if Unclaimed(pc) then c !in s.slotOf else c in s.slotOf && s.slotOf[c] == SlotAt(pc))
    && (pc.Loaded? ==> pc.page <= s.pages.tail)
  }

  /** Every call is running, or is done and its event is in its slot. */
  ghost predicate CallOk(s: State, c: nat) {
    if c >= s.calls then c !in s.runner && c !in s.slotOf
    else if c in s.runner then s.runner[c] in s.threads && s.threads[s.runner[c]].call == c
    else c in s.slotOf && s.slotOf[c] in s.events && s.events[s.slotOf[c]] == c
  }

  ghost predicate CallsOk(s: State) {
    && (forall t | t in s.threads :: ThreadOk(s, t))
    && (forall c: nat :: CallOk(s, c))
  }

  /** On its way to adding a page, or to finding that somebody else did. */
  predicate Slow(pc: Pc) {
    pc.WaitingForLock? || pc.Locked? || pc.Adding? || pc.Full? || pc.Made? || pc.Linked?
  }

  /** The tail's counter exceeds the page only while somebody is about to replace it. */
  ghost predicate OverOk(s: State) {
    s.pages.tail < |s.pages.idx| && s.pages.idx[s.pages.tail] > EVENTS_PER_PAGE ==>
      exists t :: t in s.threads && Slow(s.threads[t].pc)
  }

  function Least(a: nat, b: nat): nat {
    if a < b then a else b
  }

  /** How many slots have been claimed on all pages, dropped ones included. */
  function Claimed(g: Pages): int {
    if g.tail < |g.idx| then
      g.tail * EVENTS_PER_PAGE + Least(EVENTS_PER_PAGE, g.idx[g.tail]) + (|g.idx| - 1 - g.tail)
    else 0
  }

  /** Each claim was made by one call. */
  ghost predicate CountOk(s: State) {
    |s.slotOf| == Claimed(s.pages)
  }

  ghost predicate Inv(s: State) {
    LockOk(s) && SlotsOk(s) && CallsOk(s) && OverOk(s) && CountOk(s)
  }

  lemma InitInv(s: State)
    requires Init(s)
    ensures Inv(s)
  {
  }

  // ----- Pages

  /** Whoever holds the lock, the pages are chained, and what the threads hold is a page. */
  lemma PagesChained(s: State)
    requires LockOk(s)
    ensures Chained(s.pages)
  {
    hide Chained;
  }

  /** Counters of pages up to the tail may be bumped at any time. */
  lemma BumpMaking(g: Pages, p: nat, pc: Pc)
    requires Making(g, pc) && p <= g.tail < |g.idx|
    ensures Making(Bump(g, p), pc)
  {
  }

  lemma BumpQuiet(g: Pages, p: nat)
    requires Quiet(g) && p <= g.tail < |g.idx|
    ensures Quiet(Bump(g, p))
  {
  }

  /** The lock holder's own steps. */
  lemma HolderStep(g: Pages, pc: Pc)
    requires Ready(g, pc) && InLock(pc) && Making(g, pc)
    ensures if InLock(NextPc(g, pc)) then Making(NextPages(g, pc), NextPc(g, pc)) else Quiet(NextPages(g, pc))
  {
  }

  /** The pages of a state in which the lock is held by nobody, or by a thread at `pc`. */
  ghost predicate HeldOk(g: Pages, lock: int, pc: Pc) {
    if lock == -1 then Quiet(g) else InLock(pc) && Making(g, pc)
  }

  lemma OtherStep(g: Pages, pc: Pc, lock: int, holder: Pc)
    requires Ready(g, pc) && !InLock(pc) && !pc.WaitingForLock? && HeldOk(g, lock, holder)
    requires (pc.Loaded? ==> pc.page <= g.tail < |g.idx|)
    ensures HeldOk(NextPages(g, pc), lock, holder)
  {
    hide Making, Quiet;
    if pc.Loaded? {
      if lock == -1 { BumpQuiet(g, pc.page); } else { BumpMaking(g, pc.page, holder); }
    }
  }

  lemma TailIn(g: Pages)
    requires Chained(g)
    ensures g.head <= g.tail < |g.idx| == |g.next|
  {
  }

  lemma LockStep(s: State, t: nat)
    requires LockOk(s) && CanStep(s, t) && ThreadOk(s, t)
    ensures LockOk(Step(s, t))
  {
    hide Quiet, Making, Ready, NextPages, Claims, Chained;
    PagesChained(s);
    TailIn(s.pages);
    var pc := s.threads[t].pc;
    if InLock(pc) {
      HolderStep(s.pages, pc);
    } else if pc.WaitingForLock? {
      QuietLocked(s.pages);
    } else {
      OtherStep(s.pages, pc, s.lock, if s.lock >= 0 && s.lock in s.threads then s.threads[s.lock].pc else pc);
      OthersPc(s.pages, pc);
    }
  }

  lemma OthersPc(g: Pages, pc: Pc)
    requires Ready(g, pc) && !InLock(pc) && !pc.WaitingForLock?
    ensures !InLock(NextPc(g, pc))
  {
  }

  lemma QuietLocked(g: Pages)
    requires Quiet(g)
    ensures Making(NextPages(g, WaitingForLock), Locked)
  {
  }

  // ----- Slots

  /** The counters rise exactly when a slot is claimed, and that slot was free. */
  lemma TakenStep(g: Pages, pc: Pc, x: Slot)
    requires Ready(g, pc) && |g.idx| == |g.next|
    ensures Taken(NextPages(g, pc), x) <==> Taken(g, x) || (Claims(g, pc) && x == ClaimedSlot(g, pc))
    ensures Claims(g, pc) ==> !Taken(g, ClaimedSlot(g, pc))
  {
  }

  lemma SlotsStep(s: State, t: nat)
    requires SlotsOk(s) && CanStep(s, t) && ThreadOk(s, t) && |s.pages.idx| == |s.pages.next|
    ensures SlotsOk(Step(s, t))
  {
    hide Taken, Ready, Claims, ClaimedSlot, NextPages, NextPc;
    var pc, g := s.threads[t].pc, s.pages;
    ClaimsUnclaimed(g, pc);
    forall x: Slot ensures Taken(NextPages(g, pc), x) <==> Taken(g, x) || (Claims(g, pc) && x == ClaimedSlot(g, pc)) {
      TakenStep(g, pc, x);
    }
    TakenStep(g, pc, (0, 0));
    if pc.Writing? { WritingKeeps(g, pc); }
  }

  lemma ClaimsUnclaimed(g: Pages, pc: Pc)
    requires Ready(g, pc)
    ensures Claims(g, pc) ==> Unclaimed(pc) && !Unclaimed(NextPc(g, pc)) && SlotAt(NextPc(g, pc)) == ClaimedSlot(g, pc)
    ensures !Claims(g, pc) && !pc.Writing? ==> (Unclaimed(NextPc(g, pc)) <==> Unclaimed(pc))
    ensures !Unclaimed(pc) ==> SlotAt(NextPc(g, pc)) == SlotAt(pc)
  {
  }

  lemma WritingKeeps(g: Pages, pc: Pc)
    requires Ready(g, pc) && pc.Writing?
    ensures NextPages(g, pc) == g && SlotAt(pc) == pc.slot && !Claims(g, pc)
  {
  }

  // ----- Calls

  lemma TailGrows(g: Pages, pc: Pc, h: Pc)
    requires Ready(g, pc) && (pc.Linked? ==> Making(g, pc))
    ensures NextPages(g, pc).tail >= g.tail
  {
  }

  lemma OwnThread(s: State, t: nat)
    requires CallsOk(s) && CanStep(s, t) && (s.threads[t].pc.Linked? ==> Making(s.pages, s.threads[t].pc))
    ensures t in Step(s, t).threads ==> ThreadOk(Step(s, t), t)
  {
    hide Claims, ClaimedSlot, NextPages, Making, Ready, Unclaimed, SlotAt;
    assert ThreadOk(s, t);
    ClaimsUnclaimed(s.pages, s.threads[t].pc);
    EnteringTail(s.pages, s.threads[t].pc);
  }

  lemma EnteringTail(g: Pages, pc: Pc)
    requires Ready(g, pc)
    ensures NextPc(g, pc).Loaded? ==> NextPc(g, pc).page <= NextPages(g, pc).tail
  {
  }

  lemma OtherThread(s: State, t: nat, u: nat)
    requires CallsOk(s) && CanStep(s, t) && u in s.threads && u != t
    requires (s.threads[t].pc.Linked? ==> Making(s.pages, s.threads[t].pc))
    ensures ThreadOk(Step(s, t), u)
  {
    hide Claims, ClaimedSlot, NextPages, Making, Ready, Unclaimed, SlotAt, NextPc;
    assert ThreadOk(s, t) && ThreadOk(s, u);
    TailGrows(s.pages, s.threads[t].pc, Locked);
    if s.threads[t].pc.Writing? { WritingKeeps(s.pages, s.threads[t].pc); }
  }

  /** Only the slot's owner writes to it. */
  lemma CallStep(s: State, t: nat, c: nat)
    requires CallsOk(s) && SlotsOk(s) && CanStep(s, t)
    ensures CallOk(Step(s, t), c)
  {
    hide Claims, ClaimedSlot, NextPages, Making, Ready, Unclaimed, NextPc, Taken;
    assert ThreadOk(s, t);
    assert CallOk(s, c) && CallOk(s, s.threads[t].call);
    ClaimsUnclaimed(s.pages, s.threads[t].pc);
    if s.threads[t].pc.Writing? { WritingClaimed(s.pages, s.threads[t].pc); }
  }

  lemma WritingClaimed(g: Pages, pc: Pc)
    requires Ready(g, pc) && pc.Writing?
    ensures !Unclaimed(pc) && SlotAt(pc) == pc.slot
  {
  }

  lemma CallsStep(s: State, t: nat)
    requires CallsOk(s) && SlotsOk(s) && CanStep(s, t) && (s.threads[t].pc.Linked? ==> Making(s.pages, s.threads[t].pc))
    ensures CallsOk(Step(s, t))
  {
    hide SlotsOk, ThreadOk, CallOk, Ready, Making, NextPages, NextPc, Claims, ClaimedSlot;
    var s' := Step(s, t);
    forall u | u in s'.threads ensures ThreadOk(s', u) {
      if u == t { OwnThread(s, t); } else { OtherThread(s, t, u); }
    }
    forall c: nat ensures CallOk(s', c) { CallStep(s, t, c); }
  }

  // ----- The tail

  /** If a step leaves the tail's counter beyond the page, the thread is slow, or it was so before and the thread has
      not been slow. */
  lemma OverPages(g: Pages, pc: Pc)
    requires Ready(g, pc) && Chained(g) && (InLock(pc) ==> Making(g, pc)) && (pc.Loaded? ==> pc.page <= g.tail)
    ensures var h := NextPages(g, pc);
      h.tail < |h.idx|
        && (h.idx[h.tail] > EVENTS_PER_PAGE && !pc.Writing? ==>
              Slow(NextPc(g, pc)) || (g.idx[g.tail] > EVENTS_PER_PAGE && !Slow(pc)))
  {
  }

  lemma OverStep(s: State, t: nat)
    requires OverOk(s) && LockOk(s) && CanStep(s, t) && ThreadOk(s, t)
    ensures OverOk(Step(s, t))
  {
    hide Making, Ready, NextPages, NextPc, Claims, ClaimedSlot, Unclaimed, SlotAt, Chained, Quiet;
    PagesChained(s);
    TailIn(s.pages);
    var pc, g, s' := s.threads[t].pc, s.pages, Step(s, t);
    OverPages(g, pc);
    if s'.pages.idx[s'.pages.tail] > EVENTS_PER_PAGE {
      if !pc.Writing? && Slow(NextPc(g, pc)) {
        assert t in s'.threads && Slow(s'.threads[t].pc);
      } else {
        var u :| u in s.threads && Slow(s.threads[u].pc);
        assert u != t;
        assert u in s'.threads && Slow(s'.threads[u].pc);
      }
    }
  }

  // ----- The number of claims

  lemma ClaimedStep(g: Pages, pc: Pc)
    requires Ready(g, pc) && Chained(g) && (InLock(pc) ==> Making(g, pc)) && (pc.Loaded? ==> pc.page <= g.tail)
    ensures Claimed(NextPages(g, pc)) == Claimed(g) + if Claims(g, pc) then 1 else 0
  {
  }

  lemma CountStep(s: State, t: nat)
    requires CountOk(s) && LockOk(s) && CanStep(s, t) && ThreadOk(s, t)
    ensures CountOk(Step(s, t))
  {
    hide Making, Ready, NextPages, NextPc, Claims, ClaimedSlot, Unclaimed, SlotAt, Chained, Quiet, Claimed;
    PagesChained(s);
    LinkedMaking(s, t);
    ClaimsUnclaimed(s.pages, s.threads[t].pc);
    ClaimedStep(s.pages, s.threads[t].pc);
    if s.threads[t].pc.Writing? { WritingKeeps(s.pages, s.threads[t].pc); }
  }

  // ----- Runs

  lemma StepInv(s: State, t: nat)
    requires Inv(s) && CanStep(s, t)
    ensures Inv(Step(s, t))
  {
    hide LockOk, SlotsOk, CallOk, ThreadOk, OverOk, CountOk, Making, Step, Chained;
    assert ThreadOk(s, t);
    PagesChained(s);
    TailIn(s.pages);
    LinkedMaking(s, t);
    LockStep(s, t);
    SlotsStep(s, t);
    CallsStep(s, t);
    OverStep(s, t);
    CountStep(s, t);
  }

  lemma LinkedMaking(s: State, t: nat)
    requires LockOk(s) && CanStep(s, t)
    ensures InLock(s.threads[t].pc) ==> Making(s.pages, s.threads[t].pc)
  {
    hide Making, Quiet, Ready;
  }

  lemma CallCalls(s: State, t: nat)
    requires CallsOk(s) && t !in s.threads
    ensures CallsOk(Call(s, t))
  {
    hide Unclaimed, SlotAt;
    assert CallOk(s, s.calls);
    forall u | u in Call(s, t).threads ensures ThreadOk(Call(s, t), u) {
      if u != t { assert ThreadOk(s, u); } else { assert Unclaimed(Entering) by { EnteringUnclaimed(); } }
    }
    forall c: nat ensures CallOk(Call(s, t), c) { assert CallOk(s, c); }
  }

  lemma EnteringUnclaimed()
    ensures Unclaimed(Entering)
  {
  }

  lemma CallLock(s: State, t: nat)
    requires LockOk(s) && OverOk(s) && SlotsOk(s) && t !in s.threads
    ensures LockOk(Call(s, t)) && OverOk(Call(s, t)) && SlotsOk(Call(s, t))
  {
    hide Making, Quiet, Taken;
    if s.pages.tail < |s.pages.idx| && s.pages.idx[s.pages.tail] > EVENTS_PER_PAGE {
      var u :| u in s.threads && Slow(s.threads[u].pc);
      assert u in Call(s, t).threads && Slow(Call(s, t).threads[u].pc);
    }
  }

  lemma CallCount(s: State, t: nat)
    requires CountOk(s)
    ensures CountOk(Call(s, t))
  {
  }

  lemma CallInv(s: State, t: nat)
    requires Inv(s) && t !in s.threads
    ensures Inv(Call(s, t))
  {
    hide LockOk, SlotsOk, CallsOk, OverOk, Call;
    assert CountOk(Call(s, t)) by { CallCount(s, t); }
    CallLock(s, t);
    CallCalls(s, t);
  }

  /** The invariant holds throughout every run, with any threads in any interleaving. */
  lemma {:induction false} RunInv(r: seq<State>, j: nat)
    requires Run(r) && j < |r|
    ensures Inv(r[j])
  {
    hide Inv, Step, CanStep, Call, Init;
    if j == 0 {
      InitInv(r[0]);
    } else {
      RunInv(r, j - 1);
      assert Next(r[j - 1], r[j - 1 + 1]);
      var t: nat :| (t !in r[j - 1].threads && r[j] == Call(r[j - 1], t)) ||
        (CanStep(r[j - 1], t) && r[j] == Step(r[j - 1], t));
      if t !in r[j - 1].threads && r[j] == Call(r[j - 1], t) { CallInv(r[j - 1], t); } else { StepInv(r[j - 1], t); }
    }
  }

  // ----- What every run keeps

  /** No two calls of `log` ever get the same slot. */
  lemma DistinctSlots(r: seq<State>, j: nat, c: nat, d: nat)
    requires Run(r) && j < |r| && c in r[j].slotOf && d in r[j].slotOf && c != d
    ensures r[j].slotOf[c] != r[j].slotOf[d]
  {
    hide Run, LockOk, CallsOk, OverOk, Taken;
    RunInv(r, j);
  }

  /** All retained pages but the last are full. There are at most MaxNumPages of them, except between the moment
      a new page is published and the moment its maker drops the oldest one in exchange; and no page is dropped
      before that many are there: with the lock free, the last MaxNumPages pages made are retained, or all of them. */
  lemma RetainedPages(r: seq<State>, j: nat)
    requires Run(r) && j < |r|
    ensures Chained(r[j].pages)
    ensures var s := r[j];
      s.pages.tail - s.pages.head + 1 <= MAX_NUM_PAGES
      || (s.lock in s.threads.Keys && s.threads[s.lock].pc.Published? &&
         s.pages.tail - s.pages.head == s.pages.numPages <= MAX_NUM_PAGES)
    ensures r[j].lock == -1 ==> r[j].pages.tail - r[j].pages.head + 1 == r[j].pages.numPages <= MAX_NUM_PAGES
    ensures var s := r[j];
      s.lock == -1 ==>
        s.pages.tail == |s.pages.idx| - 1 && s.pages.numPages == Least(MAX_NUM_PAGES, |s.pages.idx|)
        && s.pages.head == |s.pages.idx| - s.pages.numPages
    ensures var s := r[j];
      s.lock in s.threads.Keys && s.threads[s.lock].pc.Published? ==>
        s.pages.tail == |s.pages.idx| - 1 && s.pages.numPages == Least(MAX_NUM_PAGES, s.pages.tail)
        && s.pages.head == s.pages.tail - s.pages.numPages
  {
    hide Run, SlotsOk, CallsOk, OverOk, CountOk;
    RunInv(r, j);
  }

  lemma ReadyHolder(g: Pages, pc: Pc)
    requires Making(g, pc)
    ensures pc.Loaded? || Ready(g, pc)
  {
  }

  /** Whatever a thread is about to read or write exists; only the lock makes threads wait. */
  lemma AlwaysReady(s: State, t: nat)
    requires Inv(s) && t in s.threads
    ensures Ready(s.pages, s.threads[t].pc)
  {
    hide Making, Quiet, SlotsOk, OverOk, CallOk, Chained;
    PagesChained(s);
    TailIn(s.pages);
    assert ThreadOk(s, t);
    var pc := s.threads[t].pc;
    if InLock(pc) { ReadyHolder(s.pages, pc); }
  }

  /** While a call of `log` is under way, some thread can take a step. */
  lemma NoDeadlock(r: seq<State>, j: nat)
    requires Run(r) && j < |r| && r[j].threads != map[]
    ensures exists t :: CanStep(r[j], t)
  {
    hide Run, Inv, Ready;
    RunInv(r, j);
    var s := r[j];
    if s.lock == -1 {
      var t :| t in s.threads;
      AlwaysReady(s, t);
      assert CanStep(s, t);
    } else {
      LockHeld(s);
      AlwaysReady(s, s.lock);
      assert CanStep(s, s.lock);
    }
  }

  lemma LockHeld(s: State)
    requires Inv(s) && s.lock != -1
    ensures s.lock >= 0 && s.lock in s.threads && !s.threads[s.lock].pc.WaitingForLock?
  {
    hide SlotsOk, CallsOk, OverOk, Making;
  }

  // ----- Reading the log once logging is complete

  /** The pages when nobody is inside `log`. */
  ghost predicate Complete(g: Pages) {
    Quiet(g) && g.idx[g.tail] <= EVENTS_PER_PAGE
  }

  /** The number of events on the retained pages. */
  ghost function Held(g: Pages): nat
    requires Quiet(g)
  {
    (g.tail - g.head) * EVENTS_PER_PAGE + Least(EVENTS_PER_PAGE, g.idx[g.tail])
  }

  /** The `k`th of them. */
  ghost function SlotNo(g: Pages, k: nat): Slot {
    (g.head + k / EVENTS_PER_PAGE, k % EVENTS_PER_PAGE)
  }

  ghost function SlotsUpto(g: Pages, n: nat): seq<Slot> {
    seq(n, k requires 0 <= k < n => SlotNo(g, k))
  }

  ghost function AllSlots(g: Pages): seq<Slot>
    requires Quiet(g)
  {
    SlotsUpto(g, Held(g))
  }

  lemma Ordinal(p: nat, i: nat)
    requires i < EVENTS_PER_PAGE
    ensures var k := p * EVENTS_PER_PAGE + i; k / EVENTS_PER_PAGE == p && k % EVENTS_PER_PAGE == i
  {
  }

  /** The list has each claimed slot of the retained pages exactly once, and nothing else. */
  lemma AllSlotsOnce(g: Pages)
    requires Quiet(g)
    ensures forall x: Slot :: x in AllSlots(g) <==> g.head <= x.0 && Taken(g, x)
    ensures forall i, j | 0 <= i < j < |AllSlots(g)| :: AllSlots(g)[i] != AllSlots(g)[j]
  {
    forall x: Slot ensures x in AllSlots(g) <==> g.head <= x.0 && Taken(g, x) {
      SlotListed(g, x);
    }
  }

  lemma SlotListed(g: Pages, x: Slot)
    requires Quiet(g)
    ensures x in AllSlots(g) <==> g.head <= x.0 && Taken(g, x)
  {
    if g.head <= x.0 && Taken(g, x) {
      var k := (x.0 - g.head) * EVENTS_PER_PAGE + x.1;
      Ordinal(x.0 - g.head, x.1);
      assert x.0 < g.tail ==> k < (g.tail - g.head) * EVENTS_PER_PAGE;
      assert AllSlots(g)[k] == x;
    }
  }

  /** Trace_MemLog's iterator. */
  class Iterator {
    var page: nat
    var index: nat

    constructor (p: nat, i: nat)
      ensures page == p && index == i
    {
      page, index := p, i;
    }

    /** The number of slots before this position. */
    ghost function Position(g: Pages): int
      reads this
    {
      (page - g.head) * EVENTS_PER_PAGE + index
    }

    /** At a claimed slot, or at the end. */
    ghost predicate Valid(g: Pages)
      reads this
    {
      && Complete(g) && g.head <= page <= g.tail
      && (page < g.tail ==> index < EVENTS_PER_PAGE) && (page == g.tail ==> index <= g.idx[g.tail])
    }

    /** operator++ */
    method Increment(g: Pages)
      requires Valid(g) && !(page == g.tail && index == g.idx[g.tail])
      modifies this
      ensures Valid(g) && Position(g) == old(Position(g)) + 1
    {
      index := index + 1;
      if index >= EVENTS_PER_PAGE {
        var next := g.next[page];
        if next != -1 {
          page := next;
          index := 0;
        } else {
          index := g.idx[page];
        }
      }
    }
  }

  /** From begin() to end(), as the iterator is meant to be used. */
  method Enumerate(g: Pages) returns (visited: seq<Slot>)
    requires Complete(g)
    ensures visited == AllSlots(g)
  {
    var it := new Iterator(g.head, 0);
    var endPage, endIndex := g.tail, g.idx[g.tail];
    visited := [];
    while it.page != endPage || it.index != endIndex
      invariant it.Valid(g) && |visited| == it.Position(g) <= Held(g)
      invariant visited == SlotsUpto(g, |visited|)
      decreases Held(g) - |visited|
    {
      assert SlotNo(g, |visited|) == (it.page, it.index) by { PositionSlot(g, it.page, it.index); }
      visited := visited + [(it.page, it.index)];
      it.Increment(g);
    }
  }

  lemma PositionSlot(g: Pages, p: nat, i: nat)
    requires g.head <= p && i < EVENTS_PER_PAGE
    ensures SlotNo(g, (p - g.head) * EVENTS_PER_PAGE + i) == (p, i)
  {
    Ordinal(p - g.head, i);
  }

  /** dumpStats */
  method DumpStats(g: Pages) returns (numEvents: int)
    requires Complete(g)
    ensures numEvents == |AllSlots(g)|
  {
    numEvents := (g.numPages - 1) * EVENTS_PER_PAGE + g.idx[g.tail];
  }

  /** dumpEntireLog, which holds the lock but lets other threads log on the tail page. */
  method DumpEntireLog(g: Pages, startPage0: nat) returns (written: seq<Slot>)
    requires Quiet(g)
    ensures written == AllSlots(g)[Least(startPage0 * EVENTS_PER_PAGE, Held(g))..]
  {
    hide AllSlots, Held, Part, Before;
    ghost var lo := startPage0 * EVENTS_PER_PAGE;
    NothingBefore(g, lo);
    var startPage := startPage0;
    written := [];
    var page: int := g.head;
    ghost var p := g.head;
    while page != -1
      invariant g.head <= p <= g.tail + 1 && page == if p <= g.tail then p else -1
      invariant startPage == if startPage0 > p - g.head then startPage0 - (p - g.head) else 0
      invariant written == Part(g, Least(lo, Before(g, p)), Before(g, p))
      decreases g.tail + 1 - p
    {
      PageEnd(g, p, startPage0);
      if startPage > 0 {
        startPage := startPage - 1;
      } else {
        var limit := Least(EVENTS_PER_PAGE, g.idx[page]);
        var i := 0;
        while i < limit
          invariant 0 <= i <= limit
          invariant written == Part(g, lo, Before(g, p) + i)
        {
          PartNext(g, lo, p, i);
          written := written + [(page, i)];
          i := i + 1;
        }
      }
      page := g.next[page];
      p := p + 1;
    }
  }

  lemma NothingBefore(g: Pages, lo: nat)
    requires Quiet(g)
    ensures Before(g, g.head) == 0 && Part(g, Least(lo, 0), 0) == []
    ensures Part(g, Least(lo, Before(g, g.tail + 1)), Before(g, g.tail + 1)) == AllSlots(g)[Least(lo, Held(g))..]
  {
  }

  lemma PageEnd(g: Pages, p: nat, skipped: nat)
    requires Quiet(g) && g.head <= p <= g.tail
    ensures g.next[p] == if p < g.tail then p + 1 else -1
    ensures Before(g, p + 1) == Before(g, p) + Least(EVENTS_PER_PAGE, g.idx[p])
    ensures skipped > p - g.head ==> skipped * EVENTS_PER_PAGE >= Before(g, p + 1)
    ensures skipped <= p - g.head ==> skipped * EVENTS_PER_PAGE <= Before(g, p)
    ensures Part(g, Before(g, p), Before(g, p)) == [] && Part(g, Before(g, p + 1), Before(g, p + 1)) == []
  {
  }

  lemma PartNext(g: Pages, lo: nat, p: nat, i: nat)
    requires Quiet(g) && g.head <= p <= g.tail && i < EVENTS_PER_PAGE && i < g.idx[p] && lo <= Before(g, p)
    ensures Part(g, lo, Before(g, p) + i + 1) == Part(g, lo, Before(g, p) + i) + [(p, i)]
  {
    PositionSlot(g, p, i);
    assert AllSlots(g)[Before(g, p) + i] == (p, i);
  }

  /** How many slots come before page `p`. */
  ghost function Before(g: Pages, p: nat): nat
    requires Quiet(g) && g.head <= p
  {
    if p <= g.tail then (p - g.head) * EVENTS_PER_PAGE else Held(g)
  }

  ghost function Part(g: Pages, a: nat, b: nat): seq<Slot>
    requires Quiet(g)
  {
    if a <= b <= Held(g) then AllSlots(g)[a..b] else []
  }

  // ----- What is in the log in the end

  lemma NobodyInside(s: State)
    requires LockOk(s) && OverOk(s) && s.threads == map[]
    ensures Complete(s.pages)
  {
    hide Chained;
    assert s.lock == -1;
  }

  lemma AllDone(s: State, c: nat)
    requires CallsOk(s) && s.threads == map[] && c < s.calls
    ensures c in s.slotOf && s.slotOf[c] in s.events && s.events[s.slotOf[c]] == c
  {
    assert CallOk(s, c);
  }

  /** A slot is claimed exactly if it belongs to some call. */
  lemma TakenByCall(s: State, x: Slot)
    requires CallsOk(s) && SlotsOk(s)
    ensures Taken(s.pages, x) <==> exists c: nat :: c < s.calls && c in s.slotOf && s.slotOf[c] == x
  {
    hide Taken;
    if x in s.owner {
      assert CallOk(s, s.owner[x]);
    }
  }

  lemma {:induction false} Numbers(n: nat, m: set<nat>)
    requires forall c: nat :: c in m <==> c < n
    ensures |m| == n
  {
    if n > 0 {
      assert m == m - {n - 1} + {n - 1};
      Numbers(n - 1, m - {n - 1});
    } else {
      assert m == {};
    }
  }

  /** The oldest page retained when `n` pages have been made. */
  function OldestKept(n: nat): nat {
    if n <= MAX_NUM_PAGES then 0 else n - MAX_NUM_PAGES
  }

  lemma HeadIs(g: Pages)
    requires Quiet(g)
    ensures g.head == OldestKept(|g.idx|)
  {
  }

  /** Once all calls have returned, their number says what is in the log: the pages made are just enough for all
      calls, and of those the last MaxNumPages are retained. */
  lemma FinalCount(r: seq<State>, j: nat)
    requires Run(r) && j < |r| && r[j].threads == map[]
    ensures var s := r[j];
      var made := if s.calls == 0 then 1 else (s.calls - 1) / EVENTS_PER_PAGE + 1;
      Complete(s.pages) && |s.pages.idx| == made && |AllSlots(s.pages)| == s.calls - OldestKept(made) * EVENTS_PER_PAGE
  {
    hide Run, LockOk, SlotsOk, CallsOk, OverOk, AllSlots;
    RunInv(r, j);
    var s := r[j];
    NobodyInside(s);
    HeadIs(s.pages);
    forall c: nat ensures c in s.slotOf.Keys <==> c < s.calls {
      if c < s.calls { AllDone(s, c); } else { NotCalled(s, c); }
    }
    Numbers(s.calls, s.slotOf.Keys);
    LastPage(s.pages.tail, s.pages.idx[s.pages.tail], s.calls);
    ListLength(s.pages);
  }

  lemma NotCalled(s: State, c: nat)
    requires CallsOk(s) && c >= s.calls
    ensures c !in s.slotOf
  {
    assert CallOk(s, c);
  }

  lemma LastPage(p: nat, i: nat, n: nat)
    requires n == p * EVENTS_PER_PAGE + i && i <= EVENTS_PER_PAGE && (p > 0 ==> i > 0)
    ensures p == if n == 0 then 0 else (n - 1) / EVENTS_PER_PAGE
  {
  }

  lemma ListLength(g: Pages)
    requires Complete(g)
    ensures |AllSlots(g)| == (g.tail - g.head) * EVENTS_PER_PAGE + g.idx[g.tail]
  {
  }

  /** Once all calls have returned, the list of slots shows exactly the calls whose pages are retained,
      each once, with the event that the call wrote; and the tail's counter is in range. A call is there exactly if
      its page is one of the last MaxNumPages made. */
  lemma FinalLog(r: seq<State>, j: nat)
    requires Run(r) && j < |r| && r[j].threads == map[]
    ensures Complete(r[j].pages)
    ensures forall c: nat | c < r[j].calls :: c in r[j].slotOf && r[j].slotOf[c] in r[j].events && r[j].events[r[j].slotOf[c]] == c
    ensures forall x: Slot :: x in AllSlots(r[j].pages) <==>
      r[j].pages.head <= x.0 && exists c: nat :: c < r[j].calls && c in r[j].slotOf && r[j].slotOf[c] == x
    ensures forall c: nat | c < r[j].calls ::
      r[j].slotOf[c] in AllSlots(r[j].pages) <==> r[j].slotOf[c].0 + MAX_NUM_PAGES >= |r[j].pages.idx|
  {
    hide Run, Quiet, LockOk, SlotsOk, CallsOk, OverOk, CountOk, Taken, AllSlots;
    RunInv(r, j);
    var s := r[j];
    NobodyInside(s);
    HeadIs(s.pages);
    forall c: nat | c < s.calls
      ensures c in s.slotOf && s.slotOf[c] in s.events && s.events[s.slotOf[c]] == c
    {
      AllDone(s, c);
    }
    AllSlotsOnce(s.pages);
    forall x: Slot
      ensures Taken(s.pages, x) <==> exists c: nat :: c < s.calls && c in s.slotOf && s.slotOf[c] == x
    {
      TakenByCall(s, x);
    }
  }
}
