/**
  Delivery.  In a session that is left at work, with a chat to write to and forwarding not paused, every
  message received from another chat is decided in every fair run: switcher and consumer keep handing
  the queue over, and nobody keeps the lock for good.
*/
module CollLive {
  import opened Prelude
  import opened TgMessage
  import opened Collector
  import opened CollControl
  import opened CollLog
  import opened CollTheorems
  import opened CollStop
  import opened CollJam
  import opened CollFair
  import opened CollHistory

  // ---- fairness of the lock ----

  ghost predicate StronglyFair(st: nat -> State, act: nat -> Act, t: Thread) {
    (forall i: nat :: EnabledFrom(st, t, i)) ==> forall i: nat :: TakenFrom(act, t, i)
  }

  /** A thread that can move time and again does: each of the three that take turns with the lock gets it. */
  ghost predicate LocksFair(st: nat -> State, act: nat -> Act) {
    StronglyFair(st, act, ProducerThread) && StronglyFair(st, act, ConsumerThread) && StronglyFair(st, act, SwitcherThread)
  }

  lemma FirstTaken(act: nat -> Act, t: Thread, i: nat) returns (k: nat)
    requires TakenFrom(act, t, i)
    ensures i <= k && ThreadOf(act(k)) == Some(t) && forall j | i <= j < k :: ThreadOf(act(j)) != Some(t)
  {
    var j: nat :| i <= j && ThreadOf(act(j)) == Some(t);
    k := i;
    while ThreadOf(act(k)) != Some(t)
      invariant i <= k <= j && forall m | i <= m < k :: ThreadOf(act(m)) != Some(t)
      decreases j - k
    {
      k := k + 1;
    }
  }

  // ---- nobody keeps the lock ----

  function Keeper(s: State): Thread {
    match s.lock
    case ByProducer => ProducerThread
    case ByConsumer => ConsumerThread
    case BySwitcher => SwitcherThread
    case _ => HandlerThread
  }

  /** Steps its keeper needs to let go of it. */
  function HoldLeft(s: State): nat {
    match s.lock
    case Free => 0
    case ByProducer => if s.p.PInsert? then 3 else if s.p.PTotal? then 2 else 1
    case ByConsumer => BatchLeft(s)
    case BySwitcher => if s.s.SSize? then 3 else if s.s.SRaise? then 2 else 1
    case ByHandler => 1
  }

  function BatchLeft(s: State): nat {
    match s.c
    case CSize => 4 + 3 * |s.mq|
    case CIter(it) => 3 + Left(s, it)
    case CDecide(it) => 2 + Left(s, it)
    case CCollect(it, _) => 1 + Left(s, it)
    case CClear(_) => 2
    case _ => 1
  }

  lemma KeeperEnabled(s: State)
    requires LockInv(s) && !s.lock.Free?
    ensures Enabled(s, Keeper(s))
  {}

  predicate SameHold(s: State, r: State) { r.lock == s.lock && HoldLeft(r) == HoldLeft(s) }

  lemma ConsumerLeaves(env: Env, s: State, r: State)
    requires Ctl(s) && !ConsumerLocked(s.c) && !s.lock.Free? && StepC(env, s) == Some(r)
    ensures r.lock == s.lock && r.p == s.p && r.s == s.s && r.h == s.h
  {
    hide StepC;
    ConsumerMovesSo(env, s, r);
  }

  lemma SwitcherLeaves(s: State, r: State)
    requires LockInv(s) && !s.lock.BySwitcher? && !s.lock.Free? && StepS(s) == Some(r)
    ensures r.lock == s.lock
  {
    match s.s
    case SDone =>
    case SLoop =>
    case SPause =>
    case SFlag =>
    case SLock =>
    case SSize =>
    case SRaise =>
    case SUnlock =>
    case SCount =>
    case SStopP =>
    case SWaitP =>
    case SForce =>
    case SStopC =>
    case SWaitC =>
    case SSucc =>
  }

  lemma HandlerLeaves(env: Env, s: State, cmd: Command, r: State)
    requires LockInv(s) && !s.lock.ByHandler? && !s.lock.Free? && StepH(env, s, cmd) == Some(r)
    ensures r.lock == s.lock
  {
    match s.h
    case HIdle =>
    case HUpLoad =>
    case HReset(_) =>
    case HSpawn =>
    case HReply =>
    case HStopLoad(_) =>
    case HStopTry(_) =>
    case HStopSelf =>
    case HStopWait(_) =>
    case HStopReply(_) =>
    case HStatLock =>
    case HStatUnlock =>
  }

  lemma IniterLeaves(s: State, r: State)
    requires Ctl(s) && StepI(s) == Some(r)
    ensures r.lock == s.lock && r.mq == s.mq && r.h == s.h
    ensures (!s.p.PDone? ==> r.p == s.p) && (!s.c.CDone? ==> r.c == s.c) && (!s.s.SDone? ==> r.s == s.s)
  {
    match s.i
    case IGone =>
    case IStart =>
    case IHint =>
    case ITry =>
    case IAuth =>
    case IInit =>
    case ISpawnP =>
    case ISpawnC =>
    case ISpawnS =>
    case IAwait =>
    case IStopS =>
    case IWaitS =>
    case IJoinS =>
    case IJoinC =>
    case IJoinP =>
    case ISucc =>
    case IDown =>
  }

  /** As long as the keeper of the lock does not move, nothing happens to the lock. */
  lemma HoldAside(env: Env, s: State, a: Act, r: State)
    requires Ctl(s) && !s.lock.Free? && ThreadOf(a) != Some(Keeper(s)) && Do(env, s, a) == Some(r)
    ensures SameHold(s, r)
  {
    hide StepP, StepC, StepS, StepI, StepH;
    match a
    case Producer(got) => ProducerMovesSo(env, s, got, r); ProducerAside(env, s, got, r);
    case Consumer => ConsumerLeaves(env, s, r);
    case Switcher => SwitcherLeaves(s, r); SwitcherKeeps(s, r);
    case Initer => IniterLeaves(s, r);
    case Handler(cmd) => HandlerLeaves(env, s, cmd, r); HandlerParks(env, s, cmd, r);
    case Hint(_) =>
  }

  lemma HoldStep(env: Env, s: State, a: Act, r: State)
    requires Ctl(s) && InBatch(s) && !s.lock.Free? && ThreadOf(a) == Some(Keeper(s)) && Do(env, s, a) == Some(r)
    ensures r.lock.Free? || (r.lock == s.lock && HoldLeft(r) < HoldLeft(s))
  {
    match a
    case Producer(got) =>
    case Consumer => hide StepC, BatchLeft; ConsumerMovesSo(env, s, r); ConsumerBatch(env, s, r);
    case Switcher =>
    case Handler(cmd) =>
  }

  lemma ConsumerBatch(env: Env, s: State, r: State)
    requires ConsumerLocked(s.c) && InBatch(s) && StepC(env, s) == Some(r)
    ensures ConsumerLocked(r.c) ==> BatchLeft(r) < BatchLeft(s)
  {
    match s.c
    case CDecide(it) =>
    case CCollect(it, under) =>
    case CSize =>
    case CIter(_) =>
    case CClear(_) =>
    case CUnlock =>
  }

  lemma HoldGoesOn(env: Env, st: nat -> State, act: nat -> Act, k: nat)
    requires env.atomicSpawn && IsRun(env, st, act) && Inv(env, st(0)) && !st(k).lock.Free?
    ensures Enabled(st(k), Keeper(st(k)))
    ensures ThreadOf(act(k)) != Some(Keeper(st(k))) ==> SameHold(st(k), st(k + 1))
    ensures ThreadOf(act(k)) == Some(Keeper(st(k))) ==>
      st(k + 1).lock.Free? || (st(k + 1).lock == st(k).lock && HoldLeft(st(k + 1)) < HoldLeft(st(k)))
  {
    hide Inv, Do, IsRun, Enabled, HoldLeft, Keeper;
    RunInv(env, st, act, k);
    InvHolds(env, st(k));
    RunStep(env, st, act, k);
    KeeperEnabled(st(k));
    if ThreadOf(act(k)) != Some(Keeper(st(k))) {
      HoldAside(env, st(k), act(k), st(k + 1));
    } else {
      CursorInside(env, st(k));
      HoldStep(env, st(k), act(k), st(k + 1));
    }
  }

  /** The lock is free again at some time. */
  lemma {:induction false} LockComes(env: Env, st: nat -> State, act: nat -> Act, i: nat) returns (n: nat)
    requires env.atomicSpawn && IsRun(env, st, act) && WeaklyFair(st, act) && Inv(env, st(0))
    ensures i <= n && st(n).lock.Free?
    decreases HoldLeft(st(i))
  {
    hide Inv, Do, IsRun, Enabled, HoldLeft;
    n := i;
    if !st(i).lock.Free? {
      var t := Keeper(st(i));
      assert TakenOrNot(st, act, t, i);
      var j: nat :| i <= j && (ThreadOf(act(j)) == Some(t) || !Enabled(st(j), t));
      while n < j && ThreadOf(act(n)) != Some(t)
        invariant i <= n <= j && SameHold(st(i), st(n))
      {
        HoldGoesOn(env, st, act, n);
        n := n + 1;
      }
      HoldGoesOn(env, st, act, n);
      n := n + 1;
      if !st(n).lock.Free? { n := LockComes(env, st, act, n); }
    }
  }

  // ---- a session left at work ----

  /** All three workers are in their loops and nothing stops them. */
  predicate Working(s: State) {
    && s.i.IAwait? && !s.fl.trySwitcher.On? && !s.fl.tryProducer.On? && !s.fl.tryConsumer.On?
    && !s.p.PDone? && !s.c.CDone? && !s.c.CSucc? && InLoop(s.s)
  }

  /** Nobody shuts the session down, forwarding is not paused, and there is a chat to write to. */
  predicate Calm(s: State) { !s.fl.tryIniter.On? && !s.pause.On? && s.td.tgfid != -1 }

  lemma WorkingFacts(s: State)
    requires Ctl(s) && s.i.IAwait? && !s.fl.tryIniter.On?
    ensures Working(s)
  {}

  lemma StaysWorking(env: Env, s: State, a: Act, r: State)
    requires Ctl(s) && Ctl(r) && Working(s) && !s.fl.tryIniter.On? && !r.fl.tryIniter.On? && Do(env, s, a) == Some(r)
    ensures Working(r)
  {
    hide StepP, StepC, StepS, StepH, Ctl;
    if a.Handler? {
      HandlerKeepsIniter(env, s, a.cmd, r);
    } else if !a.Initer? {
      WorkersKeep(env, s, a, r);
    }
    WorkingFacts(r);
  }

  lemma HandlerKeepsIniter(env: Env, s: State, cmd: Command, r: State)
    requires Ctl(s) && s.i.IAwait? && StepH(env, s, cmd) == Some(r)
    ensures r.i == s.i
  {}

  ghost predicate Steady(st: nat -> State) { st(0).i.IAwait? && forall k: nat :: Calm(st(k)) }

  lemma {:induction false} RunWorks(env: Env, st: nat -> State, act: nat -> Act, k: nat)
    requires env.atomicSpawn && IsRun(env, st, act) && Inv(env, st(0)) && Steady(st)
    ensures Inv(env, st(k)) && Ctl(st(k)) && LogInv(env, st(k)) && Working(st(k)) && Calm(st(k))
  {
    hide Inv, Do, IsRun, Ctl, LogInv, Working;
    RunInv(env, st, act, k);
    InvHolds(env, st(k));
    if k == 0 {
      WorkingFacts(st(0));
    } else {
      RunWorks(env, st, act, k - 1);
      RunStep(env, st, act, k - 1);
      StaysWorking(env, st(k - 1), act(k - 1), st(k));
    }
  }

  /** Nothing but the consumer takes a message out of the queue, moves the consumer or lowers the flag. */
  predicate ConsumerAsideOf(s: State, r: State) {
    && r.c == s.c && (s.doCsm.On? ==> r.doCsm.On?) && (forall m | m in s.mq :: m in r.mq) && (ConsumerLocked(s.c) ==> r.mq == s.mq)
  }

  lemma ProducerGrows(env: Env, s: State, got: Fetched, r: State)
    requires StepP(env, s, got) == Some(r)
    ensures forall m | m in s.mq :: m in r.mq
    ensures !ProducerLocked(s.p) ==> r.mq == s.mq
  {
    if s.p.PInsert? {
      assert forall m | m in s.mq :: m in [Msg(|s.log.inserted|, s.p.body)] + s.mq;
    } else if s.p.PTotal? {
    } else if s.p.PUnlock? {
    } else {
      ProducerAside(env, s, got, r);
    }
  }

  lemma OthersLeaveConsumer(env: Env, s: State, a: Act, r: State)
    requires Ctl(s) && !s.c.CDone? && !a.Consumer? && Do(env, s, a) == Some(r)
    ensures ConsumerAsideOf(s, r)
  {
    hide StepP, StepC, StepS, StepI, StepH;
    match a
    case Producer(got) => ProducerMovesSo(env, s, got, r); ProducerGrows(env, s, got, r);
    case Switcher => SwitcherKeeps(s, r); SwitcherFlag(s, r);
    case Initer => IniterLeaves(s, r); IniterFlag(s, r);
    case Handler(cmd) => HandlerParks(env, s, cmd, r);
    case Hint(_) =>
  }

  lemma {:induction false} ConsumerWaits(env: Env, st: nat -> State, act: nat -> Act, i: nat, k: nat)
    requires env.atomicSpawn && IsRun(env, st, act) && Inv(env, st(0)) && Steady(st)
    requires i <= k && forall j | i <= j < k :: ThreadOf(act(j)) != Some(ConsumerThread)
    ensures ConsumerAsideOf(st(i), st(k))
  {
    hide Inv, Do, IsRun, Ctl, LogInv, Steady;
    if i < k {
      ConsumerWaits(env, st, act, i, k - 1);
      RunWorks(env, st, act, k - 1);
      RunStep(env, st, act, k - 1);
      OthersLeaveConsumer(env, st(k - 1), act(k - 1), st(k));
    }
  }

  /** With the flag up the consumer can move, or waits for the lock. */
  lemma ConsumerReady(s: State)
    requires Working(s) && s.doCsm.On? && (s.c.CLock? ==> s.lock.Free?)
    ensures Enabled(s, ConsumerThread)
  {}

  lemma ConsumerComes(env: Env, st: nat -> State, act: nat -> Act, i: nat)
    requires env.atomicSpawn && IsRun(env, st, act) && WeaklyFair(st, act) && LocksFair(st, act) && Inv(env, st(0)) && Steady(st)
    requires st(i).doCsm.On?
    ensures TakenFrom(act, ConsumerThread, i)
  {
    hide Inv, Do, IsRun, Enabled, WeaklyFair, Steady, Working, ThreadOf;
    if !TakenFrom(act, ConsumerThread, i) {
      forall m: nat
        ensures EnabledFrom(st, ConsumerThread, m)
      {
        var n := LockComes(env, st, act, if i <= m then m else i);
        ConsumerWaits(env, st, act, i, n);
        RunWorks(env, st, act, n);
        ConsumerReady(st(n));
      }
    }
  }

  /** Where the consumer is with the flag up: on its way to the batch, in it, or on its way out. */
  function ConsumerLeft(c: CPc): nat {
    match c
    case CTried(valid) => if valid then 21 else 30
    case CChkAuth => 29
    case CChkValid => 28
    case CChkTried => 27
    case CSetTried => 26
    case CCreate => 25
    case CLoop => 24
    case CAwait => 23
    case CValid => 22
    case CLock => 20
    case CSize => 19
    case CUnlock => 3
    case CCount => 2
    case CLower => 1
    case _ => 10
  }

  predicate OnWayOut(c: CPc) { c.CUnlock? || c.CCount? || c.CLower? }

  function SwitcherRound(pc: SPc): nat {
    match pc
    case SUnlock => 8
    case SCount => 7
    case SLoop => 6
    case SPause => 5
    case SFlag => 4
    case SLock => 3
    case SSize => 2
    case SRaise => 1
    case _ => 0
  }

  /** 2: the batch before is being left; 1: the queue waits to be handed over; 0: it has been. */
  function Stage(s: State): nat { if !s.doCsm.On? then 1 else if OnWayOut(s.c) then 2 else 0 }

  function StageLeft(s: State): nat { if s.doCsm.On? then ConsumerLeft(s.c) else SwitcherRound(s.s) }

  function InBatchLeft(s: State): nat { if s.doCsm.On? && ConsumerLocked(s.c) then BatchLeft(s) else 0 }

  predicate Nearer(s: State, r: State) {
    Stage(r) < Stage(s) || (Stage(r) == Stage(s) && (StageLeft(r) < StageLeft(s) || (StageLeft(r) == StageLeft(s) && InBatchLeft(r) < InBatchLeft(s))))
  }

  predicate Handling(c: CPc) { c.CIter? || c.CDecide? || c.CCollect? }

  lemma HandlingGoesOn(env: Env, s: State, r: State)
    requires Handling(s.c) && InBatch(s) && StepC(env, s) == Some(r)
    ensures (Handling(r.c) || r.c.CClear?) && r.doCsm == s.doCsm && r.mq == s.mq
  {}

  lemma OnTheWay(env: Env, s: State, r: State)
    requires Ctl(s) && Working(s) && Calm(s) && s.doCsm.On? && s.mq != [] && !Handling(s.c) && !s.c.CClear? && StepC(env, s) == Some(r)
    ensures Stage(r) < Stage(s) || (Stage(r) == Stage(s) && StageLeft(r) < StageLeft(s))
    ensures r.mq == s.mq
  {
    match s.c
    case CLoop =>
    case CAwait =>
    case CValid =>
    case CTried(_) =>
    case CChkAuth =>
    case CChkValid =>
    case CChkTried =>
    case CSetTried =>
    case CCreate =>
    case CLock =>
    case CSize =>
    case CUnlock =>
    case CCount =>
    case CLower =>
  }

  /** With the flag up a step of the consumer leads on, unless it closes the batch. */
  lemma ConsumerNearer(env: Env, s: State, r: State)
    requires Ctl(s) && InBatch(s) && Working(s) && Calm(s) && s.doCsm.On? && s.mq != [] && !s.c.CClear? && StepC(env, s) == Some(r)
    ensures Nearer(s, r) && r.mq == s.mq
  {
    hide StepC, BatchLeft, Ctl;
    if Handling(s.c) {
      HandlingGoesOn(env, s, r);
      ConsumerBatch(env, s, r);
    } else {
      OnTheWay(env, s, r);
    }
  }

  // ---- the switcher's part ----

  /** With the flag down nothing but the switcher moves the switcher or raises the flag, and the queue only grows. */
  predicate SwitcherAsideOf(s: State, r: State) {
    r.s == s.s && (!s.doCsm.On? ==> !r.doCsm.On? && forall m | m in s.mq :: m in r.mq)
  }

  lemma ConsumerOutside(env: Env, s: State, r: State)
    requires HandOver(s) && !s.doCsm.On? && StepC(env, s) == Some(r)
    ensures r.mq == s.mq
  {}

  lemma OthersLeaveSwitcher(env: Env, s: State, a: Act, r: State)
    requires Ctl(s) && !s.s.SDone? && !a.Switcher? && Do(env, s, a) == Some(r)
    ensures SwitcherAsideOf(s, r)
  {
    hide StepP, StepC, StepI, StepH;
    match a
    case Producer(got) => ProducerMovesSo(env, s, got, r); ProducerGrows(env, s, got, r);
    case Consumer =>
      ConsumerMovesSo(env, s, r);
      if !s.doCsm.On? { ConsumerOutside(env, s, r); }
    case Initer => IniterLeaves(s, r); IniterFlag(s, r);
    case Handler(cmd) => HandlerParks(env, s, cmd, r);
    case Hint(_) =>
  }

  lemma {:induction false} SwitcherWaits(env: Env, st: nat -> State, act: nat -> Act, i: nat, k: nat)
    requires env.atomicSpawn && IsRun(env, st, act) && Inv(env, st(0)) && Steady(st)
    requires i <= k && forall j | i <= j < k :: ThreadOf(act(j)) != Some(SwitcherThread)
    ensures SwitcherAsideOf(st(i), st(k))
  {
    hide Inv, Do, IsRun, Ctl, LogInv, Steady;
    if i < k {
      SwitcherWaits(env, st, act, i, k - 1);
      RunWorks(env, st, act, k - 1);
      RunStep(env, st, act, k - 1);
      OthersLeaveSwitcher(env, st(k - 1), act(k - 1), st(k));
    }
  }

  lemma SwitcherReady(s: State)
    requires Working(s) && (s.s.SLock? ==> s.lock.Free?)
    ensures Enabled(s, SwitcherThread)
  {}

  lemma SwitcherComesBy(env: Env, st: nat -> State, act: nat -> Act, i: nat)
    requires env.atomicSpawn && IsRun(env, st, act) && WeaklyFair(st, act) && LocksFair(st, act) && Inv(env, st(0)) && Steady(st)
    ensures TakenFrom(act, SwitcherThread, i)
  {
    hide Inv, Do, IsRun, Enabled, WeaklyFair, Steady, Working, ThreadOf;
    if !TakenFrom(act, SwitcherThread, i) {
      forall m: nat
        ensures EnabledFrom(st, SwitcherThread, m)
      {
        var n := LockComes(env, st, act, if i <= m then m else i);
        RunWorks(env, st, act, n);
        SwitcherReady(st(n));
      }
    }
  }

  /** With the flag down and a message waiting, a step of the switcher leads towards raising it. */
  lemma SwitcherNearer(s: State, r: State)
    requires Ctl(s) && Working(s) && Calm(s) && !s.doCsm.On? && s.mq != [] && StepS(s) == Some(r)
    ensures Nearer(s, r) && r.mq == s.mq
  {
    match s.s
    case SLoop =>
    case SPause =>
    case SFlag =>
    case SLock =>
    case SSize =>
    case SRaise =>
    case SUnlock =>
    case SCount =>
  }

  // ---- the batch ----

  /** The message has been decided, and not given up. */
  ghost predicate DecidedIn(l: Log, m: Msg) {
    exists h | h in Items(l) :: h.msg == m && !h.fate.Discarded?
  }

  lemma InMsgs(b: Batch, m: Msg) returns (h: Handled)
    requires m in MsgsOf(b)
    ensures h in b && h.msg == m
  {
    var i :| 0 <= i < |b| && MsgsOf(b)[i] == m;
    h := b[i];
  }

  /** Closing the batch of a session that is not being stopped decides every message that was waiting. */
  lemma ClosingDecides(env: Env, s: State, r: State, m: Msg)
    requires LogInv(env, s) && s.c.CClear? && !s.fl.tryConsumer.On? && m in s.mq && Do(env, s, Consumer) == Some(r)
    ensures DecidedIn(r.log, m)
  {
    assert s.mq[..|s.mq|] == s.mq;
    var h := InMsgs(s.log.cur, m);
    assert Discard([]) == [] && s.log.cur + [] == s.log.cur;
    assert AllBatches(r.log) == AllBatches(s.log) + [s.log.cur];
    FlatAppend(AllBatches(s.log), s.log.cur);
    assert h in Items(r.log);
  }

  /** In every fair run of a session left at work, a message in the queue is decided. */
  lemma {:induction false} WaitingIsDecided(env: Env, st: nat -> State, act: nat -> Act, i: nat, m: Msg) returns (n: nat)
    requires env.atomicSpawn && IsRun(env, st, act) && WeaklyFair(st, act) && LocksFair(st, act) && Inv(env, st(0)) && Steady(st)
    requires m in st(i).mq
    ensures i <= n && DecidedIn(st(n).log, m)
    decreases Stage(st(i)), StageLeft(st(i)), InBatchLeft(st(i))
  {
    hide Inv, Do, IsRun, WeaklyFair, LocksFair, Steady, Working, Calm, Ctl, LogInv, ConsumerLeft, SwitcherRound, BatchLeft, DecidedIn;
    var k: nat;
    if st(i).doCsm.On? {
      ConsumerComes(env, st, act, i);
      k := FirstTaken(act, ConsumerThread, i);
      ConsumerWaits(env, st, act, i, k);
    } else {
      SwitcherComesBy(env, st, act, i);
      k := FirstTaken(act, SwitcherThread, i);
      SwitcherWaits(env, st, act, i, k);
    }
    RunWorks(env, st, act, k);
    RunStep(env, st, act, k);
    n := k + 1;
    if st(k).c.CClear? && st(i).doCsm.On? {
      NotStopped(st(k));
      ClosingDecides(env, st(k), st(n), m);
    } else {
      StepsNearer(env, st(k), act(k), st(n));
      SamePlace(st(i), st(k));
      n := WaitingIsDecided(env, st, act, n, m);
    }
  }

  lemma NotStopped(s: State)
    requires Working(s)
    ensures !s.fl.tryConsumer.On?
  {}

  lemma StepsNearer(env: Env, s: State, a: Act, r: State)
    requires Ctl(s) && LogInv(env, s) && Working(s) && Calm(s) && s.mq != [] && Do(env, s, a) == Some(r)
    requires if s.doCsm.On? then a.Consumer? && !s.c.CClear? else a.Switcher?
    ensures Nearer(s, r) && r.mq == s.mq
  {
    hide Ctl, LogInv, Working, Calm, Nearer;
    if s.doCsm.On? {
      CursorIn(env, s);
      ConsumerNearer(env, s, r);
    } else {
      SwitcherNearer(s, r);
    }
  }

  lemma CursorIn(env: Env, s: State)
    requires LogInv(env, s)
    ensures InBatch(s)
  {
    CursorInside(env, s);
  }

  /** Until the step that counts, the distance has not grown. */
  lemma SamePlace(s: State, r: State)
    requires if s.doCsm.On? then ConsumerAsideOf(s, r) else SwitcherAsideOf(s, r)
    ensures Stage(r) == Stage(s) && StageLeft(r) == StageLeft(s) && InBatchLeft(r) == InBatchLeft(s)
  {}

  // ---- from the receive on ----

  /** Received from another chat and not yet in the queue. */
  predicate Carrying(s: State, body: TgMsg) { s.p == PLock(body) || s.p == PInsert(body) }

  lemma OthersLeaveProducer(env: Env, s: State, a: Act, r: State)
    requires Ctl(s) && !s.p.PDone? && !a.Producer? && Do(env, s, a) == Some(r)
    ensures r.p == s.p
  {
    hide StepC, StepS, StepI, StepH;
    match a
    case Consumer => ConsumerMovesSo(env, s, r);
    case Switcher => SwitcherKeeps(s, r);
    case Initer => IniterLeaves(s, r);
    case Handler(cmd) => HandlerParks(env, s, cmd, r);
    case Hint(_) =>
  }

  lemma {:induction false} ProducerWaits(env: Env, st: nat -> State, act: nat -> Act, i: nat, k: nat)
    requires env.atomicSpawn && IsRun(env, st, act) && Inv(env, st(0)) && Steady(st)
    requires i <= k && forall j | i <= j < k :: ThreadOf(act(j)) != Some(ProducerThread)
    ensures st(k).p == st(i).p
  {
    hide Inv, Do, IsRun, Ctl, LogInv, Steady;
    if i < k {
      ProducerWaits(env, st, act, i, k - 1);
      RunWorks(env, st, act, k - 1);
      RunStep(env, st, act, k - 1);
      OthersLeaveProducer(env, st(k - 1), act(k - 1), st(k));
    }
  }

  lemma ProducerComes(env: Env, st: nat -> State, act: nat -> Act, i: nat, body: TgMsg)
    requires env.atomicSpawn && IsRun(env, st, act) && WeaklyFair(st, act) && LocksFair(st, act) && Inv(env, st(0)) && Steady(st)
    requires Carrying(st(i), body)
    ensures TakenFrom(act, ProducerThread, i)
  {
    hide Inv, Do, IsRun, WeaklyFair, Steady, Working, ThreadOf;
    if !TakenFrom(act, ProducerThread, i) {
      forall m: nat
        ensures EnabledFrom(st, ProducerThread, m)
      {
        var n := LockComes(env, st, act, if i <= m then m else i);
        ProducerWaits(env, st, act, i, n);
        assert Enabled(st(n), ProducerThread);
      }
    }
  }

  lemma CarryingStep(env: Env, s: State, a: Act, r: State, body: TgMsg)
    requires Carrying(s, body) && a.Producer? && Do(env, s, a) == Some(r)
    ensures if s.p.PLock? then r.p == PInsert(body) else r.mq == [Msg(|s.log.inserted|, body)] + s.mq
  {}

  /** A message in the producer's hand comes into the queue, with the next serial number. */
  lemma {:induction false} CarriedIsQueued(env: Env, st: nat -> State, act: nat -> Act, i: nat, body: TgMsg) returns (n: nat, m: Msg)
    requires env.atomicSpawn && IsRun(env, st, act) && WeaklyFair(st, act) && LocksFair(st, act) && Inv(env, st(0)) && Steady(st)
    requires Carrying(st(i), body)
    ensures i <= n && m in st(n).mq && m.body == body
    decreases if st(i).p.PLock? then 1 else 0
  {
    hide Inv, Do, IsRun, WeaklyFair, LocksFair, Steady, Working, Calm, Ctl, LogInv;
    ProducerComes(env, st, act, i, body);
    var k := FirstTaken(act, ProducerThread, i);
    ProducerWaits(env, st, act, i, k);
    RunStep(env, st, act, k);
    CarryingStep(env, st(k), act(k), st(k + 1), body);
    if st(k).p.PLock? {
      n, m := CarriedIsQueued(env, st, act, k + 1, body);
    } else {
      n, m := k + 1, Msg(|st(k).log.inserted|, body);
      assert st(n).mq[0] == m;
    }
  }

  lemma FetchedIsCarried(env: Env, s: State, chat: int, body: TgMsg, cmd: ChatCommand, r: State)
    requires s.p.PFetch? && chat != s.td.tgfid && Do(env, s, Producer(NewMessage(chat, body, cmd))) == Some(r)
    ensures Carrying(r, body)
  {}

  /**
    Every message that TDLib delivers from another chat to a session left at work is decided under the
    filters, in every fair run: it is queued, handed over, and handled before its batch is closed.
  */
  lemma DeliveredIsDecided(env: Env, st: nat -> State, act: nat -> Act, i: nat, chat: int, body: TgMsg, cmd: ChatCommand)
      returns (n: nat, m: Msg)
    requires env.atomicSpawn && IsRun(env, st, act) && WeaklyFair(st, act) && LocksFair(st, act) && Reachable(env, st(0)) && Steady(st)
    requires st(i).p.PFetch? && act(i) == Producer(NewMessage(chat, body, cmd)) && chat != st(i).td.tgfid
    ensures i < n && m.body == body && DecidedIn(st(n).log, m)
  {
    hide Inv, Do, IsRun, WeaklyFair, LocksFair, Steady, Reachable, DecidedIn;
    InvReachable(env, st(0));
    RunStep(env, st, act, i);
    FetchedIsCarried(env, st(i), chat, body, cmd, st(i + 1));
    n, m := CarriedIsQueued(env, st, act, i + 1, body);
    n := WaitingIsDecided(env, st, act, n, m);
  }
}
