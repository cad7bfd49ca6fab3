/**
  Stopping a session.  Once the producer has been told to stop, every schedule of the workers is
  finite, and it ends with all workers out, except for one lost wake-up: the consumer parked at its
  wait with the hand-over flag lowered at the moment the switcher tells it to stop.
*/
module CollStop {
  import opened Prelude
  import opened TdRequests
  import opened Collector
  import opened CollControl
  import opened CollLog

  // ---- who can move ----

  predicate CanP(s: State) { !(s.p.PDone? || (s.p.PAwait? && s.doCsm.On?) || (s.p.PLock? && !s.lock.Free?)) }
  predicate CanC(s: State) { !(s.c.CDone? || (s.c.CAwait? && !s.doCsm.On?) || (s.c.CLock? && !s.lock.Free?)) }

  predicate CanS(s: State) {
    !(s.s.SDone? || (s.s.SLock? && !s.lock.Free?) || (s.s.SWaitP? && !s.fl.producerSucc.On?) ||
      (s.s.SWaitC? && !s.fl.consumerSucc.On?))
  }

  predicate Stuck(s: State) { !CanP(s) && !CanC(s) && !CanS(s) }

  lemma CanMeansEnabled(env: Env, s: State, got: Fetched)
    ensures CanP(s) <==> StepP(env, s, got).Some?
    ensures CanC(s) <==> StepC(env, s).Some?
    ensures CanS(s) <==> StepS(s).Some?
  {
    assert CanP(s) <==> StepP(env, s, got).Some? by {
      match s.p
      case PDone =>
      case PLoop =>
      case PAwait =>
      case PFetch =>
      case PLock(_) =>
      case PInsert(_) =>
      case PTotal =>
      case PUnlock =>
      case PCommand(_) =>
      case PReply =>
      case PCall(_, _) =>
      case PForget(_) =>
      case PErase(_) =>
      case PCount =>
      case PSucc =>
    }
    assert CanC(s) <==> StepC(env, s).Some? by {
      match s.c
      case CDone =>
      case CLoop =>
      case CAwait =>
      case CValid =>
      case CTried(_) =>
      case CChkAuth =>
      case CChkValid =>
      case CChkTried =>
      case CSetTried =>
      case CCreate =>
      case CLock =>
      case CSize =>
      case CIter(_) =>
      case CDecide(_) =>
      case CCollect(_, _) =>
      case CClear(_) =>
      case CUnlock =>
      case CCount =>
      case CLower =>
      case CSucc =>
    }
    assert CanS(s) <==> StepS(s).Some? by {
      match s.s
      case SDone =>
      case SLoop =>
      case SPause =>
      case SFlag =>
      case SLock =>
      case SSize =>
      case SRaise =>
      case SUnlock =>
      case SCount =>
      case SStopP =>
      case SWaitP =>
      case SForce =>
      case SStopC =>
      case SWaitC =>
      case SSucc =>
    }
  }

  /** The consumer waits for a flag that only the switcher raises, the switcher for the consumer. */
  predicate Lost(s: State) { s.c.CAwait? && !s.doCsm.On? && s.s.SWaitC? }

  /** While a session is being stopped, the workers block each other only when all are out or the wake-up is lost. */
  lemma StuckExactly(env: Env, s: State)
    requires env.atomicSpawn && Reachable(env, s) && s.fl.trySwitcher.On?
    ensures Stuck(s) <==> Idle(s) || Lost(s)
  {
    CtlReachable(env, s);
  }

  /** After a lost wake-up nothing in the program can move again: the handler waits for the initer for good. */
  lemma LostForever(env: Env, s: State, a: Act, r: State)
    requires env.atomicSpawn && Reachable(env, s) && Lost(s) && Do(env, s, a) == Some(r)
    ensures a.Hint? && Lost(r)
  {
    CtlReachable(env, s);
    assert s.p.PDone? && s.i.IWaitS? && s.h.HStopWait?;
  }

  // ---- where the wake-up gets lost ----

  predicate Parked(s: State) { s.c.CAwait? && !s.doCsm.On? }

  /** The switcher's store decides: the wake-up is lost exactly when the consumer is parked at that moment. */
  lemma LostExactlyWhenParked(s: State, r: State)
    requires s.s.SStopC? && StepS(s) == Some(r)
    ensures Lost(r) <==> Parked(s)
  {}

  lemma LostOnlyThere(env: Env, s: State, a: Act, r: State)
    requires Ctl(s) && Do(env, s, a) == Some(r) && !Lost(s) && Lost(r)
    ensures a.Switcher? && s.s.SStopC?
  {
    match a
    case Producer(got) => ProducerMovesSo(env, s, got, r);
    case Consumer => ConsumerMovesSo(env, s, r); ConsumerParks(env, s, r);
    case Switcher => SwitcherParks(s, r);
    case Initer => IniterParks(s, r);
    case Handler(cmd) => HandlerParks(env, s, cmd, r);
    case Hint(_) =>
  }

  lemma ConsumerParks(env: Env, s: State, r: State)
    requires StepC(env, s) == Some(r) && r.c.CAwait?
    ensures s.c.CLoop? && !s.fl.tryConsumer.On?
  {}

  lemma SwitcherParks(s: State, r: State)
    requires StepS(s) == Some(r) && r.s.SWaitC?
    ensures s.s.SStopC?
  {}

  lemma IniterParks(s: State, r: State)
    requires StepI(s) == Some(r) && r.s.SWaitC?
    ensures r.s == s.s && r.doCsm == s.doCsm && (r.c == s.c || r.c.CLoop?)
  {}

  lemma HandlerParks(env: Env, s: State, cmd: Command, r: State)
    requires StepH(env, s, cmd) == Some(r)
    ensures r.s == s.s && r.doCsm == s.doCsm && r.c == s.c && r.p == s.p
    ensures r.mq == s.mq && r.td == s.td && (r.fl.tryProducer.On? ==> s.fl.tryProducer.On?)
  {}

  /** The producer is in the middle of running a callback that stores a valid chat id. */
  predicate TurnsValid(s: State) {
    s.p.PCall? && s.p.id in s.td.req.cb && s.td.req.cb[s.p.id] == OnCreate && s.p.obj.ObjChat? && s.p.obj.id != -1
  }

  // ---- the ranking ----

  function Flag(b: bool): nat { if b then 1 else 0 }

  /** Callbacks the producer may still run before it leaves. */
  function Disturb(pc: PPc): nat { Flag(pc.PAwait? || pc.PFetch? || pc.PCall?) }

  /** Messages the producer may still insert before it leaves. */
  function Inserts(pc: PPc): nat { Flag(pc.PAwait? || pc.PFetch? || pc.PLock? || pc.PInsert?) }

  /** The consumer has read the chat id as invalid and the producer has set it since. */
  function Aborts(s: State): nat {
    Flag(((s.c.CTried? && !s.c.valid) || s.c.CChkAuth? || s.c.CChkValid?) && s.td.tgfid != -1)
  }

  /** How often the consumer may still go around its loop. */
  function Rounds(s: State): nat {
    Flag(s.doCsm.On?) + Flag(s.s.SWaitP? || s.s.SForce?) + Flag(!s.td.tried.On?) + Disturb(s.p) + Aborts(s)
  }

  function Longest(s: State): nat { |s.mq| + Inserts(s.p) }

  function RankP(pc: PPc): nat {
    match pc
    case PDone => 0
    case PSucc => 1
    case PLoop => 2
    case PCount => 3
    case PErase(_) => 4
    case PForget(_) => 5
    case PCall(_, _) => 6
    case PReply => 4
    case PCommand(_) => 5
    case PUnlock => 4
    case PTotal => 5
    case PInsert(_) => 6
    case PLock(_) => 7
    case PFetch => 8
    case PAwait => 9
  }

  function RankS(pc: SPc): nat {
    match pc
    case SWaitP => 5
    case SForce => 4
    case SStopC => 3
    case SWaitC => 2
    case SSucc => 1
    case _ => 0
  }

  function Left(s: State, it: nat): nat { if it <= |s.mq| then 3 * (|s.mq| - it) else 0 }

  /** Steps the consumer may take before the end of this round. */
  function RankC(s: State): nat {
    var top := 3 * Longest(s);
    match s.c
    case CDone => 0
    case CSucc => 1
    case CLower => 2
    case CCount => 3
    case CUnlock => 4
    case CClear(_) => 5
    case CIter(it) => 6 + Left(s, it)
    case CDecide(it) => 5 + Left(s, it)
    case CCollect(it, _) => 4 + Left(s, it)
    case CSize => 7 + top
    case CLock => 8 + top
    case CSetTried => 9 + top
    case CChkTried => 10 + top
    case CChkValid => 11 + top
    case CChkAuth => 12 + top
    case CTried(_) => 13 + top
    case CValid => 14 + top
    case CAwait => 15 + top
    case CLoop => if s.fl.tryConsumer.On? then 2 else 16 + top
    case CCreate => 17 + top
  }

  function RoundCost(s: State): nat { 20 + 3 * Longest(s) }

  function Measure(s: State): nat {
    Rounds(s) * RoundCost(s) + RankC(s) + RankP(s.p) + RankS(s.s)
  }

  lemma RoundsPay(n: nat, m: nat, k: nat, j: nat)
    requires j <= k
    ensures m <= n ==> m * j <= n * k
    ensures m < n ==> m * j + k <= n * k
  {
    if m <= n {
      assert m * j <= m * k <= n * k by { MulMono(m, j, k); MulMono(k, m, n); }
    }
    if m < n {
      MulMono(m, j, k);
      MulMono(k, m, n - 1);
    }
  }

  lemma MulMono(a: nat, b: nat, c: nat)
    requires b <= c
    ensures a * b <= a * c
  {}

  /** The cursor stays inside the batch the consumer holds the lock for. */
  predicate InBatch(s: State) {
    match s.c
    case CDecide(it) => it < |s.mq|
    case CCollect(it, _) => it < |s.mq|
    case _ => true
  }

  // ---- each worker step lowers it ----

  /** A producer step never gives the consumer more rounds than it takes from its own budget. */
  predicate ProducerPays(s: State, r: State) {
    && r.c == s.c && r.s == s.s && r.doCsm == s.doCsm && RankP(r.p) < RankP(s.p)
    && r.fl.tryConsumer == s.fl.tryConsumer
    && Longest(r) <= Longest(s) && (s.p.PInsert? || r.mq == s.mq)
    && Flag(!r.td.tried.On?) + Disturb(r.p) + Aborts(r) <= Flag(!s.td.tried.On?) + Disturb(s.p) + Aborts(s)
  }

  lemma ProducerLowers(env: Env, s: State, got: Fetched, r: State)
    requires s.fl.tryProducer.On? && StepP(env, s, got) == Some(r)
    ensures ProducerPays(s, r)
  {
    match s.p
    case PFetch => ReceiveLowers(s, got);
    case PCall(id, obj) => CallLowers(s, id, obj);
    case PLoop =>
    case PAwait =>
    case PLock(_) =>
    case PInsert(_) =>
    case PTotal =>
    case PUnlock =>
    case PCommand(_) =>
    case PReply =>
    case PForget(_) =>
    case PErase(_) =>
    case PCount =>
    case PSucc =>
  }

  lemma ReceiveLowers(s: State, got: Fetched)
    requires s.p.PFetch?
    ensures ProducerPays(s, Receive(s, got))
  {}

  lemma CallLowers(s: State, id: nat, obj: Obj)
    requires s.p == PCall(id, obj)
    ensures ProducerPays(s, Call(s, id, obj))
  {}

  /** A consumer step either stays in the round and goes down in it, or uses up a round. */
  predicate Lowers(s: State, r: State) {
    && r.p == s.p && r.s == s.s && Longest(r) <= Longest(s)
    && (if Rounds(r) < Rounds(s) then RankC(r) < RankC(s) + RoundCost(s) else Rounds(r) == Rounds(s) && RankC(r) < RankC(s))
  }

  lemma DecideLowers(env: Env, s: State, it: nat)
    requires s.c == CDecide(it) && InBatch(s)
    ensures Lowers(s, Decide(env, s, it))
  {}

  lemma CollectLowers(s: State, it: nat, under: string)
    requires s.c == CCollect(it, under) && InBatch(s)
    ensures Lowers(s, Collect(s, it, under))
  {}

  lemma LockedLowers(env: Env, s: State, r: State)
    requires ConsumerLocked(s.c) && InBatch(s) && StepC(env, s) == Some(r)
    ensures Lowers(s, r)
  {
    match s.c
    case CDecide(it) => DecideLowers(env, s, it);
    case CCollect(it, under) => CollectLowers(s, it, under);
    case CSize =>
    case CIter(_) =>
    case CClear(_) =>
    case CUnlock =>
  }

  /**
    The consumer is about to turn back before it lowers the flag: no login, no chat, and not told to
    leave.  Only here a round is not paid for.
  */
  predicate AtSpin(s: State) { s.c.CChkAuth? && !s.td.isAuth.On? && s.td.tgfid == -1 && !s.fl.tryConsumer.On? }

  lemma CreateLowers(env: Env, s: State, r: State)
    requires TryInv(s) && TryingCreate(s.c) && !AtSpin(s) && StepC(env, s) == Some(r)
    ensures Lowers(s, r)
  {}

  lemma OuterLowers(env: Env, s: State, r: State)
    requires HandOver(s) && !ConsumerLocked(s.c) && !TryingCreate(s.c) && StepC(env, s) == Some(r)
    ensures Lowers(s, r)
  {
    match s.c
    case CDone =>
    case CLoop =>
    case CAwait =>
    case CValid =>
    case CTried(_) =>
    case CLock =>
    case CCount =>
    case CLower =>
    case CSucc =>
  }

  lemma ConsumerLowers(env: Env, s: State, r: State)
    requires Ctl(s) && InBatch(s) && !AtSpin(s) && StepC(env, s) == Some(r)
    ensures Lowers(s, r)
  {
    if ConsumerLocked(s.c) {
      LockedLowers(env, s, r);
    } else if TryingCreate(s.c) {
      CreateLowers(env, s, r);
    } else {
      OuterLowers(env, s, r);
    }
  }

  lemma SwitcherLowers(s: State, r: State)
    requires Ctl(s) && s.fl.tryProducer.On? && StepS(s) == Some(r)
    ensures r.p == s.p && r.c == s.c && r.mq == s.mq && r.td == s.td && RankS(r.s) < RankS(s.s) && Rounds(r) <= Rounds(s)
    ensures s.fl.tryConsumer.On? ==> r.fl.tryConsumer.On?
  {}

  lemma RankCFollows(s: State, r: State)
    requires r.c == s.c && Longest(r) <= Longest(s) && (ConsumerLocked(s.c) ==> r.mq == s.mq)
    requires s.fl.tryConsumer.On? ==> r.fl.tryConsumer.On?
    ensures RankC(r) <= RankC(s)
  {}

  lemma CursorInside(env: Env, s: State)
    requires CursorInv(env, s)
    ensures InBatch(s)
  {}

  lemma MeasureOfProducer(env: Env, s: State, got: Fetched, r: State)
    requires Ctl(s) && s.fl.tryProducer.On? && StepP(env, s, got) == Some(r)
    ensures Measure(r) < Measure(s)
  {
    ProducerLowers(env, s, got, r);
    RankCFollows(s, r);
    RoundsPay(Rounds(s), Rounds(r), RoundCost(s), RoundCost(r));
  }

  lemma MeasureOfConsumer(env: Env, s: State, r: State)
    requires Ctl(s) && InBatch(s) && !AtSpin(s) && StepC(env, s) == Some(r)
    ensures Measure(r) < Measure(s)
  {
    ConsumerLowers(env, s, r);
    RoundsPay(Rounds(s), Rounds(r), RoundCost(s), RoundCost(r));
  }

  lemma MeasureOfSwitcher(s: State, r: State)
    requires Ctl(s) && s.fl.tryProducer.On? && StepS(s) == Some(r)
    ensures Measure(r) < Measure(s)
  {
    SwitcherLowers(s, r);
    RankCFollows(s, r);
    RoundsPay(Rounds(s), Rounds(r), RoundCost(s), RoundCost(r));
  }

  lemma IniterLeavesWorkers(s: State, r: State)
    requires StepI(s) == Some(r) && !BeforeSpawn(s.i)
    ensures r.p == s.p && r.c == s.c && r.s == s.s && r.doCsm == s.doCsm && r.mq == s.mq && r.td == s.td && r.fl.tryConsumer == s.fl.tryConsumer
  {}

  lemma MeasureStep(env: Env, s: State, a: Act, r: State)
    requires Ctl(s) && LogInv(env, s) && BeingStopped(s) && BeingStopped(r) && !AtSpin(s) && Do(env, s, a) == Some(r)
    ensures Measure(r) + Flag(IsWorker(a)) <= Measure(s)
  {
    match a
    case Producer(got) => MeasureOfProducer(env, s, got, r);
    case Consumer => CursorInside(env, s); MeasureOfConsumer(env, s, r);
    case Switcher => MeasureOfSwitcher(s, r);
    case Initer => IniterLeavesWorkers(s, r); SameMeasure(s, r);
    case Handler(cmd) =>
      HandlerParks(env, s, cmd, r);
      if s.fl.tryConsumer.On? { HandlerOnlySets(env, s, cmd, r); }
      SameMeasure(s, r);
    case Hint(_) => SameMeasure(s, r);
  }

  lemma SameMeasure(s: State, r: State)
    requires r.p == s.p && r.c == s.c && r.s == s.s && r.doCsm == s.doCsm && r.mq == s.mq && r.td == s.td
    requires s.fl.tryConsumer.On? ==> r.fl.tryConsumer.On?
    ensures Measure(r) <= Measure(s)
  {}

  // ---- authorisation stays ----

  lemma AuthStays(env: Env, s: State, a: Act, r: State)
    requires s.td.isAuth.On? && Do(env, s, a) == Some(r)
    ensures r.td.isAuth.On?
  {
    match a
    case Producer(got) =>
    case Consumer =>
    case Switcher =>
    case Initer =>
    case Handler(cmd) => HandlerParks(env, s, cmd, r);
    case Hint(_) =>
  }

  // ---- whole runs ----

  function WorkerSteps(acts: seq<Act>): nat {
    if acts == [] then 0 else WorkerSteps(acts[..|acts| - 1]) + Flag(IsWorker(acts[|acts| - 1]))
  }

  /** The session is being stopped: the producer has been told to leave, and UpColl has not come again. */
  predicate BeingStopped(s: State) { s.fl.tryProducer.On? }

  /** ... and the consumer is not about to turn back. */
  predicate Winding(s: State) { BeingStopped(s) && !AtSpin(s) }

  predicate StopInv(env: Env, s: State) {
    Ctl(s) && LogInv(env, s)
  }

  lemma TryConsumerStays(env: Env, s: State, a: Act, r: State)
    requires Ctl(s) && Do(env, s, a) == Some(r) && BeingStopped(s) && BeingStopped(r) && s.fl.tryConsumer.On?
    ensures r.fl.tryConsumer.On?
  {
    match a
    case Producer(got) => ProducerMovesSo(env, s, got, r);
    case Consumer => ConsumerMovesSo(env, s, r);
    case Switcher =>
    case Initer =>
    case Handler(cmd) => HandlerOnlySets(env, s, cmd, r);
    case Hint(_) =>
  }

  lemma HandlerOnlySets(env: Env, s: State, cmd: Command, r: State)
    requires SessionInv(s) && StepH(env, s, cmd) == Some(r) && BeingStopped(s) && BeingStopped(r) && s.fl.tryConsumer.On?
    ensures r.fl.tryConsumer.On?
  {}

  lemma StopStep(env: Env, s: State, a: Act, r: State)
    requires env.atomicSpawn && StopInv(env, s) && Winding(s) && BeingStopped(r) && Do(env, s, a) == Some(r)
    ensures StopInv(env, r) && Measure(r) + Flag(IsWorker(a)) <= Measure(s)
    ensures s.fl.tryConsumer.On? ==> r.fl.tryConsumer.On? && (Lost(r) ==> Lost(s))
  {
    CtlStep(env, s, a, r);
    LogStep(env, s, a, r);
    MeasureStep(env, s, a, r);
    if s.fl.tryConsumer.On? {
      TryConsumerStays(env, s, a, r);
      if Lost(r) && !Lost(s) { LostOnlyThere(env, s, a, r); }
    }
  }

  lemma {:induction false} StopRun(env: Env, s: State, acts: seq<Act>, r: State)
    requires env.atomicSpawn && StopInv(env, s) && Throughout(env, s, acts, Winding) && Exec(env, s, acts) == Some(r)
    ensures StopInv(env, r) && Measure(r) + WorkerSteps(acts) <= Measure(s)
    ensures s.fl.tryConsumer.On? ==> r.fl.tryConsumer.On? && (Lost(r) ==> Lost(s))
    ensures Winding(r)
  {
    if acts == [] {
      assert acts[..0] == acts;
    } else {
      var n := |acts| - 1;
      ThroughoutPrefix(env, s, acts, Winding);
      var before := Exec(env, s, acts[..n]).value;
      StopRun(env, s, acts[..n], before);
      StopStep(env, before, acts[n], r);
    }
  }

  lemma {:induction false} ReachableThen(env: Env, s: State, acts: seq<Act>, r: State)
    requires Reachable(env, s) && Exec(env, s, acts) == Some(r)
    ensures Reachable(env, r)
  {
    var hint, filters, tgfid, first :| Exec(env, Init(hint, filters, tgfid), first) == Some(s);
    ExecConcat(env, Init(hint, filters, tgfid), first, acts);
  }

  lemma {:induction false} ExecConcat(env: Env, s: State, a: seq<Act>, b: seq<Act>)
    requires Exec(env, s, a).Some? && Exec(env, Exec(env, s, a).value, b).Some?
    ensures Exec(env, s, a + b) == Exec(env, Exec(env, s, a).value, b)
  {
    if b == [] {
      assert a + b == a;
    } else {
      var n := |b| - 1;
      ExecConcat(env, s, a, b[..n]);
      assert (a + b)[..|a + b| - 1] == a + b[..n];
    }
  }

  /**
    Stopping a session ends, with or without a login, unless the consumer turns back for want of one.
    From any state in which the producer has been told to leave, no schedule that avoids this holds
    more than Measure (s) steps of workers; and one that goes on until no worker can move ends with
    all workers out or in the lost wake-up.  If the consumer has already been told to leave and is not
    lost, all workers get out.
  */
  lemma StopTerminates(env: Env, s: State, acts: seq<Act>, r: State)
    requires env.atomicSpawn && Reachable(env, s)
    requires Throughout(env, s, acts, Winding) && Exec(env, s, acts) == Some(r)
    ensures WorkerSteps(acts) <= Measure(s)
    ensures Stuck(r) ==> Idle(r) || Lost(r)
    ensures Stuck(r) && s.fl.tryConsumer.On? && !Lost(s) ==> Idle(r)
  {
    hide Measure, LogInv, WorkerSteps, Reachable, Exec, Throughout;
    CtlReachable(env, s);
    LogReachable(env, s);
    StopRun(env, s, acts, r);
    ReachableThen(env, s, acts, r);
    if Stuck(r) {
      if r.h.HReset? { CtlReachable(env, r); } else { StuckExactly(env, r); }
    }
  }

  /** With a login the consumer never turns back, so stopping always ends. */
  lemma {:induction false} AuthorisedWinds(env: Env, s: State, acts: seq<Act>)
    requires s.td.isAuth.On? && Throughout(env, s, acts, BeingStopped)
    ensures Throughout(env, s, acts, Winding)
    ensures Exec(env, s, acts).Some? && Exec(env, s, acts).value.td.isAuth.On?
  {
    hide BeingStopped, Do;
    if acts != [] {
      var n := |acts| - 1;
      ThroughoutPrefix(env, s, acts, BeingStopped);
      AuthorisedWinds(env, s, acts[..n]);
      AuthStays(env, Exec(env, s, acts[..n]).value, acts[n], Exec(env, s, acts).value);
      assert acts[..n + 1] == acts;
      forall k | 0 <= k <= |acts|
        ensures Exec(env, s, acts[..k]).Some? && Winding(Exec(env, s, acts[..k]).value)
      {
        if k <= n { assert acts[..n][..k] == acts[..k]; }
      }
    } else {
      assert acts[..0] == acts;
    }
  }

  /** Steps of the switcher before it tells the producer to leave. */
  function BeforeStop(pc: SPc): nat {
    match pc
    case SStopP => 0
    case SLoop => 1
    case SCount => 2
    case SUnlock => 3
    case SRaise => 4
    case SSize => 5
    case SLock => 6
    case SFlag => 7
    case SPause => 8
    case _ => 0
  }

  /** Told to stop, the switcher leaves its loop within eight steps of its own. */
  lemma SwitcherLeavesLoop(s: State, r: State)
    requires s.fl.trySwitcher.On? && InLoop(s.s) && StepS(s) == Some(r)
    ensures BeforeStop(r.s) < BeforeStop(s.s) <= 8 && (InLoop(r.s) || r.s.SStopP?)
  {}
}
