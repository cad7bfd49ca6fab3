/**
  The stop handshake of the collector, over every schedule and across restarts: which flags imply
  which, when workers are alive, who holds the lock, and who may move the hand-over flag.
*/
module CollControl {
  import opened Prelude
  import opened Collector

  // ---- where the threads are ----

  predicate Idle(s: State) { s.p.PDone? && s.c.CDone? && s.s.SDone? }

  predicate InLoop(pc: SPc) {
    (pc.SLoop? || pc.SPause? || pc.SFlag? || pc.SLock? || pc.SSize? || pc.SRaise? || pc.SUnlock? || pc.SCount?)
  }

  /** The switcher has left its loop and not yet returned. */
  predicate Stopping(pc: SPc) {
    (pc.SStopP? || pc.SWaitP? || pc.SForce? || pc.SStopC? || pc.SWaitC? || pc.SSucc?)
  }

  predicate BeforeSpawn(pc: IPc) { (pc.IHint? || pc.ITry? || pc.IAuth? || pc.IInit? || pc.ISpawnP? || pc.ISpawnC? || pc.ISpawnS?) }
  predicate HasProducer(pc: IPc) { (pc.ISpawnC? || pc.ISpawnS? || pc.IAwait? || pc.IStopS? || pc.IWaitS? || pc.IJoinS? || pc.IJoinC? || pc.IJoinP?) }
  predicate HasConsumer(pc: IPc) { (pc.ISpawnS? || pc.IAwait? || pc.IStopS? || pc.IWaitS? || pc.IJoinS? || pc.IJoinC?) }
  predicate HasSwitcher(pc: IPc) { (pc.IAwait? || pc.IStopS? || pc.IWaitS? || pc.IJoinS?) }

  /** UpColl is between its check of coll_initer_up and the spawn. */
  predicate Starting(h: HPc) { h.HReset? || h.HSpawn? }

  /** The consumer's body, from the wait it passed to the store that lowers the flag. */
  predicate InBody(pc: CPc) { !(pc.CDone? || pc.CLoop? || pc.CAwait? || pc.CSucc?) }

  predicate ConsumerLocked(pc: CPc) {
    pc.CSize? || pc.CIter? || pc.CDecide? || pc.CCollect? || pc.CClear? || pc.CUnlock?
  }

  // ---- the invariant ----

  predicate AllStopFlagsClear(fl: Flags) {
    !fl.tryProducer.On? && !fl.producerSucc.On? && !fl.tryConsumer.On? && !fl.consumerSucc.On? &&
    !fl.trySwitcher.On? && !fl.switcherSucc.On?
  }

  predicate ClearedUpTo(fl: Flags, k: nat) {
    (k > 0 ==> !fl.tryProducer.On?) && (k > 1 ==> !fl.producerSucc.On?) &&
    (k > 2 ==> !fl.tryConsumer.On?) && (k > 3 ==> !fl.consumerSucc.On?) &&
    (k > 4 ==> !fl.trySwitcher.On?) && (k > 5 ==> !fl.switcherSucc.On?) &&
    (k > 6 ==> !fl.tryIniter.On?) && (k > 7 ==> !fl.initerSucc.On?)
  }

  /** The order in which a session is taken down. */
  predicate Chain(fl: Flags) {
    (fl.switcherSucc.On? ==> fl.consumerSucc.On?) && (fl.consumerSucc.On? ==> fl.tryConsumer.On?) &&
    (fl.tryConsumer.On? ==> fl.producerSucc.On?) && (fl.producerSucc.On? ==> fl.tryProducer.On?) &&
    (fl.tryProducer.On? ==> fl.trySwitcher.On?) && (fl.trySwitcher.On? ==> fl.tryIniter.On?)
  }

  predicate SessionInv(s: State) {
    && (s.fl.initerUp.On? <==> !s.i.IGone?)
    && !s.i.IStart?
    && (Starting(s.h) ==> s.i.IGone?)
    && (s.h.HReset? ==> s.h.k < N_RESETS && ClearedUpTo(s.fl, s.h.k))
    && (s.h.HSpawn? ==> ClearedUpTo(s.fl, N_RESETS))
    && (!s.h.HReset? ==> Chain(s.fl))
    && (s.h.HStopSelf? ==> s.i.IGone?)
    && (s.h.HStopReply? ==> s.i.IGone? || s.fl.initerSucc.On?)
    && (s.fl.initerSucc.On? ==> Idle(s))
    && (!s.i.IGone? && !s.i.IDown? ==> !s.fl.initerSucc.On?)
    && (!Starting(s.h) && s.fl.tryIniter.On? && !s.fl.initerSucc.On? ==> s.h.HStopWait?)
    && (s.h.HStopWait? ==> s.fl.tryIniter.On? || s.i.IGone?)
  }

  predicate WorkerInv(s: State) {
    && (!s.p.PDone? ==> HasProducer(s.i))
    && (!s.c.CDone? ==> HasConsumer(s.i))
    && (!s.s.SDone? ==> HasSwitcher(s.i))
    && (BeforeSpawn(s.i) ==> AllStopFlagsClear(s.fl))
    && ((s.i.IAwait? || s.i.IStopS?) ==> !s.fl.trySwitcher.On?)
    && (s.i.IStopS? ==> s.fl.tryIniter.On?)
    && (s.i.IWaitS? ==> s.fl.trySwitcher.On?)
    && ((s.i.IJoinS? || s.i.IJoinC? || s.i.IJoinP?) ==> s.fl.switcherSucc.On?)
    && (HasProducer(s.i) && s.p.PDone? ==> s.fl.producerSucc.On?)
    && (HasConsumer(s.i) && s.c.CDone? ==> s.fl.consumerSucc.On?)
    && (HasSwitcher(s.i) && s.s.SDone? ==> s.fl.switcherSucc.On?)
    && (s.p.PSucc? ==> s.fl.tryProducer.On?)
    && (s.c.CSucc? ==> s.fl.tryConsumer.On?)
    && (s.fl.producerSucc.On? ==> s.p.PDone?)
    && (s.fl.consumerSucc.On? ==> s.c.CDone?)
    && (s.fl.switcherSucc.On? ==> s.s.SDone?)
    && (Stopping(s.s) ==> s.fl.trySwitcher.On?)
    && (!s.s.SDone? ==>
        && (s.fl.tryProducer.On? <==> (s.s.SWaitP? || s.s.SForce? || s.s.SStopC? || s.s.SWaitC? || s.s.SSucc?))
        && ((s.s.SForce? || s.s.SStopC? || s.s.SWaitC? || s.s.SSucc?) ==> s.fl.producerSucc.On?)
        && (s.fl.tryConsumer.On? <==> (s.s.SWaitC? || s.s.SSucc?))
        && (s.s.SSucc? ==> s.fl.consumerSucc.On?))
  }

  predicate LockInv(s: State) {
    && (s.lock == ByProducer <==> ProducerLocked(s.p))
    && (s.lock == ByConsumer <==> ConsumerLocked(s.c))
    && (s.lock == BySwitcher <==> (s.s.SSize? || s.s.SRaise? || s.s.SUnlock?))
    && (s.lock == ByHandler <==> s.h.HStatUnlock?)
  }

  predicate HandOver(s: State) {
    InBody(s.c) ==> s.doCsm.On?
  }

  /** Only the consumer sets `tried`, so once it has read it as clear it stays clear. */
  predicate TryInv(s: State) {
    (s.c.CChkAuth? || s.c.CChkValid? || s.c.CChkTried? || s.c.CSetTried?) ==> !s.td.tried.On?
  }

  predicate Ctl(s: State) {
    SessionInv(s) && WorkerInv(s) && LockInv(s) && HandOver(s) && TryInv(s)
  }

  // ---- every step keeps it ----

  lemma CtlInit(hint: Bit, filters: string, tgfid: int)
    ensures Ctl(Init(hint, filters, tgfid))
  {}

  predicate ProducerLocked(pc: PPc) { pc.PInsert? || pc.PTotal? || pc.PUnlock? }

  /** What a producer step may do to the shared control state. */
  predicate ProducerMoves(s: State, r: State) {
    && r.h == s.h && r.i == s.i && r.c == s.c && r.s == s.s && r.doCsm == s.doCsm
    && !s.p.PDone?
    && r.fl == (if s.p.PSucc? then s.fl.(producerSucc := On) else s.fl)
    && (r.p.PDone? <==> s.p.PSucc?)
    && (r.p.PSucc? ==> s.fl.tryProducer.On?)
    && (if ProducerLocked(r.p) then (if ProducerLocked(s.p) then r.lock == s.lock else s.lock.Free? && r.lock.ByProducer?)
        else r.lock == if ProducerLocked(s.p) then Free else s.lock)
    && (r.td.tried.On? ==> s.td.tried.On?)
    && r.log.raises == s.log.raises
  }

  lemma ReceiveMoves(s: State, got: Fetched)
    requires s.p.PFetch?
    ensures ProducerMoves(s, Receive(s, got))
  {}

  lemma CallMoves(s: State, id: nat, obj: Obj)
    requires s.p == PCall(id, obj)
    ensures ProducerMoves(s, Call(s, id, obj))
  {}

  lemma ProducerMovesSo(env: Env, s: State, got: Fetched, r: State)
    requires StepP(env, s, got) == Some(r)
    ensures ProducerMoves(s, r)
  {
    match s.p
    case PFetch => ReceiveMoves(s, got);
    case PCall(id, obj) => CallMoves(s, id, obj);
    case PDone =>
    case PLoop =>
    case PAwait =>
    case PLock(_) =>
    case PInsert(_) =>
    case PTotal =>
    case PUnlock =>
    case PCommand(_) =>
    case PReply =>
    case PForget(_) =>
    case PErase(_) =>
    case PCount =>
    case PSucc =>
  }

  lemma CtlProducer(s: State, r: State)
    requires Ctl(s) && ProducerMoves(s, r)
    ensures Ctl(r)
  {}

  /** What a consumer step may do to the shared control state. */
  predicate ConsumerMoves(s: State, r: State) {
    && r.h == s.h && r.i == s.i && r.p == s.p && r.s == s.s && r.pause == s.pause && r.log.raises == s.log.raises
    && !s.c.CDone?
    && r.fl == (if s.c.CSucc? then s.fl.(consumerSucc := On) else s.fl)
    && (r.c.CDone? <==> s.c.CSucc?)
    && (r.c.CSucc? ==> s.fl.tryConsumer.On?)
    && r.doCsm.On? == (s.doCsm.On? && !s.c.CLower?)
    && (InBody(r.c) ==> if s.c.CAwait? then s.doCsm.On? else InBody(s.c) && !s.c.CLower?)
    && (if ConsumerLocked(r.c) then (if ConsumerLocked(s.c) then r.lock == s.lock else s.lock.Free? && r.lock.ByConsumer?)
        else r.lock == if ConsumerLocked(s.c) then Free else s.lock)
    && (r.c.CChkAuth? || r.c.CChkValid? || r.c.CChkTried? || r.c.CSetTried? ==>
        !r.td.tried.On? && (s.c.CTried? || s.c.CChkAuth? || s.c.CChkValid? || s.c.CChkTried?))
  }

  lemma DecideMoves(env: Env, s: State, it: nat)
    requires s.c == CDecide(it)
    ensures ConsumerMoves(s, Decide(env, s, it))
  {}

  lemma CollectMoves(s: State, it: nat, under: string)
    requires s.c == CCollect(it, under)
    ensures ConsumerMoves(s, Collect(s, it, under))
  {}

  lemma LockedMoves(env: Env, s: State, r: State)
    requires ConsumerLocked(s.c) && StepC(env, s) == Some(r)
    ensures ConsumerMoves(s, r)
  {
    match s.c
    case CDecide(it) => DecideMoves(env, s, it);
    case CCollect(it, under) => CollectMoves(s, it, under);
    case CSize =>
    case CIter(_) =>
    case CClear(_) =>
    case CUnlock =>
  }

  predicate TryingCreate(pc: CPc) { pc.CChkAuth? || pc.CChkValid? || pc.CChkTried? || pc.CSetTried? || pc.CCreate? }

  lemma CreateMoves(env: Env, s: State, r: State)
    requires TryInv(s) && TryingCreate(s.c) && StepC(env, s) == Some(r)
    ensures ConsumerMoves(s, r)
  {}

  lemma OuterMoves(env: Env, s: State, r: State)
    requires !ConsumerLocked(s.c) && !TryingCreate(s.c) && StepC(env, s) == Some(r)
    ensures ConsumerMoves(s, r)
  {}

  lemma ConsumerMovesSo(env: Env, s: State, r: State)
    requires TryInv(s) && StepC(env, s) == Some(r)
    ensures ConsumerMoves(s, r)
  {
    if ConsumerLocked(s.c) {
      LockedMoves(env, s, r);
    } else if TryingCreate(s.c) {
      CreateMoves(env, s, r);
    } else {
      OuterMoves(env, s, r);
    }
  }

  lemma CtlConsumer(s: State, r: State)
    requires Ctl(s) && ConsumerMoves(s, r)
    ensures Ctl(r)
  {}

  lemma CtlSwitcher(s: State, r: State)
    requires Ctl(s) && StepS(s) == Some(r)
    ensures Ctl(r)
  {
    match s.s
    case SDone =>
    case SLoop =>
    case SPause =>
    case SFlag =>
    case SLock =>
    case SSize =>
    case SRaise =>
    case SUnlock =>
    case SCount =>
    case SStopP =>
    case SWaitP =>
    case SForce =>
    case SStopC =>
    case SWaitC =>
    case SSucc =>
  }

  lemma CtlIniter(s: State, r: State)
    requires Ctl(s) && StepI(s) == Some(r)
    ensures Ctl(r)
  {
    match s.i
    case IGone =>
    case IStart =>
    case IHint =>
    case ITry =>
    case IAuth =>
    case IInit =>
    case ISpawnP =>
    case ISpawnC =>
    case ISpawnS =>
    case IAwait =>
    case IStopS =>
    case IWaitS =>
    case IJoinS =>
    case IJoinC =>
    case IJoinP =>
    case ISucc =>
    case IDown =>
  }

  lemma CtlReset(env: Env, s: State, cmd: Command, r: State)
    requires Ctl(s) && s.h.HReset? && StepH(env, s, cmd) == Some(r)
    ensures Ctl(r)
  {}

  lemma CtlHandler(env: Env, s: State, cmd: Command, r: State)
    requires env.atomicSpawn && Ctl(s) && StepH(env, s, cmd) == Some(r)
    ensures Ctl(r)
  {
    match s.h
    case HReset(_) => CtlReset(env, s, cmd, r);
    case HIdle =>
    case HUpLoad =>
    case HSpawn =>
    case HReply =>
    case HStopLoad(_) =>
    case HStopTry(_) =>
    case HStopSelf =>
    case HStopWait(_) =>
    case HStopReply(_) =>
    case HStatLock =>
    case HStatUnlock =>
  }

  lemma CtlStep(env: Env, s: State, a: Act, r: State)
    requires env.atomicSpawn && Ctl(s) && Do(env, s, a) == Some(r)
    ensures Ctl(r)
  {
    match a
    case Producer(got) => ProducerMovesSo(env, s, got, r); CtlProducer(s, r);
    case Consumer =>
      ConsumerMovesSo(env, s, r);
      CtlConsumer(s, r);
    case Switcher => CtlSwitcher(s, r);
    case Initer => CtlIniter(s, r);
    case Handler(cmd) => CtlHandler(env, s, cmd, r);
    case Hint(_) =>
  }

  lemma {:induction false} CtlExec(env: Env, s: State, acts: seq<Act>, r: State)
    requires env.atomicSpawn && Ctl(s) && Exec(env, s, acts) == Some(r)
    ensures Ctl(r)
  {
    if acts != [] {
      var n := |acts| - 1;
      var before := Exec(env, s, acts[..n]).value;
      CtlExec(env, s, acts[..n], before);
      CtlStep(env, before, acts[n], r);
    }
  }

  lemma CtlReachable(env: Env, s: State)
    requires env.atomicSpawn && Reachable(env, s)
    ensures Ctl(s)
  {
    var hint, filters, tgfid, acts :| Exec(env, Init(hint, filters, tgfid), acts) == Some(s);
    CtlInit(hint, filters, tgfid);
    CtlExec(env, Init(hint, filters, tgfid), acts, s);
  }

  // ---- what it gives ----

  /** A session is taken down in one order, and "Success" is answered only after all its workers left. */
  lemma StopOrder(env: Env, s: State)
    requires env.atomicSpawn && Reachable(env, s)
    ensures !s.h.HReset? ==> Chain(s.fl)
    ensures s.h.HStopReply? ==> Idle(s)
    ensures s.fl.initerSucc.On? ==> Idle(s)
    ensures s.i.IGone? ==> Idle(s)
  {
    CtlReachable(env, s);
  }

  /** While UpColl resets the flags, and when it spawns, no initer and no worker is alive. */
  lemma OneSession(env: Env, s: State)
    requires env.atomicSpawn && Reachable(env, s)
    ensures Starting(s.h) ==> s.i.IGone? && Idle(s)
    ensures s.h.HSpawn? ==> AllStopFlagsClear(s.fl) && !s.fl.tryIniter.On? && !s.fl.initerSucc.On?
    ensures s.fl.initerUp.On? <==> !s.i.IGone?
  {
    CtlReachable(env, s);
  }

  lemma UpCollUntilSpawn(env: Env, start: State, acts0: seq<Act>, s: State) returns (acts: seq<Act>, r: State)
    requires Exec(env, start, acts0) == Some(s) && s.h.HIdle? && !s.fl.initerUp.On?
    ensures Exec(env, start, acts) == Some(r)
    ensures r.h.HSpawn? && r.i == s.i && !r.fl.initerUp.On?
  {
    acts, r := acts0, s;
    for k := 0 to 10
      invariant Exec(env, start, acts) == Some(r)
      invariant r.i == s.i && !r.fl.initerUp.On?
      invariant r.h == if k == 0 then HIdle else if k == 1 then HUpLoad else if k < 10 then HReset(k - 2) else HSpawn
    {
      ExecThen(env, start, acts, Handler(UpColl));
      acts, r := acts + [Handler(UpColl)], Do(env, r, Handler(UpColl)).value;
    }
  }

  /**
    Without the atomic spawn this fails: a second UpColl that comes before the new thread's first
    store finds coll_initer_up clear, resets the flags again and goes on to spawn a second session.
  */
  lemma SecondSessionWithoutAtomicSpawn(env: Env, hint: Bit, filters: string, tgfid: int)
    returns (acts: seq<Act>, r: State)
    requires !env.atomicSpawn
    ensures Exec(env, Init(hint, filters, tgfid), acts) == Some(r)
    ensures r.h.HSpawn? && !r.i.IGone?
  {
    var start := Init(hint, filters, tgfid);
    acts, r := UpCollUntilSpawn(env, start, [], start);
    for k := 0 to 2
      invariant Exec(env, start, acts) == Some(r) && !r.fl.initerUp.On?
      invariant r.h == if k == 0 then HSpawn else if k == 1 then HReply else HIdle
      invariant k > 0 ==> r.i.IStart?
    {
      ExecThen(env, start, acts, Handler(UpColl));
      acts, r := acts + [Handler(UpColl)], Do(env, r, Handler(UpColl)).value;
    }
    acts, r := UpCollUntilSpawn(env, start, acts, r);
  }

  /** What the initer and the handler do to the hand-over flag: nothing. */
  predicate FlagUntouched(s: State, r: State) {
    r.doCsm == s.doCsm && r.log.raises == s.log.raises && (r.s == s.s || r.s.SLoop?)
  }

  lemma IniterFlag(s: State, r: State)
    requires StepI(s) == Some(r)
    ensures FlagUntouched(s, r)
  {}

  lemma HandlerFlag(env: Env, s: State, cmd: Command, r: State)
    requires StepH(env, s, cmd) == Some(r)
    ensures FlagUntouched(s, r)
  {}

  /** A switcher that has read `pause` as clear and not yet raised the flag. */
  predicate MayStillRaise(pc: SPc) { pc.SFlag? || pc.SLock? || pc.SSize? || pc.SRaise? }

  function Raises(s: State): nat {
    s.log.raises + if MayStillRaise(s.s) then 1 else 0
  }

  lemma SwitcherFlag(s: State, r: State)
    requires StepS(s) == Some(r)
    ensures s.doCsm.On? ==> r.doCsm.On?
    ensures !s.doCsm.On? && r.doCsm.On? ==> s.s.SRaise? || s.s.SForce?
    ensures s.pause.On? ==> Raises(r) <= Raises(s)
  {}

  /** The flag is raised by the switcher alone and lowered by the consumer alone, at the end of its body. */
  lemma HandOverProtocol(env: Env, s: State, a: Act, r: State)
    requires env.atomicSpawn && Reachable(env, s) && Do(env, s, a) == Some(r)
    ensures !s.doCsm.On? ==> !InBody(s.c)
    ensures s.doCsm.On? && !r.doCsm.On? ==> a.Consumer? && s.c.CLower?
    ensures !s.doCsm.On? && r.doCsm.On? ==> a.Switcher? && (s.s.SRaise? || s.s.SForce?)
  {
    CtlReachable(env, s);
    match a
    case Producer(got) => ProducerMovesSo(env, s, got, r);
    case Consumer => ConsumerMovesSo(env, s, r);
    case Switcher => SwitcherFlag(s, r);
    case Initer => IniterFlag(s, r);
    case Handler(cmd) => HandlerFlag(env, s, cmd, r);
    case Hint(_) =>
  }

  lemma PausedStep(env: Env, s: State, a: Act, r: State)
    requires Ctl(s) && Do(env, s, a) == Some(r) && s.pause.On?
    ensures Raises(r) <= Raises(s)
  {
    match a
    case Producer(got) => ProducerMovesSo(env, s, got, r);
    case Consumer => ConsumerMovesSo(env, s, r);
    case Switcher => SwitcherFlag(s, r);
    case Initer => IniterFlag(s, r);
    case Handler(cmd) => HandlerFlag(env, s, cmd, r);
    case Hint(_) =>
  }

  lemma {:induction false} PausedRun(env: Env, s: State, acts: seq<Act>)
    requires env.atomicSpawn && Ctl(s)
    requires Throughout(env, s, acts, (t: State) => t.pause.On?)
    ensures Exec(env, s, acts).Some?
    ensures Raises(Exec(env, s, acts).value) <= Raises(s)
  {
    if acts != [] {
      var n := |acts| - 1;
      ThroughoutPrefix(env, s, acts, (t: State) => t.pause.On?);
      PausedRun(env, s, acts[..n]);
      var before := Exec(env, s, acts[..n]).value;
      assert before.pause.On? by { assert acts[..n][..n] == acts[..n]; }
      CtlExec(env, s, acts[..n], before);
      PausedStep(env, before, acts[n], Exec(env, s, acts).value);
    }
  }

  /**
    As long as forwarding stays paused, over any schedule and any number of restarts, the switcher's
    loop raises the hand-over flag at most once more, and only if it was past its pause check.
  */
  lemma PauseStopsRaising(env: Env, s: State, acts: seq<Act>)
    requires env.atomicSpawn && Reachable(env, s)
    requires Throughout(env, s, acts, (t: State) => t.pause.On?)
    ensures Exec(env, s, acts).Some?
    ensures var r := Exec(env, s, acts).value;
      r.log.raises <= s.log.raises + if MayStillRaise(s.s) then 1 else 0
  {
    CtlReachable(env, s);
    PausedRun(env, s, acts);
  }
}
