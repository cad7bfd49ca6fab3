/**
  When a session can still be stopped, and when it can still fetch.  Without a login and without a
  chat the consumer turns back before it lowers the hand-over flag; once the flag is up in that
  situation, nobody lowers it any more, not even across restarts, because UpColl does not reset it.
*/
module CollJam {
  import opened Prelude
  import opened Collector
  import opened CollControl
  import opened CollLog
  import opened CollStop

  // ---- the situation ----

  /** From here the consumer comes to the check of the login with no chat in hand. */
  predicate TurningBack(pc: CPc) {
    pc.CLoop? || pc.CAwait? || pc.CValid? || (pc.CTried? && !pc.valid) || pc.CChkAuth?
  }

  /** The consumer turns back, or there is none. */
  predicate NoWayDown(s: State) {
    !s.td.isAuth.On? && !s.td.tried.On? && s.td.tgfid == -1 && (TurningBack(s.c) || s.c.CDone? || s.c.CSucc?)
  }

  /** The flag is up, nobody lowers it, and the producer is not past its wait with something that helps. */
  predicate Barren(s: State) {
    s.doCsm.On? && NoWayDown(s) && !s.p.PFetch? && !TurnsValid(s)
  }

  /** The producer waits for it. */
  predicate Jammed(s: State) { Barren(s) && s.p.PAwait? }

  /** The consumer is parked, and the switcher is past its forced raise. */
  predicate Doomed(s: State) { Parked(s) && (s.s.SStopC? || s.s.SWaitC?) }

  /** The switcher holds the lock the producer waits for, and is about to raise the flag. */
  predicate AboutToJam(s: State) {
    s.p.PLock? && (s.s.SRaise? || (s.s.SSize? && |s.mq| > 0)) && NoWayDown(s)
  }

  // ---- it stays ----

  lemma BarrenProducer(env: Env, s: State, got: Fetched, r: State)
    requires Barren(s) && StepP(env, s, got) == Some(r)
    ensures Barren(r)
  {
    match s.p
    case PDone =>
    case PLoop =>
    case PAwait =>
    case PLock(_) =>
    case PInsert(_) =>
    case PTotal =>
    case PUnlock =>
    case PCommand(_) =>
    case PReply =>
    case PCall(_, _) =>
    case PForget(_) =>
    case PErase(_) =>
    case PCount =>
    case PSucc =>
  }

  lemma BarrenConsumer(env: Env, s: State, r: State)
    requires Barren(s) && StepC(env, s) == Some(r)
    ensures Barren(r)
  {}

  lemma BarrenSwitcher(s: State, r: State)
    requires Barren(s) && StepS(s) == Some(r)
    ensures Barren(r)
  {}

  lemma BarrenIniter(s: State, r: State)
    requires Barren(s) && StepI(s) == Some(r)
    ensures Barren(r)
  {
    match s.i
    case IGone =>
    case IStart =>
    case IHint =>
    case ITry =>
    case IAuth =>
    case IInit =>
    case ISpawnP =>
    case ISpawnC =>
    case ISpawnS =>
    case IAwait =>
    case IStopS =>
    case IWaitS =>
    case IJoinS =>
    case IJoinC =>
    case IJoinP =>
    case ISucc =>
    case IDown =>
  }

  /** Whatever happens, shutdowns and new sessions included, a barren program stays barren and fetches nothing. */
  lemma BarrenForever(env: Env, s: State, a: Act, r: State)
    requires Barren(s) && Do(env, s, a) == Some(r)
    ensures Barren(r) && !r.p.PFetch?
  {
    hide StepP, StepC, StepS, StepI;
    match a
    case Producer(got) => BarrenProducer(env, s, got, r);
    case Consumer => BarrenConsumer(env, s, r);
    case Switcher => BarrenSwitcher(s, r);
    case Initer => BarrenIniter(s, r);
    case Handler(cmd) => HandlerParks(env, s, cmd, r);
    case Hint(_) =>
  }

  lemma {:induction false} BarrenRun(env: Env, s: State, acts: seq<Act>, r: State)
    requires Barren(s) && Exec(env, s, acts) == Some(r)
    ensures Barren(r) && !r.p.PFetch?
  {
    hide Do, Barren;
    if acts != [] {
      var n := |acts| - 1;
      var before := Exec(env, s, acts[..n]).value;
      BarrenRun(env, s, acts[..n], before);
      BarrenForever(env, before, acts[n], r);
    } else {
      NotFetching(s);
    }
  }

  lemma NotFetching(s: State)
    requires Barren(s)
    ensures !s.p.PFetch?
  {}

  /** A producer waiting in a barren program waits for good. */
  lemma JammedForever(env: Env, s: State, a: Act, r: State)
    requires Ctl(s) && Jammed(s) && Do(env, s, a) == Some(r)
    ensures Jammed(r)
  {
    BarrenForever(env, s, a, r);
    hide Barren;
    match a
    case Producer(got) =>
    case Consumer => ConsumerMovesSo(env, s, r);
    case Switcher =>
    case Initer =>
    case Handler(cmd) => HandlerParks(env, s, cmd, r);
    case Hint(_) =>
  }

  lemma DoomedForever(env: Env, s: State, a: Act, r: State)
    requires Ctl(s) && Doomed(s) && Do(env, s, a) == Some(r)
    ensures Doomed(r)
  {
    assert s.p.PDone? && s.i.IWaitS?;
  }

  lemma AboutToJamStays(env: Env, s: State, a: Act, r: State)
    requires Ctl(s) && AboutToJam(s) && Do(env, s, a) == Some(r)
    ensures AboutToJam(r) || Barren(r)
  {
    match a
    case Producer(_) =>
    case Consumer => BarrenlikeConsumer(env, s, r);
    case Switcher =>
    case Initer =>
    case Handler(cmd) => HandlerParks(env, s, cmd, r);
    case Hint(_) =>
  }

  lemma BarrenlikeConsumer(env: Env, s: State, r: State)
    requires NoWayDown(s) && StepC(env, s) == Some(r)
    ensures NoWayDown(r) && r.p == s.p && r.s == s.s && r.mq == s.mq
  {}

  // ---- invariants along a strategy ----

  /** Past its check of the login the consumer has one. */
  predicate AuthInv(s: State) {
    (s.c.CChkValid? || s.c.CChkTried? || s.c.CSetTried? || s.c.CCreate?) ==> s.td.isAuth.On?
  }

  predicate Inv(env: Env, s: State) { Ctl(s) && LogInv(env, s) && AuthInv(s) }

  lemma AuthConsumer(env: Env, s: State, r: State)
    requires AuthInv(s) && StepC(env, s) == Some(r)
    ensures AuthInv(r)
  {
    match s.c
    case CDone =>
    case CLoop =>
    case CAwait =>
    case CValid =>
    case CTried(_) =>
    case CChkAuth =>
    case CChkValid =>
    case CChkTried =>
    case CSetTried =>
    case CCreate =>
    case CLock =>
    case CSize =>
    case CIter(_) =>
    case CDecide(_) =>
    case CCollect(_, _) =>
    case CClear(_) =>
    case CUnlock =>
    case CCount =>
    case CLower =>
    case CSucc =>
  }

  lemma AuthStep(env: Env, s: State, a: Act, r: State)
    requires AuthInv(s) && Do(env, s, a) == Some(r)
    ensures AuthInv(r)
  {
    if s.td.isAuth.On? {
      AuthStays(env, s, a, r);
    } else if a.Consumer? {
      AuthConsumer(env, s, r);
    } else {
      OthersKeepPc(env, s, a, r);
    }
  }

  lemma OthersKeepPc(env: Env, s: State, a: Act, r: State)
    requires !a.Consumer? && Do(env, s, a) == Some(r)
    ensures r.c == s.c || r.c.CLoop?
  {
    match a
    case Producer(_) =>
    case Switcher =>
    case Initer =>
    case Handler(cmd) => HandlerParks(env, s, cmd, r);
    case Hint(_) =>
  }

  lemma InvStep(env: Env, s: State, a: Act, r: State)
    requires env.atomicSpawn && Inv(env, s) && Do(env, s, a) == Some(r)
    ensures Inv(env, r)
  {
    hide Ctl, LogInv, AuthInv, Do;
    CtlStep(env, s, a, r);
    LogStep(env, s, a, r);
    AuthStep(env, s, a, r);
  }

  lemma {:induction false} AuthExec(env: Env, s: State, acts: seq<Act>, r: State)
    requires AuthInv(s) && Exec(env, s, acts) == Some(r)
    ensures AuthInv(r)
  {
    hide Do, AuthInv;
    if acts != [] {
      var n := |acts| - 1;
      AuthExec(env, s, acts[..n], Exec(env, s, acts[..n]).value);
      AuthStep(env, Exec(env, s, acts[..n]).value, acts[n], r);
    }
  }

  lemma InvReachable(env: Env, s: State)
    requires env.atomicSpawn && Reachable(env, s)
    ensures Inv(env, s)
  {
    hide Ctl, LogInv, Exec;
    CtlReachable(env, s);
    LogReachable(env, s);
    var hint, filters, tgfid, acts :| Exec(env, Init(hint, filters, tgfid), acts) == Some(s);
    AuthExec(env, Init(hint, filters, tgfid), acts, s);
  }

  /** What is left of the consumer's rounds, as in the ranking of stopping sessions. */
  function Turns(s: State): nat { Rounds(s) * RoundCost(s) + RankC(s) }

  lemma TurnsLower(env: Env, s: State, r: State)
    requires Inv(env, s) && !AtSpin(s) && StepC(env, s) == Some(r)
    ensures Turns(r) < Turns(s)
  {
    CursorInside(env, s);
    ConsumerLowers(env, s, r);
    RoundsPay(Rounds(s), Rounds(r), RoundCost(s), RoundCost(r));
  }

  /** With the flag up and a way down, the consumer keeps its way down until it lowers the flag. */
  lemma ConsumerKeepsWay(env: Env, s: State, r: State)
    requires Ctl(s) && AuthInv(s) && s.doCsm.On? && !NoWayDown(s) && !s.fl.tryConsumer.On? && StepC(env, s) == Some(r)
    ensures r.doCsm.On? ==> !NoWayDown(r)
    ensures r.p == s.p && r.s == s.s && r.i == s.i && r.h == s.h && !r.c.CDone?
  {
    match s.c
    case CDone =>
    case CLoop =>
    case CAwait =>
    case CValid =>
    case CTried(_) =>
    case CChkAuth =>
    case CChkValid =>
    case CChkTried =>
    case CSetTried =>
    case CCreate =>
    case CLock =>
    case CSize =>
    case CIter(_) =>
    case CDecide(_) =>
    case CCollect(_, _) =>
    case CClear(_) =>
    case CUnlock =>
    case CCount =>
    case CLower =>
    case CSucc =>
  }

  // ---- a session told to stop gets down ----

  ghost predicate CanStop(env: Env, s: State) {
    exists acts :: Exec(env, s, acts).Some? && Idle(Exec(env, s, acts).value)
  }

  /** A session told to stop that has a way out. */
  predicate Stoppable(env: Env, s: State) {
    Inv(env, s) && s.fl.tryIniter.On? && !Jammed(s) && !Doomed(s) && !Idle(s)
  }

  predicate BeforeWait(pc: IPc) { pc.ISpawnC? || pc.ISpawnS? || pc.IAwait? || pc.IStopS? }

  /** The producer is kept at the head of its loop until it has been told to leave. */
  predicate Held(s: State) { s.p.PLoop? && !s.fl.tryProducer.On? }

  /** Whom to schedule: the initer, the producer, whoever holds the lock, the consumer when it is waited for, the switcher. */
  function StopNext(s: State): Act {
    if BeforeWait(s.i) then Initer
    else if CanP(s) && !Held(s) then Producer(Nothing)
    else if ConsumerLocked(s.c) then Consumer
    else if s.lock.BySwitcher? then Switcher
    else if s.p.PAwait? || (s.s.SWaitC? && !s.fl.consumerSucc.On?) then Consumer
    else Switcher
  }

  function RankI(pc: IPc): nat {
    match pc
    case ISpawnC => 4
    case ISpawnS => 3
    case IAwait => 2
    case IStopS => 1
    case _ => 0
  }

  function SwitcherLeft(pc: SPc): nat { if InLoop(pc) || pc.SStopP? then 6 + BeforeStop(pc) else RankS(pc) }

  predicate StopProgress(env: Env, s: State, r: State) {
    && r.fl.tryIniter.On? && !Jammed(r) && !Doomed(r)
    && (RankI(r.i) < RankI(s.i)
        || (r.i == s.i && SwitcherLeft(r.s) < SwitcherLeft(s.s))
        || (r.i == s.i && r.s == s.s && RankP(r.p) < RankP(s.p))
        || (r.i == s.i && r.s == s.s && r.p == s.p && Turns(r) < Turns(s)))
  }

  lemma IniterProgress(env: Env, s: State)
    requires Stoppable(env, s) && BeforeWait(s.i)
    ensures var r := Do(env, s, Initer); r.Some? && StopProgress(env, s, r.value)
  {
    hide LogInv, Turns;
  }

  lemma ProducerProgress(env: Env, s: State)
    requires Stoppable(env, s) && !BeforeWait(s.i) && CanP(s) && !Held(s)
    ensures var r := Do(env, s, Producer(Nothing)); r.Some? && StopProgress(env, s, r.value)
  {
    hide LogInv, Turns, Barren;
    var r := StepP(env, s, Nothing).value;
    ProducerMovesSo(env, s, Nothing, r);
    ProducerRanks(env, s, r);
  }

  lemma ProducerRanks(env: Env, s: State, r: State)
    requires StepP(env, s, Nothing) == Some(r) && !Held(s)
    ensures RankP(r.p) < RankP(s.p) && !r.p.PAwait?
  {
    match s.p
    case PDone =>
    case PLoop =>
    case PAwait =>
    case PFetch =>
    case PLock(_) =>
    case PInsert(_) =>
    case PTotal =>
    case PUnlock =>
    case PCommand(_) =>
    case PReply =>
    case PCall(_, _) =>
    case PForget(_) =>
    case PErase(_) =>
    case PCount =>
    case PSucc =>
  }

  lemma LockedProgress(env: Env, s: State)
    requires Stoppable(env, s) && !BeforeWait(s.i) && !(CanP(s) && !Held(s)) && ConsumerLocked(s.c)
    ensures var r := Do(env, s, Consumer); r.Some? && StopProgress(env, s, r.value)
  {
    hide LogInv, Turns;
    CanMeansEnabled(env, s, Nothing);
    var r := StepC(env, s).value;
    ConsumerMovesSo(env, s, r);
    TurnsLower(env, s, r);
    LockedPcs(env, s, r);
  }

  lemma LockedPcs(env: Env, s: State, r: State)
    requires ConsumerLocked(s.c) && StepC(env, s) == Some(r)
    ensures ConsumerLocked(r.c) || r.c.CCount?
  {}

  lemma SwitcherRanks(s: State, r: State)
    requires s.fl.trySwitcher.On? && StepS(s) == Some(r)
    ensures SwitcherLeft(r.s) < SwitcherLeft(s.s) && r.i == s.i && r.p == s.p && r.c == s.c && r.td == s.td
    ensures r.fl.tryIniter == s.fl.tryIniter && (s.doCsm.On? ==> r.doCsm.On?)
    ensures (r.s.SStopC? ==> r.doCsm.On?) && (r.s.SWaitC? ==> s.s.SStopC? && r.doCsm == s.doCsm)
  {}

  lemma SwitcherCan(env: Env, s: State)
    requires Stoppable(env, s) && StopNext(s).Switcher?
    ensures CanS(s) && s.fl.trySwitcher.On? && (s.p.PAwait? ==> s.doCsm.On?)
  {
    hide LogInv, Barren, AuthInv;
  }

  lemma SwitcherProgress(env: Env, s: State)
    requires Stoppable(env, s) && StopNext(s).Switcher?
    ensures var r := Do(env, s, Switcher); r.Some? && StopProgress(env, s, r.value)
  {
    hide LogInv, Ctl, Turns, StopNext, SwitcherLeft, StepS, CanS;
    SwitcherCan(env, s);
    CanMeansEnabled(env, s, Nothing);
    SwitcherRanks(s, StepS(s).value);
  }

  /** The producer waits for the flag, and the consumer is on its way to lower it. */
  lemma AwaitedProgress(env: Env, s: State)
    requires Stoppable(env, s) && !BeforeWait(s.i) && s.p.PAwait? && s.doCsm.On? && s.lock.Free?
    ensures var r := Do(env, s, Consumer); r.Some? && StopProgress(env, s, r.value)
  {
    hide LogInv, Turns;
    CanMeansEnabled(env, s, Nothing);
    var r := StepC(env, s).value;
    ConsumerMovesSo(env, s, r);
    TurnsLower(env, s, r);
    ConsumerKeepsWay(env, s, r);
  }

  /** The consumer has been told to leave. */
  lemma LeavingProgress(env: Env, s: State)
    requires Stoppable(env, s) && !BeforeWait(s.i) && s.s.SWaitC? && !s.fl.consumerSucc.On? && s.lock.Free?
    ensures var r := Do(env, s, Consumer); r.Some? && StopProgress(env, s, r.value)
  {
    hide LogInv, Turns;
    CanMeansEnabled(env, s, Nothing);
    var r := StepC(env, s).value;
    ConsumerMovesSo(env, s, r);
    TurnsLower(env, s, r);
    if r.c.CAwait? { ConsumerParks(env, s, r); }
  }

  lemma LockHolders(env: Env, s: State)
    requires Stoppable(env, s) && !BeforeWait(s.i)
    ensures s.h.HStopWait? && (s.lock.Free? || s.lock.BySwitcher? || ConsumerLocked(s.c) || ProducerLocked(s.p))
  {
    hide LogInv, Jammed, Doomed;
  }

  lemma StopNextProgress(env: Env, s: State)
    requires Stoppable(env, s)
    ensures var r := Do(env, s, StopNext(s)); r.Some? && StopProgress(env, s, r.value)
  {
    hide Inv, StopProgress, Jammed, Doomed, Do;
    if BeforeWait(s.i) {
      IniterProgress(env, s);
    } else {
      LockHolders(env, s);
      if CanP(s) && !Held(s) {
        ProducerProgress(env, s);
      } else if ConsumerLocked(s.c) {
        LockedProgress(env, s);
      } else if StopNext(s).Switcher? {
        SwitcherProgress(env, s);
      } else if s.p.PAwait? {
        AwaitedProgress(env, s);
      } else {
        LeavingProgress(env, s);
      }
    }
  }

  lemma {:induction false} StopsByStrategy(env: Env, s: State) returns (acts: seq<Act>)
    requires env.atomicSpawn && Inv(env, s) && s.fl.tryIniter.On? && !Jammed(s) && !Doomed(s)
    ensures Exec(env, s, acts).Some? && Idle(Exec(env, s, acts).value)
    decreases RankI(s.i), SwitcherLeft(s.s), RankP(s.p), Turns(s)
  {
    hide Inv, Jammed, Doomed, Do, Turns, StopNext;
    if Idle(s) {
      acts := [];
    } else {
      StopNextProgress(env, s);
      var r := Do(env, s, StopNext(s)).value;
      InvStep(env, s, StopNext(s), r);
      var more := StopsByStrategy(env, r);
      acts := [StopNext(s)] + more;
      assert Exec(env, s, [StopNext(s)]) == Some(r) by { OneStep(env, s, StopNext(s)); }
      ExecConcat(env, s, [StopNext(s)], more);
    }
  }

  lemma OneStep(env: Env, s: State, a: Act)
    ensures Exec(env, s, [a]) == Do(env, s, a)
  {
    assert [a][..0] == [];
    assert Exec(env, s, []) == Some(s);
  }

  // ---- a session at work can be told to stop ----

  /** A session at work that has a way out. */
  predicate Tellable(env: Env, s: State) {
    Inv(env, s) && !s.fl.tryIniter.On? && !Jammed(s) && !Idle(s)
  }

  /** The handler, as soon as it does not wait for the lock; before that, whoever lets go of the lock. */
  function TellNext(s: State): Act {
    if !s.h.HStatLock? || s.lock.Free? then Handler(Shutdown(false))
    else if CanP(s) && !Held(s) then Producer(Nothing)
    else if ConsumerLocked(s.c) then Consumer
    else Switcher
  }

  function RankH(pc: HPc): nat {
    match pc
    case HStatLock => 6
    case HStatUnlock => 5
    case HUpLoad => 5
    case HReply => 4
    case HIdle => 3
    case HStopLoad(_) => 2
    case HStopTry(_) => 1
    case _ => 0
  }

  function Critical(pc: SPc): nat {
    match pc
    case SSize => 3
    case SRaise => 2
    case SUnlock => 1
    case _ => 0
  }

  predicate TellProgress(s: State, r: State) {
    && !Jammed(r) && !Doomed(r)
    && (RankH(r.h) < RankH(s.h)
        || (r.h == s.h && Critical(r.s) < Critical(s.s))
        || (r.h == s.h && r.s == s.s && RankP(r.p) < RankP(s.p))
        || (r.h == s.h && r.s == s.s && r.p == s.p && Turns(r) < Turns(s)))
  }

  lemma TellHandler(env: Env, s: State)
    requires Tellable(env, s) && (!s.h.HStatLock? || s.lock.Free?)
    ensures var r := Do(env, s, Handler(Shutdown(false))); r.Some? && TellProgress(s, r.value)
  {
    hide LogInv, Turns;
  }

  lemma TellProducer(env: Env, s: State)
    requires Tellable(env, s) && CanP(s) && !Held(s)
    ensures var r := Do(env, s, Producer(Nothing)); r.Some? && TellProgress(s, r.value)
  {
    hide LogInv, Turns, Barren;
    var r := StepP(env, s, Nothing).value;
    ProducerMovesSo(env, s, Nothing, r);
    ProducerRanks(env, s, r);
  }

  lemma TellConsumer(env: Env, s: State)
    requires Tellable(env, s) && !(CanP(s) && !Held(s)) && ConsumerLocked(s.c)
    ensures var r := Do(env, s, Consumer); r.Some? && TellProgress(s, r.value)
  {
    hide LogInv, Turns;
    CanMeansEnabled(env, s, Nothing);
    var r := StepC(env, s).value;
    ConsumerMovesSo(env, s, r);
    TurnsLower(env, s, r);
    LockedPcs(env, s, r);
  }

  lemma TellSwitcher(env: Env, s: State)
    requires Tellable(env, s) && !(CanP(s) && !Held(s)) && s.lock.BySwitcher?
    ensures var r := Do(env, s, Switcher); r.Some? && TellProgress(s, r.value)
  {
    hide LogInv, Turns;
  }

  lemma TellNextProgress(env: Env, s: State)
    requires Tellable(env, s)
    ensures var r := Do(env, s, TellNext(s)); r.Some? && TellProgress(s, r.value)
  {
    hide LogInv, TellProgress, Jammed, Do, AuthInv, SessionInv, HandOver, TryInv;
    if !s.h.HStatLock? || s.lock.Free? {
      TellHandler(env, s);
    } else if CanP(s) && !Held(s) {
      TellProducer(env, s);
    } else if ConsumerLocked(s.c) {
      TellConsumer(env, s);
    } else {
      TellSwitcher(env, s);
    }
  }

  lemma {:induction false} ToldByStrategy(env: Env, s: State) returns (acts: seq<Act>)
    requires env.atomicSpawn && Inv(env, s) && !Jammed(s) && !Doomed(s)
    ensures Exec(env, s, acts).Some?
    ensures var r := Exec(env, s, acts).value;
      Inv(env, r) && (Idle(r) || (r.fl.tryIniter.On? && !Jammed(r) && !Doomed(r)))
    decreases RankH(s.h), Critical(s.s), RankP(s.p), Turns(s)
  {
    hide Inv, Jammed, Doomed, Do, Turns, TellNext;
    if Idle(s) || s.fl.tryIniter.On? {
      acts := [];
    } else {
      TellNextProgress(env, s);
      var r := Do(env, s, TellNext(s)).value;
      InvStep(env, s, TellNext(s), r);
      var more := ToldByStrategy(env, r);
      acts := [TellNext(s)] + more;
      OneStep(env, s, TellNext(s));
      ExecConcat(env, s, [TellNext(s)], more);
    }
  }

  lemma {:induction false} NeverStops(env: Env, s: State, acts: seq<Act>, r: State)
    requires env.atomicSpawn && Ctl(s) && (Jammed(s) || Doomed(s)) && Exec(env, s, acts) == Some(r)
    ensures Ctl(r) && (Jammed(r) || Doomed(r)) && !Idle(r)
  {
    hide Do, Ctl, Barren;
    if acts != [] {
      var n := |acts| - 1;
      var before := Exec(env, s, acts[..n]).value;
      NeverStops(env, s, acts[..n], before);
      CtlStep(env, before, acts[n], r);
      if Jammed(before) { JammedForever(env, before, acts[n], r); } else { DoomedForever(env, before, acts[n], r); }
    }
  }

  /**
    In every reachable state, with or without a login: some schedule brings all workers out unless the
    producer is jammed, or the consumer parked with the switcher past its forced raise; and then none
    does, whatever else happens.
  */
  lemma CanStopExactly(env: Env, s: State)
    requires env.atomicSpawn && Reachable(env, s)
    ensures CanStop(env, s) <==> !Jammed(s) && !Doomed(s)
  {
    hide Inv, Jammed, Doomed, Reachable, Exec;
    InvReachable(env, s);
    CtlReachable(env, s);
    if !Jammed(s) && !Doomed(s) {
      var told := ToldByStrategy(env, s);
      var r := Exec(env, s, told).value;
      if !Idle(r) {
        var acts := StopsByStrategy(env, r);
        ExecConcat(env, s, told, acts);
      }
    } else if CanStop(env, s) {
      var acts :| Exec(env, s, acts).Some? && Idle(Exec(env, s, acts).value);
      NeverStops(env, s, acts, Exec(env, s, acts).value);
    }
  }

  // ---- a session at work can fetch again ----

  ghost predicate CanFetch(env: Env, s: State) {
    exists acts :: Exec(env, s, acts).Some? && Exec(env, s, acts).value.p.PFetch?
  }

  /** The producer is alive and not told to leave. */
  predicate AtFetching(s: State) { !s.p.PDone? && !s.fl.tryProducer.On? }

  predicate Fetchable(env: Env, s: State) {
    Inv(env, s) && AtFetching(s) && !s.p.PFetch? && !Barren(s) && !AboutToJam(s)
  }

  /** With the flag up the consumer first lowers it; with the flag down the producer goes on. */
  function FetchNext(s: State): Act {
    if TurnsValid(s) || s.lock.ByProducer? then Producer(Nothing)
    else if s.lock.BySwitcher? && (s.doCsm.On? || s.p.PLock?) then Switcher
    else if s.lock.ByHandler? && (s.doCsm.On? || s.p.PLock?) then Handler(Ignore)
    else if !s.doCsm.On? then Producer(Nothing)
    else if s.c.CDone? then Initer
    else Consumer
  }

  /** Steps of the producer before it fetches. */
  function ToFetch(pc: PPc): nat {
    match pc
    case PFetch => 0
    case PAwait => 1
    case _ => RankP(pc)
  }

  predicate FetchProgress(s: State, r: State) {
    && AtFetching(r) && (r.p.PFetch? || (!Barren(r) && !AboutToJam(r)))
    && (Critical(r.s) < Critical(s.s)
        || (r.s == s.s && RankH(r.h) < RankH(s.h))
        || (r.s == s.s && r.h == s.h && Flag(r.c.CDone?) < Flag(s.c.CDone?))
        || (r.s == s.s && r.h == s.h && r.c.CDone? == s.c.CDone? && ToFetch(r.p) < ToFetch(s.p))
        || (r.s == s.s && r.h == s.h && r.c.CDone? == s.c.CDone? && r.p == s.p && Turns(r) < Turns(s)))
  }

  lemma FetchRanks(env: Env, s: State, r: State)
    requires AtFetching(s) && !s.p.PFetch? && !s.p.PSucc? && StepP(env, s, Nothing) == Some(r)
    ensures ToFetch(r.p) < ToFetch(s.p) && r.s == s.s && r.h == s.h && r.c == s.c && r.doCsm == s.doCsm && AtFetching(r)
    ensures !r.p.PLock? && (r.p.PFetch? ==> !s.doCsm.On?)
  {
    match s.p
    case PDone =>
    case PLoop =>
    case PAwait =>
    case PFetch =>
    case PLock(_) =>
    case PInsert(_) =>
    case PTotal =>
    case PUnlock =>
    case PCommand(_) =>
    case PReply =>
    case PCall(_, _) =>
    case PForget(_) =>
    case PErase(_) =>
    case PCount =>
    case PSucc =>
  }

  /** The flag is down: nothing the producer does can jam it. */
  lemma FetchDown(env: Env, s: State)
    requires Fetchable(env, s) && !s.doCsm.On? && CanP(s)
    ensures var r := Do(env, s, Producer(Nothing)); r.Some? && FetchProgress(s, r.value)
  {
    hide LogInv, Turns, ToFetch, StepP;
    CanMeansEnabled(env, s, Nothing);
    FetchRanks(env, s, StepP(env, s, Nothing).value);
  }

  /** The flag is up, and the producer is about to store a chat id, or holds the lock. */
  lemma FetchUp(env: Env, s: State)
    requires Fetchable(env, s) && s.doCsm.On? && (TurnsValid(s) || s.lock.ByProducer?)
    ensures var r := Do(env, s, Producer(Nothing)); r.Some? && FetchProgress(s, r.value)
  {
    hide LogInv, Turns, ToFetch;
    CanMeansEnabled(env, s, Nothing);
    FetchRanks(env, s, StepP(env, s, Nothing).value);
  }

  lemma FetchSwitcher(env: Env, s: State)
    requires Fetchable(env, s) && !TurnsValid(s) && s.lock.BySwitcher? && (s.doCsm.On? || s.p.PLock?)
    ensures var r := Do(env, s, Switcher); r.Some? && FetchProgress(s, r.value)
  {
    hide LogInv, Turns, ToFetch;
  }

  lemma FetchHandler(env: Env, s: State)
    requires Fetchable(env, s) && s.lock.ByHandler?
    ensures var r := Do(env, s, Handler(Ignore)); r.Some? && FetchProgress(s, r.value)
  {
    hide LogInv, Turns, ToFetch;
  }

  lemma FetchIniter(env: Env, s: State)
    requires Fetchable(env, s) && s.doCsm.On? && s.c.CDone?
    ensures var r := Do(env, s, Initer); r.Some? && FetchProgress(s, r.value)
  {
    hide LogInv, Turns, ToFetch;
  }

  lemma FetchConsumer(env: Env, s: State)
    requires Fetchable(env, s) && s.doCsm.On? && !TurnsValid(s) && (s.lock.Free? || s.lock.ByConsumer?) && !s.c.CDone?
    ensures var r := Do(env, s, Consumer); r.Some? && FetchProgress(s, r.value)
  {
    hide LogInv, Turns, ToFetch;
    CanMeansEnabled(env, s, Nothing);
    var r := StepC(env, s).value;
    ConsumerMovesSo(env, s, r);
    TurnsLower(env, s, r);
    ConsumerKeepsWay(env, s, r);
  }

  lemma FetchNextProgress(env: Env, s: State)
    requires Fetchable(env, s)
    ensures var r := Do(env, s, FetchNext(s)); r.Some? && FetchProgress(s, r.value)
  {
    hide LogInv, FetchProgress, Barren, AboutToJam, Do, AuthInv, SessionInv, WorkerInv, TryInv;
    if TurnsValid(s) || s.lock.ByProducer? {
      if s.doCsm.On? { FetchUp(env, s); } else { FetchDown(env, s); }
    } else if s.lock.BySwitcher? && (s.doCsm.On? || s.p.PLock?) {
      FetchSwitcher(env, s);
    } else if s.lock.ByHandler? && (s.doCsm.On? || s.p.PLock?) {
      FetchHandler(env, s);
    } else if !s.doCsm.On? {
      FetchDown(env, s);
    } else if s.c.CDone? {
      FetchIniter(env, s);
    } else {
      FetchConsumer(env, s);
    }
  }

  lemma {:induction false} FetchesByStrategy(env: Env, s: State) returns (acts: seq<Act>)
    requires env.atomicSpawn && Inv(env, s) && AtFetching(s) && (s.p.PFetch? || (!Barren(s) && !AboutToJam(s)))
    ensures Exec(env, s, acts).Some? && Exec(env, s, acts).value.p.PFetch?
    decreases Critical(s.s), RankH(s.h), Flag(s.c.CDone?), ToFetch(s.p), Turns(s)
  {
    hide Inv, Barren, AboutToJam, Do, Turns, FetchNext;
    if s.p.PFetch? {
      acts := [];
    } else {
      FetchNextProgress(env, s);
      var r := Do(env, s, FetchNext(s)).value;
      InvStep(env, s, FetchNext(s), r);
      var more := FetchesByStrategy(env, r);
      acts := [FetchNext(s)] + more;
      OneStep(env, s, FetchNext(s));
      ExecConcat(env, s, [FetchNext(s)], more);
    }
  }

  lemma {:induction false} NeverFetches(env: Env, s: State, acts: seq<Act>, r: State)
    requires env.atomicSpawn && Ctl(s) && (Barren(s) || AboutToJam(s)) && Exec(env, s, acts) == Some(r)
    ensures Ctl(r) && (Barren(r) || AboutToJam(r)) && !r.p.PFetch?
  {
    hide Do, Ctl, NoWayDown;
    if acts != [] {
      var n := |acts| - 1;
      var before := Exec(env, s, acts[..n]).value;
      NeverFetches(env, s, acts[..n], before);
      CtlStep(env, before, acts[n], r);
      if Barren(before) { BarrenForever(env, before, acts[n], r); } else { AboutToJamStays(env, before, acts[n], r); }
    }
  }

  /**
    A session at work: some schedule brings its producer to fetch updates again, unless the flag is up,
    or about to be raised by a switcher the producer waits for, with nobody left to lower it; and then
    no session ever fetches again, over any number of restarts.
  */
  lemma CanFetchExactly(env: Env, s: State)
    requires env.atomicSpawn && Reachable(env, s) && AtFetching(s)
    ensures CanFetch(env, s) <==> s.p.PFetch? || (!Barren(s) && !AboutToJam(s))
  {
    hide Inv, Barren, AboutToJam, Reachable, Exec;
    InvReachable(env, s);
    CtlReachable(env, s);
    if s.p.PFetch? || (!Barren(s) && !AboutToJam(s)) {
      var acts := FetchesByStrategy(env, s);
    } else if CanFetch(env, s) {
      var acts :| Exec(env, s, acts).Some? && Exec(env, s, acts).value.p.PFetch?;
      NeverFetches(env, s, acts, Exec(env, s, acts).value);
    }
  }
}
