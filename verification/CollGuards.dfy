/**
  When the threads begin what they do, in every run: what has been looked at before a batch is opened,
  a chat asked for, the flag raised or a session brought up, and what a shutdown without a session does.
*/
module CollGuards {
  import opened Prelude
  import opened TdRequests
  import opened Collector
  import opened CollControl
  import opened CollLog
  import opened CollStop
  import opened CollJam
  import opened CollRuns

  // ---- the switcher raises the flag only when it is down and something waits ----

  /** From its look at the flag to the raise the switcher finds it down; about to raise it, it has seen a message. */
  predicate RaiseInv(s: State) {
    && (s.s.SLock? || s.s.SSize? || s.s.SRaise? ==> !s.doCsm.On?)
    && (s.s.SRaise? ==> s.mq != [])
  }

  lemma RaiseSwitcher(s: State, r: State)
    requires RaiseInv(s) && StepS(s) == Some(r)
    ensures RaiseInv(r)
  {
    match s.s
    case SDone =>
    case SLoop =>
    case SPause =>
    case SFlag =>
    case SLock =>
    case SSize =>
    case SRaise =>
    case SUnlock =>
    case SCount =>
    case SStopP =>
    case SWaitP =>
    case SForce =>
    case SStopC =>
    case SWaitC =>
    case SSucc =>
  }

  lemma QueueLeft(env: Env, s: State, r: State)
    requires Ctl(s) && StepC(env, s) == Some(r) && s.lock.BySwitcher?
    ensures r.mq == s.mq
  {}

  lemma ProducerQueue(env: Env, s: State, got: Fetched, r: State)
    requires StepP(env, s, got) == Some(r)
    ensures s.mq != [] ==> r.mq != []
  {
    match s.p
    case PDone =>
    case PLoop =>
    case PAwait =>
    case PFetch =>
    case PLock(_) =>
    case PInsert(_) =>
    case PTotal =>
    case PUnlock =>
    case PCommand(_) =>
    case PReply =>
    case PCall(_, _) =>
    case PForget(_) =>
    case PErase(_) =>
    case PCount =>
    case PSucc =>
  }

  lemma RaiseStep(env: Env, s: State, a: Act, r: State)
    requires Ctl(s) && RaiseInv(s) && Do(env, s, a) == Some(r)
    ensures RaiseInv(r)
  {
    hide StepP, StepC, StepS;
    match a
    case Producer(got) => ProducerMovesSo(env, s, got, r); ProducerQueue(env, s, got, r);
    case Consumer => ConsumerMovesSo(env, s, r); if s.s.SRaise? { QueueLeft(env, s, r); }
    case Switcher => RaiseSwitcher(s, r);
    case Initer =>
    case Handler(cmd) => HandlerParks(env, s, cmd, r);
    case Hint(_) =>
  }

  lemma {:induction false} RaiseExec(env: Env, s: State, acts: seq<Act>, r: State)
    requires env.atomicSpawn && Ctl(s) && RaiseInv(s) && Exec(env, s, acts) == Some(r)
    ensures RaiseInv(r)
  {
    hide Do, Ctl, RaiseInv;
    if acts != [] {
      var n := |acts| - 1;
      var before := Exec(env, s, acts[..n]).value;
      RaiseExec(env, s, acts[..n], before);
      CtlExec(env, s, acts[..n], before);
      RaiseStep(env, before, acts[n], r);
    }
  }

  /** In every reachable state a switcher in its loop that is about to raise the flag holds the lock, the flag is down and a message waits. */
  lemma RaisedForSomething(env: Env, s: State)
    requires env.atomicSpawn && Reachable(env, s) && s.s.SRaise?
    ensures s.lock.BySwitcher? && !s.doCsm.On? && s.mq != []
  {
    hide Exec, Ctl;
    var hint, filters, tgfid, acts :| Exec(env, Init(hint, filters, tgfid), acts) == Some(s);
    CtlInit(hint, filters, tgfid);
    RaiseExec(env, Init(hint, filters, tgfid), acts, s);
    CtlExec(env, Init(hint, filters, tgfid), acts, s);
    RaiserLocks(s);
  }

  lemma RaiserLocks(s: State)
    requires Ctl(s) && s.s.SRaise?
    ensures s.lock.BySwitcher?
  {}

  // ---- what the consumer has looked at ----

  predicate Batching(c: CPc) { c.CIter? || c.CDecide? || c.CCollect? || c.CClear? }

  lemma BatchOpens(env: Env, s: State, r: State)
    requires Ctl(s) && StepC(env, s) == Some(r)
    ensures !Batching(s.c) && Batching(r.c) ==> s.c.CSize? && s.lock.ByConsumer? && s.mq != [] && s.td.tgfid != -1 && r.c == CIter(0)
    ensures s.c.CSize? && !Batching(r.c) ==> (s.mq == [] || s.td.tgfid == -1) && r.mq == s.mq && r.log == s.log && r.td == s.td
    ensures !s.c.CDecide? && r.c.CDecide? ==> !s.fl.tryConsumer.On?
  {
    hide Decide, Collect;
    match s.c
    case CDecide(_) => StaysBatching(env, s, r);
    case CCollect(_, _) => StaysBatching(env, s, r);
    case CDone =>
    case CLoop =>
    case CAwait =>
    case CValid =>
    case CTried(_) =>
    case CChkAuth =>
    case CChkValid =>
    case CChkTried =>
    case CSetTried =>
    case CCreate =>
    case CLock =>
    case CSize =>
    case CIter(_) =>
    case CClear(_) =>
    case CUnlock =>
    case CCount =>
    case CLower =>
    case CSucc =>
  }

  lemma StaysBatching(env: Env, s: State, r: State)
    requires (s.c.CDecide? || s.c.CCollect?) && StepC(env, s) == Some(r)
    ensures Batching(r.c) && (s.c.CCollect? ==> !r.c.CDecide?)
  {}

  lemma AskingStarts(env: Env, s: State, r: State)
    requires Ctl(s) && AuthInv(s) && StepC(env, s) == Some(r)
    ensures r.c.CChkTried? ==> s.td.isAuth.On? && s.td.tgfid == -1
    ensures r.c.CCreate? ==> s.td.isAuth.On? && !s.td.tried.On? && r.td.tried.On?
    ensures r.td.tried != s.td.tried ==> s.c.CSetTried? && r.c.CCreate?
  {
    hide Decide, Collect;
    match s.c
    case CDecide(_) => DecideAsks(env, s, r);
    case CCollect(_, _) => DecideAsks(env, s, r);
    case CDone =>
    case CLoop =>
    case CAwait =>
    case CValid =>
    case CTried(_) =>
    case CChkAuth =>
    case CChkValid =>
    case CChkTried =>
    case CSetTried =>
    case CCreate =>
    case CLock =>
    case CSize =>
    case CIter(_) =>
    case CClear(_) =>
    case CUnlock =>
    case CCount =>
    case CLower =>
    case CSucc =>
  }

  lemma DecideAsks(env: Env, s: State, r: State)
    requires (s.c.CDecide? || s.c.CCollect?) && StepC(env, s) == Some(r)
    ensures r.td.tried == s.td.tried && !r.c.CChkTried? && !r.c.CCreate?
  {}

  lemma DecidesNow(env: Env, s: State, r: State)
    requires s.c.CDecide? && s.c.it < |s.mq| && StepC(env, s) == Some(r)
    ensures r.filters == s.filters && r.mq == s.mq
    ensures r.c == CCollect(s.c.it, s.filters) || (r.log.cur != [] && r.log.cur[|r.log.cur| - 1].under == s.filters && r.c == CIter(s.c.it + 1))
  {}

  lemma SentAsDecided(s: State, it: nat, under: string)
    requires it < |s.mq|
    ensures var r := Collect(s, it, under); r.log.cur != [] && r.log.cur[|r.log.cur| - 1].under == under && r.log.cur[|r.log.cur| - 1].msg == s.mq[it]
  {}

  /**
    In every run: a batch is opened only under the lock, with messages in the queue and a chat to write
    to, and without these the queue is left as it is; a message of it is looked at only while the
    consumer has not been told to leave, and decided under the filters stored at that moment; and a chat is asked for only after a login, with no chat stored
    and none asked for.
  */
  lemma WhatTheConsumerChecked(env: Env, s: State, a: Act, r: State)
    requires env.atomicSpawn && Reachable(env, s) && Do(env, s, a) == Some(r)
    ensures !Batching(s.c) && Batching(r.c) ==>
      a.Consumer? && s.lock.ByConsumer? && s.mq != [] && s.td.tgfid != -1 && r.c == CIter(0)
    ensures a.Consumer? && s.c.CSize? && !Batching(r.c) ==> (s.mq == [] || s.td.tgfid == -1) && r.mq == s.mq && r.log == s.log
    ensures !s.c.CDecide? && r.c.CDecide? ==> !s.fl.tryConsumer.On?
    ensures a.Consumer? && s.c.CDecide? ==> r.c == CCollect(s.c.it, s.filters) || (r.log.cur != [] && r.log.cur[|r.log.cur| - 1].under == s.filters)
    ensures a.Consumer? && s.c.CCollect? ==> r.log.cur != [] && r.log.cur[|r.log.cur| - 1].under == s.c.under
    ensures !s.c.CChkTried? && r.c.CChkTried? ==> s.td.isAuth.On? && s.td.tgfid == -1
    ensures !s.c.CCreate? && r.c.CCreate? ==> s.td.isAuth.On? && !s.td.tried.On? && r.td.tried.On?
    ensures !s.td.tried.On? && r.td.tried.On? ==> a.Consumer? && r.c.CCreate?
  {
    hide Ctl, AuthInv, StepC, Reachable, InBatch, LogInv, Inv;
    InvReachable(env, s);
    InvHolds(env, s);
    if a.Consumer? {
      BatchOpens(env, s, r);
      AskingStarts(env, s, r);
      UnderWhat(env, s, r);
    } else {
      OthersKeepPc(env, s, a, r);
      OthersLeaveTried(env, s, a, r);
    }
  }

  lemma InvHolds(env: Env, s: State)
    requires Inv(env, s)
    ensures Ctl(s) && AuthInv(s) && InBatch(s)
  {
    CursorInside(env, s);
  }

  lemma UnderWhat(env: Env, s: State, r: State)
    requires InBatch(s) && StepC(env, s) == Some(r)
    ensures s.c.CDecide? ==> r.c == CCollect(s.c.it, s.filters) || (r.log.cur != [] && r.log.cur[|r.log.cur| - 1].under == s.filters)
    ensures s.c.CCollect? ==> r.log.cur != [] && r.log.cur[|r.log.cur| - 1].under == s.c.under
  {
    hide Collect, Decide;
    if s.c.CDecide? {
      DecidesNow(env, s, r);
    } else if s.c.CCollect? {
      SentAsDecided(s, s.c.it, s.c.under);
    }
  }

  lemma OthersLeaveTried(env: Env, s: State, a: Act, r: State)
    requires !a.Consumer? && Do(env, s, a) == Some(r)
    ensures r.td.tried.On? ==> s.td.tried.On?
  {
    hide StepP, StepH;
    match a
    case Producer(got) => ProducerMovesSo(env, s, got, r);
    case Switcher =>
    case Initer =>
    case Handler(cmd) => HandlerParks(env, s, cmd, r);
    case Hint(_) =>
  }

  /** TDLib's answer to a message sent, that its chat does not exist, is about to be taken in. */
  predicate ChatFoundGone(s: State) {
    s.p.PCall? && s.p.id in s.td.req.cb && s.td.req.cb[s.p.id] == OnCollect && s.p.obj == ObjNoChat
  }

  lemma ProducerTries(env: Env, s: State, got: Fetched, r: State)
    requires StepP(env, s, got) == Some(r)
    ensures r.td.tried == if ChatFoundGone(s) then Off else s.td.tried
  {
    match s.p
    case PDone =>
    case PLoop =>
    case PAwait =>
    case PFetch =>
    case PLock(_) =>
    case PInsert(_) =>
    case PTotal =>
    case PUnlock =>
    case PCommand(_) =>
    case PReply =>
    case PCall(_, _) =>
    case PForget(_) =>
    case PErase(_) =>
    case PCount =>
    case PSucc =>
  }

  lemma OthersKeepTried(env: Env, s: State, a: Act, r: State)
    requires !a.Consumer? && !a.Producer? && Do(env, s, a) == Some(r)
    ensures r.td.tried == s.td.tried
  {
    hide StepH;
    match a
    case Switcher =>
    case Initer =>
    case Handler(cmd) => HandlerParks(env, s, cmd, r);
    case Hint(_) =>
  }

  /** That a chat has been asked for is noted right before the request, and forgotten exactly when the chat is found gone. */
  lemma TriedChanges(env: Env, s: State, a: Act, r: State)
    requires env.atomicSpawn && Reachable(env, s) && Do(env, s, a) == Some(r)
    ensures r.td.tried ==
      if a.Producer? && ChatFoundGone(s) then Off
      else if a.Consumer? && !s.c.CCreate? && r.c.CCreate? then On
      else s.td.tried
  {
    hide Ctl, LogInv, AuthInv, StepC, StepP, Reachable, ChatFoundGone;
    InvReachable(env, s);
    InvHolds(env, s);
    match a
    case Producer(got) => ProducerTries(env, s, got, r);
    case Consumer => AskingStarts(env, s, r);
    case _ => OthersKeepTried(env, s, a, r);
  }

  /** At start-up nothing is set, nobody runs and nothing waits. */
  lemma StartsClear(env: Env, hint: Bit, filters: string, tgfid: int)
    ensures var s := Init(hint, filters, tgfid);
      && Idle(s) && s.i.IGone? && s.h.HIdle? && s.lock.Free? && s.mq == [] && s.total == 0
      && AllStopFlagsClear(s.fl) && !s.fl.tryIniter.On? && !s.fl.initerSucc.On? && !s.fl.initerUp.On?
      && !s.doCsm.On? && !s.pause.On? && !s.td.isAuth.On? && !s.td.tried.On? && s.td.req == Requests(0, map[])
      && s.hint == hint && s.filters == filters && s.td.tgfid == tgfid
    ensures Reachable(env, Init(hint, filters, tgfid))
  {
    assert Exec(env, Init(hint, filters, tgfid), []) == Some(Init(hint, filters, tgfid));
  }

  // ---- bringing a session up, and not having one ----

  /** The initer gives up waiting for the login process only when it has left its hint or a shutdown came, and starts nothing without the hint. */
  lemma SessionNeedsHint(s: State, r: State)
    requires StepI(s) == Some(r)
    ensures !s.i.IAuth? && r.i.IAuth? ==> (s.i.IHint? && s.hint.On?) || (s.i.ITry? && s.fl.tryIniter.On?)
    ensures r.i.IInit? ==> s.i.IAuth? && s.hint.On?
    ensures s.i.IAuth? ==> if s.hint.On? then r.i.IInit? else r.i.ISucc?
    ensures (s.i.IHint? && !s.hint.On?) ==> r == s.(i := ITry)
    ensures (s.i.ITry? && !s.fl.tryIniter.On?) ==> r == s.(i := IHint)
  {}

  /** An initer comes up through UpColl alone, after its resets, and the first it does is to look for the hint. */
  lemma IniterBegins(env: Env, s: State, a: Act, r: State)
    requires s.i.IGone? && !r.i.IGone? && Do(env, s, a) == Some(r)
    ensures a.Handler? && s.h.HSpawn? && r == s.(i := r.i, h := HReply, fl := r.fl)
    ensures r.i == (if env.atomicSpawn then IHint else IStart)
    ensures r.fl == (if env.atomicSpawn then s.fl.(initerUp := On) else s.fl)
  {
    hide StepP, StepC, StepS, StepI;
    match a
    case Producer(got) => ProducerMovesIniter(env, s, got, r);
    case Consumer => ConsumerMovesIniter(env, s, r);
    case Switcher => SwitcherMovesIniter(s, r);
    case Initer => GoneStays(s);
    case Handler(_) =>
    case Hint(_) =>
  }

  lemma ProducerMovesIniter(env: Env, s: State, got: Fetched, r: State)
    requires StepP(env, s, got) == Some(r)
    ensures r.i == s.i
  {
    hide StepP;
    ProducerMovesSo(env, s, got, r);
  }

  lemma ConsumerMovesIniter(env: Env, s: State, r: State)
    requires StepC(env, s) == Some(r)
    ensures r.i == s.i
  {}

  lemma SwitcherMovesIniter(s: State, r: State)
    requires StepS(s) == Some(r)
    ensures r.i == s.i
  {}

  lemma GoneStays(s: State)
    requires s.i.IGone?
    ensures StepI(s) == None
  {}

  /** A shutdown with no session up is answered at once, and the one of the whole server leaves the success flag set. */
  lemma NothingToShutDown(env: Env, s: State, srv: bool) returns (acts: seq<Act>, r: State)
    requires s.h.HIdle? && !s.fl.initerUp.On?
    ensures Exec(env, s, acts) == Some(r) && forall a | a in acts :: a.Handler?
    ensures r == s.(fl := if srv then s.fl.(initerSucc := On) else s.fl)
    ensures |acts| == if srv then 5 else 3
  {
    hide StepP, StepC, StepS, StepI;
    acts, r := [], s;
    acts, r := Then(env, s, acts, r, Handler(Shutdown(srv)));
    assert r == s.(h := HStopLoad(srv));
    acts, r := Then(env, s, acts, r, Handler(Ignore));
    if srv {
      assert r == s.(h := HStopSelf);
      acts, r := Then(env, s, acts, r, Handler(Ignore));
      assert r == s.(h := HStopWait(true), fl := s.fl.(initerSucc := On));
      acts, r := Then(env, s, acts, r, Handler(Ignore));
    }
    assert r.h == HStopReply(srv);
    acts, r := Then(env, s, acts, r, Handler(Ignore));
  }

  /** Status reports and commands that are ignored change nothing, whatever else goes on; the report takes the queue's lock in between. */
  lemma OthersChangeNothing(env: Env, s: State, cmd: Command) returns (acts: seq<Act>, r: State)
    requires s.h.HIdle? && s.lock.Free? && (cmd == ReportStatus || cmd == Ignore)
    ensures Exec(env, s, acts) == Some(r) && r == s && |acts| == if cmd == Ignore then 2 else 4
    ensures cmd == ReportStatus ==> exists k | 0 <= k <= 4 :: Exec(env, s, acts[..k]) == Some(s.(h := HStatUnlock, lock := ByHandler))
  {
    hide StepP, StepC, StepS, StepI;
    acts, r := [], s;
    acts, r := Then(env, s, acts, r, Handler(cmd));
    if cmd == ReportStatus {
      assert r == s.(h := HStatLock);
      acts, r := Then(env, s, acts, r, Handler(cmd));
      var two := acts;
      assert r == s.(h := HStatUnlock, lock := ByHandler);
      acts, r := Then(env, s, acts, r, Handler(cmd));
      assert r == s.(h := HReply);
      acts, r := Then(env, s, acts, r, Handler(cmd));
      assert acts[..2] == two;
    } else {
      assert r == s.(h := HReply);
      acts, r := Then(env, s, acts, r, Handler(cmd));
    }
  }
}
