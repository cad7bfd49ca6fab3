/**
  The requests the collector sends: every id is new, every callback runs at most once and only for
  its own id, confirmations never outnumber the messages sent, and chats are not created twice.
*/
module CollRequests {
  import opened Prelude
  import opened TdRequests
  import opened Collector
  import opened CollControl
  import opened CollStop

  /** The ids the program has given out, as long as its 64-bit counter has not gone around. */
  predicate GivenOut(s: State, id: nat) { 1 <= id <= s.log.queries }

  predicate IdInv(s: State) {
    s.td.req.curr == s.log.queries % U64
  }

  /** The producer is between running the callback of `id` and erasing it. */
  predicate Finishing(pc: PPc, id: nat) { pc == PForget(id) || pc == PErase(id) }

  predicate TableInv(s: State) {
    && (forall id | id in s.td.req.cb :: GivenOut(s, id))
    && (forall id | id in s.log.ran :: GivenOut(s, id) && s.log.ran[id] == 1)
    && (forall id | id in s.log.ran && id in s.td.req.cb :: Finishing(s.p, id))
    && (s.p.PCall? ==> s.p.id in s.td.req.cb && s.p.id !in s.log.ran)
    && (s.p.PForget? || s.p.PErase? ==> s.p.id in s.log.ran)
  }

  predicate AckInv(s: State) {
    && (forall id | id in s.log.collectIds :: GivenOut(s, id))
    && |s.log.collectIds| == s.log.collects
    && (forall id | id in s.td.req.cb && s.td.req.cb[id] == OnCollect :: id in s.log.collectIds)
    && s.log.acked <= s.log.collectIds
    && (forall id | id in s.log.acked :: id in s.log.ran)
    && s.td.msgColl == |s.log.acked| % U32
  }

  predicate CreateInv(s: State) {
    s.log.creates + Flag(s.c.CCreate?) + Flag(!s.td.tried.On?) <= 1 + s.log.resets
  }

  /** The table part is claimed until the query counter wraps. */
  predicate ReqInv(s: State) {
    IdInv(s) && CreateInv(s) && (s.log.queries < U64 ==> TableInv(s) && AckInv(s))
  }

  lemma ReqInit(hint: Bit, filters: string, tgfid: int)
    ensures ReqInv(Init(hint, filters, tgfid))
  {}

  // ---- steps ----

  /** No request sent, no callback run, no answer counted. */
  predicate SameRequests(s: State, r: State) {
    && r.td.req == s.td.req && r.td.msgColl == s.td.msgColl && r.log.queries == s.log.queries
    && r.log.ran == s.log.ran && r.log.acked == s.log.acked && r.log.collectIds == s.log.collectIds
    && r.log.collects == s.log.collects
  }

  lemma NextIdFollows(n: nat)
    ensures NextId(n % U64) == (n + 1) % U64
    ensures n + 1 < U64 ==> NextId(n % U64) == n + 1
  {}

  lemma SentKeeps(s: State, cbfn: Option<Callback>, r: State)
    requires ReqInv(s) && cbfn != Some(OnCollect)
    requires r == SendQuery(s, cbfn).(p := r.p, c := r.c, i := r.i, log := r.log)
    requires r.log.queries == s.log.queries + 1 && r.log.ran == s.log.ran && r.log.acked == s.log.acked
    requires r.log.collectIds == s.log.collectIds && r.log.collects == s.log.collects
    requires r.p == s.p || ((s.p.PFetch? || s.p.PReply?) && r.p.PCount?)
    requires CreateInv(r)
    ensures ReqInv(r)
  {
    NextIdFollows(s.log.queries);
  }

  /** What collect_msg does to the table and the history. */
  lemma CollectedLog(s: State, it: nat, under: string)
    requires s.c == CCollect(it, under) && it < |s.mq|
    ensures var r := Collect(s, it, under); var id := NextId(s.td.req.curr);
      && r.td == s.td.(req := Requests(id, if id in s.td.req.cb then s.td.req.cb else s.td.req.cb[id := OnCollect]))
      && r.log.queries == s.log.queries + 1 && r.log.ran == s.log.ran && r.log.acked == s.log.acked
      && r.log.collectIds == s.log.collectIds + {id} && r.log.collects == s.log.collects + 1
      && r.log.creates == s.log.creates && r.log.resets == s.log.resets && r.p == s.p && !r.c.CCreate?
  {}

  lemma CollectedCreates(s: State, it: nat, under: string)
    requires IdInv(s) && CreateInv(s) && s.c == CCollect(it, under) && it < |s.mq|
    ensures IdInv(Collect(s, it, under)) && CreateInv(Collect(s, it, under))
  {
    hide Collect;
    CollectedLog(s, it, under);
    NextIdFollows(s.log.queries);
  }

  lemma CollectedTable(s: State, it: nat, under: string)
    requires IdInv(s) && TableInv(s) && s.log.queries + 1 < U64 && s.c == CCollect(it, under) && it < |s.mq|
    ensures TableInv(Collect(s, it, under))
  {
    hide Collect;
    CollectedLog(s, it, under);
    NextIdFollows(s.log.queries);
  }

  lemma CollectedAcks(s: State, it: nat, under: string)
    requires IdInv(s) && TableInv(s) && AckInv(s) && s.log.queries + 1 < U64 && s.c == CCollect(it, under) && it < |s.mq|
    ensures AckInv(Collect(s, it, under))
  {
    hide Collect;
    CollectedLog(s, it, under);
    NextIdFollows(s.log.queries);
  }

  lemma CollectedKeeps(s: State, it: nat, under: string)
    requires ReqInv(s) && s.c == CCollect(it, under) && it < |s.mq|
    ensures ReqInv(Collect(s, it, under))
  {
    hide Collect, TableInv, AckInv;
    CollectedLog(s, it, under);
    CollectedCreates(s, it, under);
    if s.log.queries + 1 < U64 {
      CollectedTable(s, it, under);
      CollectedAcks(s, it, under);
    }
  }

  lemma CalledTable(s: State, id: nat, obj: Obj)
    requires TableInv(s) && s.p == PCall(id, obj)
    ensures TableInv(Call(s, id, obj))
  {}

  lemma CalledLog(s: State, id: nat, obj: Obj)
    requires id in s.td.req.cb
    ensures var r := Call(s, id, obj);
      && r.td.req == s.td.req && r.log.queries == s.log.queries && r.log.collectIds == s.log.collectIds
      && r.log.collects == s.log.collects && r.log.ran == s.log.ran + multiset{id}
      && (if s.td.req.cb[id] == OnCollect && obj == ObjMessage
          then r.td.msgColl == (s.td.msgColl + 1) % U32 && r.log.acked == s.log.acked + {id}
          else r.td.msgColl == s.td.msgColl && r.log.acked == s.log.acked)
  {}

  lemma CalledAcks(s: State, id: nat, obj: Obj)
    requires TableInv(s) && AckInv(s) && s.p == PCall(id, obj)
    ensures AckInv(Call(s, id, obj))
  {
    hide Call;
    CalledLog(s, id, obj);
    AckCounts(s.log.acked, id);
  }

  lemma CalledCreates(s: State, id: nat, obj: Obj)
    requires IdInv(s) && CreateInv(s)
    ensures IdInv(Call(s, id, obj)) && CreateInv(Call(s, id, obj)) && Call(s, id, obj).log.queries == s.log.queries
  {}

  lemma AckCounts(acked: set<nat>, id: nat)
    ensures id !in acked ==> (|acked| % U32 + 1) % U32 == |acked + {id}| % U32
  {}

  lemma ErasedKeeps(s: State, id: nat, r: State)
    requires ReqInv(s) && s.p == PErase(id)
    requires r == s.(td := s.td.(req := Forget(s.td.req, id)), p := PCount)
    ensures ReqInv(r)
  {}

  lemma ReceiveKeeps(s: State, got: Fetched)
    requires ReqInv(s) && s.p.PFetch?
    ensures ReqInv(Receive(s, got))
  {
    match got
    case AuthParameters => SentKeeps(s, Some(OnAuth), Receive(s, got));
    case _ => PlainKeeps(s, Receive(s, got));
  }

  /** A step that sends nothing and runs no callback. */
  predicate Plain(s: State, r: State) {
    && SameRequests(s, r) && CreateInv(r)
    && (r.p == s.p || (!s.p.PCall? && !s.p.PErase? && !s.p.PForget? && !r.p.PErase? && !r.p.PForget? && (r.p.PCall? ==> r.p.id in s.td.req.cb)))
  }

  lemma PlainKeeps(s: State, r: State)
    requires ReqInv(s) && Plain(s, r)
    ensures ReqInv(r)
  {}

  lemma ReqProducer(env: Env, s: State, got: Fetched, r: State)
    requires ReqInv(s) && StepP(env, s, got) == Some(r)
    ensures ReqInv(r)
  {
    match s.p
    case PFetch => ReceiveKeeps(s, got);
    case PCall(id, obj) => CalledTableOr(s, id, obj);
    case PReply => SentKeeps(s, Some(OnReply), r);
    case PErase(id) => ErasedKeeps(s, id, r);
    case PForget(id) =>
    case _ => PlainProducer(env, s, got, r); PlainKeeps(s, r);
  }

  lemma CalledTableOr(s: State, id: nat, obj: Obj)
    requires ReqInv(s) && s.p == PCall(id, obj)
    ensures ReqInv(Call(s, id, obj))
  {
    CalledCreates(s, id, obj);
    if s.log.queries < U64 {
      CalledTable(s, id, obj);
      CalledAcks(s, id, obj);
    }
  }

  lemma PlainProducer(env: Env, s: State, got: Fetched, r: State)
    requires ReqInv(s) && StepP(env, s, got) == Some(r)
    requires !s.p.PFetch? && !s.p.PCall? && !s.p.PReply? && !s.p.PErase? && !s.p.PForget?
    ensures Plain(s, r)
  {}

  lemma ReqConsumer(env: Env, s: State, r: State)
    requires TryInv(s) && ReqInv(s) && StepC(env, s) == Some(r)
    ensures ReqInv(r)
  {
    match s.c
    case CCollect(it, under) => if it < |s.mq| { CollectedKeeps(s, it, under); }
    case CCreate => SentKeeps(s, Some(OnCreate), r);
    case _ => PlainConsumer(env, s, r); PlainKeeps(s, r);
  }

  lemma PlainConsumer(env: Env, s: State, r: State)
    requires TryInv(s) && CreateInv(s) && StepC(env, s) == Some(r) && !s.c.CCollect? && !s.c.CCreate?
    ensures Plain(s, r)
  {
    match s.c
    case CDone =>
    case CLoop =>
    case CAwait =>
    case CValid =>
    case CTried(_) =>
    case CChkAuth =>
    case CChkValid =>
    case CChkTried =>
    case CSetTried =>
    case CLock =>
    case CSize =>
    case CIter(_) =>
    case CDecide(_) =>
    case CClear(_) =>
    case CUnlock =>
    case CCount =>
    case CLower =>
    case CSucc =>
  }

  lemma ReqIniter(s: State, r: State)
    requires Ctl(s) && ReqInv(s) && StepI(s) == Some(r)
    ensures ReqInv(r)
  {
    match s.i
    case IInit =>
      SentKeeps(s, None, SendQuery(s, None));
      SentKeeps(SendQuery(s, None), None, r);
    case _ => PlainIniter(s, r); PlainKeeps(s, r);
  }

  lemma PlainIniter(s: State, r: State)
    requires Ctl(s) && CreateInv(s) && StepI(s) == Some(r) && !s.i.IInit?
    ensures Plain(s, r)
  {
    match s.i
    case IGone =>
    case IStart =>
    case IHint =>
    case ITry =>
    case IAuth =>
    case ISpawnP =>
    case ISpawnC =>
    case ISpawnS =>
    case IAwait =>
    case IStopS =>
    case IWaitS =>
    case IJoinS =>
    case IJoinC =>
    case IJoinP =>
    case ISucc =>
    case IDown =>
  }

  lemma PlainSwitcher(s: State, r: State)
    requires CreateInv(s) && StepS(s) == Some(r)
    ensures Plain(s, r)
  {
    match s.s
    case SDone =>
    case SLoop =>
    case SPause =>
    case SFlag =>
    case SLock =>
    case SSize =>
    case SRaise =>
    case SUnlock =>
    case SCount =>
    case SStopP =>
    case SWaitP =>
    case SForce =>
    case SStopC =>
    case SWaitC =>
    case SSucc =>
  }

  lemma PlainHandler(env: Env, s: State, cmd: Command, r: State)
    requires CreateInv(s) && StepH(env, s, cmd) == Some(r)
    ensures Plain(s, r)
  {}

  lemma ReqStep(env: Env, s: State, a: Act, r: State)
    requires Ctl(s) && ReqInv(s) && Do(env, s, a) == Some(r)
    ensures ReqInv(r)
  {
    match a
    case Producer(got) => ReqProducer(env, s, got, r);
    case Consumer => ReqConsumer(env, s, r);
    case Switcher => PlainSwitcher(s, r); PlainKeeps(s, r);
    case Initer => ReqIniter(s, r);
    case Handler(cmd) => PlainHandler(env, s, cmd, r); PlainKeeps(s, r);
    case Hint(_) => PlainKeeps(s, r);
  }

  lemma {:induction false} ReqExec(env: Env, s: State, acts: seq<Act>, r: State)
    requires env.atomicSpawn && Ctl(s) && ReqInv(s) && Exec(env, s, acts) == Some(r)
    ensures ReqInv(r)
  {
    if acts != [] {
      var n := |acts| - 1;
      var before := Exec(env, s, acts[..n]).value;
      CtlExec(env, s, acts[..n], before);
      ReqExec(env, s, acts[..n], before);
      ReqStep(env, before, acts[n], r);
    }
  }

  lemma ReqReachable(env: Env, s: State)
    requires env.atomicSpawn && Reachable(env, s)
    ensures ReqInv(s)
  {
    var hint, filters, tgfid, acts :| Exec(env, Init(hint, filters, tgfid), acts) == Some(s);
    CtlInit(hint, filters, tgfid);
    ReqInit(hint, filters, tgfid);
    ReqExec(env, Init(hint, filters, tgfid), acts, s);
  }

  // ---- what it gives ----

  /**
    The next request's id.  Until the 64-bit counter has gone around, across all restarts, it is new:
    not 0, not waiting in the table, not one whose callback ever ran.  It is 0 exactly on the wrap.
  */
  lemma NextQueryIsFresh(env: Env, s: State)
    requires env.atomicSpawn && Reachable(env, s)
    ensures var id := NextId(s.td.req.curr);
      && (id == 0 <==> (s.log.queries + 1) % U64 == 0)
      && (s.log.queries + 1 < U64 ==> id == s.log.queries + 1 && id !in s.td.req.cb && id !in s.log.ran)
  {
    ReqReachable(env, s);
    NextIdFollows(s.log.queries);
  }

  /** Every callback runs at most once; it runs only while registered, and afterwards only waits to be erased. */
  lemma CallbacksRunOnce(env: Env, s: State)
    requires env.atomicSpawn && Reachable(env, s) && s.log.queries < U64
    ensures forall id :: s.log.ran[id] <= 1
    ensures forall id | id in s.log.ran :: 1 <= id <= s.log.queries
    ensures s.p.PCall? ==> s.p.id in s.td.req.cb && s.log.ran[s.p.id] == 0
    ensures forall id | id in s.td.req.cb && id in s.log.ran :: Finishing(s.p, id)
  {
    ReqReachable(env, s);
  }

  lemma SubsetSize<T>(a: set<T>, b: set<T>)
    requires a <= b
    ensures |a| <= |b|
  {
    assert b == a + (b - a);
  }

  /** The count of confirmed messages never exceeds the number of collect_msg calls. */
  lemma ConfirmedAtMostSent(env: Env, s: State)
    requires env.atomicSpawn && Reachable(env, s) && s.log.queries < U64
    ensures s.td.msgColl <= |s.log.acked| <= s.log.collects
  {
    ReqReachable(env, s);
    SubsetSize(s.log.acked, s.log.collectIds);
  }

  /** A chat is created at most once more than TDLib has said "no such chat". */
  lemma CreationsBounded(env: Env, s: State)
    requires env.atomicSpawn && Reachable(env, s)
    ensures s.log.creates <= 1 + s.log.resets
  {
    ReqReachable(env, s);
  }

  // ---- the table of a run ----

  /** What a step does to the table of requests. */
  function StepOps(s: State, a: Act): seq<TableOp> {
    match a
    case Producer(got) =>
      if s.p.PFetch? && got.AuthParameters? then [SendOp(Some(OnAuth))]
      else if s.p.PReply? then [SendOp(Some(OnReply))]
      else if s.p.PErase? then [EraseOp(s.p.id)]
      else []
    case Consumer =>
      if s.c.CCreate? then [SendOp(Some(OnCreate))]
      else if s.c.CCollect? && s.c.it < |s.mq| then [SendOp(Some(OnCollect))]
      else []
    case Initer => if s.i.IInit? then [SendOp(None), SendOp(None)] else []
    case _ => []
  }

  function RunOps(env: Env, s0: State, acts: seq<Act>): seq<TableOp> {
    if acts == [] then []
    else
      var n := |acts| - 1;
      var before := Exec(env, s0, acts[..n]);
      RunOps(env, s0, acts[..n]) + if before.Some? then StepOps(before.value, acts[n]) else []
  }

  /** The producer handles no response with id 0. */
  predicate NonZero(pc: PPc) {
    (pc.PCall? || pc.PForget? || pc.PErase?) ==> pc.id != 0
  }

  lemma ProducerOps(env: Env, s: State, got: Fetched, r: State)
    requires NonZero(s.p) && StepP(env, s, got) == Some(r)
    ensures r.td.req == ApplyAll(s.td.req, StepOps(s, Producer(got))) && Proper(StepOps(s, Producer(got))) && NonZero(r.p)
  {
    OneOp(s.td.req);
    match s.p
    case PDone =>
    case PLoop =>
    case PAwait =>
    case PFetch =>
    case PLock(_) =>
    case PInsert(_) =>
    case PTotal =>
    case PUnlock =>
    case PCommand(_) =>
    case PReply =>
    case PCall(_, _) =>
    case PForget(_) =>
    case PErase(_) =>
    case PCount =>
    case PSucc =>
  }

  lemma OneOp(r: Requests)
    ensures ApplyAll(r, []) == r
    ensures forall op :: ApplyAll(r, [op]) == Apply(r, op)
  {
    forall op: TableOp
      ensures ApplyAll(r, [op]) == Apply(r, op)
    {
      assert [op][..0] == [];
    }
  }

  lemma ConsumerOps(env: Env, s: State, r: State)
    requires StepC(env, s) == Some(r)
    ensures r.td.req == ApplyAll(s.td.req, StepOps(s, Consumer)) && r.p == s.p
  {
    OneOp(s.td.req);
  }

  lemma IniterOps(s: State, r: State)
    requires StepI(s) == Some(r)
    ensures r.td.req == ApplyAll(s.td.req, StepOps(s, Initer)) && (r.p == s.p || r.p.PLoop?)
  {
    OneOp(s.td.req);
    ApplyConcat(s.td.req, [SendOp(None)], [SendOp(None)]);
    OneOp(ApplyAll(s.td.req, [SendOp(None)]));
    assert [SendOp(None)] + [SendOp(None)] == [SendOp(None), SendOp(None)];
  }

  lemma StepKeepsTable(env: Env, s: State, a: Act, r: State)
    requires NonZero(s.p) && Do(env, s, a) == Some(r)
    ensures r.td.req == ApplyAll(s.td.req, StepOps(s, a)) && Proper(StepOps(s, a)) && NonZero(r.p)
  {
    hide StepP, StepC, StepI;
    match a
    case Producer(got) => ProducerOps(env, s, got, r);
    case Consumer => ConsumerOps(env, s, r);
    case Switcher => CreatingSwitcher(s, r);
    case Initer => IniterOps(s, r);
    case Handler(cmd) => HandlerParks(env, s, cmd, r);
    case Hint(_) =>
  }

  /**
    In every run, of any schedule and any number of restarts, the protocol's table is what the class
    keeps when it replays the run's requests and responses.
  */
  lemma {:induction false} TableOfRun(env: Env, s0: State, acts: seq<Act>, r: State)
    requires NonZero(s0.p) && Exec(env, s0, acts) == Some(r)
    ensures r.td.req == ApplyAll(s0.td.req, RunOps(env, s0, acts)) && Proper(RunOps(env, s0, acts)) && NonZero(r.p)
  {
    hide Do, StepOps, NonZero, Apply;
    if acts != [] {
      var n := |acts| - 1;
      var before := Exec(env, s0, acts[..n]).value;
      TableOfRun(env, s0, acts[..n], before);
      StepKeepsTable(env, before, acts[n], r);
      ApplyConcat(s0.td.req, RunOps(env, s0, acts[..n]), StepOps(before, acts[n]));
    }
  }

  // ---- creating a chat although one has become valid ----

  /** The consumer has found the chat id invalid and not yet sent its creation request. */
  predicate Creating(s: State) { s.c.CChkTried? || s.c.CSetTried? || s.c.CCreate? }

  predicate PendingCreate(s: State, id: nat) {
    id != 0 && id in s.td.req.cb && s.td.req.cb[id] == OnCreate
  }

  /** The chat id is valid already, or the producer is placed to make it so before it waits again. */
  predicate MayTurnValid(s: State) {
    || s.td.tgfid != -1
    || (s.p.PFetch? && exists id | id in s.td.req.cb :: PendingCreate(s, id))
    || TurnsValid(s)
  }

  lemma CreatingStep(env: Env, s: State, a: Act, r: State)
    requires Ctl(s) && Creating(s) && Creating(r) && !MayTurnValid(s) && Do(env, s, a) == Some(r)
    ensures !MayTurnValid(r)
  {
    match a
    case Producer(got) => CreatingProducer(env, s, got, r);
    case Consumer => CreatingConsumer(env, s, r);
    case Switcher => CreatingSwitcher(s, r);
    case Initer => CreatingIniter(s, r);
    case Handler(cmd) => HandlerParks(env, s, cmd, r);
    case Hint(_) =>
  }

  lemma CreatingProducer(env: Env, s: State, got: Fetched, r: State)
    requires s.doCsm.On? && !MayTurnValid(s) && StepP(env, s, got) == Some(r)
    ensures !MayTurnValid(r)
  {}

  lemma CreatingIniter(s: State, r: State)
    requires WorkerInv(s) && !s.c.CDone? && StepI(s) == Some(r)
    ensures r.td == s.td && r.p == s.p
  {}

  lemma CreatingConsumer(env: Env, s: State, r: State)
    requires Creating(s) && Creating(r) && StepC(env, s) == Some(r)
    ensures r.td.tgfid == s.td.tgfid && r.td.req == s.td.req && r.p == s.p
  {}

  lemma CreatingSwitcher(s: State, r: State)
    requires StepS(s) == Some(r)
    ensures r.td == s.td && r.p == s.p
  {}

  lemma {:induction false} StaysInvalid(env: Env, s: State, acts: seq<Act>, r: State)
    requires env.atomicSpawn && Ctl(s) && !MayTurnValid(s)
    requires Throughout(env, s, acts, Creating) && Exec(env, s, acts) == Some(r)
    ensures !MayTurnValid(r) && Creating(r)
  {
    if acts == [] {
      assert acts[..0] == acts;
    } else {
      var n := |acts| - 1;
      ThroughoutPrefix(env, s, acts, Creating);
      var before := Exec(env, s, acts[..n]).value;
      StaysInvalid(env, s, acts[..n], before);
      CtlExec(env, s, acts[..n], before);
      CreatingStep(env, before, acts[n], r);
    }
  }

  lemma ThroughoutThen(env: Env, s: State, acts: seq<Act>, a: Act, P: State -> bool)
    requires Throughout(env, s, acts, P) && Exec(env, s, acts + [a]).Some? && P(Exec(env, s, acts + [a]).value)
    ensures Throughout(env, s, acts + [a], P)
  {
    forall k | 0 <= k <= |acts| + 1
      ensures Exec(env, s, (acts + [a])[..k]).Some? && P(Exec(env, s, (acts + [a])[..k]).value)
    {
      if k <= |acts| {
        assert (acts + [a])[..k] == acts[..k];
      } else {
        assert (acts + [a])[..k] == acts + [a];
      }
    }
  }

  lemma Stays(env: Env, start: State, acts0: seq<Act>, s: State, a: Act) returns (acts: seq<Act>, r: State)
    requires Throughout(env, start, acts0, Creating) && Exec(env, start, acts0) == Some(s)
    requires Do(env, s, a).Some? && Creating(Do(env, s, a).value)
    ensures Throughout(env, start, acts, Creating) && Exec(env, start, acts) == Some(r) == Do(env, s, a)
  {
    ExecThen(env, start, acts0, a);
    acts, r := acts0 + [a], Do(env, s, a).value;
    ThroughoutThen(env, start, acts0, a, Creating);
  }

  /** The producer, placed to do so, makes the chat id valid. */
  lemma ProducerTurnsValid(env: Env, s: State) returns (acts: seq<Act>, r: State)
    requires s.c.CChkTried? && !s.td.tried.On? && MayTurnValid(s)
    ensures Throughout(env, s, acts, Creating) && Exec(env, s, acts) == Some(r)
    ensures r.c.CChkTried? && !r.td.tried.On? && r.td.tgfid != -1
  {
    acts, r := [], s;
    if s.td.tgfid == -1 && s.p.PFetch? {
      var id :| id in s.td.req.cb && PendingCreate(s, id);
      acts, r := Stays(env, s, acts, r, Producer(Response(id, ObjChat(0))));
    }
    if s.td.tgfid == -1 {
      assert r.p.PCall? && r.td.req == s.td.req;
      acts, r := Stays(env, s, acts, r, Producer(Nothing));
    }
  }

  /** The schedule takes the consumer to its creation request with the chat id valid. */
  ghost predicate CreatesOverValid(env: Env, s: State, acts: seq<Act>) {
    Throughout(env, s, acts, Creating) && Exec(env, s, acts).Some? &&
    Exec(env, s, acts).value.c.CCreate? && Exec(env, s, acts).value.td.tgfid != -1
  }

  /**
    A creation request can go out while the stored chat id is valid: the check at
    src/td_coll.cc:39 and the request are separate steps.  Right after the check this can happen
    exactly when the producer is inside its fetch with the answer to an earlier creation outstanding
    (or already running that answer's callback, or done with it).
  */
  lemma CreateRaceExactly(env: Env, s: State)
    requires env.atomicSpawn && Reachable(env, s) && s.c.CChkTried?
    ensures (exists acts :: CreatesOverValid(env, s, acts)) <==> MayTurnValid(s)
  {
    CtlReachable(env, s);
    if MayTurnValid(s) {
      var acts, r := ProducerTurnsValid(env, s);
      acts, r := Stays(env, s, acts, r, Consumer);
      acts, r := Stays(env, s, acts, r, Consumer);
      assert CreatesOverValid(env, s, acts);
    } else {
      forall acts | Throughout(env, s, acts, Creating) && Exec(env, s, acts).Some?
        ensures Exec(env, s, acts).value.td.tgfid == -1
      {
        StaysInvalid(env, s, acts, Exec(env, s, acts).value);
      }
    }
  }
}
