/**
  Where the messages go.  In every reachable state, whatever the schedule and however often the
  collector was restarted, what was put into `mq` is exactly what was handled plus what is pending;
  what was sent is what was decided to be forwarded, in order and numbered without gaps.
*/
module CollLog {
  import opened Prelude
  import opened TgMessage
  import opened Collector
  import opened CollControl

  // ---- reading the log ----

  function MsgsOf(b: Batch): (r: seq<Msg>)
    ensures |r| == |b|
  {
    seq(|b|, j requires 0 <= j < |b| => b[j].msg)
  }

  /** The messages of closed batches in order of arrival: `mq` holds the newest first. */
  function Arrivals(bs: seq<Batch>): seq<Msg> {
    if bs == [] then [] else Arrivals(bs[..|bs| - 1]) + Rev(MsgsOf(bs[|bs| - 1]))
  }

  /** What a list of handled messages sends to TDLib, in its order. */
  function Sends(hs: Batch): seq<Sent> {
    if hs == [] then []
    else
      var h := hs[|hs| - 1];
      Sends(hs[..|hs| - 1]) + if h.fate.Forwarded? then [Sent(h.fate.id, h.msg)] else []
  }

  function AllBatches(l: Log): seq<Batch> { Flat(l.past) + l.batches }

  function SessionItems(l: Log): Batch { Flat(l.batches) + l.cur }

  // ---- the invariant ----

  /** Every fate is the one the filters stored at that moment give the message. */
  predicate FateOk(env: Env, h: Handled) {
    match h.fate
    case Own => IsFromTgfocus(h.msg.body)
    case Filtered => !IsFromTgfocus(h.msg.body) && !env.decide(h.under, h.msg.body)
    case Forwarded(_) => !IsFromTgfocus(h.msg.body) && env.decide(h.under, h.msg.body)
    case Discarded => true
  }

  predicate Decided(env: Env, hs: Batch) {
    forall j | 0 <= j < |hs| :: FateOk(env, hs[j])
  }

  predicate Numbered(out: seq<Sent>) {
    forall k | 0 <= k < |out| :: out[k].id == k + 1
  }

  /** Once one message of a session is discarded, all later ones are. */
  predicate DiscardsLast(hs: Batch) {
    forall j, k | 0 <= j < k < |hs| :: hs[j].fate.Discarded? ==> hs[k].fate.Discarded?
  }

  predicate NoDiscard(hs: Batch) {
    forall j | 0 <= j < |hs| :: !hs[j].fate.Discarded?
  }

  predicate CursorInv(env: Env, s: State) {
    match s.c
    case CIter(it) => it <= |s.mq| && MsgsOf(s.log.cur) == s.mq[..it]
    case CDecide(it) => it < |s.mq| && MsgsOf(s.log.cur) == s.mq[..it]
    case CCollect(it, under) =>
      it < |s.mq| && MsgsOf(s.log.cur) == s.mq[..it] &&
      !IsFromTgfocus(s.mq[it].body) && env.decide(under, s.mq[it].body)
    case CClear(it) => it <= |s.mq| && MsgsOf(s.log.cur) == s.mq[..it] && (it < |s.mq| ==> s.fl.tryConsumer.On?)
    case _ => s.log.cur == []
  }

  predicate AfterStop(pc: CPc) {
    pc.CUnlock? || pc.CCount? || pc.CLower? || pc.CLoop? || pc.CSucc? || pc.CDone?
  }

  predicate OrderInv(s: State) {
    && s.log.inserted == Arrivals(AllBatches(s.log)) + Rev(s.mq)
    && (forall i | 0 <= i < |s.log.inserted| :: s.log.inserted[i].serial == i)
    && s.total == (|s.log.inserted| - if s.p.PTotal? then 1 else 0) % U32
    && (s.p.PTotal? ==> |s.log.inserted| > 0)
  }

  predicate FateInv(env: Env, s: State) {
    && Decided(env, s.log.cur)
    && forall k | 0 <= k < |AllBatches(s.log)| :: Decided(env, AllBatches(s.log)[k])
  }

  predicate OutboxInv(s: State) {
    s.log.outbox == Sends(SessionItems(s.log)) && Numbered(s.log.outbox) && |s.log.outbox| == s.cnt
  }

  predicate DiscardInv(s: State) {
    && DiscardsLast(Flat(s.log.batches)) && NoDiscard(s.log.cur)
    && (!NoDiscard(Flat(s.log.batches)) ==> AfterStop(s.c) && (!s.c.CDone? ==> s.fl.tryConsumer.On?))
  }

  predicate PastInv(past: seq<seq<Batch>>) {
    forall k | 0 <= k < |past| :: Numbered(Sends(Flat(past[k]))) && DiscardsLast(Flat(past[k]))
  }

  predicate SessionLogInv(s: State) {
    OutboxInv(s) && DiscardInv(s) && PastInv(s.log.past)
  }

  predicate LogInv(env: Env, s: State) {
    OrderInv(s) && FateInv(env, s) && CursorInv(env, s) && SessionLogInv(s)
  }

  lemma LogInit(env: Env, hint: Bit, filters: string, tgfid: int)
    ensures LogInv(env, Init(hint, filters, tgfid))
  {}

  // ---- steps that leave messages and log alone ----

  /** Nothing the log invariant reads has moved, except that the consumer's counter may. */
  predicate SameMessages(s: State, r: State) {
    && r.mq == s.mq && r.total == s.total && r.cnt == s.cnt
    && r.log.inserted == s.log.inserted && r.log.past == s.log.past && r.log.batches == s.log.batches
    && r.log.cur == s.log.cur && r.log.outbox == s.log.outbox
    && (s.p.PTotal? <==> r.p.PTotal?)
  }

  lemma KeepsLog(env: Env, s: State, r: State)
    requires LogInv(env, s) && SameMessages(s, r)
    requires CursorInv(env, r)
    requires !NoDiscard(Flat(s.log.batches)) ==> AfterStop(r.c) && (!r.c.CDone? ==> r.fl.tryConsumer.On?)
    ensures LogInv(env, r)
  {}

  // ---- the producer ----

  lemma ReceiveKeepsMessages(s: State, got: Fetched)
    requires s.p.PFetch?
    ensures SameMessages(s, Receive(s, got)) && Receive(s, got).c == s.c
  {}

  lemma CallKeepsMessages(s: State, id: nat, obj: Obj)
    requires s.p.PCall?
    ensures SameMessages(s, Call(s, id, obj)) && Call(s, id, obj).c == s.c
  {}

  lemma ProducerKeepsMessages(env: Env, s: State, got: Fetched, r: State)
    requires StepP(env, s, got) == Some(r) && !s.p.PInsert? && !s.p.PTotal?
    ensures SameMessages(s, r) && r.c == s.c
  {
    match s.p
    case PFetch => ReceiveKeepsMessages(s, got);
    case PCall(id, obj) => CallKeepsMessages(s, id, obj);
    case PLoop =>
    case PAwait =>
    case PLock(_) =>
    case PUnlock =>
    case PCommand(_) =>
    case PReply =>
    case PForget(_) =>
    case PErase(_) =>
    case PCount =>
    case PSucc =>
  }

  lemma InsertLogged(env: Env, s: State, r: State, m: Msg)
    requires LogInv(env, s) && s.log.cur == [] && !ConsumerLocked(s.c)
    requires m.serial == |s.log.inserted| && r.log == s.log.(inserted := s.log.inserted + [m])
    requires r.mq == [m] + s.mq && !s.p.PTotal? && r.p.PTotal? && r.total == s.total && r.c == s.c && r.cnt == s.cnt && r.fl == s.fl
    ensures LogInv(env, r)
  {
    assert OrderInv(r) by {
      RevCons(m, s.mq);
      assert r.log.inserted == Arrivals(AllBatches(s.log)) + (Rev(s.mq) + [m]);
    }
  }

  lemma SuccMod(n: nat)
    ensures (n % U32 + 1) % U32 == (n + 1) % U32
  {}

  lemma TotalLogged(env: Env, s: State, r: State)
    requires LogInv(env, s) && s.p.PTotal? && r.total == (s.total + 1) % U32 && !r.p.PTotal?
    requires r.log == s.log && r.mq == s.mq && r.c == s.c && r.cnt == s.cnt && r.fl == s.fl
    ensures LogInv(env, r)
  {
    assert OrderInv(r) by { SuccMod(|s.log.inserted| - 1); }
  }

  lemma LogProducer(env: Env, s: State, got: Fetched, r: State)
    requires Ctl(s) && LogInv(env, s) && StepP(env, s, got) == Some(r)
    ensures LogInv(env, r)
  {
    if s.p.PInsert? {
      InsertLogged(env, s, r, Msg(|s.log.inserted|, s.p.body));
    } else if s.p.PTotal? {
      TotalLogged(env, s, r);
    } else {
      ProducerKeepsMessages(env, s, got, r);
      ProducerMovesSo(env, s, got, r);
      KeepsLog(env, s, r);
    }
  }

  // ---- the consumer ----

  lemma SendsAppend(hs: Batch, h: Handled)
    ensures Sends(hs + [h]) == Sends(hs) + if h.fate.Forwarded? then [Sent(h.fate.id, h.msg)] else []
  {
    assert (hs + [h])[..|hs|] == hs;
  }

  lemma {:induction false} SendsDiscarded(hs: Batch, ms: seq<Msg>)
    ensures Sends(hs + Discard(ms)) == Sends(hs)
  {
    if ms == [] {
      assert hs + Discard(ms) == hs;
    } else {
      hide Sends;
      var n := |ms| - 1;
      SendsDiscarded(hs, ms[..n]);
      assert hs + Discard(ms) == (hs + Discard(ms[..n])) + [Handled(ms[n], Discarded, "")];
      SendsAppend(hs + Discard(ms[..n]), Handled(ms[n], Discarded, ""));
    }
  }

  /** One more message of the open batch has been handled. */
  predicate Notes(s: State, r: State, it: nat, h: Handled) {
    && r.mq == s.mq && r.total == s.total && r.p == s.p && r.c == CIter(it + 1)
    && r.cnt == s.cnt + (if h.fate.Forwarded? then 1 else 0)
    && r.log.inserted == s.log.inserted && r.log.past == s.log.past && r.log.batches == s.log.batches
    && r.log.cur == s.log.cur + [h]
    && r.log.outbox == s.log.outbox + if h.fate.Forwarded? then [Sent(h.fate.id, h.msg)] else []
  }

  lemma NotedSession(s: State, r: State, it: nat, h: Handled)
    requires SessionLogInv(s) && !AfterStop(s.c) && !h.fate.Discarded?
    requires h.fate.Forwarded? ==> h.fate.id == s.cnt + 1
    requires Notes(s, r, it, h)
    ensures SessionLogInv(r)
  {
    hide PastInv, DiscardsLast;
    assert OutboxInv(r) by {
      hide DiscardInv, Sends;
      assert SessionItems(r.log) == SessionItems(s.log) + [h];
      SendsAppend(SessionItems(s.log), h);
    }
  }

  lemma NotedCursor(env: Env, s: State, r: State, it: nat, h: Handled)
    requires it < |s.mq| && MsgsOf(s.log.cur) == s.mq[..it] && h.msg == s.mq[it] && Notes(s, r, it, h)
    ensures CursorInv(env, r)
  {
    assert MsgsOf(r.log.cur) == MsgsOf(s.log.cur) + [h.msg];
    assert s.mq[..it + 1] == s.mq[..it] + [s.mq[it]];
  }

  lemma NotedLogged(env: Env, s: State, r: State, it: nat, h: Handled)
    requires LogInv(env, s) && it < |s.mq| && MsgsOf(s.log.cur) == s.mq[..it] && !AfterStop(s.c)
    requires h.msg == s.mq[it] && FateOk(env, h) && !h.fate.Discarded?
    requires h.fate.Forwarded? ==> h.fate.id == s.cnt + 1
    requires Notes(s, r, it, h)
    ensures LogInv(env, r)
  {
    NotedCursor(env, s, r, it, h);
    NotedSession(s, r, it, h);
    hide CursorInv, SessionLogInv;
  }

  lemma DecideLogged(env: Env, s: State, it: nat)
    requires LogInv(env, s) && s.c == CDecide(it)
    ensures LogInv(env, Decide(env, s, it))
  {
    var r := Decide(env, s, it);
    var m := s.mq[it];
    if IsFromTgfocus(m.body) {
      NotedLogged(env, s, r, it, Handled(m, Own, s.filters));
    } else if env.decide(s.filters, m.body) {
      KeepsLog(env, s, r);
    } else {
      NotedLogged(env, s, r, it, Handled(m, Filtered, s.filters));
    }
  }

  lemma CollectLogged(env: Env, s: State, it: nat, under: string)
    requires LogInv(env, s) && s.c == CCollect(it, under)
    ensures LogInv(env, Collect(s, it, under))
  {
    NotedLogged(env, s, Collect(s, it, under), it, Handled(s.mq[it], Forwarded(s.cnt + 1), under));
  }

  /** The batch is closed: what was not handled is discarded, and `mq` is emptied. */
  predicate Closes(s: State, r: State, it: nat) {
    && it <= |s.mq| && r.mq == [] && r.c.CUnlock? && r.p == s.p && r.total == s.total && r.cnt == s.cnt && r.fl == s.fl
    && r.log == s.log.(batches := s.log.batches + [s.log.cur + Discard(s.mq[it..])], cur := [])
  }

  lemma ArrivalsAppend(bs: seq<Batch>, b: Batch)
    ensures Arrivals(bs + [b]) == Arrivals(bs) + Rev(MsgsOf(b))
  {
    assert (bs + [b])[..|bs|] == bs;
  }

  lemma ClosedOrder(env: Env, s: State, it: nat, r: State)
    requires LogInv(env, s) && s.c == CClear(it) && Closes(s, r, it)
    ensures OrderInv(r)
  {
    hide FateInv, SessionLogInv;
    var b := s.log.cur + Discard(s.mq[it..]);
    assert MsgsOf(b) == s.mq by { assert s.mq[..it] + s.mq[it..] == s.mq; }
    assert AllBatches(r.log) == AllBatches(s.log) + [b];
    ArrivalsAppend(AllBatches(s.log), b);
    assert Arrivals(AllBatches(r.log)) + Rev<Msg>([]) == Arrivals(AllBatches(s.log)) + Rev(s.mq);
  }

  lemma ClosedFates(env: Env, s: State, it: nat, r: State)
    requires LogInv(env, s) && s.c == CClear(it) && Closes(s, r, it)
    ensures FateInv(env, r)
  {
    hide OrderInv, SessionLogInv, CursorInv;
    var b := s.log.cur + Discard(s.mq[it..]);
    assert Decided(env, b);
    assert AllBatches(r.log) == AllBatches(s.log) + [b];
  }

  lemma DiscardsAppend(hs: Batch, ms: seq<Msg>)
    requires NoDiscard(hs)
    ensures DiscardsLast(hs + Discard(ms))
    ensures NoDiscard(hs + Discard(ms)) <==> ms == []
  {
    if ms != [] { assert (hs + Discard(ms))[|hs|].fate.Discarded?; }
  }

  lemma ClosedItems(env: Env, s: State, it: nat, r: State)
    requires LogInv(env, s) && s.c == CClear(it) && Closes(s, r, it)
    ensures Flat(r.log.batches) == SessionItems(r.log) == SessionItems(s.log) + Discard(s.mq[it..])
    ensures NoDiscard(SessionItems(s.log))
  {
    hide OrderInv, FateInv, Sends, Discard, DiscardsLast, Numbered;
    FlatAppend(s.log.batches, s.log.cur + Discard(s.mq[it..]));
  }

  lemma ClosedSession(env: Env, s: State, it: nat, r: State)
    requires LogInv(env, s) && s.c == CClear(it) && Closes(s, r, it)
    ensures SessionLogInv(r)
  {
    hide OrderInv, FateInv, PastInv, Numbered, SessionItems, Discard;
    ClosedItems(env, s, it, r);
    assert OutboxInv(r) by {
      hide DiscardInv, Sends;
      SendsDiscarded(SessionItems(s.log), s.mq[it..]);
    }
    assert DiscardInv(r) by {
      hide OutboxInv, DiscardsLast;
      DiscardsAppend(SessionItems(s.log), s.mq[it..]);
    }
  }

  lemma OtherConsumerSame(env: Env, s: State, r: State)
    requires StepC(env, s) == Some(r)
    requires !s.c.CDecide? && !s.c.CCollect? && !s.c.CClear?
    ensures SameMessages(s, r) && r.fl.tryConsumer == s.fl.tryConsumer
  {}

  lemma OtherConsumerCursor(env: Env, s: State, r: State)
    requires StepC(env, s) == Some(r) && SameMessages(s, r) && r.fl.tryConsumer == s.fl.tryConsumer
    requires CursorInv(env, s) && !s.c.CDecide? && !s.c.CCollect? && !s.c.CClear?
    ensures CursorInv(env, r)
    ensures AfterStop(s.c) && (!s.c.CDone? ==> s.fl.tryConsumer.On?) ==> AfterStop(r.c) && (!r.c.CDone? ==> r.fl.tryConsumer.On?)
  {}

  lemma LogConsumer(env: Env, s: State, r: State)
    requires LogInv(env, s) && StepC(env, s) == Some(r)
    ensures LogInv(env, r)
  {
    hide OrderInv, FateInv, Decide, Collect;
    match s.c
    case CDecide(it) => DecideLogged(env, s, it);
    case CCollect(it, under) => CollectLogged(env, s, it, under);
    case CClear(it) => ClosedOrder(env, s, it, r); ClosedFates(env, s, it, r); ClosedSession(env, s, it, r);
    case _ =>
      OtherConsumerSame(env, s, r);
      OtherConsumerCursor(env, s, r);
      KeepsLog(env, s, r);
  }

  // ---- the others ----

  /** A new session's consumer starts with an empty log; the batches so far become history. */
  lemma RolloverLogged(env: Env, s: State, r: State)
    requires LogInv(env, s) && s.log.cur == []
    requires r.mq == s.mq && r.total == s.total && r.p == s.p && r.c.CLoop? && r.cnt == 0
    requires r.log == s.log.(past := s.log.past + [s.log.batches], batches := [], outbox := [])
    ensures LogInv(env, r)
  {
    FlatAppend(s.log.past, s.log.batches);
    assert AllBatches(r.log) == AllBatches(s.log);
    assert SessionItems(s.log) == Flat(s.log.batches);
    hide Arrivals, Sends, DiscardsLast, Numbered, Decided;
    assert Numbered([]) && DiscardsLast([]) && Sends([]) == [];
  }

  predicate KeepsTry(s: State, r: State) {
    r.c == s.c && (s.fl.tryConsumer.On? && !s.c.CDone? ==> r.fl.tryConsumer.On?)
  }

  lemma SwitcherKeepsMessages(s: State, r: State)
    requires StepS(s) == Some(r)
    ensures SameMessages(s, r) && KeepsTry(s, r)
  {}

  lemma IniterKeepsMessages(s: State, r: State)
    requires Ctl(s) && StepI(s) == Some(r) && !s.i.ISpawnC?
    ensures SameMessages(s, r) && KeepsTry(s, r)
  {
    match s.i
    case IGone =>
    case IStart =>
    case IHint =>
    case ITry =>
    case IAuth =>
    case IInit =>
    case ISpawnP =>
    case ISpawnC =>
    case ISpawnS =>
    case IAwait =>
    case IStopS =>
    case IWaitS =>
    case IJoinS =>
    case IJoinC =>
    case IJoinP =>
    case ISucc =>
    case IDown =>
  }

  lemma HandlerKeepsMessages(env: Env, s: State, cmd: Command, r: State)
    requires Ctl(s) && StepH(env, s, cmd) == Some(r)
    ensures SameMessages(s, r) && KeepsTry(s, r)
  {
    match s.h
    case HIdle =>
    case HUpLoad =>
    case HReset(_) =>
    case HSpawn =>
    case HReply =>
    case HStopLoad(_) =>
    case HStopTry(_) =>
    case HStopSelf =>
    case HStopWait(_) =>
    case HStopReply(_) =>
    case HStatLock =>
    case HStatUnlock =>
  }

  lemma LogStep(env: Env, s: State, a: Act, r: State)
    requires Ctl(s) && LogInv(env, s) && Do(env, s, a) == Some(r)
    ensures LogInv(env, r)
  {
    match a
    case Producer(got) => LogProducer(env, s, got, r);
    case Consumer => LogConsumer(env, s, r);
    case Initer => LogIniter(env, s, r);
    case Switcher => SwitcherKeepsMessages(s, r); KeepsLog(env, s, r);
    case Handler(cmd) => HandlerKeepsMessages(env, s, cmd, r); KeepsLog(env, s, r);
    case Hint(_) => KeepsLog(env, s, r);
  }

  lemma LogIniter(env: Env, s: State, r: State)
    requires Ctl(s) && LogInv(env, s) && StepI(s) == Some(r)
    ensures LogInv(env, r)
  {
    if s.i.ISpawnC? {
      RolloverLogged(env, s, r);
    } else {
      IniterKeepsMessages(s, r);
      KeepsLog(env, s, r);
    }
  }

  lemma {:induction false} LogExec(env: Env, s: State, acts: seq<Act>, r: State)
    requires env.atomicSpawn && Ctl(s) && LogInv(env, s) && Exec(env, s, acts) == Some(r)
    ensures LogInv(env, r)
  {
    if acts != [] {
      var n := |acts| - 1;
      var before := Exec(env, s, acts[..n]).value;
      CtlExec(env, s, acts[..n], before);
      LogExec(env, s, acts[..n], before);
      LogStep(env, before, acts[n], r);
    }
  }

  lemma LogReachable(env: Env, s: State)
    requires env.atomicSpawn && Reachable(env, s)
    ensures LogInv(env, s)
  {
    var hint, filters, tgfid, acts :| Exec(env, Init(hint, filters, tgfid), acts) == Some(s);
    CtlInit(hint, filters, tgfid);
    LogInit(env, hint, filters, tgfid);
    LogExec(env, Init(hint, filters, tgfid), acts, s);
  }
}
