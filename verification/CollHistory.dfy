/**
  What TDLib hands over, and what becomes of it.  In every run the queue's history, the pause flag, the
  stored filters, the login, the chat id and the confirmations are what the updates and responses
  received so far make of their first values; the schedule has no part in it.
*/
module CollHistory {
  import opened Prelude
  import opened TgMessage
  import opened TdRequests
  import opened Collector
  import opened CollControl
  import opened CollLog
  import opened CollStop
  import opened CollRequests

  // ---- what is received ----

  /** A response to one of the program's own requests. */
  datatype Answer = Answer(id: nat, cbfn: Callback, obj: Obj)

  /** Messages of other chats, commands of the own chat, responses with a callback, and whether a login was reported. */
  datatype History = History(outside: seq<TgMsg>, commands: seq<ChatCommand>, answers: seq<Answer>, login: bool)

  const NOTHING := History([], [], [], false)

  function Plus(h: History, g: History): History {
    History(h.outside + g.outside, h.commands + g.commands, h.answers + g.answers, h.login || g.login)
  }

  /** What one receive brings, under the chat id and the table of that moment. */
  function Brings(s: State, got: Fetched): History {
    match got
    case NewMessage(chat, body, cmd) =>
      if chat != s.td.tgfid then NOTHING.(outside := [body])
      else if cmd != NoCommand then NOTHING.(commands := [cmd])
      else NOTHING
    case Response(id, obj) =>
      if id != 0 && id in s.td.req.cb then NOTHING.(answers := [Answer(id, s.td.req.cb[id], obj)]) else NOTHING
    case AuthReady => NOTHING.(login := true)
    case _ => NOTHING
  }

  function BroughtBy(s: State, a: Act): History {
    if a.Producer? && s.p.PFetch? then Brings(s, a.got) else NOTHING
  }

  /** Everything received in a run. */
  function Received(env: Env, s0: State, acts: seq<Act>): History {
    if acts == [] then NOTHING
    else
      var n := |acts| - 1;
      var before := Exec(env, s0, acts[..n]);
      Plus(Received(env, s0, acts[..n]), if before.Some? then BroughtBy(before.value, acts[n]) else NOTHING)
  }

  // ---- what it amounts to ----

  /** A pause came, and no resume since. */
  ghost predicate PausedBy(cs: seq<ChatCommand>) {
    exists i | 0 <= i < |cs| :: cs[i] == Pause && forall j | i < j < |cs| :: cs[j] != Resume
  }

  function FiltersBy(env: Env, filters: string, cs: seq<ChatCommand>): string {
    if cs == [] then filters
    else
      var before := FiltersBy(env, filters, cs[..|cs| - 1]);
      match cs[|cs| - 1]
      case EditFilters(text) => env.edit(text, before)
      case _ => before
  }

  /** The id of the last chat created, unless TDLib has said "no such chat" since. */
  function ChatBy(tgfid: int, ans: seq<Answer>): int {
    if ans == [] then tgfid
    else
      var a := ans[|ans| - 1];
      if a.cbfn == OnCreate && a.obj.ObjChat? then a.obj.id
      else if a.cbfn == OnCollect && a.obj == ObjNoChat then -1
      else ChatBy(tgfid, ans[..|ans| - 1])
  }

  function IdsOf(ans: seq<Answer>): multiset<nat> {
    if ans == [] then multiset{} else IdsOf(ans[..|ans| - 1]) + multiset{ans[|ans| - 1].id}
  }

  /** Answers to collect_msg that say the message was sent. */
  function Confirmed(ans: seq<Answer>): seq<nat> {
    if ans == [] then []
    else
      var a := ans[|ans| - 1];
      Confirmed(ans[..|ans| - 1]) + if a.cbfn == OnCollect && a.obj == ObjMessage then [a.id] else []
  }

  function Bodies(ms: seq<Msg>): (bs: seq<TgMsg>)
    ensures |bs| == |ms|
  {
    seq(|ms|, i requires 0 <= i < |ms| => ms[i].body)
  }

  // ---- the three parts of the claim ----

  /** Received and not yet in the queue. */
  function InHand(pc: PPc): seq<TgMsg> {
    match pc
    case PLock(body) => [body]
    case PInsert(body) => [body]
    case _ => []
  }

  predicate MessagesExplained(h: History, r: State) {
    Bodies(r.log.inserted) + InHand(r.p) == h.outside && (r.td.isAuth.On? <==> h.login)
  }

  function WithoutLast<T>(s: seq<T>): seq<T> { if s == [] then s else s[..|s| - 1] }

  /** The commands run: all received but one that is just about to be. */
  function Ran(h: History, pc: PPc): seq<ChatCommand> {
    if pc.PCommand? then WithoutLast(h.commands) else h.commands
  }

  ghost predicate CommandsExplained(env: Env, filters: string, h: History, r: State) {
    && (r.p.PCommand? ==> h.commands != [] && h.commands[|h.commands| - 1] == r.p.cmd)
    && (r.pause.On? <==> PausedBy(Ran(h, r.p)))
    && r.filters == FiltersBy(env, filters, Ran(h, r.p))
  }

  /** The answers whose callback has run. */
  function Called(h: History, pc: PPc): seq<Answer> {
    if pc.PCall? then WithoutLast(h.answers) else h.answers
  }

  /** Those that have had their effect on the chat id. */
  function Settled(h: History, pc: PPc): seq<Answer> {
    if pc.PCall? || pc.PForget? then WithoutLast(h.answers) else h.answers
  }

  predicate AnswersExplained(tgfid: int, h: History, r: State) {
    && (r.p.PCall? ==> h.answers != [] && r.p.id in r.td.req.cb
                       && h.answers[|h.answers| - 1] == Answer(r.p.id, r.td.req.cb[r.p.id], r.p.obj))
    && (r.p.PForget? ==> h.answers != [] && h.answers[|h.answers| - 1].cbfn == OnCollect && h.answers[|h.answers| - 1].obj == ObjNoChat)
    && r.td.tgfid == ChatBy(tgfid, Settled(h, r.p))
    && r.log.ran == IdsOf(Called(h, r.p))
    && r.td.msgColl == |Confirmed(Called(h, r.p))| % U32
  }

  ghost predicate Explained(env: Env, filters: string, tgfid: int, h: History, r: State) {
    MessagesExplained(h, r) && CommandsExplained(env, filters, h, r) && AnswersExplained(tgfid, h, r)
  }

  // ---- steps of the other threads ----

  /** Nothing that the claim is about has moved, and no callback has changed. */
  predicate Bystander(s: State, r: State) {
    && r.log.inserted == s.log.inserted && r.log.ran == s.log.ran && r.pause == s.pause && r.filters == s.filters
    && r.td.isAuth == s.td.isAuth && r.td.tgfid == s.td.tgfid && r.td.msgColl == s.td.msgColl
    && (r.p == s.p || (s.p.PDone? && r.p.PLoop?))
    && forall id | id in s.td.req.cb :: id in r.td.req.cb && r.td.req.cb[id] == s.td.req.cb[id]
  }

  lemma SendKeeps(r: Requests, cbfn: Option<Callback>)
    ensures forall id | id in r.cb :: id in Send(r, cbfn).cb && Send(r, cbfn).cb[id] == r.cb[id]
  {}

  lemma ConsumerAside(env: Env, s: State, r: State)
    requires StepC(env, s) == Some(r)
    ensures Bystander(s, r)
  {
    hide Decide, Collect;
    SendKeeps(s.td.req, Some(OnCreate));
    match s.c
    case CDecide(it) => DecideAside(env, s, it);
    case CCollect(it, under) => CollectAside(s, it, under);
    case CDone =>
    case CLoop =>
    case CAwait =>
    case CValid =>
    case CTried(_) =>
    case CChkAuth =>
    case CChkValid =>
    case CChkTried =>
    case CSetTried =>
    case CCreate =>
    case CLock =>
    case CSize =>
    case CIter(_) =>
    case CClear(_) =>
    case CUnlock =>
    case CCount =>
    case CLower =>
    case CSucc =>
  }

  lemma DecideAside(env: Env, s: State, it: nat)
    ensures Bystander(s, Decide(env, s, it))
  {}

  lemma CollectAside(s: State, it: nat, under: string)
    ensures Bystander(s, Collect(s, it, under))
  {
    SendKeeps(s.td.req, Some(OnCollect));
  }

  lemma IniterAside(s: State, r: State)
    requires Ctl(s) && StepI(s) == Some(r)
    ensures Bystander(s, r)
  {
    SendKeeps(s.td.req, None);
    SendKeeps(Send(s.td.req, None), None);
    match s.i
    case IGone =>
    case IStart =>
    case IHint =>
    case ITry =>
    case IAuth =>
    case IInit =>
    case ISpawnP =>
    case ISpawnC =>
    case ISpawnS =>
    case IAwait =>
    case IStopS =>
    case IWaitS =>
    case IJoinS =>
    case IJoinC =>
    case IJoinP =>
    case ISucc =>
    case IDown =>
  }

  lemma SwitcherAside(s: State, r: State)
    requires StepS(s) == Some(r)
    ensures Bystander(s, r)
  {
    match s.s
    case SDone =>
    case SLoop =>
    case SPause =>
    case SFlag =>
    case SLock =>
    case SSize =>
    case SRaise =>
    case SUnlock =>
    case SCount =>
    case SStopP =>
    case SWaitP =>
    case SForce =>
    case SStopC =>
    case SWaitC =>
    case SSucc =>
  }

  lemma HandlerAside(env: Env, s: State, cmd: Command, r: State)
    requires StepH(env, s, cmd) == Some(r)
    ensures Bystander(s, r)
  {
    match s.h
    case HIdle =>
    case HUpLoad =>
    case HReset(_) =>
    case HSpawn =>
    case HReply =>
    case HStopLoad(_) =>
    case HStopTry(_) =>
    case HStopSelf =>
    case HStopWait(_) =>
    case HStopReply(_) =>
    case HStatLock =>
    case HStatUnlock =>
  }

  lemma OthersAside(env: Env, s: State, a: Act, r: State)
    requires Ctl(s) && !a.Producer? && Do(env, s, a) == Some(r)
    ensures Bystander(s, r)
  {
    hide StepC, StepS, StepI, StepH, Ctl;
    match a
    case Consumer => ConsumerAside(env, s, r);
    case Switcher => SwitcherAside(s, r);
    case Initer => IniterAside(s, r);
    case Handler(cmd) => HandlerAside(env, s, cmd, r);
    case Hint(_) =>
  }

  lemma AsideExplained(env: Env, filters: string, tgfid: int, h: History, s: State, r: State)
    requires Explained(env, filters, tgfid, h, s) && Bystander(s, r)
    ensures Explained(env, filters, tgfid, h, r)
  {
    hide PausedBy, FiltersBy, ChatBy, IdsOf, Confirmed, Bodies;
  }

  // ---- steps of the producer ----

  lemma BodiesMore(ms: seq<Msg>, m: Msg)
    ensures Bodies(ms + [m]) == Bodies(ms) + [m.body]
  {}

  lemma MessagesStep(env: Env, h: History, s: State, got: Fetched, r: State)
    requires MessagesExplained(h, s) && StepP(env, s, got) == Some(r)
    ensures MessagesExplained(Plus(h, BroughtBy(s, Producer(got))), r)
  {
    hide Bodies, Call;
    match s.p
    case PCall(id, obj) => CallInserts(s, id, obj);
    case PInsert(body) => BodiesMore(s.log.inserted, Msg(|s.log.inserted|, body));
    case PFetch =>
    case PDone =>
    case PLoop =>
    case PAwait =>
    case PLock(_) =>
    case PTotal =>
    case PUnlock =>
    case PCommand(_) =>
    case PReply =>
    case PForget(_) =>
    case PErase(_) =>
    case PCount =>
    case PSucc =>
  }

  lemma CallInserts(s: State, id: nat, obj: Obj)
    ensures Call(s, id, obj).log.inserted == s.log.inserted && Call(s, id, obj).td.isAuth == s.td.isAuth
    ensures InHand(Call(s, id, obj).p) == []
  {}

  lemma PausedMore(cs: seq<ChatCommand>, c: ChatCommand)
    ensures PausedBy(cs + [c]) <==> (c == Pause || (c != Resume && PausedBy(cs)))
  {
    var ds := cs + [c];
    if i :| 0 <= i < |cs| && cs[i] == Pause && forall j | i < j < |cs| :: cs[j] != Resume {
      assert ds[i] == Pause;
    }
    if c == Pause { assert ds[|cs|] == Pause; }
    if i :| 0 <= i < |ds| && ds[i] == Pause && forall j | i < j < |ds| :: ds[j] != Resume {
      assert i < |cs| ==> cs[i] == Pause && forall j | i < j < |cs| :: cs[j] == ds[j];
      assert ds[|cs|] == c;
    }
  }

  lemma FiltersMore(env: Env, filters: string, cs: seq<ChatCommand>, c: ChatCommand)
    ensures FiltersBy(env, filters, cs + [c]) ==
      if c.EditFilters? then env.edit(c.text, FiltersBy(env, filters, cs)) else FiltersBy(env, filters, cs)
  {
    assert (cs + [c])[..|cs|] == cs;
  }

  lemma LastSplit<T>(s: seq<T>)
    requires s != []
    ensures s == WithoutLast(s) + [s[|s| - 1]]
  {}

  lemma LastAdded<T>(s: seq<T>, x: T)
    ensures WithoutLast(s + [x]) == s && (s + [x])[|s|] == x && s + [] == s
  {}

  lemma CommandsStep(env: Env, filters: string, h: History, s: State, got: Fetched, r: State)
    requires CommandsExplained(env, filters, h, s) && StepP(env, s, got) == Some(r)
    ensures CommandsExplained(env, filters, Plus(h, BroughtBy(s, Producer(got))), r)
  {
    hide PausedBy, FiltersBy, WithoutLast;
    assert h.commands + [] == h.commands;
    match s.p
    case PFetch => if got.NewMessage? { LastAdded(h.commands, got.cmd); }
    case PCommand(cmd) =>
      LastSplit(h.commands);
      PausedMore(WithoutLast(h.commands), cmd);
      FiltersMore(env, filters, WithoutLast(h.commands), cmd);
    case PDone =>
    case PLoop =>
    case PAwait =>
    case PLock(_) =>
    case PInsert(_) =>
    case PTotal =>
    case PUnlock =>
    case PReply =>
    case PCall(_, _) =>
    case PForget(_) =>
    case PErase(_) =>
    case PCount =>
    case PSucc =>
  }

  lemma AnswersMore(tgfid: int, ans: seq<Answer>, a: Answer)
    ensures ChatBy(tgfid, ans + [a]) ==
      if a.cbfn == OnCreate && a.obj.ObjChat? then a.obj.id
      else if a.cbfn == OnCollect && a.obj == ObjNoChat then -1 else ChatBy(tgfid, ans)
    ensures IdsOf(ans + [a]) == IdsOf(ans) + multiset{a.id}
    ensures Confirmed(ans + [a]) == Confirmed(ans) + if a.cbfn == OnCollect && a.obj == ObjMessage then [a.id] else []
  {
    assert (ans + [a])[..|ans|] == ans;
  }

  lemma CallStep(tgfid: int, h: History, s: State)
    requires AnswersExplained(tgfid, h, s) && s.p.PCall?
    ensures AnswersExplained(tgfid, h, Call(s, s.p.id, s.p.obj))
  {
    hide ChatBy, IdsOf, Confirmed, WithoutLast;
    LastSplit(h.answers);
    AnswersMore(tgfid, WithoutLast(h.answers), h.answers[|h.answers| - 1]);
  }

  lemma AnswersStep(env: Env, tgfid: int, h: History, s: State, got: Fetched, r: State)
    requires AnswersExplained(tgfid, h, s) && StepP(env, s, got) == Some(r)
    ensures AnswersExplained(tgfid, Plus(h, BroughtBy(s, Producer(got))), r)
  {
    hide ChatBy, IdsOf, Confirmed, WithoutLast, Call;
    assert h.answers + [] == h.answers;
    match s.p
    case PFetch =>
      if got.Response? && got.id in s.td.req.cb { LastAdded(h.answers, Answer(got.id, s.td.req.cb[got.id], got.obj)); }
    case PCall(_, _) => CallStep(tgfid, h, s);
    case PForget(_) =>
      LastSplit(h.answers);
      AnswersMore(tgfid, WithoutLast(h.answers), h.answers[|h.answers| - 1]);
    case PDone =>
    case PLoop =>
    case PAwait =>
    case PLock(_) =>
    case PInsert(_) =>
    case PTotal =>
    case PUnlock =>
    case PCommand(_) =>
    case PReply =>
    case PErase(_) =>
    case PCount =>
    case PSucc =>
  }

  lemma ExplainedStep(env: Env, filters: string, tgfid: int, h: History, s: State, a: Act, r: State)
    requires Ctl(s) && Explained(env, filters, tgfid, h, s) && Do(env, s, a) == Some(r)
    ensures Explained(env, filters, tgfid, Plus(h, BroughtBy(s, a)), r)
  {
    hide MessagesExplained, CommandsExplained, AnswersExplained, StepP, StepC, StepS, StepI, StepH, Ctl;
    if a.Producer? {
      MessagesStep(env, h, s, a.got, r);
      CommandsStep(env, filters, h, s, a.got, r);
      AnswersStep(env, tgfid, h, s, a.got, r);
    } else {
      OthersAside(env, s, a, r);
      AsideExplained(env, filters, tgfid, h, s, r);
      PlusNothing(h);
    }
  }

  lemma PlusNothing(h: History)
    ensures Plus(h, NOTHING) == h
  {}

  lemma ExplainedInit(env: Env, hint: Bit, filters: string, tgfid: int)
    ensures Explained(env, filters, tgfid, NOTHING, Init(hint, filters, tgfid))
  {
    assert !PausedBy([]);
  }

  /**
    In every run from start-up, whatever the schedule and however often the collector was restarted:
    the messages put into the queue, and the one in the producer's hand, are in order those received
    from other chats than the own one of the moment; forwarding is paused if a pause command came from
    the own chat and no resume since; the stored filters are the first ones edited by the commands from
    there; a login is known if one was reported; the chat id is that of the last chat created unless it
    was found gone; and as many messages count as sent as were confirmed.
  */
  lemma {:induction false} StateIsHistory(env: Env, hint: Bit, filters: string, tgfid: int, acts: seq<Act>, r: State)
    requires env.atomicSpawn && Exec(env, Init(hint, filters, tgfid), acts) == Some(r)
    ensures Explained(env, filters, tgfid, Received(env, Init(hint, filters, tgfid), acts), r)
  {
    hide Explained, Do, Ctl, BroughtBy;
    var s0 := Init(hint, filters, tgfid);
    if acts == [] {
      ExplainedInit(env, hint, filters, tgfid);
    } else {
      var n := |acts| - 1;
      var before := Exec(env, s0, acts[..n]).value;
      StateIsHistory(env, hint, filters, tgfid, acts[..n], before);
      CtlInit(hint, filters, tgfid);
      CtlExec(env, s0, acts[..n], before);
      ExplainedStep(env, filters, tgfid, Received(env, s0, acts[..n]), before, acts[n], r);
    }
  }

  // ---- and what goes out for it ----

  function SentFor(ops: seq<TableOp>, cbfn: Callback): nat {
    if ops == [] then 0 else SentFor(ops[..|ops| - 1], cbfn) + Flag(ops[|ops| - 1] == SendOp(Some(cbfn)))
  }

  lemma {:induction false} SentConcat(a: seq<TableOp>, b: seq<TableOp>, cbfn: Callback)
    ensures SentFor(a + b, cbfn) == SentFor(a, cbfn) + SentFor(b, cbfn)
  {
    if b == [] {
      assert a + b == a;
    } else {
      SentConcat(a, b[..|b| - 1], cbfn);
      assert (a + b)[..|a + b| - 1] == a + b[..|b| - 1];
    }
  }

  lemma SentOne(op: TableOp, op': TableOp, cbfn: Callback)
    ensures SentFor([], cbfn) == 0 && SentFor([op], cbfn) == Flag(op == SendOp(Some(cbfn)))
    ensures SentFor([op, op'], cbfn) == Flag(op == SendOp(Some(cbfn))) + Flag(op' == SendOp(Some(cbfn)))
  {
    assert [op][..0] == [] && [op, op'][..1] == [op];
  }

  /** Commands received and not yet replied to. */
  function Unreplied(pc: PPc): nat { Flag(pc.PCommand? || pc.PReply?) }

  lemma ReplyStep(env: Env, s: State, a: Act, r: State)
    requires Ctl(s) && Do(env, s, a) == Some(r)
    ensures SentFor(StepOps(s, a), OnReply) + Unreplied(r.p) == Unreplied(s.p) + |BroughtBy(s, a).commands|
  {
    hide SentFor, Ctl, StepC, StepS, StepI, StepH;
    SentNothing(s, a);
    if a.Producer? {
      ReplyProducer(env, s, a.got, r);
    } else {
      OthersAside(env, s, a, r);
    }
  }

  lemma SentNothing(s: State, a: Act)
    ensures !a.Producer? ==> SentFor(StepOps(s, a), OnReply) == 0
  {
    SentOne(SendOp(Some(OnCreate)), SendOp(None), OnReply);
    SentOne(SendOp(Some(OnCollect)), SendOp(None), OnReply);
    SentOne(SendOp(None), SendOp(None), OnReply);
  }

  lemma ReplyProducer(env: Env, s: State, got: Fetched, r: State)
    requires StepP(env, s, got) == Some(r)
    ensures SentFor(StepOps(s, Producer(got)), OnReply) + Unreplied(r.p) == Unreplied(s.p) + |BroughtBy(s, Producer(got)).commands|
  {
    hide SentFor;
    SentOne(SendOp(Some(OnReply)), SendOp(None), OnReply);
    SentOne(SendOp(Some(OnAuth)), SendOp(None), OnReply);
    if s.p.PErase? { SentOne(EraseOp(s.p.id), SendOp(None), OnReply); }
    match s.p
    case PDone =>
    case PLoop =>
    case PAwait =>
    case PFetch =>
    case PLock(_) =>
    case PInsert(_) =>
    case PTotal =>
    case PUnlock =>
    case PCommand(_) =>
    case PReply =>
    case PCall(_, _) =>
    case PForget(_) =>
    case PErase(_) =>
    case PCount =>
    case PSucc =>
  }

  /** In every run each command received from the own chat is replied to exactly once, up to the one in hand. */
  lemma {:induction false} EveryCommandReplied(env: Env, hint: Bit, filters: string, tgfid: int, acts: seq<Act>, r: State)
    requires env.atomicSpawn && Exec(env, Init(hint, filters, tgfid), acts) == Some(r)
    ensures var s0 := Init(hint, filters, tgfid);
      SentFor(RunOps(env, s0, acts), OnReply) + Unreplied(r.p) == |Received(env, s0, acts).commands|
  {
    hide Do, Ctl, BroughtBy, StepOps, SentFor;
    var s0 := Init(hint, filters, tgfid);
    if acts == [] {
      SentOne(SendOp(None), SendOp(None), OnReply);
    } else {
      var n := |acts| - 1;
      var before := Exec(env, s0, acts[..n]).value;
      EveryCommandReplied(env, hint, filters, tgfid, acts[..n], before);
      CtlInit(hint, filters, tgfid);
      CtlExec(env, s0, acts[..n], before);
      ReplyStep(env, before, acts[n], r);
      SentConcat(RunOps(env, s0, acts[..n]), StepOps(before, acts[n]), OnReply);
    }
  }
}
