/**
  The collector as a protocol: the producer, consumer and switcher threads, the initer that starts
  and joins them, and the command handler.  One program counter per thread, one step per atomic
  load, store, wait, lock or unlock (src/worker, src/td_coll.cc).

  A counter is named after what the thread does next.  `wait (v)` is a guarded step; a step that
  cannot be taken is None.  Fields of `Log` are history only: no step reads them.
*/
module Collector {
  import opened Prelude
  import opened TgMessage
  import opened TdRequests

  /**
    What the protocol takes from outside: whether a stored filter text collects a message, what a
    chat command makes of that text, and whether starting the initer thread and its store to
    coll_initer_up (src/worker/coll_initer.cc:27) are one step.
  */
  datatype Env = Env(decide: (string, TgMsg) -> bool, edit: (string, string) -> string, atomicSpawn: bool)

  /** A message in `mq`; the serial is the place of its insertion in the whole run. */
  datatype Msg = Msg(serial: nat, body: TgMsg)

  datatype Fate = Own | Filtered | Forwarded(id: nat) | Discarded

  /** A message taken out of `mq`, what became of it, and the filter text it was decided under. */
  datatype Handled = Handled(msg: Msg, fate: Fate, under: string)

  type Batch = seq<Handled>

  /** A message handed to TDLib by collect_msg, with the id written into it. */
  datatype Sent = Sent(id: nat, msg: Msg)

  datatype Holder = Free | ByProducer | ByConsumer | BySwitcher | ByHandler

  // ---- what comes from outside ----

  /** An object TDLib answers a request with, as far as the callbacks tell them apart. */
  datatype Obj = ObjMessage | ObjChat(id: int) | ObjNoChat | ObjOther

  datatype ChatCommand = NoCommand | Pause | Resume | EditFilters(text: string) | OtherCommand

  /** What one `receive` call returns. */
  datatype Fetched =
    | Nothing
    | AuthReady
    | AuthParameters
    | OtherUpdate
    | NewMessage(chat: int, body: TgMsg, cmd: ChatCommand)
    | Response(id: nat, obj: Obj)

  datatype Command = UpColl | Shutdown(srv: bool) | ReportStatus | Ignore

  // ---- program counters ----

  datatype PPc =
    | PDone | PLoop | PAwait | PFetch
    | PLock(body: TgMsg) | PInsert(body: TgMsg) | PTotal | PUnlock
    | PCommand(cmd: ChatCommand) | PReply
    | PCall(id: nat, obj: Obj) | PForget(id: nat) | PErase(id: nat)
    | PCount | PSucc

  datatype CPc =
    | CDone | CLoop | CAwait | CValid | CTried(valid: bool)
    | CChkAuth | CChkValid | CChkTried | CSetTried | CCreate
    | CLock | CSize | CIter(it: nat) | CDecide(it: nat) | CCollect(it: nat, under: string)
    | CClear(it: nat) | CUnlock | CCount | CLower | CSucc

  datatype SPc =
    | SDone | SLoop | SPause | SFlag | SLock | SSize | SRaise | SUnlock | SCount
    | SStopP | SWaitP | SForce | SStopC | SWaitC | SSucc

  datatype IPc =
    | IGone | IStart | IHint | ITry | IAuth | IInit | ISpawnP | ISpawnC | ISpawnS
    | IAwait | IStopS | IWaitS | IJoinS | IJoinC | IJoinP | ISucc | IDown

  datatype HPc =
    | HIdle | HUpLoad | HReset(k: nat) | HSpawn | HReply
    | HStopLoad(srv: bool) | HStopTry(srv: bool) | HStopSelf | HStopWait(srv: bool) | HStopReply(srv: bool)
    | HStatLock | HStatUnlock

  // ---- state ----

  /** An atomic<bool>, or a plain flag the threads share. */
  datatype Bit = Off | On

  function ToBit(b: bool): Bit { if b then On else Off }

  /** The flags of namespace tryshutwk that concern the collector, and coll_initer_up. */
  datatype Flags = Flags(
    initerUp: Bit,
    tryProducer: Bit, producerSucc: Bit,
    tryConsumer: Bit, consumerSucc: Bit,
    trySwitcher: Bit, switcherSucc: Bit,
    tryIniter: Bit, initerSucc: Bit)

  /** The fields of TdCollector and the stored chat id. */
  datatype Td = Td(isAuth: Bit, tried: Bit, tgfid: int, req: Requests, msgColl: nat)

  datatype Log = Log(
    inserted: seq<Msg>,          // every message ever put into mq, oldest first
    past: seq<seq<Batch>>,       // the batches of each earlier session
    batches: seq<Batch>,         // the closed batches of this session
    cur: Batch,                  // what the consumer has handled of the open batch
    outbox: seq<Sent>,           // what this session's consumer has handed to TDLib
    raises: nat,                 // raises of the hand-over flag by the switcher's loop
    queries: nat,                // requests sent
    creates: nat, resets: nat,   // chat creations sent, "no such chat" answers
    collectIds: set<nat>,        // ids given out by collect_msg, and how many calls there were
    collects: nat,
    acked: set<nat>,             // of those, the ones TDLib confirmed
    ran: multiset<nat>)          // ids whose callback ran

  datatype State = State(
    fl: Flags, doCsm: Bit, pause: Bit, lock: Holder,
    mq: seq<Msg>, total: nat, hint: Bit, filters: string, td: Td, cnt: nat,
    h: HPc, i: IPc, p: PPc, c: CPc, s: SPc,
    log: Log)

  /** The program after start-up (src/stat.cc); the stored chat id, filters and hint are arbitrary. */
  function Init(hint: Bit, filters: string, tgfid: int): State {
    State(
      Flags(Off, Off, Off, Off, Off, Off, Off, Off, Off), Off, Off, Free,
      [], 0, hint, filters, Td(Off, Off, tgfid, Requests(0, map[]), 0), 0,
      HIdle, IGone, PDone, CDone, SDone,
      Log([], [], [], [], [], 0, 0, 0, 0, {}, 0, {}, multiset{}))
  }

  /** A request goes out; with a callback it is registered under the new id. */
  function SendQuery(s: State, cbfn: Option<Callback>): State {
    s.(td := s.td.(req := Send(s.td.req, cbfn)), log := s.log.(queries := s.log.queries + 1))
  }

  // ---- the producer (src/worker/coll_producer.cc, TdCollector::fetch_updates) ----

  function StepP(env: Env, s: State, got: Fetched): Option<State> {
    match s.p
    case PDone => None
    case PLoop => Some(s.(p := if s.fl.tryProducer.On? then PSucc else PAwait))
    case PAwait => if s.doCsm.On? then None else Some(s.(p := PFetch))
    case PFetch => Some(Receive(s, got))
    case PLock(body) => if s.lock.Free? then Some(s.(lock := ByProducer, p := PInsert(body))) else None
    case PInsert(body) =>
      var m := Msg(|s.log.inserted|, body);
      Some(s.(mq := [m] + s.mq, p := PTotal, log := s.log.(inserted := s.log.inserted + [m])))
    case PTotal => Some(s.(total := (s.total + 1) % U32, p := PUnlock))
    case PUnlock => Some(s.(lock := Free, p := PCount))
    case PCommand(cmd) => Some(Run(env, s, cmd).(p := PReply))
    case PReply => Some(SendQuery(s, Some(OnReply)).(p := PCount))
    case PCall(id, obj) => Some(Call(s, id, obj))
    case PForget(id) => Some(s.(td := s.td.(tgfid := -1), p := PErase(id)))
    case PErase(id) => Some(s.(td := s.td.(req := Forget(s.td.req, id)), p := PCount))
    case PCount => Some(s.(p := PLoop))
    case PSucc => Some(s.(fl := s.fl.(producerSucc := On), p := PDone))
  }

  function Receive(s: State, got: Fetched): State {
    match got
    case Nothing => s.(p := PCount)
    case OtherUpdate => s.(p := PCount)
    case AuthReady => s.(td := s.td.(isAuth := On), p := PCount)
    case AuthParameters => SendQuery(s, Some(OnAuth)).(p := PCount)
    case NewMessage(chat, body, cmd) =>
      if chat != s.td.tgfid then s.(p := PLock(body))
      else if cmd == NoCommand then s.(p := PCount)
      else s.(p := PCommand(cmd))
    case Response(id, obj) =>
      s.(p := if id != 0 && id in s.td.req.cb then PCall(id, obj) else PCount)
  }

  function Run(env: Env, s: State, cmd: ChatCommand): State {
    match cmd
    case Pause => s.(pause := On)
    case Resume => s.(pause := Off)
    case EditFilters(text) => s.(filters := env.edit(text, s.filters))
    case _ => s
  }

  /** The callbacks registered by collect_msg and try_create_tgfchat; the others only log. */
  function Call(s: State, id: nat, obj: Obj): State {
    var s := s.(log := s.log.(ran := s.log.ran + multiset{id}), p := PErase(id));
    if id !in s.td.req.cb then s
    else if s.td.req.cb[id] == OnCollect && obj == ObjMessage then
      s.(td := s.td.(msgColl := (s.td.msgColl + 1) % U32), log := s.log.(acked := s.log.acked + {id}))
    else if s.td.req.cb[id] == OnCollect && obj == ObjNoChat then
      s.(td := s.td.(tried := Off), log := s.log.(resets := s.log.resets + 1), p := PForget(id))
    else if s.td.req.cb[id] == OnCreate && obj.ObjChat? then s.(td := s.td.(tgfid := obj.id))
    else s
  }

  // ---- the consumer (src/worker/coll_consumer.cc, TdCollector::try_create_tgfchat) ----

  function StepC(env: Env, s: State): Option<State> {
    match s.c
    case CDone => None
    case CLoop => Some(s.(c := if s.fl.tryConsumer.On? then CSucc else CAwait))
    case CAwait => if s.doCsm.On? then Some(s.(c := CValid)) else None
    case CValid => Some(s.(c := CTried(s.td.tgfid != -1)))
    case CTried(valid) => Some(s.(c := if !valid && !s.td.tried.On? then CChkAuth else CLock))
    case CChkAuth => Some(s.(c := if s.td.isAuth.On? then CChkValid else CLoop))
    case CChkValid => Some(s.(c := if s.td.tgfid == -1 then CChkTried else CLoop))
    case CChkTried => Some(s.(c := if !s.td.tried.On? then CSetTried else CLoop))
    case CSetTried => Some(s.(td := s.td.(tried := On), c := CCreate))
    case CCreate =>
      var s := SendQuery(s, Some(OnCreate));
      Some(s.(c := CLoop, log := s.log.(creates := s.log.creates + 1)))
    case CLock => if s.lock.Free? then Some(s.(lock := ByConsumer, c := CSize)) else None
    case CSize => Some(s.(c := if |s.mq| > 0 && s.td.tgfid != -1 then CIter(0) else CUnlock))
    case CIter(it) =>
      Some(s.(c := if it < |s.mq| && !s.fl.tryConsumer.On? then CDecide(it) else CClear(it)))
    case CDecide(it) => Some(Decide(env, s, it))
    case CCollect(it, under) => Some(Collect(s, it, under))
    case CClear(it) =>
      var rest := if it <= |s.mq| then s.mq[it..] else [];
      Some(s.(mq := [], c := CUnlock, log := s.log.(batches := s.log.batches + [s.log.cur + Discard(rest)], cur := [])))
    case CUnlock => Some(s.(lock := Free, c := CCount))
    case CCount => Some(s.(c := CLower))
    case CLower => Some(s.(doCsm := Off, c := CLoop))
    case CSucc => Some(s.(fl := s.fl.(consumerSucc := On), c := CDone))
  }

  function Discard(ms: seq<Msg>): Batch {
    seq(|ms|, j requires 0 <= j < |ms| => Handled(ms[j], Discarded, ""))
  }

  function Note(s: State, m: Msg, fate: Fate, under: string): State {
    s.(log := s.log.(cur := s.log.cur + [Handled(m, fate, under)]))
  }

  function Decide(env: Env, s: State, it: nat): State {
    if it >= |s.mq| then s
    else if IsFromTgfocus(s.mq[it].body) then Note(s, s.mq[it], Own, s.filters).(c := CIter(it + 1))
    else if env.decide(s.filters, s.mq[it].body) then s.(c := CCollect(it, s.filters))
    else Note(s, s.mq[it], Filtered, s.filters).(c := CIter(it + 1))
  }

  function Collect(s: State, it: nat, under: string): State {
    if it >= |s.mq| then s
    else
      var m := s.mq[it];
      var s := Note(SendQuery(s, Some(OnCollect)), m, Forwarded(s.cnt + 1), under);
      s.(cnt := s.cnt + 1, c := CIter(it + 1),
         log := s.log.(outbox := s.log.outbox + [Sent(s.cnt + 1, m)], collects := s.log.collects + 1,
                       collectIds := s.log.collectIds + {s.td.req.curr}))
  }

  // ---- the switcher (src/worker/coll_switcher.cc) ----

  function StepS(s: State): Option<State> {
    match s.s
    case SDone => None
    case SLoop => Some(s.(s := if s.fl.trySwitcher.On? then SStopP else SPause))
    case SPause => Some(s.(s := if s.pause.On? then SCount else SFlag))
    case SFlag => Some(s.(s := if s.doCsm.On? then SLoop else SLock))
    case SLock => if s.lock.Free? then Some(s.(lock := BySwitcher, s := SSize)) else None
    case SSize => Some(s.(s := if |s.mq| > 0 then SRaise else SUnlock))
    case SRaise => Some(s.(doCsm := On, s := SUnlock, log := s.log.(raises := s.log.raises + 1)))
    case SUnlock => Some(s.(lock := Free, s := SCount))
    case SCount => Some(s.(s := SLoop))
    case SStopP => Some(s.(fl := s.fl.(tryProducer := On), s := SWaitP))
    case SWaitP => if s.fl.producerSucc.On? then Some(s.(s := SForce)) else None
    case SForce => Some(s.(doCsm := On, s := SStopC))
    case SStopC => Some(s.(fl := s.fl.(tryConsumer := On), s := SWaitC))
    case SWaitC => if s.fl.consumerSucc.On? then Some(s.(s := SSucc)) else None
    case SSucc => Some(s.(fl := s.fl.(switcherSucc := On), s := SDone))
  }

  // ---- the initer (src/worker/coll_initer.cc); a jthread joins at the end of its scope ----

  function StepI(s: State): Option<State> {
    match s.i
    case IGone => None
    case IStart => Some(s.(fl := s.fl.(initerUp := On), i := IHint))
    case IHint => Some(s.(i := if s.hint.On? then IAuth else ITry))
    case ITry => Some(s.(i := if s.fl.tryIniter.On? then IAuth else IHint))
    case IAuth => Some(s.(i := if s.hint.On? then IInit else ISucc))
    case IInit => Some(SendQuery(SendQuery(s, None), None).(i := ISpawnP))
    case ISpawnP => Some(s.(p := PLoop, i := ISpawnC))
    case ISpawnC =>
      Some(s.(c := CLoop, cnt := 0, i := ISpawnS,
              log := s.log.(past := s.log.past + [s.log.batches], batches := [], outbox := [])))
    case ISpawnS => Some(s.(s := SLoop, i := IAwait))
    case IAwait => if s.fl.tryIniter.On? then Some(s.(i := IStopS)) else None
    case IStopS => Some(s.(fl := s.fl.(trySwitcher := On), i := IWaitS))
    case IWaitS => if s.fl.switcherSucc.On? then Some(s.(i := IJoinS)) else None
    case IJoinS => if s.s.SDone? then Some(s.(i := IJoinC)) else None
    case IJoinC => if s.c.CDone? then Some(s.(i := IJoinP)) else None
    case IJoinP => if s.p.PDone? then Some(s.(i := ISucc)) else None
    case ISucc => Some(s.(fl := s.fl.(initerSucc := On), i := IDown))
    case IDown => Some(s.(fl := s.fl.(initerUp := Off), i := IGone))
  }

  // ---- the command handler (src/worker/ipc_conn_handler.cc) ----

  const N_RESETS: nat := 8

  /** The k-th of the eight flag stores of UpColl. */
  function ResetFlag(fl: Flags, k: nat): Flags {
    match k
    case 0 => fl.(tryProducer := Off)
    case 1 => fl.(producerSucc := Off)
    case 2 => fl.(tryConsumer := Off)
    case 3 => fl.(consumerSucc := Off)
    case 4 => fl.(trySwitcher := Off)
    case 5 => fl.(switcherSucc := Off)
    case 6 => fl.(tryIniter := Off)
    case _ => fl.(initerSucc := Off)
  }

  function StepH(env: Env, s: State, cmd: Command): Option<State> {
    match s.h
    case HIdle => Some(s.(h := match cmd
                               case UpColl => HUpLoad
                               case Shutdown(srv) => HStopLoad(srv)
                               case ReportStatus => HStatLock
                               case Ignore => HReply))
    case HUpLoad => Some(s.(h := if s.fl.initerUp.On? then HReply else HReset(0)))
    case HReset(k) =>
      Some(s.(fl := ResetFlag(s.fl, k), h := if k + 1 < N_RESETS then HReset(k + 1) else HSpawn))
    case HSpawn =>
      Some(if env.atomicSpawn then s.(fl := s.fl.(initerUp := On), i := IHint, h := HReply)
           else s.(i := IStart, h := HReply))
    case HReply => Some(s.(h := HIdle))
    case HStopLoad(srv) =>
      Some(s.(h := if s.fl.initerUp.On? then HStopTry(srv) else if srv then HStopSelf else HStopReply(srv)))
    case HStopTry(srv) => Some(s.(fl := s.fl.(tryIniter := On), h := HStopWait(srv)))
    case HStopSelf => Some(s.(fl := s.fl.(initerSucc := On), h := HStopWait(true)))
    case HStopWait(srv) => if s.fl.initerSucc.On? then Some(s.(h := HStopReply(srv))) else None
    case HStopReply(_) => Some(s.(h := HIdle))
    case HStatLock => if s.lock.Free? then Some(s.(lock := ByHandler, h := HStatUnlock)) else None
    case HStatUnlock => Some(s.(lock := Free, h := HReply))
  }

  // ---- runs ----

  /** One step of one thread; Hint is the login process rewriting the auth hint. */
  datatype Act = Producer(got: Fetched) | Consumer | Switcher | Initer | Handler(cmd: Command) | Hint(b: Bit)

  predicate IsWorker(a: Act) {
    a.Producer? || a.Consumer? || a.Switcher?
  }

  function Do(env: Env, s: State, a: Act): Option<State> {
    match a
    case Producer(got) => StepP(env, s, got)
    case Consumer => StepC(env, s)
    case Switcher => StepS(s)
    case Initer => StepI(s)
    case Handler(cmd) => StepH(env, s, cmd)
    case Hint(b) => Some(s.(hint := b))
  }

  /** The state after a whole schedule, or None when one of its steps could not be taken. */
  function Exec(env: Env, s: State, acts: seq<Act>): Option<State> {
    if acts == [] then Some(s)
    else
      var before := Exec(env, s, acts[..|acts| - 1]);
      if before == None then None else Do(env, before.value, acts[|acts| - 1])
  }

  lemma ExecThen(env: Env, s: State, acts: seq<Act>, a: Act)
    requires Exec(env, s, acts).Some?
    ensures Exec(env, s, acts + [a]) == Do(env, Exec(env, s, acts).value, a)
  {
    assert (acts + [a])[..|acts|] == acts;
  }

  /** The schedule can be followed, and P holds in every state it passes, both ends included. */
  ghost predicate Throughout(env: Env, s: State, acts: seq<Act>, P: State -> bool) {
    forall k | 0 <= k <= |acts| :: Exec(env, s, acts[..k]).Some? && P(Exec(env, s, acts[..k]).value)
  }

  lemma ThroughoutPrefix(env: Env, s: State, acts: seq<Act>, P: State -> bool)
    requires acts != [] && Throughout(env, s, acts, P)
    ensures Throughout(env, s, acts[..|acts| - 1], P)
    ensures Exec(env, s, acts).Some? && P(Exec(env, s, acts).value)
  {
    var n := |acts| - 1;
    assert acts[..n + 1] == acts;
    forall k | 0 <= k <= n
      ensures Exec(env, s, acts[..n][..k]).Some? && P(Exec(env, s, acts[..n][..k]).value)
    {
      assert acts[..n][..k] == acts[..k];
    }
  }

  ghost predicate Reachable(env: Env, s: State) {
    exists hint, filters, tgfid, acts :: Exec(env, Init(hint, filters, tgfid), acts) == Some(s)
  }
}
