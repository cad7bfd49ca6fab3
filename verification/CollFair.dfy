/**
  Fair runs.  In an infinite run that never passes over a thread for good, a shutdown is answered,
  unless the producer gets jammed or the wake-up of the consumer is lost; there is no third way to hang.
*/
module CollFair {
  import opened Prelude
  import opened Collector
  import opened CollControl
  import opened CollLog
  import opened CollStop
  import opened CollJam

  // ---- infinite runs ----

  /** The states of a run and the steps between them; where nothing else moves, the hint does. */
  ghost predicate IsRun(env: Env, st: nat -> State, act: nat -> Act) {
    forall k: nat :: Do(env, st(k), act(k)) == Some(st(k + 1))
  }

  datatype Thread = ProducerThread | ConsumerThread | SwitcherThread | IniterThread | HandlerThread

  function ThreadOf(a: Act): Option<Thread> {
    match a
    case Producer(_) => Some(ProducerThread)
    case Consumer => Some(ConsumerThread)
    case Switcher => Some(SwitcherThread)
    case Initer => Some(IniterThread)
    case Handler(_) => Some(HandlerThread)
    case Hint(_) => None
  }

  /** The thread can take its next step; an idle handler need not get a command. */
  predicate Enabled(s: State, t: Thread) {
    match t
    case ProducerThread => CanP(s)
    case ConsumerThread => CanC(s)
    case SwitcherThread => CanS(s)
    case IniterThread => StepI(s).Some?
    case HandlerThread => !s.h.HIdle? && (s.h.HStopWait? ==> s.fl.initerSucc.On?) && (s.h.HStatLock? ==> s.lock.Free?)
  }

  ghost predicate TakenFrom(act: nat -> Act, t: Thread, i: nat) {
    exists j: nat :: i <= j && ThreadOf(act(j)) == Some(t)
  }

  ghost predicate EnabledFrom(st: nat -> State, t: Thread, i: nat) {
    exists j: nat :: i <= j && Enabled(st(j), t)
  }

  ghost predicate TakenOrNot(st: nat -> State, act: nat -> Act, t: Thread, i: nat) {
    exists j: nat :: i <= j && (ThreadOf(act(j)) == Some(t) || !Enabled(st(j), t))
  }

  /** A thread that stays able to move is taken at some time. */
  ghost predicate WeaklyFair(st: nat -> State, act: nat -> Act) {
    forall t: Thread, i: nat :: TakenOrNot(st, act, t, i)
  }

  /** The switcher, which waits for a lock that others take in turn, gets it at some time. */
  ghost predicate LockFair(st: nat -> State, act: nat -> Act) {
    (forall i: nat :: EnabledFrom(st, SwitcherThread, i)) ==> forall i: nat :: TakenFrom(act, SwitcherThread, i)
  }

  lemma RunStep(env: Env, st: nat -> State, act: nat -> Act, k: nat)
    requires IsRun(env, st, act)
    ensures Do(env, st(k), act(k)) == Some(st(k + 1))
  {}

  lemma {:induction false} RunInv(env: Env, st: nat -> State, act: nat -> Act, k: nat)
    requires env.atomicSpawn && IsRun(env, st, act) && Inv(env, st(0))
    ensures Inv(env, st(k))
  {
    hide Inv, Do;
    if k > 0 {
      RunInv(env, st, act, k - 1);
      RunStep(env, st, act, k - 1);
      InvStep(env, st(k - 1), act(k - 1), st(k));
    }
  }

  // ---- a session whose producer has been told to leave ----

  predicate Ended(s: State) { Idle(s) || Jammed(s) || Lost(s) }

  /** Until it has ended, only its workers move. */
  lemma OnlyWorkers(env: Env, s: State, a: Act, r: State)
    requires Ctl(s) && BeingStopped(s) && !Idle(s) && Do(env, s, a) == Some(r)
    ensures IsWorker(a) || a.Hint?
  {}

  /** What the workers leave alone. */
  predicate Aside(s: State, r: State) {
    && r.h == s.h && r.i == s.i && r.fl.tryIniter == s.fl.tryIniter && r.fl.trySwitcher == s.fl.trySwitcher
    && r.fl.initerSucc == s.fl.initerSucc && (BeingStopped(s) ==> BeingStopped(r))
  }

  lemma SwitcherKeeps(s: State, r: State)
    requires StepS(s) == Some(r)
    ensures Aside(s, r) && r.p == s.p && r.c == s.c && r.mq == s.mq
  {
    match s.s
    case SDone =>
    case SLoop =>
    case SPause =>
    case SFlag =>
    case SLock =>
    case SSize =>
    case SRaise =>
    case SUnlock =>
    case SCount =>
    case SStopP =>
    case SWaitP =>
    case SForce =>
    case SStopC =>
    case SWaitC =>
    case SSucc =>
  }

  lemma WorkersKeep(env: Env, s: State, a: Act, r: State)
    requires Ctl(s) && (IsWorker(a) || a.Hint?) && Do(env, s, a) == Some(r)
    ensures Aside(s, r)
  {
    hide StepP, StepC, StepS;
    match a
    case Producer(got) => ProducerMovesSo(env, s, got, r);
    case Consumer => ConsumerMovesSo(env, s, r);
    case Switcher => SwitcherKeeps(s, r);
    case Hint(_) =>
  }

  /** Steps of producer and switcher that are left; the consumer has no part in them. */
  function OthersLeft(s: State): nat { RankP(s.p) + RankS(s.s) }

  predicate IsOther(a: Act) { a.Producer? || a.Switcher? }

  lemma OthersStep(env: Env, s: State, a: Act, r: State)
    requires Ctl(s) && BeingStopped(s) && IsOther(a) && Do(env, s, a) == Some(r)
    ensures OthersLeft(r) < OthersLeft(s)
  {
    if a.Producer? { ProducerLowers(env, s, a.got, r); } else { SwitcherLowers(s, r); }
  }

  /** A consumer that has a login, a chat or a stop flag comes nearer to its end with each step. */
  lemma ConsumerStep(env: Env, s: State, r: State)
    requires Inv(env, s) && !AtSpin(s) && StepC(env, s) == Some(r)
    ensures r.p == s.p && r.s == s.s && Turns(r) < Turns(s)
  {
    ConsumerMovesSo(env, s, r);
    TurnsLower(env, s, r);
  }

  /** The consumer goes around without lowering the flag. */
  predicate Spinning(s: State) {
    s.doCsm.On? && !s.td.isAuth.On? && !s.td.tried.On? && s.td.tgfid == -1 && TurningBack(s.c) && !s.fl.tryConsumer.On?
  }

  predicate SpunFrom(s: State, r: State) { Spinning(r) && r == s.(c := r.c, hint := r.hint) }

  lemma SpinStep(env: Env, s: State, a: Act, r: State)
    requires Spinning(s) && (a.Consumer? || a.Hint?) && Do(env, s, a) == Some(r)
    ensures SpunFrom(s, r)
  {}

  /** While the consumer spins, producer or switcher can move, unless the producer is jammed. */
  lemma SpinHelped(s: State) returns (t: Thread)
    requires Ctl(s) && BeingStopped(s) && Spinning(s) && !Jammed(s)
    ensures (t.ProducerThread? || t.SwitcherThread?) && Enabled(s, t)
  {
    t := if CanP(s) then ProducerThread else SwitcherThread;
  }

  /** A run with the consumer spinning comes to a step of the producer or the switcher. */
  lemma SpinEnds(env: Env, st: nat -> State, act: nat -> Act, i: nat) returns (k: nat)
    requires env.atomicSpawn && IsRun(env, st, act) && WeaklyFair(st, act) && Inv(env, st(0))
    requires BeingStopped(st(i)) && Spinning(st(i)) && !Jammed(st(i))
    ensures i <= k && IsOther(act(k)) && SpunFrom(st(i), st(k))
  {
    hide Inv, Do, Jammed, Spinning, IsRun, LockFair;
    RunInv(env, st, act, i);
    InvHolds(env, st(i));
    var t := SpinHelped(st(i));
    assert TakenOrNot(st, act, t, i);
    var j: nat :| i <= j && (ThreadOf(act(j)) == Some(t) || !Enabled(st(j), t));
    k := i;
    while k < j && !IsOther(act(k))
      invariant i <= k <= j && SpunFrom(st(i), st(k)) && BeingStopped(st(k))
    {
      SpinsOn(env, st, act, k);
      k := k + 1;
    }
    SpunEnabled(st(i), st(k), t);
  }

  lemma InvHolds(env: Env, s: State)
    requires Inv(env, s)
    ensures Ctl(s) && LogInv(env, s) && AuthInv(s)
  {}

  lemma SpinsOn(env: Env, st: nat -> State, act: nat -> Act, k: nat)
    requires env.atomicSpawn && IsRun(env, st, act) && Inv(env, st(0))
    requires Spinning(st(k)) && BeingStopped(st(k)) && !IsOther(act(k))
    ensures SpunFrom(st(k), st(k + 1)) && BeingStopped(st(k + 1))
  {
    hide Inv, Do, IsRun;
    RunInv(env, st, act, k);
    InvHolds(env, st(k));
    RunStep(env, st, act, k);
    OnlyWorkers(env, st(k), act(k), st(k + 1));
    SpinStep(env, st(k), act(k), st(k + 1));
  }

  lemma SpunEnabled(s: State, r: State, t: Thread)
    requires SpunFrom(s, r) && (t.ProducerThread? || t.SwitcherThread?)
    ensures Enabled(s, t) <==> Enabled(r, t)
  {}

  /** A run in which some worker can move comes to a step of a worker, with nothing but the hint changed. */
  lemma WorkerMoves(env: Env, st: nat -> State, act: nat -> Act, i: nat) returns (k: nat)
    requires env.atomicSpawn && IsRun(env, st, act) && WeaklyFair(st, act) && Inv(env, st(0))
    requires BeingStopped(st(i)) && !Idle(st(i)) && !Stuck(st(i))
    ensures i <= k && IsWorker(act(k)) && st(k) == st(i).(hint := st(k).hint)
  {
    hide Inv, Do, IsRun;
    var t := if CanP(st(i)) then ProducerThread else if CanC(st(i)) then ConsumerThread else SwitcherThread;
    assert TakenOrNot(st, act, t, i);
    var j: nat :| i <= j && (ThreadOf(act(j)) == Some(t) || !Enabled(st(j), t));
    k := i;
    while k < j && !IsWorker(act(k))
      invariant i <= k <= j && st(k) == st(i).(hint := st(k).hint)
    {
      OnlyHint(env, st, act, k);
      k := k + 1;
    }
    HintEnables(st(i), st(k), t);
  }

  lemma OnlyHint(env: Env, st: nat -> State, act: nat -> Act, k: nat)
    requires env.atomicSpawn && IsRun(env, st, act) && Inv(env, st(0))
    requires BeingStopped(st(k)) && !Idle(st(k)) && !IsWorker(act(k))
    ensures st(k + 1) == st(k).(hint := st(k + 1).hint)
  {
    hide Inv, Do, IsRun;
    RunInv(env, st, act, k);
    InvHolds(env, st(k));
    RunStep(env, st, act, k);
    OnlyWorkers(env, st(k), act(k), st(k + 1));
    HintStep(env, st(k), act(k), st(k + 1));
  }

  lemma HintEnables(s: State, r: State, t: Thread)
    requires r == s.(hint := r.hint) && !t.IniterThread?
    ensures Enabled(s, t) <==> Enabled(r, t)
  {}

  lemma HintStep(env: Env, s: State, a: Act, r: State)
    requires a.Hint? && Do(env, s, a) == Some(r)
    ensures r == s.(hint := r.hint)
  {}

  lemma WorkerLowers(env: Env, s: State, a: Act, r: State)
    requires Inv(env, s) && BeingStopped(s) && IsWorker(a) && Do(env, s, a) == Some(r)
    requires IsOther(a) || !Spinning(s)
    ensures if IsOther(a) then OthersLeft(r) < OthersLeft(s) else OthersLeft(r) == OthersLeft(s) && Turns(r) < Turns(s)
  {
    hide LogInv, Turns, StepP, StepC, StepS;
    if IsOther(a) {
      OthersStep(env, s, a, r);
    } else {
      if AtSpin(s) { SpinsAtCheck(s); }
      ConsumerStep(env, s, r);
    }
  }

  lemma SpinsAtCheck(s: State)
    requires Ctl(s) && AtSpin(s)
    ensures Spinning(s)
  {}

  lemma HintLowersNothing(s: State, r: State)
    requires r == s.(hint := r.hint)
    ensures OthersLeft(r) == OthersLeft(s) && Turns(r) == Turns(s) && (Spinning(s) <==> Spinning(r)) && (Ended(s) <==> Ended(r))
  {}

  lemma NotStuck(env: Env, s: State)
    requires Inv(env, s) && BeingStopped(s) && !Ended(s)
    ensures !Stuck(s)
  {}

  lemma OthersKept(s: State, r: State)
    requires SpunFrom(s, r)
    ensures OthersLeft(r) == OthersLeft(s)
  {}

  /**
    In every weakly fair run, with or without a login, a session whose producer has been told to leave
    comes to its end: all workers out, or the producer jammed, or the wake-up lost.
  */
  lemma {:induction false} StopEnds(env: Env, st: nat -> State, act: nat -> Act, i: nat) returns (n: nat)
    requires env.atomicSpawn && IsRun(env, st, act) && WeaklyFair(st, act) && Inv(env, st(0)) && BeingStopped(st(i))
    ensures i <= n && Ended(st(n)) && BeingStopped(st(n)) && Aside(st(i), st(n))
    decreases OthersLeft(st(i)), Turns(st(i))
  {
    hide Inv, Do, IsRun, WeaklyFair, Turns, OthersLeft, Stuck, Idle, Jammed, Lost, Spinning, SpunFrom;
    RunInv(env, st, act, i);
    if Ended(st(i)) {
      n := i;
    } else {
      var k: nat;
      if Spinning(st(i)) {
        k := SpinEnds(env, st, act, i);
        OthersKept(st(i), st(k));
        SpunAside(st(i), st(k));
      } else {
        NotStuck(env, st(i));
        k := WorkerMoves(env, st, act, i);
        HintLowersNothing(st(i), st(k));
      }
      RunInv(env, st, act, k);
      InvHolds(env, st(k));
      RunStep(env, st, act, k);
      WorkersKeep(env, st(k), act(k), st(k + 1));
      WorkerLowers(env, st(k), act(k), st(k + 1));
      n := StopEnds(env, st, act, k + 1);
    }
  }

  lemma SpunAside(s: State, r: State)
    requires SpunFrom(s, r)
    ensures Aside(s, r)
  {}

  /** Over any schedule, with or without a login, producer and switcher have that many steps and no more. */
  function OtherSteps(acts: seq<Act>): nat {
    if acts == [] then 0 else OtherSteps(acts[..|acts| - 1]) + Flag(IsOther(acts[|acts| - 1]))
  }

  lemma OthersLeftStep(env: Env, s: State, a: Act, r: State)
    requires Ctl(s) && BeingStopped(s) && BeingStopped(r) && Do(env, s, a) == Some(r)
    ensures OthersLeft(r) + Flag(IsOther(a)) <= OthersLeft(s)
  {
    hide StepP, StepC, StepS, StepI;
    match a
    case Producer(_) => OthersStep(env, s, a, r);
    case Consumer => ConsumerMovesSo(env, s, r);
    case Switcher => OthersStep(env, s, a, r);
    case Initer => IniterLeavesWorkers(s, r);
    case Handler(cmd) => HandlerParks(env, s, cmd, r);
    case Hint(_) =>
  }

  lemma {:induction false} OthersBounded(env: Env, s: State, acts: seq<Act>)
    requires env.atomicSpawn && Ctl(s) && Throughout(env, s, acts, BeingStopped)
    ensures Exec(env, s, acts).Some? && OthersLeft(Exec(env, s, acts).value) + OtherSteps(acts) <= OthersLeft(s)
  {
    hide Do, Ctl, OthersLeft;
    if acts != [] {
      var n := |acts| - 1;
      ThroughoutPrefix(env, s, acts, BeingStopped);
      OthersBounded(env, s, acts[..n]);
      var before := Exec(env, s, acts[..n]).value;
      CtlExec(env, s, acts[..n], before);
      assert acts[..n][..n] == acts[..n];
      OthersLeftStep(env, before, acts[n], Exec(env, s, acts).value);
    }
  }

  // ---- a shutdown under way ----

  /** Past its success store the initer has made it, and so has the one a waiting handler found up. */
  predicate AnswerInv(s: State) {
    && (s.i.IDown? ==> s.fl.initerSucc.On?)
    && ((s.h.HStopTry? || s.h.HStopWait?) && s.i.IGone? ==> s.fl.initerSucc.On?)
  }

  lemma AnswerHandler(env: Env, s: State, cmd: Command, r: State)
    requires Ctl(s) && AnswerInv(s) && StepH(env, s, cmd) == Some(r)
    ensures AnswerInv(r)
  {
    match s.h
    case HIdle =>
    case HUpLoad =>
    case HReset(_) =>
    case HSpawn =>
    case HReply =>
    case HStopLoad(_) =>
    case HStopTry(_) =>
    case HStopSelf =>
    case HStopWait(_) =>
    case HStopReply(_) =>
    case HStatLock =>
    case HStatUnlock =>
  }

  lemma AnswerIniter(s: State, r: State)
    requires AnswerInv(s) && StepI(s) == Some(r)
    ensures AnswerInv(r)
  {}

  lemma AnswerStep(env: Env, s: State, a: Act, r: State)
    requires Ctl(s) && AnswerInv(s) && Do(env, s, a) == Some(r)
    ensures AnswerInv(r)
  {
    hide StepP, StepC, StepS, StepI, StepH;
    if a.Handler? {
      AnswerHandler(env, s, a.cmd, r);
    } else if a.Initer? {
      AnswerIniter(s, r);
    } else {
      WorkersKeep(env, s, a, r);
    }
  }

  lemma {:induction false} AnswerExec(env: Env, s: State, acts: seq<Act>, r: State)
    requires env.atomicSpawn && Ctl(s) && AnswerInv(s) && Exec(env, s, acts) == Some(r)
    ensures AnswerInv(r)
  {
    hide Do, Ctl, AnswerInv;
    if acts != [] {
      var n := |acts| - 1;
      var before := Exec(env, s, acts[..n]).value;
      AnswerExec(env, s, acts[..n], before);
      CtlExec(env, s, acts[..n], before);
      AnswerStep(env, before, acts[n], r);
    }
  }

  lemma AnswerReachable(env: Env, s: State)
    requires env.atomicSpawn && Reachable(env, s)
    ensures AnswerInv(s)
  {
    hide Exec, Ctl;
    var hint, filters, tgfid, acts :| Exec(env, Init(hint, filters, tgfid), acts) == Some(s);
    CtlInit(hint, filters, tgfid);
    AnswerExec(env, Init(hint, filters, tgfid), acts, s);
  }

  /** What every state of a run satisfies. */
  predicate Sound(env: Env, s: State) { Inv(env, s) && AnswerInv(s) }

  lemma {:induction false} RunSound(env: Env, st: nat -> State, act: nat -> Act, k: nat)
    requires env.atomicSpawn && IsRun(env, st, act) && Sound(env, st(0))
    ensures Sound(env, st(k))
  {
    hide Inv, Do, AnswerInv;
    if k > 0 {
      RunSound(env, st, act, k - 1);
      RunStep(env, st, act, k - 1);
      InvHolds(env, st(k - 1));
      InvStep(env, st(k - 1), act(k - 1), st(k));
      AnswerStep(env, st(k - 1), act(k - 1), st(k));
    }
  }

  /** The handler waits for the initer's success. */
  predicate Pending(s: State) { s.h.HStopWait? && !s.fl.initerSucc.On? }

  function RankIniter(pc: IPc): nat {
    match pc
    case IStart => 17
    case IHint => 16
    case ITry => 15
    case IAuth => 14
    case IInit => 13
    case ISpawnP => 12
    case ISpawnC => 11
    case ISpawnS => 10
    case IAwait => 9
    case IStopS => 8
    case IWaitS => 7
    case IJoinS => 6
    case IJoinC => 5
    case IJoinP => 4
    case ISucc => 3
    case IDown => 2
    case IGone => 1
  }

  lemma PendingFacts(s: State)
    requires Ctl(s) && AnswerInv(s) && Pending(s)
    ensures s.fl.tryIniter.On? && !s.i.IGone? && !s.i.IDown?
  {}

  lemma IniterLowers(s: State, r: State)
    requires s.fl.tryIniter.On? && StepI(s) == Some(r)
    ensures RankIniter(r.i) < RankIniter(s.i) && r.h == s.h
  {
    match s.i
    case IGone =>
    case IStart =>
    case IHint =>
    case ITry =>
    case IAuth =>
    case IInit =>
    case ISpawnP =>
    case ISpawnC =>
    case ISpawnS =>
    case IAwait =>
    case IStopS =>
    case IWaitS =>
    case IJoinS =>
    case IJoinC =>
    case IJoinP =>
    case ISucc =>
    case IDown =>
  }

  /** The handler waits; the workers leave handler and initer where they are. */
  lemma PendingStep(env: Env, s: State, a: Act, r: State)
    requires Ctl(s) && Pending(s) && !a.Initer? && Do(env, s, a) == Some(r)
    ensures (IsWorker(a) || a.Hint?) && Pending(r) && Aside(s, r)
  {
    hide StepP, StepC, StepS, StepI;
    if !a.Handler? { WorkersKeep(env, s, a, r); }
  }

  lemma IniterStaysEnabled(env: Env, s: State, a: Act, r: State)
    requires Ctl(s) && Pending(s) && Enabled(s, IniterThread) && !a.Initer? && Do(env, s, a) == Some(r)
    ensures Enabled(r, IniterThread)
  {
    hide StepP, StepC, StepS;
    PendingStep(env, s, a, r);
    match a
    case Producer(got) => ProducerMovesSo(env, s, got, r);
    case Consumer => ConsumerMovesSo(env, s, r);
    case Switcher => SwitcherKeeps(s, r); SwitcherSuccStays(s, r);
    case Hint(_) =>
  }

  lemma SwitcherSuccStays(s: State, r: State)
    requires StepS(s) == Some(r)
    ensures !s.s.SDone? && (s.fl.switcherSucc.On? ==> r.fl.switcherSucc.On?)
  {}

  /** An initer that can move does. */
  lemma IniterMoves(env: Env, st: nat -> State, act: nat -> Act, i: nat) returns (k: nat)
    requires env.atomicSpawn && IsRun(env, st, act) && WeaklyFair(st, act) && Sound(env, st(0))
    requires Pending(st(i)) && Enabled(st(i), IniterThread)
    ensures i <= k && act(k).Initer? && Pending(st(k)) && st(k).i == st(i).i
  {
    hide Inv, Do, IsRun, Enabled, Sound;
    assert TakenOrNot(st, act, IniterThread, i);
    var j: nat :| i <= j && (ThreadOf(act(j)) == Some(IniterThread) || !Enabled(st(j), IniterThread));
    k := i;
    while k < j && !act(k).Initer?
      invariant i <= k <= j && Pending(st(k)) && st(k).i == st(i).i && Enabled(st(k), IniterThread)
    {
      PendingGoesOn(env, st, act, k);
      k := k + 1;
    }
  }

  lemma PendingGoesOn(env: Env, st: nat -> State, act: nat -> Act, k: nat)
    requires env.atomicSpawn && IsRun(env, st, act) && Sound(env, st(0)) && Pending(st(k)) && !act(k).Initer?
    ensures Pending(st(k + 1)) && st(k + 1).i == st(k).i && (Enabled(st(k), IniterThread) ==> Enabled(st(k + 1), IniterThread))
  {
    hide Inv, Do, IsRun, Enabled, Sound;
    RunSound(env, st, act, k);
    SoundHolds(env, st(k));
    RunStep(env, st, act, k);
    PendingStep(env, st(k), act(k), st(k + 1));
    if Enabled(st(k), IniterThread) { IniterStaysEnabled(env, st(k), act(k), st(k + 1)); }
  }

  lemma SoundHolds(env: Env, s: State)
    requires Sound(env, s)
    ensures Inv(env, s) && Ctl(s) && LogInv(env, s) && AnswerInv(s)
  {}

  // ---- the switcher gets the lock ----

  /** The initer waits for a switcher that has not told the producer to leave yet. */
  predicate Waiting(s: State) { Pending(s) && s.i.IWaitS? && (InLoop(s.s) || s.s.SStopP?) }

  /** Steps until whoever keeps the lock lets go of it. */
  function LockLeft(s: State): nat {
    match s.p
    case PInsert(_) => 3
    case PTotal => 2
    case PUnlock => 1
    case _ =>
      match s.c
      case CUnlock => 1
      case CClear(_) => 2
      case CIter(it) => 3 + Left(s, it)
      case CDecide(it) => 2 + Left(s, it)
      case CCollect(it, _) => 1 + Left(s, it)
      case CSize => 4 + 3 * |s.mq|
      case _ => 0
  }

  function KeeperOf(s: State): Thread { if s.lock.ByProducer? then ProducerThread else ConsumerThread }

  /** The lock is kept from a waiting switcher. */
  predicate Kept(s: State) { Waiting(s) && s.s.SLock? && (s.lock.ByProducer? || s.lock.ByConsumer?) }

  /** Nothing has happened to the lock nor to its keeper. */
  predicate StillKept(s: State, r: State) {
    r.lock == s.lock && Kept(r) && if s.lock.ByProducer? then r.p == s.p else r.c == s.c && r.mq == s.mq
  }

  lemma KeeperCan(s: State)
    requires Ctl(s) && Kept(s)
    ensures Enabled(s, KeeperOf(s))
  {}

  lemma WaitingStep(env: Env, s: State, a: Act, r: State)
    requires Ctl(s) && Waiting(s) && !a.Switcher? && Do(env, s, a) == Some(r)
    ensures (a.Producer? || a.Consumer? || a.Hint?) && Waiting(r) && r.s == s.s
  {
    hide StepP, StepC, StepS;
    PendingStep(env, s, a, r);
    match a
    case Producer(got) => ProducerMovesSo(env, s, got, r);
    case Consumer => ConsumerMovesSo(env, s, r);
    case Hint(_) =>
  }

  lemma ProducerAside(env: Env, s: State, got: Fetched, r: State)
    requires StepP(env, s, got) == Some(r) && !ProducerLocked(s.p)
    ensures r.mq == s.mq
  {
    match s.p
    case PDone =>
    case PLoop =>
    case PAwait =>
    case PFetch =>
    case PLock(_) =>
    case PCommand(_) =>
    case PReply =>
    case PCall(_, _) =>
    case PForget(_) =>
    case PErase(_) =>
    case PCount =>
    case PSucc =>
  }

  lemma KeptAside(env: Env, s: State, a: Act, r: State)
    requires Ctl(s) && Kept(s) && !a.Switcher? && ThreadOf(a) != Some(KeeperOf(s)) && Do(env, s, a) == Some(r)
    ensures StillKept(s, r)
  {
    hide StepP, StepC, StepS, StepI;
    WaitingStep(env, s, a, r);
    match a
    case Producer(got) => ProducerMovesSo(env, s, got, r); ProducerAside(env, s, got, r);
    case Consumer => ConsumerMovesSo(env, s, r);
    case Hint(_) =>
  }

  lemma SameLockLeft(s: State, r: State)
    requires LockInv(s) && LockInv(r) && StillKept(s, r)
    ensures LockLeft(r) == LockLeft(s) && KeeperOf(r) == KeeperOf(s)
  {}

  lemma ProducerLetsGo(env: Env, s: State, got: Fetched, r: State)
    requires ProducerLocked(s.p) && StepP(env, s, got) == Some(r)
    ensures !ProducerLocked(r.p) || LockLeft(r) < LockLeft(s)
  {}

  lemma ConsumerLetsGo(env: Env, s: State, r: State)
    requires ConsumerLocked(s.c) && InBatch(s) && StepC(env, s) == Some(r) && !ProducerLocked(s.p)
    ensures !ConsumerLocked(r.c) || LockLeft(r) < LockLeft(s)
  {
    match s.c
    case CDecide(it) =>
    case CCollect(it, under) =>
    case CSize =>
    case CIter(_) =>
    case CClear(_) =>
    case CUnlock =>
  }

  lemma KeeperStep(env: Env, s: State, a: Act, r: State)
    requires Inv(env, s) && Kept(s) && ThreadOf(a) == Some(KeeperOf(s)) && Do(env, s, a) == Some(r)
    ensures Waiting(r) && r.s.SLock? && (r.lock.Free? || (Kept(r) && LockLeft(r) < LockLeft(s)))
  {
    hide StepP, StepC, StepS, StepI, LogInv, LockLeft;
    InvHolds(env, s);
    WaitingStep(env, s, a, r);
    match a
    case Producer(got) => ProducerMovesSo(env, s, got, r); ProducerLetsGo(env, s, got, r);
    case Consumer => CursorInside(env, s); ConsumerMovesSo(env, s, r); ConsumerLetsGo(env, s, r);
  }

  /** The thread that keeps the lock moves, as long as the switcher does not. */
  lemma KeeperMoves(env: Env, st: nat -> State, act: nat -> Act, i: nat) returns (k: nat)
    requires env.atomicSpawn && IsRun(env, st, act) && WeaklyFair(st, act) && Sound(env, st(0))
    requires Kept(st(i)) && forall j | i <= j :: !act(j).Switcher?
    ensures i <= k && StillKept(st(i), st(k)) && ThreadOf(act(k)) == Some(KeeperOf(st(k)))
    ensures LockLeft(st(k)) == LockLeft(st(i))
  {
    hide Inv, Do, IsRun, Enabled, Sound, LockLeft;
    var t := KeeperOf(st(i));
    assert TakenOrNot(st, act, t, i);
    var j: nat :| i <= j && (ThreadOf(act(j)) == Some(t) || !Enabled(st(j), t));
    k := i;
    KeptGoesOn(env, st, act, i);
    while k < j && ThreadOf(act(k)) != Some(t)
      invariant i <= k <= j && StillKept(st(i), st(k)) && KeeperOf(st(k)) == t && Enabled(st(k), t)
      invariant LockLeft(st(k)) == LockLeft(st(i))
    {
      KeptGoesOn(env, st, act, k);
      k := k + 1;
    }
  }

  lemma KeptGoesOn(env: Env, st: nat -> State, act: nat -> Act, k: nat)
    requires env.atomicSpawn && IsRun(env, st, act) && Sound(env, st(0)) && Kept(st(k)) && !act(k).Switcher?
    ensures Enabled(st(k), KeeperOf(st(k)))
    ensures ThreadOf(act(k)) != Some(KeeperOf(st(k))) ==>
      StillKept(st(k), st(k + 1)) && KeeperOf(st(k + 1)) == KeeperOf(st(k)) && LockLeft(st(k + 1)) == LockLeft(st(k))
      && Enabled(st(k + 1), KeeperOf(st(k)))
  {
    hide Inv, Do, IsRun, Enabled, Sound, LockLeft, Kept, StillKept;
    RunSound(env, st, act, k);
    SoundHolds(env, st(k));
    KeeperCan(st(k));
    if ThreadOf(act(k)) != Some(KeeperOf(st(k))) {
      RunStep(env, st, act, k);
      RunSound(env, st, act, k + 1);
      SoundHolds(env, st(k + 1));
      KeptAside(env, st(k), act(k), st(k + 1));
      StillKeptIsKept(st(k), st(k + 1));
      KeeperCan(st(k + 1));
      SameLockLeft(st(k), st(k + 1));
    }
  }

  lemma StillKeptIsKept(s: State, r: State)
    requires StillKept(s, r)
    ensures Kept(r)
  {}

  lemma {:induction false} LockFrees(env: Env, st: nat -> State, act: nat -> Act, i: nat) returns (n: nat)
    requires env.atomicSpawn && IsRun(env, st, act) && WeaklyFair(st, act) && Sound(env, st(0))
    requires Waiting(st(i)) && st(i).s.SLock? && forall j | i <= j :: !act(j).Switcher?
    ensures i <= n && Enabled(st(n), SwitcherThread)
    decreases LockLeft(st(i))
  {
    hide Inv, Do, IsRun, Sound, LockLeft, Kept, StillKept, KeeperOf;
    RunSound(env, st, act, i);
    SoundHolds(env, st(i));
    if st(i).lock.Free? {
      n := i;
    } else {
      KeptBySomeone(st(i));
      var k := KeeperMoves(env, st, act, i);
      StillKeptIsKept(st(i), st(k));
      RunSound(env, st, act, k);
      SoundHolds(env, st(k));
      RunStep(env, st, act, k);
      KeeperStep(env, st(k), act(k), st(k + 1));
      n := k + 1;
      if !st(n).lock.Free? { n := LockFrees(env, st, act, n); }
    }
  }

  lemma KeptBySomeone(s: State)
    requires Ctl(s) && Waiting(s) && s.s.SLock? && !s.lock.Free?
    ensures Kept(s)
  {}

  lemma {:induction false} WaitsOn(env: Env, st: nat -> State, act: nat -> Act, i: nat, k: nat)
    requires env.atomicSpawn && IsRun(env, st, act) && Sound(env, st(0)) && Waiting(st(i))
    requires i <= k && forall j | i <= j < k :: !act(j).Switcher?
    ensures Waiting(st(k)) && st(k).s == st(i).s
  {
    hide Inv, Do, IsRun, Sound, Waiting;
    if i < k {
      WaitsOn(env, st, act, i, k - 1);
      RunSound(env, st, act, k - 1);
      SoundHolds(env, st(k - 1));
      RunStep(env, st, act, k - 1);
      WaitingStep(env, st(k - 1), act(k - 1), st(k));
    }
  }

  ghost predicate Fair(st: nat -> State, act: nat -> Act) { WeaklyFair(st, act) && LockFair(st, act) }

  lemma SwitcherComes(env: Env, st: nat -> State, act: nat -> Act, i: nat)
    requires env.atomicSpawn && IsRun(env, st, act) && Fair(st, act) && Sound(env, st(0)) && Waiting(st(i))
    ensures TakenFrom(act, SwitcherThread, i)
  {
    hide Inv, Do, IsRun, Sound, WeaklyFair;
    if !TakenFrom(act, SwitcherThread, i) {
      forall j: nat | i <= j
        ensures !act(j).Switcher?
      {
        assert ThreadOf(act(j)) != Some(SwitcherThread);
      }
      forall m: nat
        ensures EnabledFrom(st, SwitcherThread, m)
      {
        var k := if i <= m then m else i;
        WaitsOn(env, st, act, i, k);
        if st(k).s.SLock? {
          var n := LockFrees(env, st, act, k);
        } else {
          assert Enabled(st(k), SwitcherThread);
        }
      }
    }
  }

  /** A switcher that has not told the producer yet moves, whoever else wants the lock. */
  lemma SwitcherMoves(env: Env, st: nat -> State, act: nat -> Act, i: nat) returns (k: nat)
    requires env.atomicSpawn && IsRun(env, st, act) && Fair(st, act) && Sound(env, st(0)) && Waiting(st(i))
    ensures i <= k && act(k).Switcher? && Waiting(st(k)) && st(k).s == st(i).s
  {
    hide Inv, Do, IsRun, Sound, WeaklyFair, LockFair, Waiting;
    SwitcherComes(env, st, act, i);
    var j: nat :| i <= j && ThreadOf(act(j)) == Some(SwitcherThread);
    k := i;
    while !act(k).Switcher?
      invariant i <= k <= j && forall m | i <= m < k :: !act(m).Switcher?
      decreases j - k
    {
      k := k + 1;
    }
    WaitsOn(env, st, act, i, k);
  }

  // ---- a shutdown is answered ----

  /** A handler that waits is answered or hangs. */
  predicate Settled(s: State) { s.h.HStopReply? || Jammed(s) || Lost(s) }

  lemma SuccessStays(env: Env, s: State, a: Act, r: State)
    requires Ctl(s) && s.h.HStopWait? && s.fl.initerSucc.On? && Do(env, s, a) == Some(r)
    ensures if a.Handler? then r.h.HStopReply? else r.h == s.h && r.fl.initerSucc.On?
  {
    hide StepP, StepC, StepS;
    if IsWorker(a) { WorkersKeep(env, s, a, r); }
  }

  lemma SuccessGoesOn(env: Env, st: nat -> State, act: nat -> Act, k: nat)
    requires env.atomicSpawn && IsRun(env, st, act) && Sound(env, st(0)) && st(k).h.HStopWait? && st(k).fl.initerSucc.On?
    ensures if act(k).Handler? then st(k + 1).h.HStopReply? else st(k + 1).h == st(k).h && st(k + 1).fl.initerSucc.On?
  {
    hide Inv, Do, IsRun, Sound;
    RunSound(env, st, act, k);
    SoundHolds(env, st(k));
    RunStep(env, st, act, k);
    SuccessStays(env, st(k), act(k), st(k + 1));
  }

  /** The initer has stored its success: the handler answers. */
  lemma Answers(env: Env, st: nat -> State, act: nat -> Act, i: nat) returns (n: nat)
    requires env.atomicSpawn && IsRun(env, st, act) && WeaklyFair(st, act) && Sound(env, st(0))
    requires st(i).h.HStopWait? && st(i).fl.initerSucc.On?
    ensures i <= n && st(n).h.HStopReply?
  {
    hide Do, IsRun, Sound;
    assert TakenOrNot(st, act, HandlerThread, i);
    var j: nat :| i <= j && (ThreadOf(act(j)) == Some(HandlerThread) || !Enabled(st(j), HandlerThread));
    n := i;
    while n < j && !act(n).Handler?
      invariant i <= n <= j && st(n).h.HStopWait? && st(n).fl.initerSucc.On?
    {
      SuccessGoesOn(env, st, act, n);
      n := n + 1;
    }
    SuccessGoesOn(env, st, act, n);
    n := n + 1;
  }

  /** One step of the initer brings a pending shutdown nearer to its answer. */
  lemma IniterAdvances(env: Env, st: nat -> State, act: nat -> Act, i: nat) returns (n: nat)
    requires env.atomicSpawn && IsRun(env, st, act) && WeaklyFair(st, act) && Sound(env, st(0))
    requires Pending(st(i)) && Enabled(st(i), IniterThread)
    ensures i <= n && st(n).h.HStopWait? && RankIniter(st(n).i) < RankIniter(st(i).i)
  {
    hide Inv, Do, IsRun, Enabled, WeaklyFair, Sound, RankIniter;
    var k := IniterMoves(env, st, act, i);
    RunSound(env, st, act, k);
    SoundHolds(env, st(k));
    RunStep(env, st, act, k);
    PendingFacts(st(k));
    IniterTakes(env, st(k), act(k), st(k + 1));
    n := k + 1;
  }

  lemma IniterTakes(env: Env, s: State, a: Act, r: State)
    requires s.fl.tryIniter.On? && a.Initer? && Do(env, s, a) == Some(r)
    ensures RankIniter(r.i) < RankIniter(s.i) && r.h == s.h
  {
    IniterLowers(s, r);
  }

  /** Where an initer that cannot move is: it waits for the switcher. */
  lemma IniterBlocked(s: State)
    requires Ctl(s) && AnswerInv(s) && Pending(s) && !Enabled(s, IniterThread)
    ensures s.i.IWaitS? && s.fl.trySwitcher.On? && !s.s.SDone? && (BeingStopped(s) || Waiting(s))
  {
    PendingFacts(s);
  }

  lemma OutIsEnabled(s: State)
    requires Ctl(s) && s.i.IWaitS? && Idle(s)
    ensures Enabled(s, IniterThread)
  {}

  /** The switcher's own steps up to the one that tells the producer. */
  lemma SwitcherAdvances(env: Env, st: nat -> State, act: nat -> Act, i: nat) returns (n: nat)
    requires env.atomicSpawn && IsRun(env, st, act) && Fair(st, act) && Sound(env, st(0)) && Waiting(st(i))
    ensures i <= n && st(n).h.HStopWait? && st(n).i == st(i).i && SwitcherLeft(st(n).s) < SwitcherLeft(st(i).s)
  {
    hide Inv, Do, IsRun, Enabled, Fair, Sound, SwitcherLeft;
    var k := SwitcherMoves(env, st, act, i);
    RunSound(env, st, act, k);
    SoundHolds(env, st(k));
    RunStep(env, st, act, k);
    SwitcherTakes(env, st(k), act(k), st(k + 1));
    n := k + 1;
  }

  lemma SwitcherTakes(env: Env, s: State, a: Act, r: State)
    requires Ctl(s) && Waiting(s) && a.Switcher? && Do(env, s, a) == Some(r)
    ensures SwitcherLeft(r.s) < SwitcherLeft(s.s) && r.i == s.i && r.h == s.h
  {
    SwitcherRanks(s, r);
    SwitcherKeeps(s, r);
  }

  lemma {:induction false} ShutdownSettles(env: Env, st: nat -> State, act: nat -> Act, i: nat) returns (n: nat)
    requires env.atomicSpawn && IsRun(env, st, act) && Fair(st, act) && Sound(env, st(0)) && st(i).h.HStopWait?
    ensures i <= n && Settled(st(n))
    decreases RankIniter(st(i).i), SwitcherLeft(st(i).s)
  {
    hide Inv, Do, IsRun, Enabled, WeaklyFair, LockFair, Sound, SwitcherLeft, RankIniter, Idle, Jammed, Lost, Waiting;
    RunSound(env, st, act, i);
    SoundHolds(env, st(i));
    SoundHolds(env, st(0));
    if st(i).fl.initerSucc.On? {
      n := Answers(env, st, act, i);
    } else if Enabled(st(i), IniterThread) {
      n := IniterAdvances(env, st, act, i);
      n := ShutdownSettles(env, st, act, n);
    } else {
      IniterBlocked(st(i));
      if BeingStopped(st(i)) {
        n := StopEnds(env, st, act, i);
        if Idle(st(n)) {
          RunSound(env, st, act, n);
          SoundHolds(env, st(n));
          OutIsEnabled(st(n));
          n := IniterAdvances(env, st, act, n);
          n := ShutdownSettles(env, st, act, n);
        }
      } else {
        n := SwitcherAdvances(env, st, act, i);
        n := ShutdownSettles(env, st, act, n);
      }
    }
  }

  /** The shutdown is answered at n, and by then all workers are out. */
  ghost predicate AnsweredAt(st: nat -> State, n: nat) {
    st(n).h.HStopReply? && Idle(st(n)) && forall k: nat | k < n :: st(k).h.HStopWait?
  }

  /** The handler waits for good, from n on with the producer jammed or the consumer parked past the forced raise. */
  ghost predicate HangsFrom(st: nat -> State, n: nat) {
    (forall k: nat :: st(k).h.HStopWait?) && forall k: nat | n <= k :: Jammed(st(k)) || Doomed(st(k))
  }

  lemma {:induction false} HangsOn(env: Env, st: nat -> State, act: nat -> Act, n: nat, k: nat)
    requires env.atomicSpawn && IsRun(env, st, act) && Sound(env, st(0)) && (Jammed(st(n)) || Doomed(st(n))) && n <= k
    ensures Jammed(st(k)) || Doomed(st(k))
  {
    hide Inv, Do, IsRun, Sound, Jammed, Doomed;
    if n < k {
      HangsOn(env, st, act, n, k - 1);
      RunSound(env, st, act, k - 1);
      SoundHolds(env, st(k - 1));
      RunStep(env, st, act, k - 1);
      if Jammed(st(k - 1)) {
        JammedForever(env, st(k - 1), act(k - 1), st(k));
      } else {
        DoomedForever(env, st(k - 1), act(k - 1), st(k));
      }
    }
  }

  lemma LeavesWait(env: Env, s: State, a: Act, r: State)
    requires s.h.HStopWait? && Do(env, s, a) == Some(r)
    ensures r.h.HStopWait? || r.h.HStopReply?
  {}

  /** The first state in which the handler does not wait is the answer. */
  lemma FirstAnswer(env: Env, st: nat -> State, act: nat -> Act, m: nat) returns (n: nat)
    requires env.atomicSpawn && IsRun(env, st, act) && Sound(env, st(0)) && st(0).h.HStopWait? && !st(m).h.HStopWait?
    ensures AnsweredAt(st, n)
  {
    hide Inv, Do, IsRun, Sound;
    n := 0;
    while st(n).h.HStopWait?
      invariant n <= m && forall k: nat | k < n :: st(k).h.HStopWait?
      invariant st(n).h.HStopWait? || st(n).h.HStopReply?
      decreases m - n
    {
      RunStep(env, st, act, n);
      LeavesWait(env, st(n), act(n), st(n + 1));
      n := n + 1;
    }
    RunSound(env, st, act, n);
    SoundHolds(env, st(n));
    AnsweredIdle(st(n));
  }

  lemma AnsweredIdle(s: State)
    requires Ctl(s) && s.h.HStopReply?
    ensures Idle(s)
  {}

  lemma LostIsDoomed(s: State)
    requires Lost(s)
    ensures Doomed(s)
  {}

  /**
    The whole shutdown, from the handler's wait on, in every fair run, with or without a login and
    whatever arrives meanwhile: it is answered, with all workers out, unless and only unless the run
    comes to a jammed producer or a lost wake-up while the handler waits.
  */
  lemma ShutdownAnswered(env: Env, st: nat -> State, act: nat -> Act)
    requires env.atomicSpawn && IsRun(env, st, act) && Fair(st, act) && Reachable(env, st(0)) && st(0).h.HStopWait?
    ensures (exists n :: AnsweredAt(st, n)) <==> !(exists n :: HangsFrom(st, n))
  {
    hide Inv, Do, IsRun, Fair, Reachable, Jammed, Doomed, Lost, AnswerInv, Idle;
    InvReachable(env, st(0));
    AnswerReachable(env, st(0));
    if m: nat :| !st(m).h.HStopWait? {
      var n := FirstAnswer(env, st, act, m);
    } else {
      var n := ShutdownSettles(env, st, act, 0);
      if Lost(st(n)) { LostIsDoomed(st(n)); }
      forall k: nat | n <= k
        ensures Jammed(st(k)) || Doomed(st(k))
      {
        HangsOn(env, st, act, n, k);
      }
      assert HangsFrom(st, n);
    }
  }

  lemma {:induction false} AuthRun(env: Env, st: nat -> State, act: nat -> Act, k: nat)
    requires IsRun(env, st, act) && st(0).td.isAuth.On?
    ensures st(k).td.isAuth.On?
  {
    hide Do, IsRun;
    if k > 0 {
      AuthRun(env, st, act, k - 1);
      RunStep(env, st, act, k - 1);
      AuthStays(env, st(k - 1), act(k - 1), st(k));
    }
  }

  /** With a login the producer is never jammed: only a lost wake-up keeps a shutdown from its answer. */
  lemma AuthorisedHangs(env: Env, st: nat -> State, act: nat -> Act, n: nat)
    requires IsRun(env, st, act) && st(0).td.isAuth.On? && HangsFrom(st, n)
    ensures forall k: nat | n <= k :: Doomed(st(k))
  {
    hide IsRun, Doomed;
    forall k: nat | n <= k
      ensures Doomed(st(k))
    {
      AuthRun(env, st, act, k);
    }
  }
}
