/** Concrete runs of the collector that show where it does not do what it is meant to. */
module CollRuns {
  import opened Prelude
  import opened TgMessage
  import opened TdRequests
  import opened Collector
  import opened CollControl
  import opened CollStop
  import opened CollRequests
  import opened CollLog
  import opened CollJam

  lemma Then(env: Env, start: State, acts0: seq<Act>, s: State, a: Act) returns (acts: seq<Act>, r: State)
    requires Exec(env, start, acts0) == Some(s) && Do(env, s, a).Some?
    ensures Exec(env, start, acts) == Some(r) == Do(env, s, a)
    ensures acts == acts0 + [a]
  {
    ExecThen(env, start, acts0, a);
    acts, r := acts0 + [a], Do(env, s, a).value;
  }

  /** The handler starts a session and answers. */
  lemma Started(env: Env, start: State) returns (acts: seq<Act>, r: State)
    requires env.atomicSpawn && start == Init(On, start.filters, start.td.tgfid)
    ensures Exec(env, start, acts) == Some(r)
    ensures r == start.(fl := start.fl.(initerUp := On), i := IHint)
  {
    hide StepP, StepC, StepS, StepI;
    acts, r := [], start;
    for k := 0 to 12
      invariant Exec(env, start, acts) == Some(r)
      invariant r == start.(fl := start.fl.(initerUp := ToBit(k > 10)), i := if k > 10 then IHint else IGone, h := r.h)
      invariant r.h == if k == 0 || k == 12 then HIdle else if k == 1 then HUpLoad else if k < 10 then HReset(k - 2)
                       else if k == 10 then HSpawn else HReply
    {
      acts, r := Then(env, start, acts, r, Handler(UpColl));
    }
  }

  predicate At(r: State, h: HPc, i: IPc, p: PPc, c: CPc, s: SPc) {
    r.h == h && r.i == i && r.p == p && r.c == c && r.s == s
  }

  /** A valid chat id, nothing in the queue, the lock free. */
  predicate Quiet(r: State, auth: bool) {
    r.td.isAuth.On? == auth && r.td.tgfid != -1 && r.mq == [] && r.lock.Free?
  }

  /** The session's three workers are at the head of their loops. */
  lemma Spawned(env: Env, start: State) returns (acts: seq<Act>, r: State)
    requires env.atomicSpawn && start == Init(On, start.filters, start.td.tgfid) && start.td.tgfid != -1
    ensures Exec(env, start, acts) == Some(r)
    ensures At(r, HIdle, IAwait, PLoop, CLoop, SLoop) && Quiet(r, false) && !r.doCsm.On?
    ensures r.fl == start.fl.(initerUp := On) && r.pause == start.pause && r.filters == start.filters
    ensures r.td == start.td.(req := Send(Send(start.td.req, None), None))
  {
    hide StepP, StepC, StepS, StepH;
    acts, r := Started(env, start);
    for k := 0 to 6
      invariant Exec(env, start, acts) == Some(r)
      invariant At(r, HIdle, [IHint, IAuth, IInit, ISpawnP, ISpawnC, ISpawnS, IAwait][k],
                   if k > 3 then PLoop else PDone, if k > 4 then CLoop else CDone, if k > 5 then SLoop else SDone)
      invariant Quiet(r, false) && !r.doCsm.On? && r.fl == start.fl.(initerUp := On) && r.hint.On?
      invariant r.pause == start.pause && r.filters == start.filters
      invariant r.td == start.td.(req := if k > 2 then Send(Send(start.td.req, None), None) else start.td.req)
    {
      acts, r := Then(env, start, acts, r, Initer);
    }
  }

  /** ... and TDLib has reported the login. */
  lemma Working(env: Env, start: State) returns (acts: seq<Act>, r: State)
    requires env.atomicSpawn && start == Init(On, start.filters, start.td.tgfid) && start.td.tgfid != -1
    ensures Exec(env, start, acts) == Some(r)
    ensures At(r, HIdle, IAwait, PLoop, CLoop, SLoop) && Quiet(r, true) && !r.doCsm.On?
    ensures r.fl == start.fl.(initerUp := On)
  {
    hide StepC, StepS, StepI, StepH;
    acts, r := Spawned(env, start);
    for k := 0 to 4
      invariant Exec(env, start, acts) == Some(r)
      invariant At(r, HIdle, IAwait, [PLoop, PAwait, PFetch, PCount, PLoop][k], CLoop, SLoop)
      invariant Quiet(r, k > 2) && !r.doCsm.On? && r.fl == start.fl.(initerUp := On)
    {
      acts, r := Then(env, start, acts, r, Producer(AuthReady));
    }
  }

  /** A shutdown command has gone down to the switcher. */
  lemma ToldToStop(env: Env, start: State) returns (acts: seq<Act>, r: State)
    requires env.atomicSpawn && start == Init(On, start.filters, start.td.tgfid) && start.td.tgfid != -1
    ensures Exec(env, start, acts) == Some(r)
    ensures At(r, HStopWait(false), IWaitS, PLoop, CLoop, SLoop) && Quiet(r, true) && !r.doCsm.On?
    ensures r.fl == start.fl.(initerUp := On, tryIniter := On, trySwitcher := On)
  {
    hide StepP, StepC, StepS;
    acts, r := Working(env, start);
    for k := 0 to 3
      invariant Exec(env, start, acts) == Some(r)
      invariant At(r, [HIdle, HStopLoad(false), HStopTry(false), HStopWait(false)][k], IAwait, PLoop, CLoop, SLoop)
      invariant Quiet(r, true) && !r.doCsm.On? && r.fl == start.fl.(initerUp := On, tryIniter := ToBit(k > 2))
    {
      acts, r := Then(env, start, acts, r, Handler(Shutdown(false)));
    }
    acts, r := Then(env, start, acts, r, Initer);
    acts, r := Then(env, start, acts, r, Initer);
  }

  lemma ToldProducer(env: Env, start: State) returns (acts: seq<Act>, r: State)
    requires env.atomicSpawn && start == Init(On, start.filters, start.td.tgfid) && start.td.tgfid != -1
    ensures Exec(env, start, acts) == Some(r)
    ensures At(r, HStopWait(false), IWaitS, PLoop, CLoop, SWaitP) && Quiet(r, true)
    ensures r.fl == start.fl.(initerUp := On, tryIniter := On, trySwitcher := On, tryProducer := On)
  {
    hide StepP, StepC, StepI, StepH;
    acts, r := ToldToStop(env, start);
    acts, r := Then(env, start, acts, r, Switcher);
    acts, r := Then(env, start, acts, r, Switcher);
  }

  /** The producer has left, and the switcher has raised the flag to force the consumer awake. */
  lemma ProducerOut(env: Env, start: State) returns (acts: seq<Act>, r: State)
    requires env.atomicSpawn && start == Init(On, start.filters, start.td.tgfid) && start.td.tgfid != -1
    ensures Exec(env, start, acts) == Some(r)
    ensures At(r, HStopWait(false), IWaitS, PDone, CLoop, SStopC) && Quiet(r, true) && !r.fl.tryConsumer.On? && !r.fl.consumerSucc.On? && r.doCsm.On?
  {
    hide StepC, StepI, StepH;
    acts, r := ToldProducer(env, start);
    for k := 0 to 2
      invariant Exec(env, start, acts) == Some(r)
      invariant At(r, HStopWait(false), IWaitS, [PLoop, PSucc, PDone][k], CLoop, SWaitP)
      invariant Quiet(r, true) && r.fl.tryProducer.On? && !r.fl.tryConsumer.On? && !r.fl.consumerSucc.On? && r.fl.producerSucc.On? == (k > 1)
    {
      acts, r := Then(env, start, acts, r, Producer(Nothing));
    }
    acts, r := Then(env, start, acts, r, Switcher);
    acts, r := Then(env, start, acts, r, Switcher);
  }

  /** The forced raise lets the consumer into its body, up to the lock. */
  lemma ForcedAwake(env: Env, start: State) returns (acts: seq<Act>, r: State)
    requires env.atomicSpawn && start == Init(On, start.filters, start.td.tgfid) && start.td.tgfid != -1
    ensures Exec(env, start, acts) == Some(r)
    ensures At(r, HStopWait(false), IWaitS, PDone, CLock, SStopC) && Quiet(r, true) && !r.fl.tryConsumer.On? && !r.fl.consumerSucc.On?
  {
    hide StepP, StepS, StepI, StepH;
    acts, r := ProducerOut(env, start);
    for k := 0 to 4
      invariant Exec(env, start, acts) == Some(r)
      invariant At(r, HStopWait(false), IWaitS, PDone, [CLoop, CAwait, CValid, CTried(true), CLock][k], SStopC)
      invariant Quiet(r, true) && !r.fl.tryConsumer.On? && !r.fl.consumerSucc.On? && r.doCsm.On?
    {
      acts, r := Then(env, start, acts, r, Consumer);
    }
  }

  /** The consumer finds nothing to do, lowers the flag and parks before it is told to stop. */
  lemma ParksEarly(env: Env, start: State) returns (acts: seq<Act>, r: State)
    requires env.atomicSpawn && start == Init(On, start.filters, start.td.tgfid) && start.td.tgfid != -1
    ensures Exec(env, start, acts) == Some(r)
    ensures At(r, HStopWait(false), IWaitS, PDone, CAwait, SStopC) && r.td.isAuth.On? && !r.doCsm.On? && !r.fl.consumerSucc.On?
  {
    hide StepP, StepS, StepI, StepH;
    acts, r := ForcedAwake(env, start);
    acts, r := Then(env, start, acts, r, Consumer);
    acts, r := Then(env, start, acts, r, Consumer);
    acts, r := LeavesBody(env, start, acts, r);
    acts, r := Then(env, start, acts, r, Consumer);
  }

  /**
    The lost wake-up happens: between the switcher's forced raise of the hand-over flag and its store
    that tells the consumer to stop, the consumer runs its whole body, lowers the flag and parks.
  */
  lemma LostWakeUp(env: Env, filters: string, tgfid: int) returns (acts: seq<Act>, r: State)
    requires env.atomicSpawn && tgfid != -1
    ensures Exec(env, Init(On, filters, tgfid), acts) == Some(r)
    ensures r.td.isAuth.On? && r.fl.tryConsumer.On? && Lost(r) && Stuck(r) && !Idle(r)
  {
    hide StepP, StepC, StepI, StepH;
    acts, r := ParksEarly(env, Init(On, filters, tgfid));
    acts, r := Then(env, Init(On, filters, tgfid), acts, r, Switcher);
  }

  // ---- without a login ----

  const SPIN: seq<Act> := [Consumer, Consumer, Consumer, Consumer, Consumer]

  /** A consumer that turns back comes to the same place after five steps of its own, the flag still up. */
  lemma UnauthorisedSpins(env: Env, s: State)
    requires Ctl(s) && AtSpin(s)
    ensures Exec(env, s, SPIN) == Some(s)
    ensures BeingStopped(s) ==> Throughout(env, s, SPIN, BeingStopped)
  {
    hide StepP, StepS, StepI, StepH;
    var acts, r := [], s;
    var pcs := [CChkAuth, CLoop, CAwait, CValid, CTried(false), CChkAuth];
    assert Exec(env, s, []) == Some(s);
    for k := 0 to 5
      invariant Exec(env, s, acts) == Some(r)
      invariant |acts| == k && forall j | 0 <= j < k :: acts[j] == Consumer
      invariant r == s.(c := pcs[k])
      invariant BeingStopped(s) ==> Throughout(env, s, acts, BeingStopped)
    {
      if BeingStopped(s) { ThroughoutThen(env, s, acts, Consumer, BeingStopped); }
      acts, r := Then(env, s, acts, r, Consumer);
    }
    assert acts == SPIN;
  }

  /** Worker steps of a stopping session are bounded, whatever the schedule. */
  ghost predicate BoundedBy(env: Env, s: State, n: nat) {
    forall acts :: Throughout(env, s, acts, BeingStopped) ==> WorkerSteps(acts) <= n
  }

  ghost predicate Bounded(env: Env, s: State) { exists n: nat :: BoundedBy(env, s, n) }

  /** The consumer can come to turn back while the session is being stopped. */
  ghost predicate MaySpin(env: Env, s: State) {
    exists acts :: SpinsAfter(env, s, acts)
  }

  ghost predicate SpinsAfter(env: Env, s: State, acts: seq<Act>) {
    Throughout(env, s, acts, BeingStopped) && Exec(env, s, acts).Some? && AtSpin(Exec(env, s, acts).value)
  }

  lemma {:induction false} ThroughoutConcat(env: Env, s: State, a: seq<Act>, b: seq<Act>)
    requires Exec(env, s, a).Some? && Throughout(env, s, a, BeingStopped)
    requires Throughout(env, Exec(env, s, a).value, b, BeingStopped)
    ensures Throughout(env, s, a + b, BeingStopped) && WorkerSteps(a + b) == WorkerSteps(a) + WorkerSteps(b)
    decreases |b|
  {
    hide BeingStopped, Do;
    if b == [] {
      assert a + b == a;
    } else {
      var n := |b| - 1;
      var t := Exec(env, s, a).value;
      ThroughoutPrefix(env, t, b, BeingStopped);
      ThroughoutConcat(env, s, a, b[..n]);
      assert b[..n][..n] == b[..n];
      ExecConcat(env, s, a, b[..n]);
      ThroughoutThen(env, s, a + b[..n], b[n], BeingStopped);
      assert a + b == (a + b[..n]) + [b[n]];
      assert (a + b)[..|a + b| - 1] == a + b[..n];
    }
  }

  lemma {:induction false} SpinsLong(env: Env, s: State, n: nat) returns (acts: seq<Act>)
    requires Ctl(s) && AtSpin(s) && BeingStopped(s)
    ensures Throughout(env, s, acts, BeingStopped) && WorkerSteps(acts) >= n
  {
    hide Ctl, AtSpin, Do;
    if n == 0 {
      acts := [];
      assert acts[..0] == acts;
    } else {
      acts := SpinsLong(env, s, n - 1);
      UnauthorisedSpins(env, s);
      ThroughoutConcat(env, s, SPIN, acts);
      SpinIsWork();
      acts := SPIN + acts;
    }
  }

  lemma SpinIsWork()
    ensures WorkerSteps(SPIN) >= 1
  {
    assert WorkerSteps(SPIN) == WorkerSteps(SPIN[..4]) + 1;
  }

  lemma CalmWinds(env: Env, s: State, acts: seq<Act>)
    requires Throughout(env, s, acts, BeingStopped) && !MaySpin(env, s)
    ensures Throughout(env, s, acts, Winding)
  {
    forall k | 0 <= k <= |acts|
      ensures Exec(env, s, acts[..k]).Some? && Winding(Exec(env, s, acts[..k]).value)
    {
      assert Throughout(env, s, acts[..k], BeingStopped) by {
        forall j | 0 <= j <= k
          ensures Exec(env, s, acts[..k][..j]).Some? && BeingStopped(Exec(env, s, acts[..k][..j]).value)
        {
          assert acts[..k][..j] == acts[..j];
        }
      }
      assert !SpinsAfter(env, s, acts[..k]);
    }
  }

  /**
    Over all schedules the worker steps of a stopping session are bounded exactly when none of them
    brings the consumer to turn back.
  */
  lemma StopBoundedExactly(env: Env, s: State)
    requires env.atomicSpawn && Reachable(env, s) && BeingStopped(s)
    ensures Bounded(env, s) <==> !MaySpin(env, s)
  {
    hide Reachable, Measure, Exec, WorkerSteps, Ctl, LogInv;
    CtlReachable(env, s);
    LogReachable(env, s);
    if !MaySpin(env, s) {
      assert BoundedBy(env, s, Measure(s)) by {
        forall acts | Throughout(env, s, acts, BeingStopped)
          ensures WorkerSteps(acts) <= Measure(s)
        {
          CalmWinds(env, s, acts);
          WindsBounded(env, s, acts);
        }
      }
    } else {
      var acts :| SpinsAfter(env, s, acts);
      var t := Exec(env, s, acts).value;
      CtlExec(env, s, acts, t);
      forall n: nat
        ensures !BoundedBy(env, s, n)
      {
        SpinsAfterStops(env, s, acts);
        var more := SpinsLong(env, t, n + 1);
        ThroughoutConcat(env, s, acts, more);
      }
    }
  }

  lemma SpinsAfterStops(env: Env, s: State, acts: seq<Act>)
    requires SpinsAfter(env, s, acts)
    ensures BeingStopped(Exec(env, s, acts).value) && AtSpin(Exec(env, s, acts).value)
  {
    assert acts[..|acts|] == acts;
  }

  lemma WindsBounded(env: Env, s: State, acts: seq<Act>)
    requires env.atomicSpawn && Ctl(s) && LogInv(env, s) && Throughout(env, s, acts, Winding)
    ensures WorkerSteps(acts) <= Measure(s)
  {
    hide Measure, Ctl, LogInv, Winding, WorkerSteps;
    assert acts[..|acts|] == acts;
    StopRun(env, s, acts, Exec(env, s, acts).value);
  }

  // ---- a session that is stopped before the login jams the next one ----

  const NO_FLAGS := Flags(Off, Off, Off, Off, Off, Off, Off, Off, Off)

  /** No session, no command under way, and the login process has left its hint. */
  predicate Down(s: State) {
    At(s, HIdle, IGone, PDone, CDone, SDone) && !s.fl.initerUp.On? && s.hint.On? && s.lock.Free?
  }

  lemma HandlerStarts(env: Env, start: State, acts0: seq<Act>, s: State) returns (acts: seq<Act>, r: State)
    requires env.atomicSpawn && Exec(env, start, acts0) == Some(s) && Down(s)
    ensures Exec(env, start, acts) == Some(r) && r == s.(fl := NO_FLAGS.(initerUp := On), i := IHint)
  {
    hide StepP, StepC, StepS, StepI;
    acts, r := acts0, s;
    for k := 0 to 10
      invariant Exec(env, start, acts) == Some(r)
      invariant r == s.(fl := r.fl, h := r.h) && !r.fl.initerUp.On?
      invariant r.h == if k == 0 then HIdle else if k == 1 then HUpLoad else if k < 10 then HReset(k - 2) else HSpawn
      invariant k >= 2 ==> ClearedUpTo(r.fl, k - 2)
    {
      acts, r := Then(env, start, acts, r, Handler(UpColl));
    }
    assert r.fl == NO_FLAGS;
    acts, r := Then(env, start, acts, r, Handler(UpColl));
    acts, r := Then(env, start, acts, r, Handler(UpColl));
  }

  /** A session is up, its workers at the head of their loops. */
  lemma SessionUp(env: Env, start: State, acts0: seq<Act>, s: State) returns (acts: seq<Act>, r: State)
    requires env.atomicSpawn && Exec(env, start, acts0) == Some(s) && Down(s)
    ensures Exec(env, start, acts) == Some(r) && At(r, HIdle, IAwait, PLoop, CLoop, SLoop)
    ensures r == s.(fl := NO_FLAGS.(initerUp := On), i := IAwait, p := PLoop, c := CLoop, s := SLoop,
                    cnt := 0, td := s.td.(req := r.td.req), log := r.log)
    ensures r.log.inserted == s.log.inserted
  {
    hide StepP, StepC, StepS, StepH;
    acts, r := HandlerStarts(env, start, acts0, s);
    for k := 0 to 6
      invariant Exec(env, start, acts) == Some(r)
      invariant r == s.(fl := NO_FLAGS.(initerUp := On), i := [IHint, IAuth, IInit, ISpawnP, ISpawnC, ISpawnS, IAwait][k],
                        p := if k > 3 then PLoop else PDone, c := if k > 4 then CLoop else CDone, s := if k > 5 then SLoop else SDone,
                        cnt := if k > 4 then 0 else s.cnt, td := s.td.(req := r.td.req), log := r.log)
      invariant r.log.inserted == s.log.inserted
    {
      acts, r := Then(env, start, acts, r, Initer);
    }
  }

  /** A shutdown comes before anything else has happened: the workers are told one after the other. */
  lemma ToldAtOnce(env: Env, start: State, acts0: seq<Act>, s: State, p: PPc) returns (acts: seq<Act>, r: State)
    requires Exec(env, start, acts0) == Some(s) && At(s, HIdle, IAwait, p, CLoop, SLoop) && s.fl == NO_FLAGS.(initerUp := On)
    ensures Exec(env, start, acts) == Some(r)
    ensures r == s.(fl := NO_FLAGS.(initerUp := On, tryIniter := On, trySwitcher := On, tryProducer := On),
                    h := HStopWait(false), i := IWaitS, s := SWaitP)
  {
    hide StepP, StepC;
    acts, r := acts0, s;
    for k := 0 to 3
      invariant Exec(env, start, acts) == Some(r)
      invariant r == s.(h := [HIdle, HStopLoad(false), HStopTry(false), HStopWait(false)][k],
                        fl := s.fl.(tryIniter := ToBit(k > 2)))
    {
      acts, r := Then(env, start, acts, r, Handler(Shutdown(false)));
    }
    acts, r := Then(env, start, acts, r, Initer);
    acts, r := Then(env, start, acts, r, Initer);
    acts, r := Then(env, start, acts, r, Switcher);
    acts, r := Then(env, start, acts, r, Switcher);
  }

  lemma ProducerLeaves(env: Env, start: State, acts0: seq<Act>, s: State) returns (acts: seq<Act>, r: State)
    requires Exec(env, start, acts0) == Some(s) && s.p.PLoop? && s.fl.tryProducer.On?
    ensures Exec(env, start, acts) == Some(r) && r == s.(fl := s.fl.(producerSucc := On), p := PDone)
  {
    hide StepC, StepS, StepI, StepH;
    acts, r := Then(env, start, acts0, s, Producer(Nothing));
    assert r == s.(p := PSucc);
    acts, r := Then(env, start, acts, r, Producer(Nothing));
  }

  /** The switcher forces the consumer awake and tells it to leave. */
  lemma SwitcherTells(env: Env, start: State, acts0: seq<Act>, s: State) returns (acts: seq<Act>, r: State)
    requires Exec(env, start, acts0) == Some(s) && s.s.SWaitP? && s.fl.producerSucc.On?
    ensures Exec(env, start, acts) == Some(r) && r == s.(fl := s.fl.(tryConsumer := On), doCsm := On, s := SWaitC)
  {
    hide StepP, StepC, StepI, StepH;
    acts, r := Then(env, start, acts0, s, Switcher);
    assert r == s.(s := SForce);
    acts, r := Then(env, start, acts, r, Switcher);
    assert r == s.(doCsm := On, s := SStopC);
    acts, r := Then(env, start, acts, r, Switcher);
  }

  /** Producer and consumer leave without a turn; the switcher's forced raise is never taken back. */
  lemma WorkersLeave(env: Env, start: State, acts0: seq<Act>, s: State) returns (acts: seq<Act>, r: State)
    requires Exec(env, start, acts0) == Some(s) && At(s, HStopWait(false), IWaitS, PLoop, CLoop, SWaitP)
    requires s.fl == NO_FLAGS.(initerUp := On, tryIniter := On, trySwitcher := On, tryProducer := On)
    ensures Exec(env, start, acts) == Some(r)
    ensures r == s.(fl := Flags(On, On, On, On, On, On, On, On, Off), doCsm := On, p := PDone, c := CDone, s := SDone)
  {
    hide StepP, StepI, StepH;
    acts, r := ProducerLeaves(env, start, acts0, s);
    acts, r := SwitcherTells(env, start, acts, r);
    var t := r;
    acts, r := Then(env, start, acts, r, Consumer);
    acts, r := Then(env, start, acts, r, Consumer);
    assert r == t.(fl := t.fl.(consumerSucc := On), c := CDone);
    acts, r := Then(env, start, acts, r, Switcher);
    acts, r := Then(env, start, acts, r, Switcher);
  }

  /** The initer joins its workers and stores its success; its last store is still to come. */
  lemma SessionEnding(env: Env, start: State, acts0: seq<Act>, s: State) returns (acts: seq<Act>, r: State)
    requires Exec(env, start, acts0) == Some(s) && At(s, HStopWait(false), IWaitS, PDone, CDone, SDone)
    requires s.fl == Flags(On, On, On, On, On, On, On, On, Off)
    ensures Exec(env, start, acts) == Some(r)
    ensures r == s.(fl := Flags(On, On, On, On, On, On, On, On, On), h := HIdle, i := IDown)
  {
    hide StepP, StepC, StepS;
    acts, r := acts0, s;
    for k := 0 to 5
      invariant Exec(env, start, acts) == Some(r)
      invariant r == s.(i := [IWaitS, IJoinS, IJoinC, IJoinP, ISucc, IDown][k], fl := s.fl.(initerSucc := ToBit(k > 4)))
    {
      acts, r := Then(env, start, acts, r, Initer);
    }
    acts, r := Then(env, start, acts, r, Handler(Ignore));
    acts, r := Then(env, start, acts, r, Handler(Ignore));
  }

  lemma SessionDown(env: Env, start: State, acts0: seq<Act>, s: State) returns (acts: seq<Act>, r: State)
    requires Exec(env, start, acts0) == Some(s) && At(s, HStopWait(false), IWaitS, PDone, CDone, SDone)
    requires s.fl == Flags(On, On, On, On, On, On, On, On, Off)
    ensures Exec(env, start, acts) == Some(r)
    ensures r == s.(fl := Flags(Off, On, On, On, On, On, On, On, On), h := HIdle, i := IGone)
  {
    hide StepP, StepC, StepS, StepH;
    acts, r := SessionEnding(env, start, acts0, s);
    acts, r := Then(env, start, acts, r, Initer);
  }

  /**
    A session is started and stopped before TDLib reports the login.  Its switcher has raised the flag
    to force the consumer awake, the consumer has left without lowering it, and UpColl resets eight
    flags but not this one.  The next session's producer then waits for good: no update is fetched, the
    login never seen, and the shutdown that follows never ends.  No message is needed for it.
  */
  lemma LeftoverFlagJams(env: Env, filters: string) returns (acts: seq<Act>, r: State)
    requires env.atomicSpawn
    ensures Exec(env, Init(On, filters, -1), acts) == Some(r)
    ensures Jammed(r) && r.log.inserted == []
    ensures At(r, HStopWait(false), IWaitS, PAwait, CLoop, SWaitP)
  {
    hide StepC, StepS, StepI, StepH;
    var start := Init(On, filters, -1);
    acts, r := SessionUp(env, start, [], start);
    acts, r := ToldAtOnce(env, start, acts, r, PLoop);
    acts, r := WorkersLeave(env, start, acts, r);
    acts, r := SessionDown(env, start, acts, r);
    acts, r := SessionUp(env, start, acts, r);
    acts, r := Then(env, start, acts, r, Producer(Nothing));
    acts, r := ToldAtOnce(env, start, acts, r, PAwait);
  }

  // ---- an UpColl that is answered without a session ----

  predicate NotStarting(s: State) { !Starting(s.h) }

  /** No schedule brings a worker up before another UpColl has got past its check. */
  ghost predicate NoSessionFollows(env: Env, s: State) {
    forall acts :: Throughout(env, s, acts, NotStarting) && Exec(env, s, acts).Some? ==> Idle(Exec(env, s, acts).value)
  }

  /** The initer is past its workers. */
  predicate Over(s: State) { Idle(s) && (s.i.ISucc? || s.i.IDown? || s.i.IGone?) }

  lemma OverStays(env: Env, s: State, a: Act, r: State)
    requires Over(s) && NotStarting(s) && Do(env, s, a) == Some(r)
    ensures Over(r)
  {}

  lemma {:induction false} OverRun(env: Env, s: State, acts: seq<Act>)
    requires Over(s) && Throughout(env, s, acts, NotStarting)
    ensures Exec(env, s, acts).Some? && Over(Exec(env, s, acts).value)
  {
    hide Do, Over, NotStarting;
    if acts != [] {
      var n := |acts| - 1;
      ThroughoutPrefix(env, s, acts, NotStarting);
      OverRun(env, s, acts[..n]);
      assert acts[..n][..n] == acts[..n];
      OverStays(env, Exec(env, s, acts[..n]).value, acts[n], Exec(env, s, acts).value);
    }
  }

  function ToSpawn(pc: IPc): nat {
    match pc
    case ITry => 5
    case IHint => 4
    case IAuth => 3
    case IInit => 2
    case ISpawnP => 1
    case _ => 0
  }

  lemma InitersStep(s: State)
    requires s.hint.On? && ToSpawn(s.i) > 0
    ensures StepI(s).Some? && var r := StepI(s).value;
      ToSpawn(r.i) < ToSpawn(s.i) && r.h == s.h && r.hint == s.hint && (ToSpawn(r.i) == 0 ==> !r.p.PDone?)
  {}

  lemma NoSteps(env: Env, s: State)
    requires NotStarting(s)
    ensures Throughout(env, s, [], NotStarting) && Exec(env, s, []) == Some(s)
  {
    var none: seq<Act> := [];
    assert none[..0] == none;
  }

  /** With the hint left, an initer that has not spawned yet does. */
  lemma ComesUp(env: Env, s: State) returns (acts: seq<Act>)
    requires ToSpawn(s.i) > 0 && NotStarting(s)
    ensures Throughout(env, s, acts, NotStarting) && Exec(env, s, acts).Some? && !Idle(Exec(env, s, acts).value)
  {
    hide StepI, StepP, StepC, StepS, StepH;
    acts := [];
    NoSteps(env, s);
    var r := s.(hint := On);
    acts := OneMore(env, s, acts, s, Hint(On));
    while ToSpawn(r.i) > 0
      invariant Exec(env, s, acts) == Some(r) && Throughout(env, s, acts, NotStarting)
      invariant r.hint.On? && r.h == s.h && (ToSpawn(r.i) == 0 ==> !r.p.PDone?)
      decreases ToSpawn(r.i)
    {
      InitersStep(r);
      acts := OneMore(env, s, acts, r, Initer);
      r := StepI(r).value;
    }
  }

  lemma OneMore(env: Env, s: State, acts0: seq<Act>, r: State, a: Act) returns (acts: seq<Act>)
    requires Exec(env, s, acts0) == Some(r) && Throughout(env, s, acts0, NotStarting)
    requires Do(env, r, a).Some? && NotStarting(Do(env, r, a).value)
    ensures Exec(env, s, acts) == Do(env, r, a) && Throughout(env, s, acts, NotStarting)
  {
    ExecThen(env, s, acts0, a);
    acts := acts0 + [a];
    ThroughoutThen(env, s, acts0, a, NotStarting);
  }

  /** Outside a pending shutdown, an initer that has spawned a producer has it at work. */
  lemma ProducerUp(s: State)
    requires Ctl(s) && s.h.HUpLoad? && HasProducer(s.i)
    ensures !Idle(s)
  {}

  /**
    An UpColl can be answered with success although no session is there or comes: it finds
    coll_initer_up still set.  This happens exactly when its check falls between the end of the initer's
    session and the initer's last store.
  */
  lemma UpCollForNothing(env: Env, s: State)
    requires env.atomicSpawn && Reachable(env, s) && s.h.HUpLoad?
    ensures var r := Do(env, s, Handler(UpColl));
      r.Some? && ((r.value.h.HReply? && NoSessionFollows(env, r.value)) <==> s.i.ISucc? || s.i.IDown?)
  {
    hide Reachable, Exec;
    CtlReachable(env, s);
    var r := Do(env, s, Handler(UpColl)).value;
    assert r == s.(h := r.h) && (r.h.HReply? <==> !s.i.IGone?);
    if s.i.ISucc? || s.i.IDown? {
      forall acts | Throughout(env, r, acts, NotStarting) && Exec(env, r, acts).Some?
        ensures Idle(Exec(env, r, acts).value)
      {
        OverRun(env, r, acts);
      }
    } else if r.h.HReply? {
      if HasProducer(s.i) {
        ProducerUp(s);
        NoSteps(env, r);
      } else {
        var acts := ComesUp(env, r);
      }
    }
  }

  /**
    It does happen: a session is started, stopped and reported down; an UpColl that comes before the
    initer's last store is answered, and no session is there.
  */
  lemma AnsweredWithoutSession(env: Env, filters: string, tgfid: int) returns (first: seq<Act>, s: State, acts: seq<Act>, r: State)
    requires env.atomicSpawn
    ensures var start := Init(On, filters, tgfid);
      && Exec(env, start, first) == Some(s) && s.h.HUpLoad? && s.i.IDown?
      && Exec(env, start, acts) == Some(r) && acts == first + [Handler(UpColl), Handler(UpColl), Initer]
    ensures Do(env, s, Handler(UpColl)).value.h.HReply? && At(r, HIdle, IGone, PDone, CDone, SDone)
  {
    hide StepP, StepC, StepS;
    var start := Init(On, filters, tgfid);
    first, s := SessionUp(env, start, [], start);
    first, s := ToldAtOnce(env, start, first, s, PLoop);
    first, s := WorkersLeave(env, start, first, s);
    first, s := SessionEnding(env, start, first, s);
    first, s := Then(env, start, first, s, Handler(UpColl));
    acts, r := Then(env, start, first, s, Handler(UpColl));
    acts, r := Then(env, start, acts, r, Handler(UpColl));
    acts, r := Then(env, start, acts, r, Initer);
  }

  // ---- a second chat is asked for although the first has been created ----

  /** A session at work: handler idle, initer waiting, nothing stopping, forwarding not paused. */
  predicate AtWork(s: State) {
    s.h.HIdle? && s.i.IAwait? && s.lock.Free? && !s.pause.On? &&
    !s.fl.tryProducer.On? && !s.fl.tryConsumer.On? && !s.fl.trySwitcher.On? && !s.fl.tryIniter.On?
  }

  lemma LogsIn(env: Env, start: State, acts0: seq<Act>, s: State) returns (acts: seq<Act>, r: State)
    requires Exec(env, start, acts0) == Some(s) && AtWork(s) && s.p.PLoop? && !s.doCsm.On?
    ensures Exec(env, start, acts) == Some(r) && r == s.(td := s.td.(isAuth := On))
  {
    hide StepC, StepS, StepI, StepH;
    acts, r := acts0, s;
    for k := 0 to 4
      invariant Exec(env, start, acts) == Some(r)
      invariant r == s.(td := s.td.(isAuth := ToBit(s.td.isAuth.On? || k > 2)), p := [PLoop, PAwait, PFetch, PCount, PLoop][k])
    {
      acts, r := Then(env, start, acts, r, Producer(AuthReady));
    }
  }

  lemma Arrives(env: Env, start: State, acts0: seq<Act>, s: State, body: TgMsg) returns (acts: seq<Act>, r: State)
    requires Exec(env, start, acts0) == Some(s) && AtWork(s) && s.p.PLoop? && !s.doCsm.On?
    ensures Exec(env, start, acts) == Some(r)
    ensures |r.mq| > 0 && r == s.(mq := [r.mq[0]] + s.mq, total := r.total, log := r.log) && r.mq[0].body == body
  {
    hide StepC, StepS, StepI, StepH;
    acts, r := acts0, s;
    var got := NewMessage(s.td.tgfid + 1, body, NoCommand);
    for k := 0 to 8
      invariant Exec(env, start, acts) == Some(r)
      invariant r == s.(p := r.p, lock := if 4 <= k < 7 then ByProducer else Free, mq := r.mq, total := r.total, log := r.log)
      invariant r.p == [PLoop, PAwait, PFetch, PLock(body), PInsert(body), PTotal, PUnlock, PCount, PLoop][k]
      invariant if k <= 4 then r.mq == s.mq else |r.mq| > 0 && r.mq == [r.mq[0]] + s.mq && r.mq[0].body == body
    {
      acts, r := Then(env, start, acts, r, Producer(got));
    }
  }

  lemma SwitcherLocks(env: Env, start: State, acts0: seq<Act>, s: State) returns (acts: seq<Act>, r: State)
    requires Exec(env, start, acts0) == Some(s) && AtWork(s) && s.s.SLoop? && !s.doCsm.On?
    ensures Exec(env, start, acts) == Some(r) && r == s.(s := SSize, lock := BySwitcher)
  {
    hide StepP, StepC, StepI, StepH;
    acts, r := Then(env, start, acts0, s, Switcher);
    assert r == s.(s := SPause);
    acts, r := Then(env, start, acts, r, Switcher);
    assert r == s.(s := SFlag);
    acts, r := Then(env, start, acts, r, Switcher);
    assert r == s.(s := SLock);
    acts, r := Then(env, start, acts, r, Switcher);
  }

  lemma SwitcherRaises(env: Env, start: State, acts0: seq<Act>, s: State) returns (acts: seq<Act>, r: State)
    requires Exec(env, start, acts0) == Some(s) && s.s.SSize? && |s.mq| > 0
    ensures Exec(env, start, acts) == Some(r) && r == s.(s := SLoop, doCsm := On, lock := Free, log := r.log)
  {
    hide StepP, StepC, StepI, StepH;
    acts, r := Then(env, start, acts0, s, Switcher);
    assert r == s.(s := SRaise);
    acts, r := Then(env, start, acts, r, Switcher);
    assert r == s.(s := SUnlock, doCsm := On, log := r.log);
    acts, r := Then(env, start, acts, r, Switcher);
    assert r == s.(s := SCount, doCsm := On, lock := Free, log := r.log);
    acts, r := Then(env, start, acts, r, Switcher);
  }

  lemma Raised(env: Env, start: State, acts0: seq<Act>, s: State) returns (acts: seq<Act>, r: State)
    requires Exec(env, start, acts0) == Some(s) && AtWork(s) && s.s.SLoop? && !s.doCsm.On? && |s.mq| > 0
    ensures Exec(env, start, acts) == Some(r) && r == s.(doCsm := On, log := r.log)
  {
    hide Exec, AtWork;
    acts, r := SwitcherLocks(env, start, acts0, s);
    acts, r := SwitcherRaises(env, start, acts, r);
    assert r.lock == s.lock by { AtWorkFree(s); }
  }

  lemma AtWorkFree(s: State)
    requires AtWork(s)
    ensures s.lock.Free?
  {}

  /** TDLib answers that the chat a message was sent to does not exist. */
  lemma ChatGone(env: Env, start: State, acts0: seq<Act>, s: State, id: nat) returns (acts: seq<Act>, r: State)
    requires Exec(env, start, acts0) == Some(s) && AtWork(s) && s.p.PLoop? && !s.doCsm.On?
    requires id != 0 && id in s.td.req.cb && s.td.req.cb[id] == OnCollect
    ensures Exec(env, start, acts) == Some(r)
    ensures r == s.(td := s.td.(tried := Off, tgfid := -1, req := Forget(s.td.req, id)), log := r.log)
  {
    hide StepC, StepS, StepI, StepH;
    acts, r := acts0, s;
    for k := 0 to 7
      invariant Exec(env, start, acts) == Some(r)
      invariant r == s.(p := [PLoop, PAwait, PFetch, PCall(id, ObjNoChat), PForget(id), PErase(id), PCount, PLoop][k],
                        td := s.td.(tried := ToBit(s.td.tried.On? && k <= 3), tgfid := if k <= 4 then s.td.tgfid else -1,
                                    req := if k <= 5 then s.td.req else Forget(s.td.req, id)), log := r.log)
    {
      acts, r := Then(env, start, acts, r, Producer(Response(id, ObjNoChat)));
    }
  }

  /** The consumer enters its body and takes the lock. */
  lemma TakesLock(env: Env, start: State, acts0: seq<Act>, s: State) returns (acts: seq<Act>, r: State)
    requires Exec(env, start, acts0) == Some(s) && AtWork(s) && s.c.CLoop? && s.doCsm.On? && (s.td.tgfid != -1 || s.td.tried.On?)
    ensures Exec(env, start, acts) == Some(r) && r == s.(c := CSize, lock := ByConsumer)
  {
    hide StepP, StepS, StepI, StepH;
    acts, r := acts0, s;
    for k := 0 to 5
      invariant Exec(env, start, acts) == Some(r)
      invariant r == s.(c := [CLoop, CAwait, CValid, CTried(s.td.tgfid != -1), CLock, CSize][k], lock := if k == 5 then ByConsumer else Free)
    {
      acts, r := Then(env, start, acts, r, Consumer);
    }
  }

  lemma LeavesBody(env: Env, start: State, acts0: seq<Act>, s: State) returns (acts: seq<Act>, r: State)
    requires Exec(env, start, acts0) == Some(s) && s.c.CUnlock?
    ensures Exec(env, start, acts) == Some(r) && r == s.(c := CLoop, lock := Free, doCsm := Off)
  {
    hide StepP, StepS, StepI, StepH;
    acts, r := Then(env, start, acts0, s, Consumer);
    assert r == s.(c := CCount, lock := Free);
    acts, r := Then(env, start, acts, r, Consumer);
    assert r == s.(c := CLower, lock := Free);
    acts, r := Then(env, start, acts, r, Consumer);
  }

  lemma SendsOne(env: Env, start: State, acts0: seq<Act>, s: State, it: nat) returns (acts: seq<Act>, r: State)
    requires Exec(env, start, acts0) == Some(s) && s.c == CIter(it) && it < |s.mq| && !s.fl.tryConsumer.On?
    requires !IsFromTgfocus(s.mq[it].body) && env.decide(s.filters, s.mq[it].body)
    ensures Exec(env, start, acts) == Some(r)
    ensures r == s.(c := CIter(it + 1), td := s.td.(req := Send(s.td.req, Some(OnCollect))), cnt := r.cnt, log := r.log)
  {
    hide StepP, StepS, StepI, StepH;
    acts, r := Then(env, start, acts0, s, Consumer);
    assert r == s.(c := CDecide(it));
    acts, r := Then(env, start, acts, r, Consumer);
    assert r == s.(c := CCollect(it, s.filters));
    acts, r := Then(env, start, acts, r, Consumer);
  }

  /** With a valid chat id and two messages waiting, both are sent. */
  lemma SendsTwo(env: Env, start: State, acts0: seq<Act>, s: State) returns (acts: seq<Act>, r: State)
    requires Exec(env, start, acts0) == Some(s) && AtWork(s) && s.c.CLoop? && s.doCsm.On? && s.td.tgfid != -1 && |s.mq| == 2
    requires forall k | 0 <= k < 2 :: !IsFromTgfocus(s.mq[k].body) && env.decide(s.filters, s.mq[k].body)
    ensures Exec(env, start, acts) == Some(r)
    ensures r == s.(doCsm := Off, mq := [], td := s.td.(req := Send(Send(s.td.req, Some(OnCollect)), Some(OnCollect))), cnt := r.cnt, log := r.log)
  {
    hide StepP, StepS, StepI, StepH;
    acts, r := TakesLock(env, start, acts0, s);
    acts, r := Then(env, start, acts, r, Consumer);
    acts, r := SendsOne(env, start, acts, r, 0);
    acts, r := SendsOne(env, start, acts, r, 1);
    acts, r := Then(env, start, acts, r, Consumer);
    acts, r := Then(env, start, acts, r, Consumer);
    acts, r := LeavesBody(env, start, acts, r);
  }

  /** Without a chat, the consumer goes up to the check of `tried`. */
  lemma ReachesCheck(env: Env, start: State, acts0: seq<Act>, s: State) returns (acts: seq<Act>, r: State)
    requires Exec(env, start, acts0) == Some(s) && AtWork(s) && s.c.CLoop? && s.doCsm.On? && s.td.tgfid == -1 && !s.td.tried.On? && s.td.isAuth.On?
    ensures Exec(env, start, acts) == Some(r) && r == s.(c := CChkTried)
  {
    hide StepP, StepS, StepI, StepH;
    acts, r := acts0, s;
    for k := 0 to 6
      invariant Exec(env, start, acts) == Some(r)
      invariant r == s.(c := [CLoop, CAwait, CValid, CTried(false), CChkAuth, CChkValid, CChkTried][k])
    {
      acts, r := Then(env, start, acts, r, Consumer);
    }
  }

  /** It asks for a chat, finds on its next round that it has asked, and leaves the messages waiting. */
  lemma AsksOnce(env: Env, start: State, acts0: seq<Act>, s: State) returns (acts: seq<Act>, r: State)
    requires Exec(env, start, acts0) == Some(s) && AtWork(s) && s.c.CLoop? && s.doCsm.On? && s.td.tgfid == -1 && !s.td.tried.On? && s.td.isAuth.On?
    ensures Exec(env, start, acts) == Some(r)
    ensures r == s.(doCsm := Off, td := s.td.(tried := On, req := Send(s.td.req, Some(OnCreate))), log := r.log)
  {
    hide StepP, StepS, StepI, StepH;
    acts, r := ReachesCheck(env, start, acts0, s);
    for k := 0 to 3
      invariant Exec(env, start, acts) == Some(r)
      invariant r == s.(c := [CChkTried, CSetTried, CCreate, CLoop][k],
                        td := s.td.(tried := ToBit(k > 1), req := if k > 2 then Send(s.td.req, Some(OnCreate)) else s.td.req), log := r.log)
    {
      acts, r := Then(env, start, acts, r, Consumer);
    }
    acts, r := TakesLock(env, start, acts, r);
    acts, r := Then(env, start, acts, r, Consumer);
    acts, r := LeavesBody(env, start, acts, r);
  }

  /** A logged-in session with two messages waiting. */
  lemma TwoWaiting(env: Env, filters: string, m: TgMsg) returns (acts: seq<Act>, r: State)
    requires env.atomicSpawn
    ensures Exec(env, Init(On, filters, 0), acts) == Some(r)
    ensures AtWork(r) && At(r, HIdle, IAwait, PLoop, CLoop, SLoop) && !r.doCsm.On? && r.filters == filters
    ensures |r.mq| == 2 && r.mq[0].body == r.mq[1].body == m
    ensures r.td == Td(On, Off, 0, Requests(2, map[]), 0)
  {
    var start := Init(On, filters, 0);
    acts, r := Spawned(env, start);
    acts, r := LogsIn(env, start, acts, r);
    assert r.td == Td(On, Off, 0, Requests(2, map[]), 0);
    acts, r := Arrives(env, start, acts, r, m);
    acts, r := Arrives(env, start, acts, r, m);
  }

  /** Two messages have been sent, as requests 3 and 4. */
  lemma TwoSent(env: Env, filters: string, m: TgMsg) returns (acts: seq<Act>, r: State)
    requires env.atomicSpawn && env.decide(filters, m) && !IsFromTgfocus(m)
    ensures Exec(env, Init(On, filters, 0), acts) == Some(r)
    ensures AtWork(r) && At(r, HIdle, IAwait, PLoop, CLoop, SLoop) && !r.doCsm.On? && r.mq == []
    ensures r.td == Td(On, Off, 0, Requests(4, map[3 := OnCollect, 4 := OnCollect]), 0)
  {
    hide StepP, StepC, StepS, StepI, StepH, Exec;
    var start := Init(On, filters, 0);
    acts, r := TwoWaiting(env, filters, m);
    acts, r := Raised(env, start, acts, r);
    acts, r := SendsTwo(env, start, acts, r);
    ThirdAndFourth();
  }

  lemma ThirdAndFourth()
    ensures Send(Send(Requests(2, map[]), Some(OnCollect)), Some(OnCollect)) == Requests(4, map[3 := OnCollect, 4 := OnCollect])
  {}

  /** The first is answered with "no such chat"; a new chat is asked for, as request 5. */
  lemma Asked(env: Env, filters: string, m: TgMsg) returns (acts: seq<Act>, r: State)
    requires env.atomicSpawn && env.decide(filters, m) && !IsFromTgfocus(m)
    ensures Exec(env, Init(On, filters, 0), acts) == Some(r)
    ensures AtWork(r) && At(r, HIdle, IAwait, PLoop, CLoop, SLoop) && !r.doCsm.On? && |r.mq| > 0
    ensures r.td.isAuth.On? && 4 in r.td.req.cb && r.td.req.cb[4] == OnCollect && PendingCreate(r, 5)
  {
    var start := Init(On, filters, 0);
    acts, r := TwoSent(env, filters, m);
    acts, r := ChatGone(env, start, acts, r, 3);
    acts, r := Arrives(env, start, acts, r, m);
    acts, r := Raised(env, start, acts, r);
    acts, r := AsksOnce(env, start, acts, r);
  }

  /**
    The race on creating a chat is real: the second message is answered the same way, the consumer
    finds no chat and is about to ask again, while the producer receives the chat of request 5.
  */
  lemma CreateOverValidHappens(env: Env, filters: string, m: TgMsg) returns (s: State, acts: seq<Act>)
    requires env.atomicSpawn && env.decide(filters, m) && !IsFromTgfocus(m)
    ensures Reachable(env, s) && CreatesOverValid(env, s, acts)
  {
    hide StepC, StepS, StepI, StepH;
    var start := Init(On, filters, 0);
    var first, r := Asked(env, filters, m);
    first, r := ChatGone(env, start, first, r, 4);
    first, r := Then(env, start, first, r, Producer(Nothing));
    first, r := Then(env, start, first, r, Producer(Nothing));
    first, r := Raised(env, start, first, r);
    first, r := ReachesCheck(env, start, first, r);
    assert PendingCreate(r, 5);
    CreateRaceExactly(env, r);
    s := r;
    acts :| CreatesOverValid(env, s, acts);
  }
}
