/** What the log invariant means for a reader: conservation, order, numbering, no message twice. */
module CollTheorems {
  import opened Prelude
  import opened Collector
  import opened CollControl
  import opened CollLog

  /** Every message of a closed batch, over all sessions. */
  function Items(l: Log): Batch { Flat(AllBatches(l)) }

  predicate SameFate(f: Fate, g: Fate) {
    match f
    case Own => g.Own?
    case Filtered => g.Filtered?
    case Forwarded(_) => g.Forwarded?
    case Discarded => g.Discarded?
  }

  /** The messages that met the same kind of fate as f. */
  function Pick(hs: Batch, f: Fate): seq<Msg> {
    if hs == [] then []
    else
      var h := hs[|hs| - 1];
      Pick(hs[..|hs| - 1], f) + if SameFate(f, h.fate) then [h.msg] else []
  }

  lemma {:induction false} PickAppend(a: Batch, b: Batch, f: Fate)
    ensures Pick(a + b, f) == Pick(a, f) + Pick(b, f)
  {
    if b == [] {
      assert a + b == a;
    } else {
      var n := |b| - 1;
      PickAppend(a, b[..n], f);
      assert (a + b)[..|a + b| - 1] == a + b[..n];
    }
  }

  lemma MsgsAppend(a: Batch, b: Batch)
    ensures MsgsOf(a + b) == MsgsOf(a) + MsgsOf(b)
  {}

  lemma PickLast(hs: Batch, f: Fate)
    requires hs != []
    ensures var n := |hs| - 1;
      Tally(hs, f) == if SameFate(f, hs[n].fate) then Tally(hs[..n], f) + multiset{hs[n].msg} else Tally(hs[..n], f)
  {}

  function Tally(hs: Batch, f: Fate): multiset<Msg> { multiset(Pick(hs, f)) }

  lemma {:induction false} FatesPartition(hs: Batch)
    ensures multiset(MsgsOf(hs)) == Tally(hs, Forwarded(0)) + Tally(hs, Filtered) + Tally(hs, Own) + Tally(hs, Discarded)
  {
    if hs != [] {
      var n := |hs| - 1;
      FatesPartition(hs[..n]);
      assert MsgsOf(hs) == MsgsOf(hs[..n]) + [hs[n].msg];
      PickLast(hs, Forwarded(0));
      PickLast(hs, Filtered);
      PickLast(hs, Own);
      PickLast(hs, Discarded);
      hide Pick, MsgsOf, Tally;
      AddToOne(Tally(hs[..n], Forwarded(0)), Tally(hs[..n], Filtered), Tally(hs[..n], Own), Tally(hs[..n], Discarded),
               Tally(hs, Forwarded(0)), Tally(hs, Filtered), Tally(hs, Own), Tally(hs, Discarded), hs[n].msg);
    }
  }

  lemma AddToOne<T>(a: multiset<T>, b: multiset<T>, c: multiset<T>, d: multiset<T>,
                    a': multiset<T>, b': multiset<T>, c': multiset<T>, d': multiset<T>, m: T)
    requires (a' == a + multiset{m} && b' == b && c' == c && d' == d)
          || (a' == a && b' == b + multiset{m} && c' == c && d' == d)
          || (a' == a && b' == b && c' == c + multiset{m} && d' == d)
          || (a' == a && b' == b && c' == c && d' == d + multiset{m})
    ensures a' + b' + c' + d' == a + b + c + d + multiset{m}
  {}

  lemma {:induction false} ArrivalsPermute(bs: seq<Batch>)
    ensures multiset(Arrivals(bs)) == multiset(MsgsOf(Flat(bs)))
  {
    if bs != [] {
      var n := |bs| - 1;
      ArrivalsPermute(bs[..n]);
      RevMultiset(MsgsOf(bs[n]));
      MsgsAppend(Flat(bs[..n]), bs[n]);
    }
  }

  lemma InsertedIsHandledOrPending(s: State)
    requires OrderInv(s)
    ensures multiset(s.log.inserted) == multiset(MsgsOf(Items(s.log))) + multiset(s.mq)
  {
    hide MsgsOf;
    ArrivalsPermute(AllBatches(s.log));
    RevMultiset(s.mq);
  }

  /** Every message ever inserted is in exactly one place: pending, or in one of the four fates. */
  lemma Conservation(env: Env, s: State)
    requires env.atomicSpawn && Reachable(env, s) && s.lock.Free?
    ensures multiset(s.log.inserted) ==
      multiset(s.mq) + Tally(Items(s.log), Forwarded(0)) + Tally(Items(s.log), Filtered) + Tally(Items(s.log), Own)
      + Tally(Items(s.log), Discarded)
    ensures s.total == |s.log.inserted| % U32
  {
    hide Reachable, Tally, MsgsOf, Items, FateInv, CursorInv, SessionLogInv;
    CtlReachable(env, s);
    LogReachable(env, s);
    InsertedIsHandledOrPending(s);
    FatesPartition(Items(s.log));
  }

  /**
    The whole history as a sequence: what arrived is what each closed batch held, oldest first, then
    what is pending.  `mq` and the batches themselves hold the newest first.
  */
  lemma ArrivalOrder(env: Env, s: State)
    requires env.atomicSpawn && Reachable(env, s)
    ensures s.log.inserted == Arrivals(AllBatches(s.log)) + Rev(s.mq)
    ensures forall i | 0 <= i < |s.log.inserted| :: s.log.inserted[i].serial == i
  {
    LogReachable(env, s);
  }

  /**
    What a session sends is, batch by batch and in the batch's own newest-first order, the messages
    whose decision at that moment was to collect them, numbered 1, 2, 3, ... without gaps.
  */
  lemma SessionOutbox(env: Env, s: State)
    requires env.atomicSpawn && Reachable(env, s)
    ensures s.log.outbox == Sends(Flat(s.log.batches) + s.log.cur)
    ensures Numbered(s.log.outbox)
    ensures forall b, h | b in AllBatches(s.log) && h in b :: FateOk(env, h)
    ensures forall h | h in s.log.cur :: FateOk(env, h)
    ensures forall session | session in s.log.past :: Numbered(Sends(Flat(session)))
    ensures forall session | session in s.log.past :: DiscardsLast(Flat(session))
  {
    LogReachable(env, s);
  }

  // ---- no message twice ----

  predicate Distinct<T(==)>(s: seq<T>) {
    forall i, j | 0 <= i < j < |s| :: s[i] != s[j]
  }

  lemma {:induction false} DistinctCount<T>(s: seq<T>, x: T)
    requires Distinct(s)
    ensures multiset(s)[x] <= 1
  {
    if s != [] {
      var n := |s| - 1;
      assert s == s[..n] + [s[n]];
      DistinctCount(s[..n], x);
      assert s[n] !in s[..n];
    }
  }

  lemma DistinctByMultiset<T>(d: seq<T>, s: seq<T>)
    requires Distinct(s) && multiset(d) == multiset(s)
    ensures Distinct(d)
  {
    forall i, j | 0 <= i < j < |d|
      ensures d[i] != d[j]
    {
      if d[i] == d[j] {
        var x := d[i];
        var a, b := d[..i] + [x], d[i + 1..j] + [x];
        assert d == a + b + d[j + 1..];
        assert multiset(d) == multiset(a) + multiset(b) + multiset(d[j + 1..]);
        assert x in a && x in b;
        DistinctCount(s, x);
      }
    }
  }

  lemma CurIsPrefix(env: Env, s: State)
    requires CursorInv(env, s)
    ensures |s.log.cur| <= |s.mq| && MsgsOf(s.log.cur) == s.mq[..|s.log.cur|]
  {}

  lemma HistoryDistinct(env: Env, s: State)
    requires OrderInv(s)
    ensures Distinct(MsgsOf(Items(s.log)) + s.mq)
  {
    InsertedIsHandledOrPending(s);
    DistinctByMultiset(MsgsOf(Items(s.log)) + s.mq, s.log.inserted);
  }

  /** Over the whole run, with any number of restarts, no message is handled twice, let alone sent twice. */
  lemma HandledOnce(env: Env, s: State)
    requires env.atomicSpawn && Reachable(env, s)
    ensures Distinct(MsgsOf(Items(s.log) + s.log.cur))
  {
    LogReachable(env, s);
    HistoryDistinct(env, s);
    CurIsPrefix(env, s);
    MsgsAppend(Items(s.log), s.log.cur);
    var closed := MsgsOf(Items(s.log));
    var k := |s.log.cur|;
    assert closed + s.mq[..k] == (closed + s.mq)[..|closed| + k];
  }

  // ---- discarding ----

  lemma {:induction false} PickDiscards(hs: Batch, ms: seq<Msg>)
    requires NoDiscard(hs)
    ensures Pick(hs + Discard(ms), Discarded) == ms
  {
    if ms != [] {
      var n := |ms| - 1;
      PickDiscards(hs, ms[..n]);
      assert (hs + Discard(ms))[..|hs| + n] == hs + Discard(ms[..n]);
      assert ms == ms[..n] + [ms[n]];
    } else if hs != [] {
      PickDiscards(hs[..|hs| - 1], []);
      assert hs[..|hs| - 1] + Discard([]) == hs[..|hs| - 1] && hs + Discard([]) == hs;
    }
  }

  lemma OpenBatchOnly(env: Env, s: State, r: State)
    requires (s.c.CDecide? || s.c.CCollect?) && StepC(env, s) == Some(r)
    ensures r.log.batches == s.log.batches && r.log.past == s.log.past
  {}

  lemma RolloverBatches(s: State, r: State)
    requires s.i.ISpawnC? && StepI(s) == Some(r)
    ensures AllBatches(r.log) == AllBatches(s.log)
  {
    FlatAppend(s.log.past, s.log.batches);
  }

  lemma InsertBatches(env: Env, s: State, got: Fetched, r: State)
    requires (s.p.PInsert? || s.p.PTotal?) && StepP(env, s, got) == Some(r)
    ensures AllBatches(r.log) == AllBatches(s.log)
  {}

  lemma BatchesOfOthers(env: Env, s: State, a: Act, r: State)
    requires Ctl(s) && Do(env, s, a) == Some(r) && !(a.Consumer? && s.c.CClear?)
    ensures AllBatches(r.log) == AllBatches(s.log)
  {
    match a
    case Producer(got) =>
      if s.p.PInsert? || s.p.PTotal? { InsertBatches(env, s, got, r); } else { ProducerKeepsMessages(env, s, got, r); }
    case Consumer =>
      if s.c.CDecide? || s.c.CCollect? { OpenBatchOnly(env, s, r); } else { OtherConsumerSame(env, s, r); }
    case Switcher => SwitcherKeepsMessages(s, r);
    case Initer => if s.i.ISpawnC? { RolloverBatches(s, r); } else { IniterKeepsMessages(s, r); }
    case Handler(cmd) => HandlerKeepsMessages(env, s, cmd, r);
    case Hint(_) =>
  }

  /** A message is discarded only by the consumer giving up its batch after it was told to stop. */
  lemma DiscardNeedsStop(env: Env, s: State, a: Act, r: State)
    requires env.atomicSpawn && Reachable(env, s) && Do(env, s, a) == Some(r)
    requires Pick(Items(r.log), Discarded) != Pick(Items(s.log), Discarded)
    ensures a.Consumer? && s.c.CClear? && s.c.it < |s.mq| && s.fl.tryConsumer.On?
    ensures Pick(Items(r.log), Discarded) == Pick(Items(s.log), Discarded) + s.mq[s.c.it..]
  {
    CtlReachable(env, s);
    LogReachable(env, s);
    if !(a.Consumer? && s.c.CClear?) {
      BatchesOfOthers(env, s, a, r);
    } else {
      ClosingDiscards(env, s, r);
    }
  }

  lemma ClosingDiscards(env: Env, s: State, r: State)
    requires LogInv(env, s) && s.c.CClear? && StepC(env, s) == Some(r)
    ensures s.c.it <= |s.mq| && (s.c.it < |s.mq| ==> s.fl.tryConsumer.On?)
    ensures Pick(Items(r.log), Discarded) == Pick(Items(s.log), Discarded) + s.mq[s.c.it..]
  {
    hide Pick, OrderInv, FateInv, DiscardsLast, Numbered;
    var b := s.log.cur + Discard(s.mq[s.c.it..]);
    assert AllBatches(r.log) == AllBatches(s.log) + [b];
    FlatAppend(AllBatches(s.log), b);
    PickAppend(Items(s.log), b, Discarded);
    PickDiscards(s.log.cur, s.mq[s.c.it..]);
  }
}
