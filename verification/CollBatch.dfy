/**
  One batch of the consumer as the program's loop handles it, in place (src/worker/coll_consumer.cc),
  and the protocol's steps when nothing comes between them: both give the same fates, ids and messages.
*/
module CollBatch {
  import opened Prelude
  import opened TgMessage
  import opened Collector
  import opened CollLog
  import opened CollRuns

  // ---- what a batch amounts to ----

  function FateOf(env: Env, filters: string, m: Msg, cnt: nat): Fate {
    if IsFromTgfocus(m.body) then Own
    else if env.decide(filters, m.body) then Forwarded(cnt + 1)
    else Filtered
  }

  /**
    The fates of messages ms, handled in their order, when cnt messages have been sent before and
    filters (k) is the text stored when the k-th is decided.
  */
  function Fates(env: Env, filters: nat -> string, ms: seq<Msg>, cnt: nat): (b: Batch)
    ensures |b| == |ms|
  {
    if ms == [] then []
    else
      var n := |ms| - 1;
      var b := Fates(env, filters, ms[..n], cnt);
      b + [Handled(ms[n], FateOf(env, filters(n), ms[n], cnt + |Sends(b)|), filters(n))]
  }

  lemma OneFateMore(env: Env, filters: nat -> string, ms: seq<Msg>, it: nat, cnt: nat)
    requires it < |ms|
    ensures var b := Fates(env, filters, ms[..it], cnt);
      var h := Handled(ms[it], FateOf(env, filters(it), ms[it], cnt + |Sends(b)|), filters(it));
      && Fates(env, filters, ms[..it + 1], cnt) == b + [h]
      && Sends(b + [h]) == Sends(b) + if h.fate.Forwarded? then [Sent(h.fate.id, h.msg)] else []
  {
    hide Sends, FateOf;
    assert ms[..it + 1][..it] == ms[..it];
    SendsAppend(Fates(env, filters, ms[..it], cnt),
                Handled(ms[it], FateOf(env, filters(it), ms[it], cnt + |Sends(Fates(env, filters, ms[..it], cnt))|), filters(it)));
  }

  lemma NoFates(env: Env, filters: nat -> string, ms: seq<Msg>, cnt: nat)
    ensures ms[..0] == [] && Fates(env, filters, [], cnt) == [] && Sends([]) == [] && ms[..|ms|] == ms
  {}

  /** Whatever the batch, its fates are the filters' and its messages are numbered on from cnt + 1. */
  lemma {:induction false} FatesAreRight(env: Env, filters: nat -> string, ms: seq<Msg>, cnt: nat)
    ensures var b := Fates(env, filters, ms, cnt);
      MsgsOf(b) == ms && Decided(env, b) && forall k | 0 <= k < |Sends(b)| :: Sends(b)[k].id == cnt + k + 1
    ensures forall k | 0 <= k < |ms| :: Fates(env, filters, ms, cnt)[k].under == filters(k)
    decreases |ms|
  {
    hide Sends, Fates;
    NoFates(env, filters, ms, cnt);
    if ms != [] {
      var n := |ms| - 1;
      FatesAreRight(env, filters, ms[..n], cnt);
      OneFateMore(env, filters, ms, n, cnt);
      assert ms[..n + 1] == ms;
      assert ms == ms[..n] + [ms[n]];
    }
  }

  // ---- the loop ----

  /** The turn before which the loop is first told to stop, from the i-th on; n if it is not. */
  function Turns(stop: nat -> bool, i: nat, n: nat): (k: nat)
    requires i <= n
    ensures i <= k <= n && (k < n ==> stop(k)) && forall j | i <= j < k :: !stop(j)
    decreases n - i
  {
    if i == n || stop(i) then i else Turns(stop, i + 1, n)
  }

  lemma StopsHere(stop: nat -> bool, i: nat, n: nat)
    requires i < n && stop(i)
    ensures Turns(stop, i, n) == i
  {}

  lemma TurnsOn(stop: nat -> bool, i: nat, n: nat)
    requires i < n && !stop(i)
    ensures Turns(stop, i, n) == Turns(stop, i + 1, n)
  {}

  class CollConsumer {
    var mq: seq<Msg>
    var consumeCnt: nat
    var outbox: seq<Sent>

    constructor ()
      ensures mq == [] && consumeCnt == 0 && outbox == []
    {
      mq, consumeCnt, outbox := [], 0, [];
    }

    /**
      The body under the lock.  filters (k) and stop (k) are what the k-th turn of the loop reads of
      the stored filters and of the stop flag; messages behind the first stop are dropped.
    */
    method HandleBatch(env: Env, filters: nat -> string, stop: nat -> bool, tgfidValid: bool) returns (handled: Batch)
      modifies this
      ensures var act := |old(mq)| > 0 && tgfidValid;
        && handled == (if act then Fates(env, filters, old(mq)[..Turns(stop, 0, |old(mq)|)], old(consumeCnt)) else [])
        && mq == (if act then [] else old(mq))
        && consumeCnt == old(consumeCnt) + |Sends(handled)|
        && outbox == old(outbox) + Sends(handled)
    {
      hide Fates, Sends, Turns;
      handled := [];
      NoFates(env, filters, mq, consumeCnt);
      if |mq| > 0 && tgfidValid {
        var it := 0;
        while it < |mq|
          invariant 0 <= it <= |mq| && Turns(stop, it, |mq|) == Turns(stop, 0, |mq|)
          invariant mq == old(mq) && handled == Fates(env, filters, mq[..it], old(consumeCnt))
          invariant consumeCnt == old(consumeCnt) + |Sends(handled)|
          invariant outbox == old(outbox) + Sends(handled)
        {
          if stop(it) {
            StopsHere(stop, it, |mq|);
            break;
          }
          TurnsOn(stop, it, |mq|);
          OneFateMore(env, filters, mq, it, old(consumeCnt));
          var m := mq[it];
          if IsFromTgfocus(m.body) {
            handled := handled + [Handled(m, Own, filters(it))];
          } else if env.decide(filters(it), m.body) {
            consumeCnt := consumeCnt + 1;
            outbox := outbox + [Sent(consumeCnt, m)];
            handled := handled + [Handled(m, Forwarded(consumeCnt), filters(it))];
          } else {
            handled := handled + [Handled(m, Filtered, filters(it))];
          }
          it := it + 1;
        }
        mq := [];
      }
    }
  }

  // ---- the protocol, undisturbed ----

  function Always(text: string): nat -> string { _ => text }

  predicate OnlyConsumer(acts: seq<Act>) { forall k | 0 <= k < |acts| :: acts[k].Consumer? }

  /** The protocol has handled the first `it` messages of the batch. */
  predicate Reached(env: Env, s: State, it: nat, r: State) {
    && it <= |s.mq| && r.mq == s.mq && r.filters == s.filters && r.fl == s.fl
    && r.log.cur == Fates(env, Always(s.filters), s.mq[..it], s.cnt)
    && r.cnt == s.cnt + |Sends(r.log.cur)| && r.log.outbox == s.log.outbox + Sends(r.log.cur)
    && r.log.batches == s.log.batches
  }

  lemma EntersDecide(env: Env, s: State, it: nat, t: State)
    requires Reached(env, s, it, t) && t.c == CIter(it) && it < |s.mq| && !s.fl.tryConsumer.On?
    ensures Do(env, t, Consumer) == Some(t.(c := CDecide(it))) && Reached(env, s, it, t.(c := CDecide(it)))
  {
    hide Fates, Sends, Decide, Collect;
  }

  lemma DecidesOne(env: Env, s: State, it: nat, t: State)
    requires Reached(env, s, it, t) && t.c == CDecide(it) && it < |s.mq|
    ensures Do(env, t, Consumer) == Some(Decide(env, t, it))
    ensures var r := Decide(env, t, it);
      if FateOf(env, s.filters, s.mq[it], t.cnt).Forwarded? then r == t.(c := CCollect(it, s.filters)) && Reached(env, s, it, r)
      else r.c == CIter(it + 1) && Reached(env, s, it + 1, r)
  {
    hide Fates, Sends, Collect;
    OneFateMore(env, Always(s.filters), s.mq, it, s.cnt);
  }

  lemma CollectsOne(env: Env, s: State, it: nat, t: State)
    requires Reached(env, s, it, t) && t.c == CCollect(it, s.filters) && it < |s.mq|
    requires FateOf(env, s.filters, s.mq[it], t.cnt).Forwarded?
    ensures Do(env, t, Consumer) == Some(Collect(t, it, s.filters))
    ensures var r := Collect(t, it, s.filters); r.c == CIter(it + 1) && Reached(env, s, it + 1, r)
  {
    hide Fates, Sends, Decide;
    OneFateMore(env, Always(s.filters), s.mq, it, s.cnt);
  }

  lemma HandlesOne(env: Env, s: State, acts0: seq<Act>, it: nat, t: State) returns (acts: seq<Act>, r: State)
    requires Exec(env, s, acts0) == Some(t) && OnlyConsumer(acts0) && !s.fl.tryConsumer.On?
    requires t.c == CIter(it) && Reached(env, s, it, t) && it < |s.mq|
    ensures Exec(env, s, acts) == Some(r) && OnlyConsumer(acts) && r.c == CIter(it + 1) && Reached(env, s, it + 1, r)
  {
    hide Do, Exec, Reached, Decide, Collect, FateOf;
    EntersDecide(env, s, it, t);
    acts, r := Then(env, s, acts0, t, Consumer);
    DecidesOne(env, s, it, r);
    var decided := r;
    acts, r := Then(env, s, acts, r, Consumer);
    if FateOf(env, s.filters, s.mq[it], decided.cnt).Forwarded? {
      CollectsOne(env, s, it, r);
      acts, r := Then(env, s, acts, r, Consumer);
    }
  }

  lemma ClosesBatch(env: Env, s: State, t: State)
    requires Reached(env, s, |s.mq|, t) && t.c == CIter(|s.mq|)
    ensures Do(env, t, Consumer) == Some(t.(c := CClear(|s.mq|)))
    ensures var r := Do(env, t.(c := CClear(|s.mq|)), Consumer);
      r.Some? && r.value.c.CUnlock? && r.value.mq == [] && r.value.cnt == t.cnt && r.value.log.outbox == t.log.outbox
      && r.value.log.batches == t.log.batches + [t.log.cur]
  {
    hide Fates, Sends, Decide, Collect;
    assert s.mq[|s.mq|..] == [];
    assert t.log.cur + Discard([]) == t.log.cur;
  }

  /**
    Scheduled alone from the check of the batch's size, the protocol's consumer gives the batch the
    same fates as the loop, sends the same messages with the same ids, and leaves the queue empty.
  */
  lemma BatchAlone(env: Env, s: State) returns (acts: seq<Act>, r: State)
    requires s.c.CSize? && |s.mq| > 0 && s.td.tgfid != -1 && !s.fl.tryConsumer.On? && s.log.cur == []
    ensures Exec(env, s, acts) == Some(r) && OnlyConsumer(acts) && r.c.CUnlock?
    ensures var b := Fates(env, Always(s.filters), s.mq, s.cnt);
      && r.mq == [] && r.cnt == s.cnt + |Sends(b)|
      && r.log.outbox == s.log.outbox + Sends(b) && r.log.batches == s.log.batches + [b]
  {
    hide Decide, Collect, Fates, Sends, StepP, StepS, StepI, StepH;
    NoFates(env, Always(s.filters), s.mq, s.cnt);
    acts, r := Then(env, s, [], s, Consumer);
    for it := 0 to |s.mq|
      invariant Exec(env, s, acts) == Some(r) && OnlyConsumer(acts) && r.c == CIter(it) && Reached(env, s, it, r)
    {
      acts, r := HandlesOne(env, s, acts, it, r);
    }
    ClosesBatch(env, s, r);
    acts, r := Then(env, s, acts, r, Consumer);
    acts, r := Then(env, s, acts, r, Consumer);
  }
}
