/**
  The request table of TdCollector (src/td_coll.cc, src/td_coll.hh): the running query id and the
  callbacks waiting for their responses.  The functions are the steps the collector protocol takes;
  the class is the table as the program keeps it, updated in place.
*/
module TdRequests {
  import opened Prelude

  /** What a registered callback is for. */
  datatype Callback = OnCollect | OnCreate | OnReply | OnAuth

  datatype Requests = Requests(curr: nat, cb: map<nat, Callback>)

  /** The id after `curr`, in the 64-bit arithmetic of the program. */
  function NextId(curr: nat): nat {
    (curr + 1) % U64
  }

  /** A query is sent: the id advances, and `emplace` registers the callback unless the key is taken. */
  function Send(r: Requests, cbfn: Option<Callback>): Requests {
    var id := NextId(r.curr);
    Requests(id, if cbfn.Some? && id !in r.cb then r.cb[id := cbfn.value] else r.cb)
  }

  function Forget(r: Requests, id: nat): Requests {
    r.(cb := r.cb - {id})
  }

  // ---- a whole run's requests ----

  datatype TableOp = SendOp(cbfn: Option<Callback>) | EraseOp(id: nat)

  function Apply(r: Requests, op: TableOp): Requests {
    match op
    case SendOp(cbfn) => Send(r, cbfn)
    case EraseOp(id) => Forget(r, id)
  }

  function ApplyAll(r: Requests, ops: seq<TableOp>): Requests {
    if ops == [] then r else Apply(ApplyAll(r, ops[..|ops| - 1]), ops[|ops| - 1])
  }

  lemma {:induction false} ApplyConcat(r: Requests, a: seq<TableOp>, b: seq<TableOp>)
    ensures ApplyAll(r, a + b) == ApplyAll(ApplyAll(r, a), b)
  {
    hide Apply;
    if b == [] {
      assert a + b == a;
    } else {
      var n := |b| - 1;
      ApplyConcat(r, a, b[..n]);
      assert (a + b)[..|a + b| - 1] == a + b[..n];
    }
  }

  /** No response has id 0. */
  predicate Proper(ops: seq<TableOp>) {
    forall k | 0 <= k < |ops| :: ops[k].EraseOp? ==> ops[k].id != 0
  }

  class RequestTable {
    var currQryId: nat
    var cb: map<nat, Callback>

    ghost function Table(): Requests
      reads this
    {
      Requests(currQryId, cb)
    }

    constructor ()
      ensures Table() == Requests(0, map[])
    {
      currQryId, cb := 0, map[];
    }

    method NextQueryId() returns (id: nat)
      modifies this`currQryId
      ensures id == currQryId == NextId(old(currQryId))
    {
      currQryId := (currQryId + 1) % U64;
      id := currQryId;
    }

    method SendQuery(cbfn: Option<Callback>) returns (id: nat)
      modifies this
      ensures Table() == Send(old(Table()), cbfn) && id == currQryId
    {
      id := NextQueryId();
      if cbfn.Some? && id !in cb {
        cb := cb[id := cbfn.value];
      }
    }

    /** `run` is the callback the response is handed to, if any; it is erased once it has run. */
    method ProcessResponse(id: nat) returns (run: Option<Callback>)
      modifies this`cb
      ensures id != 0 && id in old(cb) ==> run == Some(old(cb)[id]) && Table() == Forget(old(Table()), id)
      ensures id == 0 || id !in old(cb) ==> run == None && cb == old(cb)
      ensures id != 0 ==> id !in cb
    {
      run := None;
      if id != 0 && id in cb {
        run := Some(cb[id]);
        cb := cb - {id};
      }
    }

    /** The requests and responses of a run, on the table as the program keeps it. */
    method Replay(ops: seq<TableOp>)
      requires Proper(ops)
      modifies this
      ensures Table() == ApplyAll(old(Table()), ops)
    {
      for k := 0 to |ops|
        invariant Table() == ApplyAll(old(Table()), ops[..k])
      {
        assert ops[..k + 1][..k] == ops[..k];
        ghost var before := Table();
        match ops[k]
        case SendOp(cbfn) => var _ := SendQuery(cbfn);
        case EraseOp(id) =>
          var _ := ProcessResponse(id);
          assert Table() == Forget(before, id);
      }
      assert ops[..|ops|] == ops;
    }
  }
}
