/**
 `create_job` and `recover_orphan_jobs` in place: job rows next to the coin tables, the pipelines
 run on one row at a time and their gate calls reach the wallets.
 */
module GenerationTables {
  import opened Options
  import opened Keys
  import opened Jobs
  import opened CoinTables
  import W = Wallets
  import P = Pipelines
  import opened Generation
  import opened Recovery

  datatype Answer =
    | Deduplicated(job: Uuid)
    | PaymentRequired(required: int, available: int)
    | Conflict     // unique index on (user, client key)
    | SubmissionFailed(job: Uuid)  // the start's provider error reaches the caller
    | Accepted(job: Uuid)

  /** Insert and, unless the key is lost to a racing call, start. */
  function Placed(s: Sys, c: nat, id: Uuid, env: Env): Sys
    requires Enabled(s, Insert(c, id))
  {
    var inserted := Next(s, Insert(c, id));
    if |inserted.jobs| == |s.jobs| then inserted else Next(inserted, StartJob(c, env))
  }

  /** Reserve, then insert and start. */
  function Paid(s: Sys, c: nat, price: int, id: Uuid, env: Env): Sys
    requires Enabled(s, ReserveCoins(c, price)) && forall j :: j in s.jobs ==> j.id != id
  {
    var reserved := Next(s, ReserveCoins(c, price));
    if reserved.calls[c].phase == Closed then reserved else Placed(reserved, c, id, env)
  }

  /** One uninterrupted `create_job` call, as a run of its transactions. */
  function CreatedJob(s: Sys, u: Uuid, payload: Payload, model: string, key: Option<string>,
                      price: int, id: Uuid, env: Env): Sys
    requires FreshPayload(payload) && forall j :: j in s.jobs ==> j.id != id
  {
    var looked := Next(s, Begin(u, payload, model, key));
    if looked.calls[|s.calls|].phase == Closed then looked else Paid(looked, |s.calls|, price, id, env)
  }

  class GenerationDatabase {
    const coins: CoinDatabase
    var jobs: seq<Job>
    var calls: seq<Call>

    function View(): Sys
      reads this, coins
    {
      Sys(coins.View(), jobs, calls)
    }

    constructor ()
      ensures View() == INIT && fresh(coins)
    {
      coins := new CoinDatabase();
      jobs := [];
      calls := [];
    }

    method SettleGate(j: Job, gs: seq<GateCall>)
      modifies coins
      ensures coins.View() == Gated(old(coins.View()), j, gs)
    {
      var i := 0;
      while i < |gs|
        invariant 0 <= i <= |gs|
        invariant coins.View() == Gated(old(coins.View()), j, gs[..i])
      {
        assert gs[..i + 1][..i] == gs[..i];
        if gs[i] == Capture {
          var _ := coins.Capture(j.user, j.id, j.reserved);
        } else {
          var _ := coins.Release(j.user, j.id, j.reserved);
        }
        i := i + 1;
      }
      assert gs[..i] == gs;
    }

    /** The row and the wallets after the pipeline has worked on row `i`, its gate calls made for `payer`. */
    method StoreFor(i: nat, k: Job, payer: Uuid)
      requires i < |jobs|
      modifies this`jobs, coins
      ensures View() == MovedFor(old(View()), i, k, payer)
    {
      SettleGate(PaidBy(jobs[i], payer), NewCalls(jobs[i], k));
      jobs := jobs[i := k];
    }

    method Store(i: nat, k: Job)
      requires i < |jobs|
      modifies this`jobs, coins
      ensures View() == Moved(old(View()), i, k)
    {
      SamePayer(View(), i, k);
      StoreFor(i, k, jobs[i].user);
    }

    /** The start of the call's row; a submission error releases for the caller. */
    method StartPipeline(c: nat, env: Env) returns (raised: bool)
      requires Startable(View(), c)
      modifies this`jobs, this`calls, coins
      ensures View() == Next(old(View()), StartJob(c, env))
      ensures raised == P.StartPipeline(RowOf(old(View()), c), env).1
    {
      var i := calls[c].phase.job;
      var row := new JobTables(jobs[i]);
      raised := P.Launch(row, env);
      StoreFor(i, row.View(), if raised then calls[c].user else jobs[i].user);
      calls := calls[c := calls[c].(phase := Closed)];
    }

    method HandleReport(i: nat, r: P.Report)
      requires i < |jobs| && Outstanding(jobs[i])
      modifies this`jobs, coins
      ensures View() == Moved(old(View()), i, P.Delivered(old(jobs)[i], r))
    {
      var row := new JobTables(jobs[i]);
      P.Deliver(row, r);
      Store(i, row.View());
    }

    /** A handler called with a stage and a report of its own, whatever the row says. */
    method HandleStray(i: nat, stage: Stage, r: P.Report)
      requires Enabled(View(), Stray(i, stage, r))
      modifies this`jobs, coins
      ensures View() == Next(old(View()), Stray(i, stage, r))
    {
      var row := new JobTables(jobs[i]);
      P.Handle(row, stage, r);
      Store(i, row.View());
    }

    method ReassignJobs(frm: Uuid, to: Uuid)
      modifies this`jobs
      ensures jobs == Reown(old(jobs), frm, to)
    {
      var i := 0;
      while i < |jobs|
        invariant i <= |jobs| == |old(jobs)|
        invariant forall x :: 0 <= x < i ==> jobs[x] == Reown(old(jobs), frm, to)[x]
        invariant forall x :: i <= x < |jobs| ==> jobs[x] == old(jobs)[x]
      {
        if jobs[i].user == frm {
          jobs := jobs[i := jobs[i].(user := to)];
        }
        i := i + 1;
      }
      assert jobs == Reown(old(jobs), frm, to);
    }

    /** One merge transaction; a client key both users hold violates the unique index. */
    method MergeAccounts(frm: Uuid, to: Uuid) returns (merged: bool)
      requires frm != to
      modifies this, coins
      ensures View() == Next(old(View()), MergeUsers(frm, to))
      ensures merged <==> !KeysCollide(old(jobs), frm, to)
      ensures !merged <==>
        (exists i, j :: 0 <= i < |old(jobs)| && 0 <= j < |old(jobs)|
           && old(jobs)[i].user == frm && old(jobs)[j].user == to
           && old(jobs)[i].clientKey.Some? && old(jobs)[i].clientKey == old(jobs)[j].clientKey)
    {
      if KeysCollide(jobs, frm, to) {
        return false;
      }
      ReassignJobs(frm, to);
      coins.ReassignAll(frm, to);
      calls := ReownLost(calls, frm, to);
      merged := true;
    }

    /** First transaction: an earlier job under the same non-empty client key answers the call. */
    method LookUp(u: Uuid, payload: Payload, model: string, key: Option<string>) returns (known: Option<Uuid>)
      requires FreshPayload(payload)
      modifies this`calls
      ensures View() == Next(old(View()), Begin(u, payload, model, key))
      ensures known.Some? <==> Known(jobs, u, key)
      ensures calls == old(calls) + [Call(u, payload, model, key, if known.Some? then Closed else LookedUp)]
      ensures known.Some? ==> exists j :: j in jobs && j.id == known.value && j.user == u && j.clientKey == key
    {
      known := None;
      if key.Some? && key.value != "" {
        var i := 0;
        while i < |jobs| && known == None
          invariant 0 <= i <= |jobs|
          invariant known == None ==> forall x :: 0 <= x < i ==> !(jobs[x].user == u && jobs[x].clientKey == key)
          invariant known.Some? ==>
            exists x :: 0 <= x < |jobs| && jobs[x].id == known.value && jobs[x].user == u && jobs[x].clientKey == key
        {
          if jobs[i].user == u && jobs[i].clientKey == key {
            known := Some(jobs[i].id);
          }
          i := i + 1;
        }
      }
      calls := calls + [Call(u, payload, model, key, if known.Some? then Closed else LookedUp)];
      LookupDeduplicates(old(View()), u, payload, model, key);
    }

    /** Second transaction: the reserve. */
    method ReserveFor(c: nat, price: int) returns (out: W.Outcome)
      requires c < |calls| && calls[c].phase == LookedUp
      modifies this`calls, coins
      ensures View() == Next(old(View()), ReserveCoins(c, price))
      ensures out.Done? ==> calls[c].phase == Pending(out.units) && out.units == if price > 0 then price else 0
      ensures out.Done? <==> price <= 0 || W.Available(old(coins.View()), old(calls)[c].user) >= price
      ensures !out.Done? ==> calls[c].phase == Closed && coins.View() == old(coins.View())
      ensures out.Rejected? ==> false
      ensures out.InsufficientCredits? ==> out.available < out.required == price
    {
      out := coins.Reserve(calls[c].user, price);
      calls := calls[c := calls[c].(phase := if out.Done? then Pending(out.units) else Closed)];
    }

    /** Third transaction: the row, unless the unique index on the client key refuses it. */
    method InsertRow(c: nat, id: Uuid) returns (inserted: bool)
      requires c < |calls| && calls[c].phase.Pending? && forall j :: j in jobs ==> j.id != id
      modifies this`jobs, this`calls
      ensures View() == Next(old(View()), Insert(c, id))
      ensures |jobs| == if inserted then |old(jobs)| + 1 else |old(jobs)|
      ensures !inserted <==>
        old(calls)[c].clientKey.Some?
        && exists j :: j in old(jobs) && j.user == old(calls)[c].user && j.clientKey == old(calls)[c].clientKey
      ensures inserted ==> Startable(View(), c) && calls[c].phase.job == |old(jobs)|
      ensures inserted ==> RowOf(View(), c) == NewJob(old(calls)[c], id, old(calls)[c].phase.units)
      ensures !inserted ==> jobs == old(jobs)
    {
      var call := calls[c];
      InsertedRow(View(), c, id);
      if ClientKeyUsed(jobs, call.user, call.clientKey) {
        calls := calls[c := call.(phase := Lost(call.phase.units))];
        return false;
      }
      jobs := jobs + [NewJob(call, id, call.phase.units)];
      calls := calls[c := call.(phase := Inserted(|jobs| - 1))];
      return true;
    }

    method PlaceJob(c: nat, id: Uuid, env: Env) returns (r: Answer)
      requires c < |calls| && calls[c].phase.Pending? && forall j :: j in jobs ==> j.id != id
      modifies this`jobs, this`calls, coins
      ensures View() == Placed(old(View()), c, id, env)
      ensures if r == Conflict then jobs == old(jobs)
              else
                && |jobs| == |old(jobs)| + 1
                && r == if P.StartPipeline(NewJob(old(calls)[c], id, old(calls)[c].phase.units), env).1
                        then SubmissionFailed(id) else Accepted(id)
      ensures r == SubmissionFailed(id) ==> jobs[|old(jobs)|].status == Status.Failed
    {
      var inserted := InsertRow(c, id);
      if !inserted {
        return Conflict;
      }
      var raised := StartPipeline(c, env);
      r := if raised then SubmissionFailed(id) else Accepted(id);
    }

    method PayForJob(c: nat, price: int, id: Uuid, env: Env) returns (r: Answer)
      requires c < |calls| && calls[c].phase == LookedUp && forall j :: j in jobs ==> j.id != id
      modifies this`jobs, this`calls, coins
      ensures View() == Paid(old(View()), c, price, id, env)
      ensures r.PaymentRequired? <==> price > 0 && W.Available(old(coins.View()), old(calls)[c].user) < price
      ensures r.Deduplicated? ==> false
      ensures if r == Accepted(id) || r == SubmissionFailed(id) then |jobs| == |old(jobs)| + 1 else jobs == old(jobs)
      ensures r.Accepted? || r.SubmissionFailed? ==> r.job == id
      ensures r.SubmissionFailed? ==> jobs[|old(jobs)|].status == Status.Failed
      ensures r.PaymentRequired? ==> coins.View() == old(coins.View()) && r.available < r.required == price
    {
      var out := ReserveFor(c, price);
      if out.InsufficientCredits? {
        return PaymentRequired(out.required, out.available);
      }
      r := PlaceJob(c, id, env);
    }

    method CreateJob(u: Uuid, payload: Payload, model: string, key: Option<string>,
                     price: int, id: Uuid, env: Env) returns (r: Answer)
      requires FreshPayload(payload) && forall j :: j in jobs ==> j.id != id
      modifies this`jobs, this`calls, coins
      ensures View() == CreatedJob(old(View()), u, payload, model, key, price, id, env)
      ensures r.Deduplicated? <==> Known(old(jobs), u, key)
      ensures r.Deduplicated? ==> jobs == old(jobs) && coins.View() == old(coins.View())
      ensures r.PaymentRequired? <==>
        !Known(old(jobs), u, key) && price > 0 && W.Available(old(coins.View()), u) < price
      ensures r.Deduplicated? ==> exists j :: j in jobs && j.id == r.job && j.user == u && j.clientKey == key
      ensures if r == Accepted(id) || r == SubmissionFailed(id) then |jobs| == |old(jobs)| + 1 else jobs == old(jobs)
      ensures r.Accepted? || r.SubmissionFailed? ==> r.job == id
      ensures r.SubmissionFailed? ==> jobs[|old(jobs)|].status == Status.Failed
      ensures r.PaymentRequired? ==> coins.View() == old(coins.View()) && r.available < r.required == price
    {
      var c := |calls|;
      var known := LookUp(u, payload, model, key);
      if known.Some? {
        return Deduplicated(known.value);
      }
      r := PayForJob(c, price, id, env);
    }

    /** Startup recovery: returns every orphan's reserve and fails the row. */
    method RecoverOrphanJobs()
      modifies this`jobs, coins
      ensures View() == RecoveredUpTo(old(View()), |old(jobs)|)
    {
      var snapshot := jobs;
      var i := 0;
      while i < |snapshot|
        invariant 0 <= i <= |snapshot| == |jobs| && snapshot == old(jobs)
        invariant View() == RecoveredUpTo(old(View()), i)
      {
        if Orphan(snapshot[i]) {
          Store(i, Recovered(snapshot[i], false));
        }
        i := i + 1;
      }
    }
  }
}
