/**
 The generation service on top of the coin economy: interleaved `create_job` calls, pipeline
 starts and reports, startup recovery, guest merges and every other writer of the wallets, each
 transaction one atomic step. A crash may fall between any two steps.
 */
module Generation {
  import opened Options
  import opened Keys
  import opened Sums
  import opened Jobs
  import W = Wallets
  import P = Pipelines

  /** Where one `create_job` call stands between its transactions. */
  datatype Phase =
    | LookedUp            // no earlier job under the client key
    | Pending(units: int) // coins reserved, row not yet inserted
    | Lost(units: int)    // reserved, but the insert lost the race for the key, or crashed
    | Inserted(job: nat)  // the row is there, the start still to come
    | Closed

  datatype Call = Call(user: Uuid, payload: Payload, model: string, clientKey: Option<string>, phase: Phase)

  datatype Sys = Sys(store: W.Store, jobs: seq<Job>, calls: seq<Call>)

  const INIT := Sys(W.EMPTY_STORE, [], [])

  // ---- reading ----

  predicate Captured(l: seq<W.Entry>, id: Uuid) { W.KeyTaken(l, CaptureKey(id)) }

  predicate Released(l: seq<W.Entry>, id: Uuid) { W.KeyTaken(l, ReleaseKey(id)) }

  predicate Untouched(l: seq<W.Entry>, j: Job) { !Captured(l, j.id) && !Released(l, j.id) }

  predicate ClientKeyUsed(jobs: seq<Job>, u: Uuid, key: Option<string>) {
    key.Some? && exists i :: 0 <= i < |jobs| && jobs[i].user == u && jobs[i].clientKey == key
  }

  /** `list_orphans`: queued or running without a provider request. */
  predicate Orphan(j: Job) { (j.status == Queued || j.status == Status.Running) && j.request == None }

  // ---- steps ----

  datatype Step =
    | Begin(user: Uuid, payload: Payload, model: string, clientKey: Option<string>)
    | ReserveCoins(call: nat, price: int)
    | Insert(call: nat, id: Uuid)
    | Crash(call: nat)
    | StartJob(call: nat, env: Env)
    | CrashInStart(call: nat, released: bool, byCaller: bool)
    | Report(job: nat, report: P.Report)
    | Stray(job: nat, stage: Stage, report: P.Report)  // delivered again, or from an old snapshot
    | Recover(job: nat, owner: Uuid, crash: bool)  // `owner` is whom the listing of orphans saw
    | Other(op: W.Op)
    | MergeUsers(from: Uuid, to: Uuid)

  function NewJob(c: Call, id: Uuid, units: int): Job {
    Job(id, c.user, units, c.clientKey, Created, None, None, c.model, 0, c.payload,
        map[], map[], [], [], [], 0, 0)
  }

  function WithPhase(s: Sys, c: nat, p: Phase): Sys
    requires c < |s.calls|
  {
    s.(calls := s.calls[c := s.calls[c].(phase := p)])
  }

  function GateOp(j: Job, g: GateCall): W.Op {
    match g
    case Capture => W.Op.Capture(j.user, j.id, j.reserved)
    case Release => W.Op.Release(j.user, j.id, j.reserved)
  }

  /** The wallet transactions behind a list of gate calls. */
  function Gated(st: W.Store, j: Job, gs: seq<GateCall>): W.Store {
    if gs == [] then st else W.Apply(Gated(st, j, gs[..|gs| - 1]), GateOp(j, gs[|gs| - 1])).0
  }

  function NewCalls(j: Job, k: Job): seq<GateCall> {
    if |j.gate| <= |k.gate| then k.gate[|j.gate|..] else []
  }

  /** Job `i` becomes `k`, and the gate calls it made reach the wallets. */
  function Moved(s: Sys, i: nat, k: Job): Sys
    requires i < |s.jobs|
  {
    s.(store := Gated(s.store, s.jobs[i], NewCalls(s.jobs[i], k)), jobs := s.jobs[i := k])
  }

  function PaidBy(j: Job, payer: Uuid): Job { j.(user := payer) }

  /** The same with the gate calls made for `payer`, who may no longer be the owner of the row. */
  function MovedFor(s: Sys, i: nat, k: Job, payer: Uuid): Sys
    requires i < |s.jobs|
  {
    s.(store := Gated(s.store, PaidBy(s.jobs[i], payer), NewCalls(s.jobs[i], k)), jobs := s.jobs[i := k])
  }

  predicate Startable(s: Sys, c: nat) {
    && c < |s.calls| && s.calls[c].phase.Inserted? && s.calls[c].phase.job < |s.jobs|
    && s.jobs[s.calls[c].phase.job].status == Created
  }

  function RowOf(s: Sys, c: nat): Job
    requires Startable(s, c)
  {
    s.jobs[s.calls[c].phase.job]
  }

  /**
   Whose wallet a release of the start goes to. The failure path of `create_job` releases on the row
   object it inserted, so for the caller; the pipelines' own failure path reads the row again.
   */
  function Payer(s: Sys, c: nat, byCaller: bool): Uuid
    requires Startable(s, c)
  {
    if byCaller then s.calls[c].user else RowOf(s, c).user
  }

  function Ran(j: Job, released: bool): Job {
    var k := j.(status := Status.Running);
    if released then k.(gate := k.gate + [Release]) else k
  }

  function Recovered(j: Job, crash: bool): Job {
    var k := if j.reserved != 0 then j.(gate := j.gate + [Release]) else j;
    if crash then k else k.(status := Status.Failed)
  }

  function Reown(jobs: seq<Job>, frm: Uuid, to: Uuid): (r: seq<Job>)
    ensures |r| == |jobs|
    ensures forall i :: 0 <= i < |jobs| ==> r[i] == if jobs[i].user == frm then jobs[i].(user := to) else jobs[i]
  {
    if jobs == [] then []
    else
      var j := jobs[|jobs| - 1];
      Reown(jobs[..|jobs| - 1], frm, to) + [if j.user == frm then j.(user := to) else j]
  }

  /** A lost reserve sits in the guest's wallet, so it moves along with it. */
  function ReownLost(calls: seq<Call>, frm: Uuid, to: Uuid): (r: seq<Call>)
    ensures |r| == |calls|
    ensures forall i :: 0 <= i < |calls| ==>
      r[i] == if calls[i].user == frm && calls[i].phase.Lost? then calls[i].(user := to) else calls[i]
  {
    if calls == [] then []
    else
      var c := calls[|calls| - 1];
      ReownLost(calls[..|calls| - 1], frm, to) + [if c.user == frm && c.phase.Lost? then c.(user := to) else c]
  }

  /** Both users hold a job under the same client key: the bulk update violates the unique index. */
  predicate KeysCollide(jobs: seq<Job>, frm: Uuid, to: Uuid) {
    exists i :: 0 <= i < |jobs| && jobs[i].user == frm && ClientKeyUsed(jobs, to, jobs[i].clientKey)
  }

  predicate FreshPayload(p: Payload) {
    p.Song? ==> p.lyrics == "" && p.clonedVoice == "" && !p.fallbackUsed
  }

  predicate Enabled(s: Sys, t: Step) {
    match t
    case Begin(_, payload, _, _) => FreshPayload(payload)
    case ReserveCoins(c, _) => c < |s.calls| && s.calls[c].phase == LookedUp
    case Insert(c, id) => c < |s.calls| && s.calls[c].phase.Pending? && forall j :: j in s.jobs ==> j.id != id
    case Crash(c) =>
      c < |s.calls| && (s.calls[c].phase == LookedUp || s.calls[c].phase.Pending? || s.calls[c].phase.Inserted?)
    case StartJob(c, _) => Startable(s, c)
    case CrashInStart(c, released, _) => Startable(s, c) && (released ==> RowOf(s, c).reserved != 0)
    case Report(i, _) => i < |s.jobs| && Outstanding(s.jobs[i])
    case Stray(i, stage, _) =>
      i < |s.jobs| && s.jobs[i].request.Some? && (Terminal(s.jobs[i]) || Stale(s.jobs[i], stage))
    case Recover(i, _, _) => i < |s.jobs| && Orphan(s.jobs[i])
    case Other(op) =>
      !op.Reserve? && !op.Capture? && !op.Release? && !op.Merge?
    case MergeUsers(frm, to) => frm != to
  }

  function Next(s: Sys, t: Step): Sys
    requires Enabled(s, t)
  {
    match t
    case Begin(u, payload, model, key) =>
      var known := key.Some? && key.value != "" && ClientKeyUsed(s.jobs, u, key);
      s.(calls := s.calls + [Call(u, payload, model, key, if known then Closed else LookedUp)])
    case ReserveCoins(c, price) =>
      var (store, out) := W.Apply(s.store, W.Op.Reserve(s.calls[c].user, price));
      WithPhase(s.(store := store), c, if out.Done? then Pending(out.units) else Closed)
    case Insert(c, id) =>
      var call := s.calls[c];
      if ClientKeyUsed(s.jobs, call.user, call.clientKey) then WithPhase(s, c, Lost(call.phase.units))
      else WithPhase(s.(jobs := s.jobs + [NewJob(call, id, call.phase.units)]), c, Inserted(|s.jobs|))
    case Crash(c) =>
      var p := s.calls[c].phase;
      WithPhase(s, c, if p.Pending? then Lost(p.units) else Closed)
    case StartJob(c, env) =>
      var j := RowOf(s, c);
      var payer := Payer(s, c, P.StartPipeline(j, env).1);
      WithPhase(MovedFor(s, s.calls[c].phase.job, P.Launched(j, env), payer), c, Closed)
    case CrashInStart(c, released, byCaller) =>
      var k := Ran(RowOf(s, c), released);
      WithPhase(MovedFor(s, s.calls[c].phase.job, k, Payer(s, c, byCaller)), c, Closed)
    case Report(i, r) => Moved(s, i, P.Delivered(s.jobs[i], r))
    case Stray(i, stage, r) => Moved(s, i, P.Handled(s.jobs[i], stage, r))
    case Recover(i, owner, crash) => MovedFor(s, i, Recovered(s.jobs[i], crash), owner)
    case Other(op) => s.(store := W.Apply(s.store, op).0)
    case MergeUsers(frm, to) =>
      if KeysCollide(s.jobs, frm, to) then s
      else MergedSys(s, frm, to)
  }

  function MergedSys(s: Sys, frm: Uuid, to: Uuid): Sys {
    Sys(W.Merged(s.store, frm, to), Reown(s.jobs, frm, to), ReownLost(s.calls, frm, to))
  }

  // ---- what holds ----

  /** Coins a call has reserved that no job row carries. */
  function InFlight(u: Uuid): Call -> int {
    (c: Call) => if c.user == u && (c.phase.Pending? || c.phase.Lost?) then c.phase.units else 0
  }

  /** Coins reserved for a job that is not settled yet. */
  function Held(l: seq<W.Entry>, u: Uuid): Job -> int {
    (j: Job) => if j.user == u && Untouched(l, j) then j.reserved else 0
  }

  ghost predicate BackedFor(s: Sys, u: Uuid) {
    W.Reserved(s.store, u) == Sum(s.calls, InFlight(u)) + Sum(s.jobs, Held(s.store.ledger, u))
  }

  /** Every reserved coin of a wallet is accounted for by a call or by an unsettled job. */
  ghost predicate Backed(s: Sys) {
    forall u: Uuid :: BackedFor(s, u)
  }

  /** What the ledger says about a job, by its status. */
  ghost predicate SettledByStatus(l: seq<W.Entry>, j: Job) {
    && j.reserved >= 0
    && match j.status
       case Created => Fresh(j) && Untouched(l, j)
       case Running =>
         if j.request == None then
           j.submits == j.reports == 0 && !Captured(l, j.id) && (Released(l, j.id) ==> j.reserved > 0)
         else j.submits == j.reports + 1 && (j.reserved > 0 ==> P.InProgress(j)) && Untouched(l, j)
       case Completed => j.submits == j.reports && Captured(l, j.id) == (j.reserved > 0) && !Released(l, j.id)
       case Failed => j.submits == j.reports && Released(l, j.id) == (j.reserved > 0) && !Captured(l, j.id)
       case _ => false
  }

  ghost predicate DistinctIds(jobs: seq<Job>) {
    forall i, j :: 0 <= i < j < |jobs| ==> jobs[i].id != jobs[j].id
  }

  predicate JobKey(k: Option<LedgerKey>) { k.Some? && (k.value.CaptureKey? || k.value.ReleaseKey?) }

  ghost predicate HasJob(jobs: seq<Job>, id: Uuid) { exists j :: j in jobs && j.id == id }

  /** Captures and releases in the ledger belong to job rows. */
  ghost predicate SettlementsHaveJobs(s: Sys) {
    forall e :: e in s.store.ledger && JobKey(e.key) ==> HasJob(s.jobs, e.key.value.job)
  }

  ghost predicate AllSettled(l: seq<W.Entry>, jobs: seq<Job>) { forall j :: j in jobs ==> SettledByStatus(l, j) }

  ghost predicate SoundCalls(calls: seq<Call>) {
    forall c :: c in calls ==> FreshPayload(c.payload) && (c.phase.Pending? || c.phase.Lost? ==> c.phase.units >= 0)
  }

  ghost predicate Inv(s: Sys) {
    && W.Replays(s.store)
    && W.UniqueKeys(s.store.ledger)
    && Backed(s)
    && DistinctIds(s.jobs)
    && AllSettled(s.store.ledger, s.jobs)
    && SettlementsHaveJobs(s)
    && SoundCalls(s.calls)
  }

  // ---- calls ----

  lemma BeginKeepsInv(s: Sys, t: Step)
    requires Inv(s) && t.Begin? && Enabled(s, t)
    ensures Inv(Next(s, t))
  {
    var r := Next(s, t);
    forall u: Uuid ensures BackedFor(r, u) {
      assert BackedFor(s, u);
      SumAppend(s.calls, r.calls[|s.calls|], InFlight(u));
    }
  }

  /** Rewriting the phase of one call shifts the total of its user only. */
  lemma PhaseShiftsInFlight(s: Sys, c: nat, p: Phase, u: Uuid)
    requires c < |s.calls|
    ensures var k := s.calls[c];
            Sum(WithPhase(s, c, p).calls, InFlight(u)) - Sum(s.calls, InFlight(u))
            == InFlight(u)(k.(phase := p)) - InFlight(u)(k)
  {
    SumDiffersAt(s.calls, WithPhase(s, c, p).calls, InFlight(u), InFlight(u), c);
  }

  lemma CrashKeepsInv(s: Sys, t: Step)
    requires Inv(s) && t.Crash? && Enabled(s, t)
    ensures Inv(Next(s, t))
  {
    var r := Next(s, t);
    forall u: Uuid ensures BackedFor(r, u) {
      assert BackedFor(s, u);
      PhaseShiftsInFlight(s, t.call, r.calls[t.call].phase, u);
    }
  }

  /** A ledger row that is no capture or release leaves every job as settled as it was. */
  lemma OtherRowsSettleNothing(l: seq<W.Entry>, e: W.Entry, j: Job)
    requires !JobKey(e.key)
    ensures Captured(l + [e], j.id) == Captured(l, j.id) && Released(l + [e], j.id) == Released(l, j.id)
  {
    assert forall i :: 0 <= i < |l| ==> (l + [e])[i] == l[i];
  }

  lemma UnsettlingRowKeepsJobs(s: Sys, l: seq<W.Entry>, u: Uuid)
    requires Inv(s)
    requires l == s.store.ledger || (exists e :: l == s.store.ledger + [e] && !JobKey(e.key))
    ensures forall j :: j in s.jobs ==> SettledByStatus(l, j)
    ensures forall e :: e in l && JobKey(e.key) ==> HasJob(s.jobs, e.key.value.job)
    ensures Sum(s.jobs, Held(l, u)) == Sum(s.jobs, Held(s.store.ledger, u))
  {
    if l != s.store.ledger {
      var e :| l == s.store.ledger + [e] && !JobKey(e.key);
      forall j | j in s.jobs
        ensures Captured(l, j.id) == Captured(s.store.ledger, j.id)
        ensures Released(l, j.id) == Released(s.store.ledger, j.id)
      {
        OtherRowsSettleNothing(s.store.ledger, e, j);
      }
    }
    SumSame(s.jobs, s.jobs, Held(l, u), Held(s.store.ledger, u));
  }

  lemma ReserveKeepsInv(s: Sys, t: Step)
    requires Inv(s) && t.ReserveCoins? && Enabled(s, t)
    ensures Inv(Next(s, t))
  {
    var r := Next(s, t);
    var op := W.Op.Reserve(s.calls[t.call].user, t.price);
    W.AccountableKeepsReplay(s.store, op);
    W.ApplyKeepsUniqueKeys(s.store, op);
    ReserveIsOneRow(s.store, op.user, t.price);
    forall u: Uuid ensures BackedFor(r, u) {
      assert BackedFor(s, u);
      PhaseShiftsInFlight(s, t.call, r.calls[t.call].phase, u);
      UnsettlingRowKeepsJobs(s, r.store.ledger, u);
    }
    UnsettlingRowKeepsJobs(s, r.store.ledger, op.user);
  }

  lemma ReserveIsOneRow(st: W.Store, u: Uuid, price: int)
    ensures var (r, out) := W.Apply(st, W.Op.Reserve(u, price));
            && (r.ledger == st.ledger || exists e :: r.ledger == st.ledger + [e] && !JobKey(e.key))
            && (forall v: Uuid ::
                  W.Reserved(r, v) == W.Reserved(st, v) + if v == u && out.Done? then out.units else 0)
            && (out.Done? ==> out.units >= 0)
  {
    var op := W.Op.Reserve(u, price);
    var r := W.Apply(st, op).0;
    assert r.ledger == st.ledger || (r.ledger == st.ledger + [W.EntryOf(op)] && !JobKey(W.EntryOf(op).key));
  }

  /** The insert that loses the race for the client key leaves its reserve behind, accounted as lost. */
  lemma LostInsertKeepsInv(s: Sys, c: nat)
    requires Inv(s) && c < |s.calls| && s.calls[c].phase.Pending?
    ensures Inv(WithPhase(s, c, Lost(s.calls[c].phase.units)))
  {
    var r := WithPhase(s, c, Lost(s.calls[c].phase.units));
    forall u: Uuid ensures BackedFor(r, u) {
      assert BackedFor(s, u);
      PhaseShiftsInFlight(s, c, r.calls[c].phase, u);
    }
  }

  lemma InsertedRowIsBacked(s: Sys, c: nat, id: Uuid)
    requires Inv(s) && c < |s.calls| && s.calls[c].phase.Pending? && forall j :: j in s.jobs ==> j.id != id
    ensures var j := NewJob(s.calls[c], id, s.calls[c].phase.units);
            Backed(WithPhase(s.(jobs := s.jobs + [j]), c, Inserted(|s.jobs|))) && SettledByStatus(s.store.ledger, j)
  {
    var call := s.calls[c];
    var j := NewJob(call, id, call.phase.units);
    var r := WithPhase(s.(jobs := s.jobs + [j]), c, Inserted(|s.jobs|));
    NewIdUntouched(s, id);
    assert call in s.calls;
    forall u: Uuid ensures BackedFor(r, u) {
      assert BackedFor(s, u);
      PhaseShiftsInFlight(s, c, Inserted(|s.jobs|), u);
      SumAppend(s.jobs, j, Held(s.store.ledger, u));
    }
  }

  lemma InsertKeepsInv(s: Sys, t: Step)
    requires Inv(s) && t.Insert? && Enabled(s, t)
    ensures Inv(Next(s, t))
  {
    var call := s.calls[t.call];
    if ClientKeyUsed(s.jobs, call.user, call.clientKey) {
      LostInsertKeepsInv(s, t.call);
    } else {
      InsertedRowIsBacked(s, t.call, t.id);
      var j := NewJob(call, t.id, call.phase.units);
      var r := Next(s, t);
      assert r == WithPhase(s.(jobs := s.jobs + [j]), t.call, Inserted(|s.jobs|));
      assert forall k :: k in r.jobs ==> k in s.jobs || k == j;
      assert forall k :: k in s.jobs ==> k in r.jobs;
    }
  }

  lemma NewIdUntouched(s: Sys, id: Uuid)
    requires SettlementsHaveJobs(s) && forall j :: j in s.jobs ==> j.id != id
    ensures !Captured(s.store.ledger, id) && !Released(s.store.ledger, id)
  {
    forall i | 0 <= i < |s.store.ledger| && JobKey(s.store.ledger[i].key)
      ensures s.store.ledger[i].key.value.job != id
    {
      assert s.store.ledger[i] in s.store.ledger;
    }
  }

  // ---- settlement ----

  /** The wallet of an unsettled priced job exists and covers the whole reserve: the clamp never cuts. */
  lemma ReserveIsCovered(s: Sys, i: nat)
    requires Inv(s) && i < |s.jobs| && Untouched(s.store.ledger, s.jobs[i])
    ensures W.Reserved(s.store, s.jobs[i].user) >= s.jobs[i].reserved
    ensures s.jobs[i].reserved > 0 ==> s.jobs[i].user in s.store.wallets
  {
    var u := s.jobs[i].user;
    assert forall x :: 0 <= x < |s.jobs| ==> s.jobs[x] in s.jobs;
    assert forall x :: 0 <= x < |s.calls| ==> s.calls[x] in s.calls;
    SumNonNegative(s.jobs, Held(s.store.ledger, u));
    SumNonNegative(s.calls, InFlight(u));
    assert BackedFor(s, u);
    assert Held(s.store.ledger, u)(s.jobs[i]) == s.jobs[i].reserved;
  }

  /** Only the settled job changes its standing in the ledger. */
  lemma SettlingRowTouchesOneJob(l: seq<W.Entry>, e: W.Entry, id: Uuid)
    requires JobKey(e.key)
    ensures Captured(l + [e], id) == (Captured(l, id) || e.key == Some(CaptureKey(id)))
    ensures Released(l + [e], id) == (Released(l, id) || e.key == Some(ReleaseKey(id)))
  {
    assert forall i :: 0 <= i < |l| ==> (l + [e])[i] == l[i];
    assert (l + [e])[|l|] == e;
  }

  /** A first capture or release of a priced job, as the wallets see it. */
  lemma FirstSettlement(s: Sys, i: nat, g: GateCall)
    requires Inv(s) && i < |s.jobs| && Untouched(s.store.ledger, s.jobs[i]) && s.jobs[i].reserved > 0
    ensures var j := s.jobs[i];
            var st := W.Apply(s.store, GateOp(j, g)).0;
            && st.ledger == s.store.ledger + [W.EntryOf(GateOp(j, g))]
            && (forall u: Uuid :: W.Reserved(st, u) == W.Reserved(s.store, u) - if u == j.user then j.reserved else 0)
            && (forall u: Uuid :: W.Available(st, u) ==
                  W.Available(s.store, u) + if u == j.user && g == Release then j.reserved else 0)
            && W.Replays(st) && W.UniqueKeys(st.ledger)
  {
    ReserveIsCovered(s, i);
    W.AccountableKeepsReplay(s.store, GateOp(s.jobs[i], g));
    W.ApplyKeepsUniqueKeys(s.store, GateOp(s.jobs[i], g));
  }

  lemma OneGateCall(st: W.Store, j: Job, g: GateCall)
    ensures Gated(st, j, [g]) == W.Apply(st, GateOp(j, g)).0
  {
    assert [g][..0] == [];
  }

  /** A job moves on without touching the wallets. */
  lemma QuietMoveKeepsInv(s: Sys, i: nat, k: Job)
    requires Inv(s) && i < |s.jobs| && SameJob(k, s.jobs[i])
    requires Moved(s, i, k).store == s.store && SettledByStatus(s.store.ledger, k)
    ensures Inv(Moved(s, i, k))
  {
    var r := Moved(s, i, k);
    forall u: Uuid ensures BackedFor(r, u) {
      assert BackedFor(s, u);
      SumSame(s.jobs, r.jobs, Held(s.store.ledger, u), Held(s.store.ledger, u));
    }
    SameIdsAfterMove(s, i, k);
  }

  lemma SameIdsAfterMove(s: Sys, i: nat, k: Job)
    requires i < |s.jobs| && SameJob(k, s.jobs[i])
    ensures var r := s.jobs[i := k];
            && (forall j :: j in r ==> j in s.jobs || j == k)
            && (forall id :: HasJob(s.jobs, id) ==> HasJob(r, id))
  {
    var r := s.jobs[i := k];
    forall id | HasJob(s.jobs, id) ensures HasJob(r, id) {
      var x :| 0 <= x < |s.jobs| && s.jobs[x].id == id;
      assert r[x] in r && r[x].id == id;
    }
  }

  lemma OtherJobsUntouched(s: Sys, i: nat, e: W.Entry, x: nat)
    requires DistinctIds(s.jobs) && i < |s.jobs| && x < |s.jobs| && x != i
    requires JobKey(e.key) && e.key.value.job == s.jobs[i].id
    ensures var l, id := s.store.ledger, s.jobs[x].id;
            Captured(l + [e], id) == Captured(l, id) && Released(l + [e], id) == Released(l, id)
  {
    SettlingRowTouchesOneJob(s.store.ledger, e, s.jobs[x].id);
  }

  lemma SettlingKeepsStanding(s: Sys, i: nat, k: Job, e: W.Entry)
    requires DistinctIds(s.jobs) && AllSettled(s.store.ledger, s.jobs) && i < |s.jobs|
    requires JobKey(e.key) && e.key.value.job == s.jobs[i].id
    requires SettledByStatus(s.store.ledger + [e], k)
    ensures AllSettled(s.store.ledger + [e], s.jobs[i := k])
  {
    var jobs := s.jobs[i := k];
    forall x | x in jobs ensures SettledByStatus(s.store.ledger + [e], x) {
      var n :| 0 <= n < |jobs| && jobs[n] == x;
      if n != i {
        OtherJobsUntouched(s, i, e, n);
        assert s.jobs[n] in s.jobs;
      }
    }
  }

  /** The settled job stops being held, no other job does. */
  lemma SettlingFreesItsReserve(s: Sys, i: nat, k: Job, e: W.Entry, u: Uuid)
    requires DistinctIds(s.jobs) && i < |s.jobs| && SameJob(k, s.jobs[i])
    requires JobKey(e.key) && e.key.value.job == s.jobs[i].id && Untouched(s.store.ledger, s.jobs[i])
    ensures Sum(s.jobs[i := k], Held(s.store.ledger + [e], u)) ==
            Sum(s.jobs, Held(s.store.ledger, u)) - (if u == k.user then k.reserved else 0)
  {
    var l := s.store.ledger;
    forall x | 0 <= x < |s.jobs| && x != i
      ensures Held(l + [e], u)(s.jobs[i := k][x]) == Held(l, u)(s.jobs[x])
    {
      OtherJobsUntouched(s, i, e, x);
    }
    SettlingRowTouchesOneJob(l, e, s.jobs[i].id);
    SumDiffersAt(s.jobs, s.jobs[i := k], Held(l, u), Held(l + [e], u), i);
  }

  /** A job settles: one capture or release, paid out of its own reserve. */
  lemma SettlingMoveKeepsInv(s: Sys, i: nat, k: Job, g: GateCall)
    requires Inv(s) && i < |s.jobs| && SameJob(k, s.jobs[i])
    requires Untouched(s.store.ledger, s.jobs[i]) && s.jobs[i].reserved > 0
    requires NewCalls(s.jobs[i], k) == [g]
    requires SettledByStatus(s.store.ledger + [W.EntryOf(GateOp(s.jobs[i], g))], k)
    ensures Inv(Moved(s, i, k))
  {
    var j := s.jobs[i];
    var e := W.EntryOf(GateOp(j, g));
    var r := Moved(s, i, k);
    OneGateCall(s.store, j, g);
    FirstSettlement(s, i, g);
    assert r.store.ledger == s.store.ledger + [e];
    forall u: Uuid ensures BackedFor(r, u) {
      assert BackedFor(s, u);
      SettlingFreesItsReserve(s, i, k, e, u);
    }
    SettledRowsHaveJobs(s, i, k, e);
    SettlingKeepsStanding(s, i, k, e);
  }

  lemma SettledRowsHaveJobs(s: Sys, i: nat, k: Job, e: W.Entry)
    requires SettlementsHaveJobs(s) && i < |s.jobs| && SameJob(k, s.jobs[i])
    requires JobKey(e.key) && e.key.value.job == k.id
    ensures SettlementsHaveJobs(s.(store := s.store.(ledger := s.store.ledger + [e]), jobs := s.jobs[i := k]))
  {
    var r := s.(store := s.store.(ledger := s.store.ledger + [e]), jobs := s.jobs[i := k]);
    SameIdsAfterMove(s, i, k);
    forall x | x in r.store.ledger && JobKey(x.key) ensures HasJob(r.jobs, x.key.value.job) {
      if x == e {
        assert r.jobs[i] in r.jobs;
      } else {
        assert x in s.store.ledger;
      }
    }
  }

  // ---- pipeline steps ----

  lemma SamePayer(s: Sys, i: nat, k: Job)
    requires i < |s.jobs|
    ensures MovedFor(s, i, k, s.jobs[i].user) == Moved(s, i, k)
  {
    assert PaidBy(s.jobs[i], s.jobs[i].user) == s.jobs[i];
  }

  /** A call whose row is inserted holds no coins, so its end changes no account. */
  lemma ClosingIsQuiet(s: Sys, c: nat)
    requires c < |s.calls| && s.calls[c].phase.Inserted?
    ensures Inv(WithPhase(s, c, Closed)) <==> Inv(s)
  {
    var r := WithPhase(s, c, Closed);
    forall u: Uuid ensures BackedFor(r, u) <==> BackedFor(s, u) {
      PhaseShiftsInFlight(s, c, Closed, u);
    }
    assert r.calls[c] in r.calls && s.calls[c] in s.calls;
    assert forall x :: x in r.calls ==> x in s.calls || x == r.calls[c];
    assert forall i :: 0 <= i < |s.calls| ==> i == c || (s.calls[i] in r.calls) by {
      forall i | 0 <= i < |s.calls| && i != c ensures s.calls[i] in r.calls { assert r.calls[i] == s.calls[i]; }
    }
  }

  /** A release paid to somebody else settles the job while its reserve stays where it was. */
  lemma WrongPayerUnbacks(s: Sys, i: nat, k: Job, payer: Uuid)
    requires Inv(s) && i < |s.jobs| && SameJob(k, s.jobs[i]) && NewCalls(s.jobs[i], k) == [Release]
    requires Untouched(s.store.ledger, s.jobs[i]) && s.jobs[i].reserved > 0 && payer != s.jobs[i].user
    ensures !BackedFor(MovedFor(s, i, k, payer), s.jobs[i].user)
  {
    var j := s.jobs[i];
    var e := W.EntryOf(GateOp(PaidBy(j, payer), Release));
    OneGateCall(s.store, PaidBy(j, payer), Release);
    SettlingFreesItsReserve(s, i, k, e, j.user);
    assert BackedFor(s, j.user);
  }

  /** Only the failure path of `create_job` looks past the row, and only for a priced job does it matter. */
  predicate RightPayer(s: Sys, c: nat, byCaller: bool)
    requires Startable(s, c)
  {
    byCaller && RowOf(s, c).reserved > 0 ==> s.calls[c].user == RowOf(s, c).user
  }

  lemma StartMakesOneCall(j: Job, env: Env)
    requires Fresh(j)
    ensures var k := P.Launched(j, env);
            && SameJob(k, j) && HandledOnce(j, k)
            && (P.StartPipeline(j, env).1 ==> NewCalls(j, k) == if j.reserved != 0 then [Release] else [])
  {
    P.LaunchWaitsOrFails(j, env);
  }

  lemma StartKeepsInvIff(s: Sys, t: Step)
    requires Inv(s) && t.StartJob? && Enabled(s, t)
    ensures Inv(Next(s, t)) <==> RightPayer(s, t.call, P.StartPipeline(RowOf(s, t.call), t.env).1)
  {
    var i, j := s.calls[t.call].phase.job, RowOf(s, t.call);
    var k, raised := P.Launched(j, t.env), P.StartPipeline(j, t.env).1;
    assert j in s.jobs;
    StartMakesOneCall(j, t.env);
    ClosingIsQuiet(MovedFor(s, i, k, Payer(s, t.call, raised)), t.call);
    if Payer(s, t.call, raised) == j.user || NewCalls(j, k) == [] {
      SamePayer(s, i, k);
      MoveByGate(s, i, k);
    } else {
      WrongPayerUnbacks(s, i, k, Payer(s, t.call, raised));
    }
  }

  /** The two ways a handler leaves an untouched job: no gate call, or one that matches its final status. */
  ghost predicate HandledOnce(j: Job, k: Job) {
    && SameJob(k, j)
    && if NewCalls(j, k) == [] then
         (&& k.submits == k.reports + 1 && (j.reserved > 0 ==> P.InProgress(k))
          && k.request.Some? && k.status == Status.Running)
         || (k.status == Status.Failed && j.reserved == 0 && k.submits == k.reports)
       else
         && k.submits == k.reports
         && ((k.status == Completed && NewCalls(j, k) == [Capture])
             || (k.status == Status.Failed && NewCalls(j, k) == [Release]))
  }

  lemma FreeGateCallIsNothing(st: W.Store, j: Job, g: GateCall)
    requires j.reserved == 0
    ensures Gated(st, j, [g]) == st
  {
    OneGateCall(st, j, g);
  }

  lemma MoveByGate(s: Sys, i: nat, k: Job)
    requires Inv(s) && i < |s.jobs| && Untouched(s.store.ledger, s.jobs[i])
    requires HandledOnce(s.jobs[i], k)
    ensures Inv(Moved(s, i, k))
  {
    var j := s.jobs[i];
    assert j in s.jobs;
    if NewCalls(j, k) == [] {
      QuietMoveKeepsInv(s, i, k);
    } else {
      var g := NewCalls(j, k)[0];
      if j.reserved == 0 {
        FreeGateCallIsNothing(s.store, j, g);
        QuietMoveKeepsInv(s, i, k);
      } else {
        SettlingRowTouchesOneJob(s.store.ledger, W.EntryOf(GateOp(j, g)), j.id);
        SettlingMoveKeepsInv(s, i, k, g);
      }
    }
  }

  lemma ReportKeepsInv(s: Sys, t: Step)
    requires Inv(s) && t.Report? && Enabled(s, t)
    ensures Inv(Next(s, t))
  {
    var j := s.jobs[t.job];
    assert j in s.jobs;
    DeliveredActs(j, t.report);
    if j.reserved > 0 { P.ReportMovesOn(j, t.report); }
    MoveByGate(s, t.job, P.Delivered(j, t.report));
  }

  lemma DeliveredActs(j: Job, r: P.Report)
    ensures var k, call := P.Delivered(j, r), P.GateCallOf(P.Counted(j), P.WebhookStage(j), r);
            && Acts(k, P.Counted(j), call)
            && NewCalls(j, k) == (if call.Some? then [call.value] else [])
  {
    P.HandlerActs(P.Counted(j), P.WebhookStage(j), r);
  }

  // ---- strays ----

  /**
   Checkable before the call: what keeps the system sound. A stray must be ignored, or concern a
   finished job that is free or would be settled the same way once more. A merge must not fall
   between the reserve and the insert of a priced call of the guest, nor between its insert and a
   start whose submission fails, nor between the listing of an orphan and its release. Another
   writer must be accountable.
   */
  predicate Sound(s: Sys, t: Step)
    requires Enabled(s, t)
  {
    match t
    case Stray(i, stage, r) =>
      var j := s.jobs[i];
      P.Ignored(j, stage, r)
      || (Terminal(j) && (j.reserved == 0 || P.GateCallOf(j, stage, r) == Some(P.MatchingCall(j))))
    case MergeUsers(frm, to) => KeysCollide(s.jobs, frm, to) || PendingUnits(s.calls, frm) == 0
    case Other(op) => W.Accountable(s.store, op)
    case StartJob(c, env) => RightPayer(s, c, P.StartPipeline(RowOf(s, c), env).1)
    case CrashInStart(c, released, byCaller) => released ==> RightPayer(s, c, byCaller)
    case Recover(i, owner, _) => RightOwner(s, i, owner)
    case _ => true
  }

  lemma StrayActs(j: Job, stage: Stage, r: P.Report)
    requires !P.Ignored(j, stage, r)
    ensures var k, call := P.Handled(j, stage, r), P.GateCallOf(j, stage, r);
            && Acts(k, j, call) && NewCalls(j, k) == (if call.Some? then [call.value] else [])
  {
    P.HandlerActs(j, stage, r);
  }

  /** A second call of the kind that settled the job changes no table. */
  lemma RepeatedSettlementIsNothing(st: W.Store, j: Job, g: GateCall)
    requires j.reserved == 0 || (if g == Capture then Captured(st.ledger, j.id) else Released(st.ledger, j.id))
    ensures Gated(st, j, [g]) == st
  {
    OneGateCall(st, j, g);
  }

  /** The other call leaves its row as well. */
  lemma GateCallLeavesItsKey(st: W.Store, j: Job, g: GateCall)
    requires j.reserved > 0
    ensures var l := Gated(st, j, [g]).ledger;
            && (if g == Capture then Captured(l, j.id) else Released(l, j.id))
            && (Captured(st.ledger, j.id) ==> Captured(l, j.id)) && (Released(st.ledger, j.id) ==> Released(l, j.id))
  {
    OneGateCall(st, j, g);
    var op := GateOp(j, g);
    if Captured(st.ledger, j.id) { W.ApplyKeepsKeys(st, op, CaptureKey(j.id)); }
    if Released(st.ledger, j.id) { W.ApplyKeepsKeys(st, op, ReleaseKey(j.id)); }
    W.TakenAppend(st.ledger, W.EntryOf(op), if g == Capture then CaptureKey(j.id) else ReleaseKey(j.id));
  }

  lemma HarmlessStrayKeepsInv(s: Sys, t: Step)
    requires Inv(s) && t.Stray? && Enabled(s, t) && Sound(s, t)
    ensures Inv(Next(s, t))
  {
    var j := s.jobs[t.job];
    var k := P.Handled(j, t.stage, t.report);
    assert j in s.jobs;
    P.HandlerActs(j, t.stage, t.report);
    if P.Ignored(j, t.stage, t.report) {
      assert s.jobs[t.job := k] == s.jobs;
    } else {
      StrayActs(j, t.stage, t.report);
      var call := P.GateCallOf(j, t.stage, t.report);
      if call.Some? { RepeatedSettlementIsNothing(s.store, j, call.value); }
      QuietMoveKeepsInv(s, t.job, k);
    }
  }

  /** Two rows for one job, a settled job that is waiting again, or a failed one with a request outstanding. */
  lemma HarmfulStrayUnsettles(s: Sys, t: Step)
    requires Inv(s) && t.Stray? && Enabled(s, t) && !Sound(s, t)
    ensures !SettledByStatus(Next(s, t).store.ledger, Next(s, t).jobs[t.job])
  {
    var j := s.jobs[t.job];
    assert j in s.jobs;
    StrayActs(j, t.stage, t.report);
    var call := P.GateCallOf(j, t.stage, t.report);
    if call.Some? && Terminal(j) { GateCallLeavesItsKey(s.store, j, call.value); }
  }

  lemma StrayKeepsInvIff(s: Sys, t: Step)
    requires Inv(s) && t.Stray? && Enabled(s, t)
    ensures Inv(Next(s, t)) <==> Sound(s, t)
  {
    if Sound(s, t) {
      HarmlessStrayKeepsInv(s, t);
    } else {
      HarmfulStrayUnsettles(s, t);
      assert Next(s, t).jobs[t.job] in Next(s, t).jobs;
    }
  }

  /** The damage: a release after the capture pays the price back and eats into other reserves. */
  lemma ReleaseAfterCaptureRefunds(s: Sys, t: Step)
    requires Inv(s) && t.Stray? && Enabled(s, t) && s.jobs[t.job].status == Completed && s.jobs[t.job].reserved > 0
    requires !P.Ignored(s.jobs[t.job], t.stage, t.report)
    requires P.GateCallOf(s.jobs[t.job], t.stage, t.report) == Some(Release)
    ensures var j, n := s.jobs[t.job], Next(s, t);
            && Captured(n.store.ledger, j.id) && Released(n.store.ledger, j.id)
            && W.Available(n.store, j.user) - W.Available(s.store, j.user)
               == (if j.user in s.store.wallets then j.reserved else 0)
            && W.Reserved(n.store, j.user) == W.Max0(W.Reserved(s.store, j.user) - j.reserved)
  {
    var j := s.jobs[t.job];
    assert j in s.jobs;
    StrayActs(j, t.stage, t.report);
    OneGateCall(s.store, j, Release);
    GateCallLeavesItsKey(s.store, j, Release);
    ReserveNonNegative(s, j.user);
  }

  lemma ReserveNonNegative(s: Sys, u: Uuid)
    requires Inv(s)
    ensures W.Reserved(s.store, u) >= 0
  {
    assert forall x :: 0 <= x < |s.jobs| ==> s.jobs[x] in s.jobs;
    assert forall x :: 0 <= x < |s.calls| ==> s.calls[x] in s.calls;
    SumNonNegative(s.jobs, Held(s.store.ledger, u));
    SumNonNegative(s.calls, InFlight(u));
    assert BackedFor(s, u);
  }

  lemma CrashedQuietly(l: seq<W.Entry>, j: Job)
    requires SettledByStatus(l, j) && j.status == Created
    ensures SettledByStatus(l, Ran(j, false)) && SameJob(Ran(j, false), j) && NewCalls(j, Ran(j, false)) == []
  {
  }

  lemma CrashedAfterRelease(l: seq<W.Entry>, j: Job)
    requires SettledByStatus(l, j) && j.status == Created && j.reserved > 0
    ensures Untouched(l, j) && SameJob(Ran(j, true), j) && NewCalls(j, Ran(j, true)) == [Release]
    ensures SettledByStatus(l + [W.EntryOf(GateOp(j, Release))], Ran(j, true))
  {
    SettlingRowTouchesOneJob(l, W.EntryOf(GateOp(j, Release)), j.id);
  }

  /** A release moves a job on soundly exactly when its owner is paid. */
  lemma ReleasingMoveKeepsInvIff(s: Sys, i: nat, k: Job, payer: Uuid)
    requires Inv(s) && i < |s.jobs| && SameJob(k, s.jobs[i]) && NewCalls(s.jobs[i], k) == [Release]
    requires Untouched(s.store.ledger, s.jobs[i]) && s.jobs[i].reserved > 0
    requires SettledByStatus(s.store.ledger + [W.EntryOf(GateOp(s.jobs[i], Release))], k)
    ensures Inv(MovedFor(s, i, k, payer)) <==> payer == s.jobs[i].user
  {
    if payer == s.jobs[i].user {
      SamePayer(s, i, k);
      SettlingMoveKeepsInv(s, i, k, Release);
    } else {
      WrongPayerUnbacks(s, i, k, payer);
    }
  }

  lemma QuietMoveForKeepsInv(s: Sys, i: nat, k: Job, payer: Uuid)
    requires Inv(s) && i < |s.jobs| && SameJob(k, s.jobs[i])
    requires NewCalls(s.jobs[i], k) == [] && SettledByStatus(s.store.ledger, k)
    ensures Inv(MovedFor(s, i, k, payer))
  {
    assert MovedFor(s, i, k, payer) == Moved(s, i, k);
    QuietMoveKeepsInv(s, i, k);
  }

  lemma CrashInStartKeepsInvIff(s: Sys, t: Step)
    requires Inv(s) && t.CrashInStart? && Enabled(s, t)
    ensures Inv(Next(s, t)) <==> (t.released ==> RightPayer(s, t.call, t.byCaller))
  {
    var i, j := s.calls[t.call].phase.job, RowOf(s, t.call);
    var k, payer := Ran(j, t.released), Payer(s, t.call, t.byCaller);
    assert j in s.jobs;
    ClosingIsQuiet(MovedFor(s, i, k, payer), t.call);
    if t.released {
      CrashedAfterRelease(s.store.ledger, j);
      ReleasingMoveKeepsInvIff(s, i, k, payer);
    } else {
      CrashedQuietly(s.store.ledger, j);
      QuietMoveForKeepsInv(s, i, k, payer);
    }
  }

  /** An orphan may have its release on the ledger already, from a start or a recovery that crashed after it. */
  lemma OrphanOnceReleased(l: seq<W.Entry>, j: Job, crash: bool)
    requires SettledByStatus(l, j) && Orphan(j) && (j.reserved == 0 || Released(l, j.id))
    ensures SettledByStatus(l, Recovered(j, crash)) && SameJob(Recovered(j, crash), j)
    ensures NewCalls(j, Recovered(j, crash)) == if j.reserved == 0 then [] else [Release]
  {
  }

  lemma OrphanFirstReleased(l: seq<W.Entry>, j: Job, crash: bool)
    requires SettledByStatus(l, j) && Orphan(j) && j.reserved > 0 && !Released(l, j.id)
    ensures Untouched(l, j) && SameJob(Recovered(j, crash), j) && NewCalls(j, Recovered(j, crash)) == [Release]
    ensures SettledByStatus(l + [W.EntryOf(GateOp(j, Release))], Recovered(j, crash))
  {
    SettlingRowTouchesOneJob(l, W.EntryOf(GateOp(j, Release)), j.id);
  }

  /** A release for another user than the owner is stopped by the ledger key or misses the reserve. */
  predicate RightOwner(s: Sys, i: nat, owner: Uuid)
    requires i < |s.jobs|
  {
    s.jobs[i].reserved > 0 && !Released(s.store.ledger, s.jobs[i].id) ==> owner == s.jobs[i].user
  }

  lemma RecoverKeepsInvIff(s: Sys, t: Step)
    requires Inv(s) && t.Recover? && Enabled(s, t)
    ensures Inv(Next(s, t)) <==> RightOwner(s, t.job, t.owner)
  {
    var j := s.jobs[t.job];
    var k := Recovered(j, t.crash);
    assert j in s.jobs;
    if j.reserved == 0 || Released(s.store.ledger, j.id) {
      OrphanOnceReleased(s.store.ledger, j, t.crash);
      RepeatedSettlementIsNothing(s.store, j, Release);
      RepeatedSettlementIsNothing(s.store, PaidBy(j, t.owner), Release);
      assert MovedFor(s, t.job, k, t.owner) == Moved(s, t.job, k);
      QuietMoveKeepsInv(s, t.job, k);
    } else {
      OrphanFirstReleased(s.store.ledger, j, t.crash);
      ReleasingMoveKeepsInvIff(s, t.job, k, t.owner);
    }
  }

  lemma OtherKeepsInvIff(s: Sys, t: Step)
    requires Inv(s) && t.Other? && Enabled(s, t)
    ensures Inv(Next(s, t)) <==> Sound(s, t)
  {
    var r := Next(s, t);
    W.ApplyKeepsReplayIff(s.store, t.op);
    W.ApplyKeepsUniqueKeys(s.store, t.op);
    OtherWritesNoJobKey(s.store, t.op);
    forall u: Uuid ensures BackedFor(r, u) {
      assert BackedFor(s, u);
      UnsettlingRowKeepsJobs(s, r.store.ledger, u);
    }
    UnsettlingRowKeepsJobs(s, r.store.ledger, t.op.user);
  }

  /** The other writers never touch a reserve and never write a capture or release. */
  lemma OtherWritesNoJobKey(st: W.Store, op: W.Op)
    requires !op.Reserve? && !op.Capture? && !op.Release? && !op.Merge?
    ensures var r := W.Apply(st, op).0;
            && (r.ledger == st.ledger || exists e :: r.ledger == st.ledger + [e] && !JobKey(e.key))
            && (forall u: Uuid :: W.Reserved(r, u) == W.Reserved(st, u))
  {
    var r := W.Apply(st, op).0;
    assert r.ledger == st.ledger || r.ledger == st.ledger + [W.EntryOf(op)];
  }

  // ---- merge ----

  lemma MergeSumsHeld(s: Sys, frm: Uuid, to: Uuid, u: Uuid)
    requires frm != to
    ensures var l, jobs := W.Reowned(s.store.ledger, frm, to), Reown(s.jobs, frm, to);
            Sum(jobs, Held(l, u)) ==
              if u == to then Sum(s.jobs, Held(s.store.ledger, frm)) + Sum(s.jobs, Held(s.store.ledger, to))
              else if u == frm then 0 else Sum(s.jobs, Held(s.store.ledger, u))
  {
    var l, l' := s.store.ledger, W.Reowned(s.store.ledger, frm, to);
    forall id: Uuid ensures Captured(l', id) == Captured(l, id) && Released(l', id) == Released(l, id) {
      W.ReownedKeepsKey(l, frm, to, CaptureKey(id));
      W.ReownedKeepsKey(l, frm, to, ReleaseKey(id));
    }
    if u == to {
      SumSplits(s.jobs, Reown(s.jobs, frm, to), Held(l', u), Held(l, frm), Held(l, to));
    } else if u == frm {
      SumSplits(s.jobs, Reown(s.jobs, frm, to), Held(l', u), NothingHeld(), NothingHeld());
      SumOfNothing(s.jobs);
    } else {
      SumSame(Reown(s.jobs, frm, to), s.jobs, Held(l', u), Held(l, u));
    }
  }

  function NothingHeld<T>(): T -> int { (x: T) => 0 }

  lemma {:induction false} SumOfNothing<T>(rows: seq<T>)
    ensures Sum(rows, NothingHeld<T>()) == 0
  {
    if rows != [] { SumOfNothing(rows[..|rows| - 1]); }
  }

  /** Coins reserved by calls that have not inserted their row yet. */
  function PendingOf(u: Uuid): Call -> int {
    (c: Call) => if c.user == u && c.phase.Pending? then c.phase.units else 0
  }

  function LostOf(u: Uuid): Call -> int {
    (c: Call) => if c.user == u && c.phase.Lost? then c.phase.units else 0
  }

  function PendingUnits(calls: seq<Call>, u: Uuid): int { Sum(calls, PendingOf(u)) }

  /** Lost reserves move with the guest's wallet; what is pending stays the guest's claim. */
  lemma MergeSumsInFlight(calls: seq<Call>, frm: Uuid, to: Uuid, u: Uuid)
    requires frm != to
    ensures Sum(ReownLost(calls, frm, to), InFlight(u)) ==
              if u == to then Sum(calls, InFlight(frm)) - PendingUnits(calls, frm) + Sum(calls, InFlight(to))
              else if u == frm then PendingUnits(calls, frm) else Sum(calls, InFlight(u))
  {
    if u == to {
      SumSplits(calls, calls, InFlight(frm), PendingOf(frm), LostOf(frm));
      SumSplits(calls, ReownLost(calls, frm, to), InFlight(u), LostOf(frm), InFlight(to));
    } else if u == frm {
      SumSame(ReownLost(calls, frm, to), calls, InFlight(u), PendingOf(frm));
    } else {
      SumSame(ReownLost(calls, frm, to), calls, InFlight(u), InFlight(u));
    }
  }

  /** A merge keeps every reserve backed exactly when the guest has nothing pending. */
  lemma MergeKeepsBackedIff(s: Sys, frm: Uuid, to: Uuid)
    requires Backed(s) && frm != to
    ensures Backed(MergedSys(s, frm, to)) <==> PendingUnits(s.calls, frm) == 0
  {
    var r := MergedSys(s, frm, to);
    forall u: Uuid
      ensures BackedFor(r, u) <==> (u == to || u == frm ==> PendingUnits(s.calls, frm) == 0)
    {
      MergeSumsHeld(s, frm, to, u);
      MergeSumsInFlight(s.calls, frm, to, u);
      W.MergeConservesCoins(s.store, frm, to, u);
      assert BackedFor(s, frm) && BackedFor(s, to) && BackedFor(s, u);
    }
    assert BackedFor(r, frm) <==> PendingUnits(s.calls, frm) == 0;
  }

  lemma NewOwnerKeepsStanding(l: seq<W.Entry>, frm: Uuid, to: Uuid, j: Job, owner: Uuid)
    requires SettledByStatus(l, j)
    ensures SettledByStatus(W.Reowned(l, frm, to), j.(user := owner))
  {
    W.ReownedKeepsKey(l, frm, to, CaptureKey(j.id));
    W.ReownedKeepsKey(l, frm, to, ReleaseKey(j.id));
  }

  lemma MergeKeepsSettlements(s: Sys, frm: Uuid, to: Uuid)
    requires SettlementsHaveJobs(s)
    ensures SettlementsHaveJobs(MergedSys(s, frm, to))
  {
    var l, jobs := W.Reowned(s.store.ledger, frm, to), Reown(s.jobs, frm, to);
    forall e | e in l && JobKey(e.key) ensures HasJob(jobs, e.key.value.job) {
      var i :| 0 <= i < |l| && l[i] == e;
      assert s.store.ledger[i] in s.store.ledger;
      var x :| 0 <= x < |s.jobs| && s.jobs[x].id == e.key.value.job;
      assert jobs[x] in jobs;
    }
  }

  lemma MergeKeepsJobs(s: Sys, frm: Uuid, to: Uuid)
    requires AllSettled(s.store.ledger, s.jobs)
    ensures AllSettled(W.Reowned(s.store.ledger, frm, to), Reown(s.jobs, frm, to))
  {
    var jobs := Reown(s.jobs, frm, to);
    forall j | j in jobs ensures SettledByStatus(W.Reowned(s.store.ledger, frm, to), j) {
      var i :| 0 <= i < |jobs| && jobs[i] == j;
      assert s.jobs[i] in s.jobs;
      NewOwnerKeepsStanding(s.store.ledger, frm, to, s.jobs[i], j.user);
    }
  }

  lemma MergeKeepsCalls(calls: seq<Call>, frm: Uuid, to: Uuid)
    requires SoundCalls(calls)
    ensures SoundCalls(ReownLost(calls, frm, to))
  {
    var r := ReownLost(calls, frm, to);
    forall c | c in r
      ensures FreshPayload(c.payload) && (c.phase.Pending? || c.phase.Lost? ==> c.phase.units >= 0)
    {
      var i :| 0 <= i < |r| && r[i] == c;
      assert calls[i] in calls;
    }
  }

  lemma ReownKeepsDistinct(jobs: seq<Job>, frm: Uuid, to: Uuid)
    requires DistinctIds(jobs)
    ensures DistinctIds(Reown(jobs, frm, to))
  {
  }

  lemma ReownedKeepsUnique(l: seq<W.Entry>, frm: Uuid, to: Uuid)
    requires W.UniqueKeys(l)
    ensures W.UniqueKeys(W.Reowned(l, frm, to))
  {
  }

  lemma MergeKeepsInvIff(s: Sys, t: Step)
    requires Inv(s) && t.MergeUsers? && Enabled(s, t)
    ensures Inv(Next(s, t)) <==> Sound(s, t)
  {
    if !KeysCollide(s.jobs, t.from, t.to) {
      MergeKeepsBackedIff(s, t.from, t.to);
      MergeKeepsJobs(s, t.from, t.to);
      MergeKeepsSettlements(s, t.from, t.to);
      MergeKeepsCalls(s.calls, t.from, t.to);
      ReownKeepsDistinct(s.jobs, t.from, t.to);
      ReownedKeepsUnique(s.store.ledger, t.from, t.to);
      W.MergeKeepsReplay(s.store, t.from, t.to);
    }
  }

  // ---- all runs ----

  /** Every step keeps the invariant exactly when it is sound. */
  lemma StepKeepsInvIff(s: Sys, t: Step)
    requires Inv(s) && Enabled(s, t)
    ensures Inv(Next(s, t)) <==> Sound(s, t)
  {
    match t
    case Begin(_, _, _, _) => BeginKeepsInv(s, t);
    case ReserveCoins(_, _) => ReserveKeepsInv(s, t);
    case Insert(_, _) => InsertKeepsInv(s, t);
    case Crash(_) => CrashKeepsInv(s, t);
    case StartJob(_, _) => StartKeepsInvIff(s, t);
    case CrashInStart(_, _, _) => CrashInStartKeepsInvIff(s, t);
    case Report(_, _) => ReportKeepsInv(s, t);
    case Stray(_, _, _) => StrayKeepsInvIff(s, t);
    case Recover(_, _, _) => RecoverKeepsInvIff(s, t);
    case Other(_) => OtherKeepsInvIff(s, t);
    case MergeUsers(_, _) => MergeKeepsInvIff(s, t);
  }

  ghost predicate EnabledRun(s: Sys, ts: seq<Step>)
    decreases |ts|
  {
    ts == [] || (Enabled(s, ts[0]) && EnabledRun(Next(s, ts[0]), ts[1..]))
  }

  function Run(s: Sys, ts: seq<Step>): Sys
    requires EnabledRun(s, ts)
    decreases |ts|
  {
    if ts == [] then s else Run(Next(s, ts[0]), ts[1..])
  }

  lemma NothingIsSound(s: Sys)
    ensures SoundRun(s, [])
  {
  }

  lemma FirstStepIsSound(s: Sys, t: Step, ts: seq<Step>)
    requires Enabled(s, t) && EnabledRun(Next(s, t), ts) && Sound(s, t) && SoundRun(Next(s, t), ts)
    ensures EnabledRun(s, [t] + ts) && SoundRun(s, [t] + ts)
  {
    FirstStepRuns(s, t, ts);
    assert ([t] + ts)[1..] == ts;
  }

  lemma {:induction false} SoundExtends(s: Sys, ts: seq<Step>, t: Step)
    requires EnabledRun(s, ts) && SoundRun(s, ts) && Enabled(Run(s, ts), t) && Sound(Run(s, ts), t)
    ensures EnabledRun(s, ts + [t]) && SoundRun(s, ts + [t])
    decreases |ts|
  {
    if ts == [] {
      NothingRuns(Next(s, t));
      NothingIsSound(Next(s, t));
      FirstStepIsSound(s, t, []);
      assert ts + [t] == [t] + [];
    } else {
      var n := Next(s, ts[0]);
      SoundExtends(n, ts[1..], t);
      FirstStepIsSound(s, ts[0], ts[1..] + [t]);
      assert ts + [t] == [ts[0]] + (ts[1..] + [t]);
    }
  }

  lemma NothingRuns(s: Sys)
    ensures EnabledRun(s, []) && Run(s, []) == s
  {
  }

  lemma FirstStepRuns(s: Sys, t: Step, ts: seq<Step>)
    requires Enabled(s, t) && EnabledRun(Next(s, t), ts)
    ensures EnabledRun(s, [t] + ts) && Run(s, [t] + ts) == Run(Next(s, t), ts)
  {
    assert ([t] + ts)[1..] == ts;
  }

  lemma {:induction false} RunExtends(s: Sys, ts: seq<Step>, t: Step)
    requires EnabledRun(s, ts) && Enabled(Run(s, ts), t)
    ensures EnabledRun(s, ts + [t]) && Run(s, ts + [t]) == Next(Run(s, ts), t)
    decreases |ts|
  {
    if ts == [] {
      NothingRuns(Next(s, t));
      FirstStepRuns(s, t, []);
      assert ts + [t] == [t] + [];
    } else {
      var n := Next(s, ts[0]);
      RunExtends(n, ts[1..], t);
      FirstStepRuns(s, ts[0], ts[1..] + [t]);
      assert ts + [t] == [ts[0]] + (ts[1..] + [t]);
    }
  }

  ghost predicate SoundRun(s: Sys, ts: seq<Step>)
    requires EnabledRun(s, ts)
    decreases |ts|
  {
    ts == [] || (Sound(s, ts[0]) && SoundRun(Next(s, ts[0]), ts[1..]))
  }

  /** The invariant holds before, between and after the steps. */
  ghost predicate InvThroughout(s: Sys, ts: seq<Step>)
    requires EnabledRun(s, ts)
    decreases |ts|
  {
    Inv(s) && (ts == [] || InvThroughout(Next(s, ts[0]), ts[1..]))
  }

  lemma {:induction false} InvThroughoutIff(s: Sys, ts: seq<Step>)
    requires Inv(s) && EnabledRun(s, ts)
    ensures InvThroughout(s, ts) <==> SoundRun(s, ts)
    decreases |ts|
  {
    if ts != [] {
      StepKeepsInvIff(s, ts[0]);
      if Sound(s, ts[0]) { InvThroughoutIff(Next(s, ts[0]), ts[1..]); }
    }
  }

  lemma {:induction false} RunKeepsInv(s: Sys, ts: seq<Step>)
    requires Inv(s) && EnabledRun(s, ts) && SoundRun(s, ts)
    ensures Inv(Run(s, ts))
    decreases |ts|
  {
    if ts != [] {
      StepKeepsInvIff(s, ts[0]);
      RunKeepsInv(Next(s, ts[0]), ts[1..]);
    }
  }

  lemma InitSatisfiesInv()
    ensures Inv(INIT)
  {
  }

  /**
   Over every sound run of interleaved calls, crashes, starts, reports, strays, recoveries, merges
   and other writers: the ledger explains every balance; every reserved coin belongs to a pending or lost
   call or to an unsettled job; and a priced job is completed with one capture and no release,
   failed with one release and no capture, or waiting with neither.
   */
  lemma EveryRunBacksAndSettles(ts: seq<Step>, u: Uuid, i: nat)
    requires EnabledRun(INIT, ts) && SoundRun(INIT, ts) && i < |Run(INIT, ts).jobs|
    ensures var s := Run(INIT, ts);
            var l, j := s.store.ledger, s.jobs[i];
            && W.Available(s.store, u) == W.Replay(l, u) >= 0
            && W.Reserved(s.store, u) == Sum(s.calls, InFlight(u)) + Sum(s.jobs, Held(l, u))
            && W.UniqueKeys(l)
            && (j.reserved > 0 && j.status == Completed ==> Captured(l, j.id) && !Released(l, j.id))
            && (j.reserved > 0 && j.status == Status.Failed ==> Released(l, j.id) && !Captured(l, j.id))
            && (Outstanding(j) ==> !Terminal(j) && Untouched(l, j))
            && (Terminal(j) ==> !Outstanding(j))
  {
    InitSatisfiesInv();
    RunKeepsInv(INIT, ts);
    var s := Run(INIT, ts);
    assert s.jobs[i] in s.jobs && BackedFor(s, u) && W.ReplaysFor(s.store, u);
  }

  // ---- what one settlement does to the wallets ----

  lemma GateMovesOwnReserve(s: Sys, i: nat, k: Job, u: Uuid)
    requires Inv(s) && i < |s.jobs| && Untouched(s.store.ledger, s.jobs[i])
    requires |NewCalls(s.jobs[i], k)| <= 1
    ensures var j, n := s.jobs[i], Moved(s, i, k);
            var w, w' := W.WalletOf(s.store, u), W.WalletOf(n.store, u);
            if u != j.user || NewCalls(j, k) == [] then w' == w
            else w' == W.Wallet(w.available + if NewCalls(j, k) == [Capture] then 0 else j.reserved,
                                w.reserved - j.reserved)
  {
    var j := s.jobs[i];
    assert j in s.jobs;
    if NewCalls(j, k) != [] {
      var g := NewCalls(j, k)[0];
      assert NewCalls(j, k) == [g];
      if j.reserved == 0 {
        FreeGateCallIsNothing(s.store, j, g);
      } else {
        OneGateCall(s.store, j, g);
        FirstSettlement(s, i, g);
      }
    }
  }

  /** A report moves exactly the job's own reserve, of its own user, and nothing else. */
  lemma ReportMovesOwnReserve(s: Sys, t: Step, u: Uuid)
    requires Inv(s) && t.Report? && Enabled(s, t)
    ensures var j, n := s.jobs[t.job], Next(s, t);
            var w, w' := W.WalletOf(s.store, u), W.WalletOf(n.store, u);
            if u != j.user || !Terminal(n.jobs[t.job]) then w' == w
            else w' == W.Wallet(w.available + if n.jobs[t.job].status == Completed then 0 else j.reserved,
                                w.reserved - j.reserved)
  {
    var j := s.jobs[t.job];
    assert j in s.jobs;
    DeliveredActs(j, t.report);
    var k := P.Delivered(j, t.report);
    GateMovesOwnReserve(s, t.job, k, u);
  }

  // ---- what one call does ----

  /** The user's earlier job under a non-empty client key. */
  ghost predicate Known(jobs: seq<Job>, u: Uuid, key: Option<string>) {
    key.Some? && key.value != "" && exists j :: j in jobs && j.user == u && j.clientKey == key
  }

  /** A call is answered by the earlier job exactly when there is one; it touches neither rows nor coins. */
  lemma LookupDeduplicates(s: Sys, u: Uuid, payload: Payload, model: string, key: Option<string>)
    requires FreshPayload(payload)
    ensures var n := Next(s, Begin(u, payload, model, key));
            && n.store == s.store && n.jobs == s.jobs
            && n.calls == s.calls + [Call(u, payload, model, key, if Known(s.jobs, u, key) then Closed else LookedUp)]
  {
    if i :| 0 <= i < |s.jobs| && s.jobs[i].user == u && s.jobs[i].clientKey == key {
      assert s.jobs[i] in s.jobs;
    }
  }

  /** The reserve takes the price from the caller, or refuses and closes the call. */
  lemma ReserveTakesPrice(s: Sys, c: nat, price: int, u: Uuid)
    requires Enabled(s, ReserveCoins(c, price))
    ensures var n := Next(s, ReserveCoins(c, price));
            var caller := s.calls[c].user;
            && n.jobs == s.jobs && |n.calls| == |s.calls|
            && n.calls[c].phase ==
               (if price <= 0 then Pending(0)
                else if W.Available(s.store, caller) >= price then Pending(price) else Closed)
            && W.WalletOf(n.store, u) ==
               (if u == caller && n.calls[c].phase.Pending? && price > 0
                then W.Wallet(W.Available(s.store, u) - price, W.Reserved(s.store, u) + price)
                else W.WalletOf(s.store, u))
  {
  }

  /** The inserted row carries the call's input and the reserved units, and is new in every other respect. */
  lemma InsertedRow(s: Sys, c: nat, id: Uuid)
    requires Enabled(s, Insert(c, id))
    ensures var n, call := Next(s, Insert(c, id)), s.calls[c];
            var taken := call.clientKey.Some?
                         && exists j :: j in s.jobs && j.user == call.user && j.clientKey == call.clientKey;
            && n.store == s.store
            && if taken then n.jobs == s.jobs && n.calls[c].phase == Lost(call.phase.units)
               else
                 && |n.jobs| == |s.jobs| + 1 && n.jobs[..|s.jobs|] == s.jobs
                 && n.calls[c].phase == Inserted(|s.jobs|)
                 && (var j := n.jobs[|s.jobs|];
                     && j.id == id && j.user == call.user && j.reserved == call.phase.units && j.model == call.model
                     && j.clientKey == call.clientKey && j.payload == call.payload
                     && j.status == Created && j.currentStage == None && j.request == None && j.captured == 0
                     && j.stages == map[] && j.runtime == map[] && j.tracks == [] && j.assets == [] && j.gate == []
                     && j.submits == 0 && j.reports == 0)
  {
    var call := s.calls[c];
    if i :| 0 <= i < |s.jobs| && s.jobs[i].user == call.user && s.jobs[i].clientKey == call.clientKey {
      assert s.jobs[i] in s.jobs;
    }
  }

  // ---- deduplication over runs ----

  /** No merge of the user is attempted. */
  predicate KeepsRowsOf(t: Step, u: Uuid) { t.MergeUsers? ==> t.from != u }

  lemma StepKeepsOwner(s: Sys, t: Step, i: nat)
    requires Enabled(s, t) && i < |s.jobs| && KeepsRowsOf(t, s.jobs[i].user)
    ensures i < |Next(s, t).jobs|
    ensures Next(s, t).jobs[i].user == s.jobs[i].user && Next(s, t).jobs[i].clientKey == s.jobs[i].clientKey
  {
    match t
    case StartJob(c, env) => P.StartKeepsJob(RowOf(s, c), env);
    case Report(k, r) => P.HandlerActs(P.Counted(s.jobs[k]), P.WebhookStage(s.jobs[k]), r);
    case Stray(k, stage, r) => P.HandlerActs(s.jobs[k], stage, r);
    case _ =>
  }

  lemma {:induction false} RunKeepsOwner(s: Sys, ts: seq<Step>, i: nat)
    requires EnabledRun(s, ts) && i < |s.jobs| && forall t :: t in ts ==> KeepsRowsOf(t, s.jobs[i].user)
    ensures i < |Run(s, ts).jobs|
    ensures Run(s, ts).jobs[i].user == s.jobs[i].user && Run(s, ts).jobs[i].clientKey == s.jobs[i].clientKey
    decreases |ts|
  {
    if ts != [] {
      assert ts[0] in ts && forall t :: t in ts[1..] ==> t in ts;
      StepKeepsOwner(s, ts[0], i);
      RunKeepsOwner(Next(s, ts[0]), ts[1..], i);
    }
  }

  /**
   Once a user's job under a client key is inserted, every later call of his under that key is closed
   by its lookup, before it reserves anything, unless he is merged away in between.
   */
  lemma LaterCallsAreDeduplicated(s: Sys, ts: seq<Step>, i: nat, payload: Payload, model: string)
    requires EnabledRun(s, ts) && i < |s.jobs| && FreshPayload(payload)
    requires s.jobs[i].clientKey.Some? && s.jobs[i].clientKey.value != ""
    requires forall t :: t in ts ==> KeepsRowsOf(t, s.jobs[i].user)
    ensures var r, u, key := Run(s, ts), s.jobs[i].user, s.jobs[i].clientKey;
            var n := Next(r, Begin(u, payload, model, key));
            n.store == r.store && n.jobs == r.jobs && n.calls == r.calls + [Call(u, payload, model, key, Closed)]
  {
    RunKeepsOwner(s, ts, i);
    var r := Run(s, ts);
    assert r.jobs[i] in r.jobs;
    LookupDeduplicates(r, s.jobs[i].user, payload, model, s.jobs[i].clientKey);
  }
}
