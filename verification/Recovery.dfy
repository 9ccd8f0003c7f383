/**
 Startup recovery: orphans are listed, then each gets its release and its failed status in
 transactions of their own, with a crash possible after any of them and any number of reruns.
 */
module Recovery {
  import opened Options
  import opened Keys
  import opened Sums
  import opened Jobs
  import W = Wallets
  import opened Generation

  /** What recovery still owes to a user: the reserves of his orphans not yet given back. */
  function Owed(l: seq<W.Entry>, u: Uuid): Job -> int {
    (j: Job) => if j.user == u && Orphan(j) && Untouched(l, j) then j.reserved else 0
  }

  function OwedTo(s: Sys, u: Uuid): int { Sum(s.jobs, Owed(s.store.ledger, u)) }

  lemma FirstReleasePaysOwed(s: Sys, i: nat, k: Job, u: Uuid)
    requires Inv(s) && i < |s.jobs| && Orphan(s.jobs[i]) && SameJob(k, s.jobs[i])
    requires Untouched(s.store.ledger, s.jobs[i]) && s.jobs[i].reserved > 0 && NewCalls(s.jobs[i], k) == [Release]
    ensures var j, n := s.jobs[i], Moved(s, i, k);
            && OwedTo(s, u) - OwedTo(n, u) == (if u == j.user then j.reserved else 0)
            && W.Available(n.store, u) == W.Available(s.store, u) + (if u == j.user then j.reserved else 0)
            && W.Reserved(n.store, u) == W.Reserved(s.store, u) - (if u == j.user then j.reserved else 0)
  {
    var j, l, n := s.jobs[i], s.store.ledger, Moved(s, i, k);
    var e := W.EntryOf(GateOp(j, Release));
    OneGateCall(s.store, j, Release);
    FirstSettlement(s, i, Release);
    forall x | 0 <= x < |s.jobs| && x != i
      ensures Owed(l, u)(s.jobs[x]) == Owed(n.store.ledger, u)(n.jobs[x])
    {
      SettlingRowTouchesOneJob(l, e, s.jobs[x].id);
    }
    SettlingRowTouchesOneJob(l, e, j.id);
    SumDiffersAt(s.jobs, n.jobs, Owed(l, u), Owed(n.store.ledger, u), i);
  }

  lemma QuietMoveOwesTheSame(s: Sys, i: nat, k: Job, u: Uuid)
    requires i < |s.jobs| && SameJob(k, s.jobs[i]) && Moved(s, i, k).store == s.store
    requires s.jobs[i].reserved == 0 || Released(s.store.ledger, s.jobs[i].id)
    ensures OwedTo(Moved(s, i, k), u) == OwedTo(s, u)
  {
    SumDiffersAt(s.jobs, Moved(s, i, k).jobs, Owed(s.store.ledger, u), Owed(s.store.ledger, u), i);
  }

  /** A recovery transaction pays out of what is owed, whether or not the crash hits before the status. */
  lemma RecoverPaysOwed(s: Sys, t: Step, u: Uuid)
    requires Inv(s) && t.Recover? && Enabled(s, t) && Sound(s, t)
    ensures var n := Next(s, t);
            && W.Available(n.store, u) + OwedTo(n, u) == W.Available(s.store, u) + OwedTo(s, u)
            && W.Reserved(n.store, u) - OwedTo(n, u) == W.Reserved(s.store, u) - OwedTo(s, u)
  {
    var j := s.jobs[t.job];
    var k := Recovered(j, t.crash);
    assert j in s.jobs;
    if j.reserved == 0 || Released(s.store.ledger, j.id) {
      OrphanOnceReleased(s.store.ledger, j, t.crash);
      RepeatedSettlementIsNothing(s.store, j, Release);
      RepeatedSettlementIsNothing(s.store, PaidBy(j, t.owner), Release);
      assert MovedFor(s, t.job, k, t.owner) == Moved(s, t.job, k);
      QuietMoveOwesTheSame(s, t.job, k, u);
    } else {
      OrphanFirstReleased(s.store.ledger, j, t.crash);
      SamePayer(s, t.job, k);
      FirstReleasePaysOwed(s, t.job, k, u);
    }
  }

  ghost predicate OnlyRecovers(ts: seq<Step>) { forall t :: t in ts ==> t.Recover? }

  ghost predicate NoOrphans(s: Sys) { forall j :: j in s.jobs ==> !Orphan(j) }

  /** Recovery works on orphans alone and never adds one. */
  ghost predicate RecoveredFrom(s: Sys, t: Sys) {
    && |t.jobs| == |s.jobs|
    && forall i :: 0 <= i < |s.jobs| ==>
         && SameJob(t.jobs[i], s.jobs[i])
         && (Orphan(s.jobs[i]) ==> Orphan(t.jobs[i]) || t.jobs[i].status == Status.Failed)
         && (!Orphan(s.jobs[i]) ==> t.jobs[i] == s.jobs[i])
  }

  lemma RecoverTouchesOneOrphan(s: Sys, t: Step)
    requires t.Recover? && Enabled(s, t)
    ensures RecoveredFrom(s, Next(s, t))
  {
  }

  lemma RecoveredInTurn(s: Sys, t: Sys, r: Sys)
    requires RecoveredFrom(s, t) && RecoveredFrom(t, r)
    ensures RecoveredFrom(s, r)
  {
  }

  lemma {:induction false} RecoveryRunRecovers(s: Sys, ts: seq<Step>)
    requires OnlyRecovers(ts) && EnabledRun(s, ts)
    ensures RecoveredFrom(s, Run(s, ts))
    decreases |ts|
  {
    if ts != [] {
      assert ts[0] in ts;
      assert forall t :: t in ts[1..] ==> t in ts;
      RecoverTouchesOneOrphan(s, ts[0]);
      RecoveryRunRecovers(Next(s, ts[0]), ts[1..]);
      RecoveredInTurn(s, Next(s, ts[0]), Run(s, ts));
    }
  }

  /** What is owed and what is there add up to the same before and after. */
  ghost predicate Conserved(s: Sys, r: Sys, u: Uuid) {
    && W.Available(r.store, u) + OwedTo(r, u) == W.Available(s.store, u) + OwedTo(s, u)
    && W.Reserved(r.store, u) - OwedTo(r, u) == W.Reserved(s.store, u) - OwedTo(s, u)
  }

  lemma {:induction false} RecoveryRunConserves(s: Sys, ts: seq<Step>, u: Uuid)
    requires Inv(s) && OnlyRecovers(ts) && EnabledRun(s, ts) && SoundRun(s, ts)
    ensures Inv(Run(s, ts)) && Conserved(s, Run(s, ts), u)
    decreases |ts|
  {
    if ts != [] {
      assert ts[0] in ts;
      assert forall t :: t in ts[1..] ==> t in ts;
      StepKeepsInvIff(s, ts[0]);
      RecoverPaysOwed(s, ts[0], u);
      RecoveryRunConserves(Next(s, ts[0]), ts[1..], u);
    }
  }

  lemma NothingOwedWithoutOrphans(r: Sys, u: Uuid)
    requires NoOrphans(r)
    ensures OwedTo(r, u) == 0
  {
    assert forall x :: 0 <= x < |r.jobs| ==> r.jobs[x] in r.jobs;
    SumSame(r.jobs, r.jobs, Owed(r.store.ledger, u), NothingHeld());
    SumOfNothing(r.jobs);
  }

  lemma OrphanHasFailed(s: Sys, r: Sys, i: nat)
    requires RecoveredFrom(s, r) && NoOrphans(r) && AllSettled(r.store.ledger, r.jobs) && i < |s.jobs|
    ensures if Orphan(s.jobs[i])
            then
              && r.jobs[i].status == Status.Failed
              && Released(r.store.ledger, s.jobs[i].id) == (s.jobs[i].reserved > 0)
            else r.jobs[i] == s.jobs[i]
  {
    assert r.jobs[i] in r.jobs;
  }

  /**
   Recovery may crash after any of its transactions and be rerun any number of times: once no
   orphan is left, every orphan has failed, each reserve has come back exactly once, and
   nothing else has moved.
   */
  lemma RecoveryPaysEachReserveOnce(s: Sys, ts: seq<Step>, u: Uuid, i: nat)
    requires Inv(s) && OnlyRecovers(ts) && EnabledRun(s, ts) && SoundRun(s, ts) && i < |s.jobs|
    requires NoOrphans(Run(s, ts))
    ensures var r := Run(s, ts);
            && W.Available(r.store, u) == W.Available(s.store, u) + OwedTo(s, u)
            && W.Reserved(r.store, u) == W.Reserved(s.store, u) - OwedTo(s, u)
            && |r.jobs| == |s.jobs|
            && (if Orphan(s.jobs[i])
                then
                  && r.jobs[i].status == Status.Failed
                  && Released(r.store.ledger, s.jobs[i].id) == (s.jobs[i].reserved > 0)
                else r.jobs[i] == s.jobs[i])
  {
    var r := Run(s, ts);
    RecoveryRunConserves(s, ts, u);
    RecoveryRunRecovers(s, ts);
    NothingOwedWithoutOrphans(r, u);
    OrphanHasFailed(s, r, i);
  }

  /** One pass over the rows in order. */
  function RecoveredUpTo(s: Sys, n: nat): (r: Sys)
    requires n <= |s.jobs|
    ensures |r.jobs| == |s.jobs| && forall i :: n <= i < |s.jobs| ==> r.jobs[i] == s.jobs[i]
  {
    if n == 0 then s
    else
      var t := RecoveredUpTo(s, n - 1);
      if Orphan(s.jobs[n - 1]) then Moved(t, n - 1, Recovered(s.jobs[n - 1], false)) else t
  }

  lemma PassMeetsOwners(s: Sys, n: nat)
    requires n < |s.jobs| && Orphan(s.jobs[n])
    ensures var t, step := RecoveredUpTo(s, n), Recover(n, s.jobs[n].user, false);
            Enabled(t, step) && Sound(t, step) && Next(t, step) == RecoveredUpTo(s, n + 1)
  {
    SamePayer(RecoveredUpTo(s, n), n, Recovered(s.jobs[n], false));
  }

  /** A full pass is a sound run of recovery steps. */
  lemma {:induction false} PassIsARecoveryRun(s: Sys, n: nat) returns (ts: seq<Step>)
    requires n <= |s.jobs|
    ensures OnlyRecovers(ts) && EnabledRun(s, ts) && SoundRun(s, ts) && Run(s, ts) == RecoveredUpTo(s, n)
  {
    if n == 0 {
      ts := [];
    } else {
      ts := PassIsARecoveryRun(s, n - 1);
      if Orphan(s.jobs[n - 1]) {
        PassMeetsOwners(s, n - 1);
        RunExtends(s, ts, Recover(n - 1, s.jobs[n - 1].user, false));
        SoundExtends(s, ts, Recover(n - 1, s.jobs[n - 1].user, false));
        ts := ts + [Recover(n - 1, s.jobs[n - 1].user, false)];
      }
    }
  }

  lemma {:induction false} PassLeavesNoOrphanBehind(s: Sys, n: nat)
    requires n <= |s.jobs|
    ensures forall i :: 0 <= i < n ==> !Orphan(RecoveredUpTo(s, n).jobs[i])
  {
    if n > 0 { PassLeavesNoOrphanBehind(s, n - 1); }
  }

  /** A pass over all rows ends recovery, and a second pass has nothing to do. */
  lemma FullPassLeavesNoOrphans(s: Sys)
    ensures NoOrphans(RecoveredUpTo(s, |s.jobs|))
    ensures var r := RecoveredUpTo(s, |s.jobs|); RecoveredUpTo(r, |r.jobs|) == r
  {
    var r := RecoveredUpTo(s, |s.jobs|);
    PassLeavesNoOrphanBehind(s, |s.jobs|);
    PassWithoutOrphansIsIdle(r, |r.jobs|);
  }

  /** An undisturbed pass pays back everything it owes, each reserve once. */
  lemma FullPassPaysEachReserve(s: Sys, u: Uuid)
    requires Inv(s)
    ensures var r := RecoveredUpTo(s, |s.jobs|);
            && W.Available(r.store, u) == W.Available(s.store, u) + OwedTo(s, u)
            && W.Reserved(r.store, u) == W.Reserved(s.store, u) - OwedTo(s, u)
            && OwedTo(r, u) == 0
  {
    var ts := PassIsARecoveryRun(s, |s.jobs|);
    FullPassLeavesNoOrphans(s);
    RecoveryRunConserves(s, ts, u);
    NothingOwedWithoutOrphans(RecoveredUpTo(s, |s.jobs|), u);
  }

  lemma {:induction false} PassWithoutOrphansIsIdle(s: Sys, n: nat)
    requires n <= |s.jobs| && forall i :: 0 <= i < |s.jobs| ==> !Orphan(s.jobs[i])
    ensures RecoveredUpTo(s, n) == s
  {
    if n > 0 { PassWithoutOrphansIsIdle(s, n - 1); }
  }

  /** Which rows a pass fails: those queued or running without a provider request, and no other. */
  lemma {:induction false} PassFailsStuckRows(s: Sys, n: nat, i: nat)
    requires n <= |s.jobs| && i < |s.jobs|
    ensures var j, k := s.jobs[i], RecoveredUpTo(s, n).jobs[i];
            if i < n && (j.status == Queued || j.status == Status.Running) && j.request == None
            then k.status == Status.Failed && k.gate == (if j.reserved != 0 then j.gate + [Release] else j.gate)
            else k == j
  {
    if n > 0 { PassFailsStuckRows(s, n - 1, i); }
  }
}
