/**
 Reserves that never come back: the loser of a race for a client key, and the guest who is merged
 while a call of his is under way. Each with the run that leads there.
 */
module Stranding {
  import opened Options
  import opened Keys
  import opened Sums
  import opened Jobs
  import W = Wallets
  import P = Pipelines
  import opened Generation

  // ---- reserves that never come back ----

  lemma LostStepStaysLost(s: Sys, t: Step, c: nat)
    requires Enabled(s, t) && c < |s.calls| && s.calls[c].phase.Lost?
    ensures c < |Next(s, t).calls| && Next(s, t).calls[c].phase == s.calls[c].phase
  {
  }

  lemma {:induction false} LostStaysLost(s: Sys, ts: seq<Step>, c: nat)
    requires EnabledRun(s, ts) && c < |s.calls| && s.calls[c].phase.Lost?
    ensures c < |Run(s, ts).calls| && Run(s, ts).calls[c].phase == s.calls[c].phase
    decreases |ts|
  {
    if ts != [] {
      LostStepStaysLost(s, ts[0], c);
      LostStaysLost(Next(s, ts[0]), ts[1..], c);
    }
  }

  /** A lost reserve is part of what its user's wallet has reserved. */
  lemma LostIsReserved(s: Sys, c: nat)
    requires Inv(s) && c < |s.calls| && s.calls[c].phase.Lost?
    ensures W.Reserved(s.store, s.calls[c].user) >= s.calls[c].phase.units
  {
    var u := s.calls[c].user;
    assert forall x :: 0 <= x < |s.jobs| ==> s.jobs[x] in s.jobs;
    assert forall x :: 0 <= x < |s.calls| ==> s.calls[x] in s.calls;
    SumNonNegative(s.jobs, Held(s.store.ledger, u));
    SumNonNegative(s.calls, InFlight(u));
    assert BackedFor(s, u);
    assert InFlight(u)(s.calls[c]) == s.calls[c].phase.units;
  }

  /**
   The loser of a race for a client key, whatever happens afterwards: the call is accounted lost for
   good, and its units stay reserved in the wallet of its user, or of whoever he is merged into.
   */
  lemma LostRaceNeverReturnsReserve(s: Sys, c: nat, id: Uuid, ts: seq<Step>)
    requires Inv(s) && Enabled(s, Insert(c, id)) && EnabledRun(Next(s, Insert(c, id)), ts)
    requires ClientKeyUsed(s.jobs, s.calls[c].user, s.calls[c].clientKey)
    ensures var n, r := s.calls[c].phase.units, Run(Next(s, Insert(c, id)), ts);
            && c < |r.calls| && r.calls[c].phase == Lost(n)
            && (SoundRun(Next(s, Insert(c, id)), ts) ==> W.Reserved(r.store, r.calls[c].user) >= n)
  {
    var t := Next(s, Insert(c, id));
    InsertKeepsInv(s, Insert(c, id));
    LostStaysLost(t, ts, c);
    if SoundRun(t, ts) {
      RunKeepsInv(t, ts);
      LostIsReserved(Run(t, ts), c);
    }
  }

  // ---- a merge between reserve and insert ----

  lemma NobodyLeft(jobs: seq<Job>, frm: Uuid, to: Uuid, key: Option<string>)
    requires frm != to
    ensures !ClientKeyUsed(Reown(jobs, frm, to), frm, key)
  {
  }

  /** A priced song call of `frm` stands between reserve and insert, and the merge goes through. */
  predicate Strands(s: Sys, c: nat, frm: Uuid, to: Uuid, id: Uuid) {
    && c < |s.calls| && s.calls[c].user == frm && s.calls[c].phase.Pending? && s.calls[c].phase.units > 0
    && s.calls[c].payload.Song? && frm != to && !KeysCollide(s.jobs, frm, to)
    && forall j :: j in s.jobs ==> j.id != id
  }

  lemma StrandedRow(s: Sys, c: nat, frm: Uuid, to: Uuid, id: Uuid)
    requires Inv(s) && Strands(s, c, frm, to, id)
    ensures var m := Next(s, MergeUsers(frm, to));
            && Enabled(m, Insert(c, id))
            && (var r := Next(m, Insert(c, id));
                && r.store == m.store && |r.jobs| == |s.jobs| + 1
                && r.calls[c].user == frm && r.calls[c].phase == Inserted(|s.jobs|)
                && r.jobs[|s.jobs|] == NewJob(s.calls[c], id, s.calls[c].phase.units))
  {
    var m := Next(s, MergeUsers(frm, to));
    assert m == MergedSys(s, frm, to);
    assert m.calls[c] == s.calls[c];
    NobodyLeft(s.jobs, frm, to, s.calls[c].clientKey);
    forall j | j in m.jobs ensures j.id != id {
      var i :| 0 <= i < |m.jobs| && m.jobs[i] == j;
      assert s.jobs[i] in s.jobs;
    }
  }

  /** A release for a user without a wallet writes its row and credits nobody. */
  lemma ReleaseCreditsNobody(st: W.Store, j: Job)
    requires j.user !in st.wallets && j.reserved > 0 && !Released(st.ledger, j.id)
    ensures var r := Gated(st, j, [Release]);
            && r.wallets == st.wallets && r.ledger == st.ledger + [W.EntryOf(GateOp(j, Release))]
            && W.Replay(r.ledger, j.user) == W.Replay(st.ledger, j.user) + j.reserved
  {
    OneGateCall(st, j, Release);
    W.ReplayAppend(st.ledger, W.EntryOf(GateOp(j, Release)), j.user);
  }

  /**
   What is lost: the guest merges between the two transactions of a priced call, and its start fails.
   The job is released on the ledger, but no wallet is credited: the guest has none, and the coins
   stay in the target's reserve, where no call and no job holds them. The ledger no longer
   explains the guest's balance.
   */
  lemma MergeWhilePendingLosesCoins(s: Sys, c: nat, frm: Uuid, to: Uuid, id: Uuid, env: Env)
    requires Inv(s) && Strands(s, c, frm, to, id) && env.submit == None
    ensures var m := Next(s, MergeUsers(frm, to));
            && Enabled(m, Insert(c, id))
            && (var n := Next(m, Insert(c, id));
                && Enabled(n, StartJob(c, env))
                && (var r := Next(n, StartJob(c, env));
                    && r.jobs[|s.jobs|].status == Status.Failed && Released(r.store.ledger, id)
                    && W.WalletOf(r.store, frm) == W.Wallet(0, 0)
                    && W.Available(r.store, to) == W.Available(s.store, frm) + W.Available(s.store, to)
                    && W.Reserved(r.store, to) == W.Reserved(s.store, frm) + W.Reserved(s.store, to)
                    && W.Replay(r.store.ledger, frm) == s.calls[c].phase.units
                    && !W.Replays(r.store)))
  {
    StrandedRow(s, c, frm, to, id);
    var n := Next(Next(s, MergeUsers(frm, to)), Insert(c, id));
    W.MergeKeepsReplay(s.store, frm, to);
    W.MergeConservesCoins(s.store, frm, to, frm);
    NewIdUntouched(s, id);
    W.ReownedKeepsKey(s.store.ledger, frm, to, ReleaseKey(id));
    assert W.ReplaysFor(n.store, frm);
    StrandedStartCreditsNobody(n, c, env);
  }

  /** The caller has lost his wallet by the time his start fails. */
  lemma StrandedStartCreditsNobody(n: Sys, c: nat, env: Env)
    requires Startable(n, c) && env.submit == None
    requires RowOf(n, c).payload.Song? && RowOf(n, c).gate == [] && RowOf(n, c).reserved > 0
    requires n.calls[c].user !in n.store.wallets && !Released(n.store.ledger, RowOf(n, c).id)
    requires W.ReplaysFor(n.store, n.calls[c].user)
    ensures var j, caller, r := RowOf(n, c), n.calls[c].user, Next(n, StartJob(c, env));
            && r.jobs[n.calls[c].phase.job].status == Status.Failed && Released(r.store.ledger, j.id)
            && r.store.wallets == n.store.wallets
            && W.Replay(r.store.ledger, caller) == j.reserved
            && !W.Replays(r.store)
  {
    var j, r := PaidBy(RowOf(n, c), n.calls[c].user), Next(n, StartJob(c, env));
    FailedSongStart(RowOf(n, c), env);
    ReleaseCreditsNobody(n.store, j);
    W.TakenAppend(n.store.ledger, W.EntryOf(GateOp(j, Release)), ReleaseKey(j.id));
    assert !W.ReplaysFor(r.store, j.user);
  }

  lemma FailedSongStart(j: Job, env: Env)
    requires j.payload.Song? && j.gate == [] && j.reserved > 0 && env.submit == None
    ensures var k := P.Launched(j, env);
            k.status == Status.Failed && NewCalls(j, k) == [Release] && P.StartPipeline(j, env).1
  {
  }

  // ---- a merge between insert and a failing start ----

  /** The row of a priced song of `frm` is inserted, its start still to come, and the merge goes through. */
  predicate Awaits(s: Sys, c: nat, frm: Uuid, to: Uuid) {
    && Startable(s, c) && s.calls[c].user == frm && RowOf(s, c).user == frm
    && RowOf(s, c).payload.Song? && RowOf(s, c).reserved > 0
    && frm != to && !KeysCollide(s.jobs, frm, to)
  }

  /**
   The same loss one transaction later. The merge itself keeps everything, and moves the row with its
   reserve to the target; but the failure path still releases for the guest.
   */
  lemma MergeBeforeFailedStartLosesCoins(s: Sys, c: nat, frm: Uuid, to: Uuid, env: Env)
    requires Inv(s) && Awaits(s, c, frm, to) && env.submit == None
    ensures var m := Next(s, MergeUsers(frm, to));
            && Enabled(m, StartJob(c, env))
            && (Sound(s, MergeUsers(frm, to)) ==> Inv(m) && !Sound(m, StartJob(c, env)))
            && (var r := Next(m, StartJob(c, env));
                && Released(r.store.ledger, RowOf(s, c).id)
                && W.WalletOf(r.store, frm) == W.Wallet(0, 0)
                && W.Available(r.store, to) == W.Available(s.store, frm) + W.Available(s.store, to)
                && W.Reserved(r.store, to) == W.Reserved(s.store, frm) + W.Reserved(s.store, to)
                && W.Replay(r.store.ledger, frm) == RowOf(s, c).reserved
                && !W.Replays(r.store))
  {
    var m := Next(s, MergeUsers(frm, to));
    var j := RowOf(s, c);
    assert j in s.jobs;
    assert m.calls[c] == s.calls[c];
    W.MergeKeepsReplay(s.store, frm, to);
    W.MergeConservesCoins(s.store, frm, to, frm);
    W.ReownedKeepsKey(s.store.ledger, frm, to, ReleaseKey(j.id));
    assert W.ReplaysFor(m.store, frm);
    FailedSongStart(RowOf(m, c), env);
    StepKeepsInvIff(s, MergeUsers(frm, to));
    StrandedStartCreditsNobody(m, c, env);
  }

  // ---- the runs ----

  function PaidSong(u: Uuid, payload: Payload): seq<Step> {
    [Other(W.AdminCredits(u, 100))] + [Begin(u, payload, "", None)] + [ReserveCoins(0, 30)]
  }

  lemma PaidSongIsPending(u: Uuid, payload: Payload)
    requires payload.Song? && FreshPayload(payload)
    ensures EnabledRun(INIT, PaidSong(u, payload)) && SoundRun(INIT, PaidSong(u, payload))
    ensures var s := Run(INIT, PaidSong(u, payload));
            Inv(s) && s.jobs == [] && s.calls == [Call(u, payload, "", None, Pending(30))]
  {
    var a, b := Other(W.AdminCredits(u, 100)), Begin(u, payload, "", None);
    NothingRuns(INIT);
    NothingIsSound(INIT);
    Extended(INIT, [], a);
    assert [] + [a] == [a];
    Extended(INIT, [a], b);
    Extended(INIT, [a] + [b], ReserveCoins(0, 30));
    InitSatisfiesInv();
    RunKeepsInv(INIT, PaidSong(u, payload));
  }

  /** The shortest such run: 100 coins, a song for 30, and the merge before the insert. */
  lemma MergeWhilePendingRun(u: Uuid, v: Uuid, id: Uuid, payload: Payload, env: Env)
    requires u != v && payload.Song? && FreshPayload(payload) && env.submit == None
    ensures var ts := PaidSong(u, payload) + [MergeUsers(u, v)] + [Insert(0, id)] + [StartJob(0, env)];
            EnabledRun(INIT, ts) && !W.Replays(Run(INIT, ts).store)
  {
    var ts := PaidSong(u, payload);
    PaidSongIsPending(u, payload);
    MergeWhilePendingLosesCoins(Run(INIT, ts), 0, u, v, id, env);
    RunExtends(INIT, ts, MergeUsers(u, v));
    RunExtends(INIT, ts + [MergeUsers(u, v)], Insert(0, id));
    RunExtends(INIT, ts + [MergeUsers(u, v)] + [Insert(0, id)], StartJob(0, env));
  }

  /** And the merge after it, before the start fails. */
  lemma MergeBeforeFailedStartRun(u: Uuid, v: Uuid, id: Uuid, payload: Payload, env: Env)
    requires u != v && payload.Song? && FreshPayload(payload) && env.submit == None
    ensures var ts := PaidSong(u, payload) + [Insert(0, id)] + [MergeUsers(u, v)] + [StartJob(0, env)];
            EnabledRun(INIT, ts) && !W.Replays(Run(INIT, ts).store)
  {
    var ts := PaidSong(u, payload);
    PaidSongIsPending(u, payload);
    var s := Run(INIT, ts);
    StepKeepsInvIff(s, Insert(0, id));
    RunExtends(INIT, ts, Insert(0, id));
    MergeBeforeFailedStartLosesCoins(Next(s, Insert(0, id)), 0, u, v, env);
    RunExtends(INIT, ts + [Insert(0, id)], MergeUsers(u, v));
    RunExtends(INIT, ts + [Insert(0, id)] + [MergeUsers(u, v)], StartJob(0, env));
  }

  /** Two calls under one client key, both past the lookup and paid. */
  function TwoPaidCalls(u: Uuid, payload: Payload, key: string): seq<Step> {
    [Other(W.AdminCredits(u, 100))] + [Begin(u, payload, "", Some(key))] + [Begin(u, payload, "", Some(key))]
    + [ReserveCoins(0, 30)] + [ReserveCoins(1, 30)]
  }

  lemma TwoCallsPay(u: Uuid, payload: Payload, key: string)
    requires FreshPayload(payload)
    ensures EnabledRun(INIT, TwoPaidCalls(u, payload, key)) && SoundRun(INIT, TwoPaidCalls(u, payload, key))
    ensures var s := Run(INIT, TwoPaidCalls(u, payload, key));
            && s.jobs == [] && W.WalletOf(s.store, u) == W.Wallet(40, 60)
            && s.calls == [Call(u, payload, "", Some(key), Pending(30)), Call(u, payload, "", Some(key), Pending(30))]
  {
    var a, b := Other(W.AdminCredits(u, 100)), Begin(u, payload, "", Some(key));
    NothingRuns(INIT);
    NothingIsSound(INIT);
    Extended(INIT, [], a);
    assert [] + [a] == [a];
    Extended(INIT, [a], b);
    Extended(INIT, [a] + [b], b);
    Extended(INIT, [a] + [b] + [b], ReserveCoins(0, 30));
    Extended(INIT, [a] + [b] + [b] + [ReserveCoins(0, 30)], ReserveCoins(1, 30));
  }

  lemma Extended(s: Sys, ts: seq<Step>, t: Step)
    requires EnabledRun(s, ts) && SoundRun(s, ts) && Enabled(Run(s, ts), t) && Sound(Run(s, ts), t)
    ensures EnabledRun(s, ts + [t]) && SoundRun(s, ts + [t]) && Run(s, ts + [t]) == Next(Run(s, ts), t)
  {
    RunExtends(s, ts, t);
    SoundExtends(s, ts, t);
  }

  /** The race is reachable: the second insert is refused, and its 30 coins stay reserved beside the winner's. */
  lemma LostRaceRun(u: Uuid, id: Uuid, id': Uuid, payload: Payload, key: string)
    requires FreshPayload(payload) && id != id'
    ensures var ts := TwoPaidCalls(u, payload, key) + [Insert(0, id)] + [Insert(1, id')];
            && EnabledRun(INIT, ts) && SoundRun(INIT, ts)
            && (var s := Run(INIT, ts);
                && |s.jobs| == 1 && s.jobs[0].reserved == 30
                && |s.calls| == 2 && s.calls[1].phase == Lost(30) && W.Reserved(s.store, u) == 60)
  {
    var ts := TwoPaidCalls(u, payload, key);
    TwoCallsPay(u, payload, key);
    Extended(INIT, ts, Insert(0, id));
    var first := Next(Run(INIT, ts), Insert(0, id));
    assert first.jobs[0].user == u && first.jobs[0].clientKey == Some(key);
    assert ClientKeyUsed(first.jobs, u, Some(key));
    Extended(INIT, ts + [Insert(0, id)], Insert(1, id'));
    var second := Next(first, Insert(1, id'));
    assert second == WithPhase(first, 1, Lost(30));
  }
}
