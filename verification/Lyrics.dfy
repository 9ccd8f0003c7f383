/**
 Lyrics generation and assistance as a saga: charge before the language model, refund on any
 failure after the charge, both under keys derived from the client's operation id. The charge and
 what follows it are separate transactions, so attempts may overlap.
 */
module LyricsSaga {
  import opened Options
  import opened Keys
  import opened CoinTables
  import W = Wallets

  /** One operation: who pays, on which endpoint, under which id. The price is read by each charge. */
  datatype Bill = Bill(user: Uuid, assist: bool, operation: string)

  /** A row of `lyrics_drafts`; only generation stores one. */
  datatype Draft = Draft(user: Uuid, content: string)

  datatype Result = Refused | FailedAndRefunded | Delivered(content: string)

  function ChargeOf(b: Bill, price: int): W.Op { W.Charge(b.user, price, b.assist, b.operation) }

  function RefundOf(b: Bill, units: int): W.Op { W.Refund(b.user, units, b.assist, b.operation) }

  predicate Passes(s: W.Store, b: Bill, price: int) { W.Apply(s, ChargeOf(b, price)).1.Done? }

  // ---- overlapping attempts ----

  datatype Attempt =
    | Turned                // refused for funds
    | Paid(units: int)      // past the charge, the model call running; a crash leaves it there
    | Served(units: int)
    | Returned(units: int)  // failed, refund made

  /**
   The tables and the attempts at one operation; `failures` lists the units of failed attempts in
   the order they failed, `others` sums what other transactions did to the user's coins.
   */
  datatype Saga = Saga(store: W.Store, drafts: seq<Draft>, attempts: seq<Attempt>, failures: seq<int>, others: int)

  datatype Step =
    | Start(price: int)
    | Finish(attempt: nat, content: Option<string>)  // None: the model or the draft failed
    | Other(op: W.Op)

  predicate Charged(s: W.Store, b: Bill) { W.KeyTaken(s.ledger, ChargeKey(b.assist, b.operation)) }

  predicate Refunded(s: W.Store, b: Bill) { W.KeyTaken(s.ledger, RefundKey(b.assist, b.operation)) }

  predicate OwnKey(b: Bill, k: Option<LedgerKey>) {
    k == Some(ChargeKey(b.assist, b.operation)) || k == Some(RefundKey(b.assist, b.operation))
  }

  /** Any other transaction that does not use this operation's keys; the user is not merged away. */
  predicate Foreign(b: Bill, op: W.Op) { !op.Merge? && !OwnKey(b, W.EntryOf(op).key) }

  predicate Enabled(b: Bill, s: Saga, t: Step) {
    match t
    case Start(_) => true
    case Finish(i, _) => i < |s.attempts| && s.attempts[i].Paid?
    case Other(op) => Foreign(b, op)
  }

  function Started(b: Bill, s: Saga, price: int): Saga {
    var (store, out) := W.Apply(s.store, ChargeOf(b, price));
    s.(store := store, attempts := s.attempts + [if out.Done? then Paid(out.units) else Turned])
  }

  function WithDraft(b: Bill, drafts: seq<Draft>, content: string): seq<Draft> {
    if b.assist then drafts else drafts + [Draft(b.user, content)]
  }

  function Finished(b: Bill, s: Saga, i: nat, content: Option<string>): Saga
    requires i < |s.attempts| && s.attempts[i].Paid?
  {
    var units := s.attempts[i].units;
    match content
    case Some(text) => s.(drafts := WithDraft(b, s.drafts, text), attempts := s.attempts[i := Served(units)])
    case None =>
      s.(store := W.Apply(s.store, RefundOf(b, units)).0, attempts := s.attempts[i := Returned(units)],
         failures := s.failures + [units])
  }

  function Interrupted(b: Bill, s: Saga, op: W.Op): Saga {
    var store := W.Apply(s.store, op).0;
    s.(store := store, others := s.others + W.Available(store, b.user) - W.Available(s.store, b.user))
  }

  function Next(b: Bill, s: Saga, t: Step): Saga
    requires Enabled(b, s, t)
  {
    match t
    case Start(price) => Started(b, s, price)
    case Finish(i, content) => Finished(b, s, i, content)
    case Other(op) => Interrupted(b, s, op)
  }

  // ---- in place ----

  class LyricsDatabase {
    const coins: CoinDatabase
    var drafts: seq<Draft>

    constructor (coins: CoinDatabase)
      ensures this.coins == coins && drafts == []
    {
      this.coins := coins;
      drafts := [];
    }

    /** First transaction: the charge. */
    method Pay(b: Bill, price: int) returns (a: Attempt)
      modifies coins
      ensures var s := Saga(old(coins.View()), old(drafts), [], [], 0);
              coins.View() == Started(b, s, price).store && [a] == Started(b, s, price).attempts
      ensures a == Turned || a.Paid?
    {
      var out := coins.Charge(b.user, price, b.assist, b.operation);
      a := if out.Done? then Paid(out.units) else Turned;
    }

    /** What follows: the draft, or the refund. */
    method Complete(b: Bill, a: Attempt, content: Option<string>) returns (r: Result)
      requires a.Paid?
      modifies this`drafts, coins
      ensures var t := Finished(b, Saga(old(coins.View()), old(drafts), [a], [], 0), 0, content);
              coins.View() == t.store && drafts == t.drafts
      ensures r == if content.Some? then Delivered(content.value) else FailedAndRefunded
      ensures drafts == if content.Some? && !b.assist then old(drafts) + [Draft(b.user, content.value)] else old(drafts)
      ensures content.Some? ==> coins.View() == old(coins.View())
    {
      match content
      case Some(text) =>
        if !b.assist {
          drafts := drafts + [Draft(b.user, text)];
        }
        r := Delivered(text);
      case None =>
        var _ := coins.Refund(b.user, a.units, b.assist, b.operation);
        r := FailedAndRefunded;
    }

    /** One undisturbed attempt: the two steps in a row. */
    method Generate(b: Bill, price: int, content: Option<string>) returns (r: Result)
      modifies this`drafts, coins
      ensures var s := Started(b, Saga(old(coins.View()), old(drafts), [], [], 0), price);
              var t := if s.attempts[0].Paid? then Finished(b, s, 0, content) else s;
              && coins.View() == t.store && drafts == t.drafts
              && r == if s.attempts[0] == Turned then Refused
                      else if content.Some? then Delivered(content.value) else FailedAndRefunded
    {
      var a := Pay(b, price);
      if a == Turned {
        return Refused;
      }
      r := Complete(b, a, content);
    }
  }

  // ---- one step ----

  /** A served generation stores its user's text; neither assistance nor a failure stores anything. */
  lemma ServedTextIsStored(b: Bill, s: Saga, i: nat, content: Option<string>)
    requires i < |s.attempts| && s.attempts[i].Paid?
    ensures Finished(b, s, i, content).drafts ==
            if content.Some? && !b.assist then s.drafts + [Draft(b.user, content.value)] else s.drafts
    ensures content.Some? ==> Finished(b, s, i, content).store == s.store
  {
  }

  function Units(a: Attempt): int { if a == Turned then 0 else a.units }

  function AllUnits(attempts: seq<Attempt>): (r: seq<int>)
    ensures |r| == |attempts| && forall i :: 0 <= i < |r| ==> r[i] == Units(attempts[i])
  {
    seq(|attempts|, i requires 0 <= i < |attempts| => Units(attempts[i]))
  }

  /** The first positive number, 0 when there is none. */
  function FirstPositive(xs: seq<int>): (x: int)
    ensures x >= 0
  {
    if xs == [] then 0
    else
      var before := FirstPositive(xs[..|xs| - 1]);
      if before > 0 then before else if xs[|xs| - 1] > 0 then xs[|xs| - 1] else 0
  }

  lemma {:induction false} FirstPositiveIsFirst(xs: seq<int>) returns (i: nat)
    ensures FirstPositive(xs) == 0 ==> forall k :: 0 <= k < |xs| ==> xs[k] <= 0
    ensures FirstPositive(xs) > 0 ==>
      i < |xs| && xs[i] == FirstPositive(xs) && forall k :: 0 <= k < i ==> xs[k] <= 0
  {
    i := 0;
    if xs != [] {
      var n := |xs| - 1;
      i := FirstPositiveIsFirst(xs[..n]);
      if FirstPositive(xs[..n]) == 0 {
        i := n;
        assert forall k :: 0 <= k < n ==> xs[..n][k] == xs[k];
      }
    }
  }

  /** What the operation was charged: the price seen by the first priced attempt that passed. */
  function ChargedUnits(s: Saga): int { FirstPositive(AllUnits(s.attempts)) }

  /** What it got back: the units of the first priced attempt that failed. */
  function RefundedUnits(s: Saga): int { FirstPositive(s.failures) }

  ghost predicate Consistent(s: W.Store, b: Bill) {
    (Refunded(s, b) ==> Charged(s, b)) && (Charged(s, b) ==> b.user in s.wallets)
  }

  /** The keys tell what the attempts did, and the coins what the attempts and the others did. */
  ghost predicate Inv(b: Bill, s: Saga, initial: int) {
    && Consistent(s.store, b)
    && (Charged(s.store, b) <==> ChargedUnits(s) > 0)
    && (Refunded(s.store, b) <==> RefundedUnits(s) > 0)
    && W.Available(s.store, b.user) == initial + s.others - ChargedUnits(s) + RefundedUnits(s)
  }

  lemma ForeignKeepsSaga(s: W.Store, b: Bill, op: W.Op)
    requires Foreign(b, op)
    ensures var t := W.Apply(s, op).0;
            Charged(t, b) == Charged(s, b) && Refunded(t, b) == Refunded(s, b) && s.wallets.Keys <= t.wallets.Keys
  {
    var t := W.Apply(s, op).0;
    if t.ledger != s.ledger {
      assert t.ledger == s.ledger + [W.EntryOf(op)];
      W.TakenAppend(s.ledger, W.EntryOf(op), ChargeKey(b.assist, b.operation));
      W.TakenAppend(s.ledger, W.EntryOf(op), RefundKey(b.assist, b.operation));
    }
  }

  /**
   A refused charge changes nothing and leaves no key; a repeated one passes without a debit and
   answers with the price of the moment.
   */
  lemma ChargeStep(s: W.Store, b: Bill, price: int)
    requires Consistent(s, b)
    ensures var (t, out) := W.Apply(s, ChargeOf(b, price));
            && Consistent(t, b) && Refunded(t, b) == Refunded(s, b)
            && Charged(t, b) == (Charged(s, b) || (price > 0 && out.Done?))
            && (Charged(s, b) ==> out.Done?)
            && (out.Done? ==> out.units == if price > 0 then price else 0)
            && W.Available(t, b.user) == W.Available(s, b.user) - (if Charged(t, b) && !Charged(s, b) then price else 0)
            && (!out.Done? ==> t == s)
  {
    W.TakenAppend(s.ledger, W.EntryOf(ChargeOf(b, price)), ChargeKey(b.assist, b.operation));
    W.TakenAppend(s.ledger, W.EntryOf(ChargeOf(b, price)), RefundKey(b.assist, b.operation));
  }

  lemma RefundStep(s: W.Store, b: Bill, units: int)
    requires Consistent(s, b) && (units > 0 ==> Charged(s, b))
    ensures var t := W.Apply(s, RefundOf(b, units)).0;
            && Consistent(t, b) && Charged(t, b) == Charged(s, b)
            && Refunded(t, b) == (Refunded(s, b) || units > 0)
            && W.Available(t, b.user) - W.Available(s, b.user)
               == (if Refunded(t, b) && !Refunded(s, b) then units else 0)
  {
    W.TakenAppend(s.ledger, W.EntryOf(RefundOf(b, units)), ChargeKey(b.assist, b.operation));
    W.TakenAppend(s.ledger, W.EntryOf(RefundOf(b, units)), RefundKey(b.assist, b.operation));
  }

  lemma PositiveAppended(xs: seq<int>, x: int)
    ensures FirstPositive(xs + [x]) ==
            if FirstPositive(xs) > 0 then FirstPositive(xs) else if x > 0 then x else 0
  {
    assert (xs + [x])[..|xs|] == xs;
  }

  lemma StartKeepsInv(b: Bill, s: Saga, price: int, initial: int)
    requires Inv(b, s, initial)
    ensures Inv(b, Started(b, s, price), initial)
  {
    var n := Started(b, s, price);
    ChargeStep(s.store, b, price);
    PositiveAppended(AllUnits(s.attempts), Units(n.attempts[|s.attempts|]));
    assert AllUnits(n.attempts) == AllUnits(s.attempts) + [Units(n.attempts[|s.attempts|])];
  }

  lemma FinishKeepsInv(b: Bill, s: Saga, i: nat, content: Option<string>, initial: int)
    requires Inv(b, s, initial) && i < |s.attempts| && s.attempts[i].Paid?
    ensures Inv(b, Finished(b, s, i, content), initial)
  {
    var n, units := Finished(b, s, i, content), s.attempts[i].units;
    assert AllUnits(n.attempts) == AllUnits(s.attempts);
    if content == None {
      var _ := FirstPositiveIsFirst(AllUnits(s.attempts));
      assert AllUnits(s.attempts)[i] == units;
      RefundStep(s.store, b, units);
      PositiveAppended(s.failures, units);
    }
  }

  lemma StepKeepsInv(b: Bill, s: Saga, t: Step, initial: int)
    requires Inv(b, s, initial) && Enabled(b, s, t)
    ensures Inv(b, Next(b, s, t), initial)
  {
    match t
    case Start(price) => StartKeepsInv(b, s, price, initial);
    case Finish(i, content) => FinishKeepsInv(b, s, i, content, initial);
    case Other(op) => ForeignKeepsSaga(s.store, b, op);
  }

  // ---- all runs ----

  ghost predicate EnabledRun(b: Bill, s: Saga, ts: seq<Step>)
    decreases |ts|
  {
    ts == [] || (Enabled(b, s, ts[0]) && EnabledRun(b, Next(b, s, ts[0]), ts[1..]))
  }

  function Run(b: Bill, s: Saga, ts: seq<Step>): Saga
    requires EnabledRun(b, s, ts)
    decreases |ts|
  {
    if ts == [] then s else Run(b, Next(b, s, ts[0]), ts[1..])
  }

  lemma {:induction false} RunKeepsInv(b: Bill, s: Saga, ts: seq<Step>, initial: int)
    requires Inv(b, s, initial) && EnabledRun(b, s, ts)
    ensures Inv(b, Run(b, s, ts), initial)
    decreases |ts|
  {
    if ts != [] {
      StepKeepsInv(b, s, ts[0], initial);
      RunKeepsInv(b, Next(b, s, ts[0]), ts[1..], initial);
    }
  }

  function NewSaga(store: W.Store): Saga { Saga(store, [], [], [], 0) }

  /**
   Any number of attempts at one operation, overlapping in any way, among any other transactions and
   under changing prices, move their user's coins by what the first passing attempt was charged and
   by what the first failing one gets back; a refund exists only with a charge.
   */
  lemma SagaSettles(b: Bill, store: W.Store, ts: seq<Step>)
    requires !Charged(store, b) && !Refunded(store, b) && EnabledRun(b, NewSaga(store), ts)
    ensures var r := Run(b, NewSaga(store), ts);
            && W.Available(r.store, b.user) - W.Available(store, b.user) - r.others
               == RefundedUnits(r) - ChargedUnits(r)
            && (Charged(r.store, b) <==> ChargedUnits(r) > 0)
            && (Refunded(r.store, b) <==> RefundedUnits(r) > 0)
            && (Refunded(r.store, b) ==> Charged(r.store, b))
  {
    RunKeepsInv(b, NewSaga(store), ts, W.Available(store, b.user));
  }

  /** Refunds stay within charges exactly when the attempt that was refunded saw at most the charged price. */
  lemma RefundsWithinChargesIff(b: Bill, store: W.Store, ts: seq<Step>)
    requires !Charged(store, b) && !Refunded(store, b) && EnabledRun(b, NewSaga(store), ts)
    ensures var r := Run(b, NewSaga(store), ts);
            && (W.Available(r.store, b.user) - W.Available(store, b.user) - r.others <= 0
                <==> RefundedUnits(r) <= ChargedUnits(r))
            && (Refunded(r.store, b) ==>
                  (W.Available(r.store, b.user) - W.Available(store, b.user) == r.others
                   <==> RefundedUnits(r) == ChargedUnits(r)))
  {
    SagaSettles(b, store, ts);
  }

  /** The input that breaks it: charged p, retried at a higher q, and the retry fails. */
  lemma RetryAtHigherPriceGains(b: Bill, store: W.Store, p: int, q: int)
    requires !Charged(store, b) && !Refunded(store, b) && 0 < p < q && p <= W.Available(store, b.user)
    ensures var ts := [Start(p), Start(q), Finish(1, None)];
            && EnabledRun(b, NewSaga(store), ts)
            && W.Available(Run(b, NewSaga(store), ts).store, b.user) == W.Available(store, b.user) + (q - p)
  {
    var s0 := NewSaga(store);
    ChargeStep(store, b, p);
    var s1 := Started(b, s0, p);
    ChargeStep(s1.store, b, q);
    var s2 := Started(b, s1, q);
    RefundStep(s2.store, b, q);
    assert s1.attempts == [Paid(p)] && s2.attempts == [Paid(p), Paid(q)];
    var s3 := Finished(b, s2, 1, None);
    assert EnabledRun(b, s3, []) && Run(b, s3, []) == s3;
    FirstStepRuns(b, s2, Finish(1, None), []);
    FirstStepRuns(b, s1, Start(q), [Finish(1, None)] + []);
    FirstStepRuns(b, s0, Start(p), [Start(q)] + ([Finish(1, None)] + []));
    assert [Start(p)] + ([Start(q)] + ([Finish(1, None)] + [])) == [Start(p), Start(q), Finish(1, None)];
  }

  lemma FirstStepRuns(b: Bill, s: Saga, t: Step, ts: seq<Step>)
    requires Enabled(b, s, t) && EnabledRun(b, Next(b, s, t), ts)
    ensures EnabledRun(b, s, [t] + ts) && Run(b, s, [t] + ts) == Run(b, Next(b, s, t), ts)
  {
    assert ([t] + ts)[1..] == ts;
  }

  // ---- one price ----

  ghost predicate OnePrice(ts: seq<Step>, p: int) { forall t :: t in ts && t.Start? ==> t.price == p }

  ghost predicate AllAt(s: Saga, p: int) {
    (forall a :: a in s.attempts && a != Turned ==> a.units == p) && (forall x :: x in s.failures ==> x == p)
  }

  predicate SomePassed(s: Saga) { exists a :: a in s.attempts && a != Turned }

  lemma StepKeepsPrice(b: Bill, s: Saga, t: Step, p: int)
    requires p > 0 && AllAt(s, p) && Enabled(b, s, t) && (t.Start? ==> t.price == p)
    ensures AllAt(Next(b, s, t), p)
  {
    var n := Next(b, s, t);
    match t
    case Start(_) => assert forall a :: a in n.attempts ==> a in s.attempts || a == n.attempts[|s.attempts|];
    case Finish(i, _) => assert s.attempts[i] in s.attempts;
    case Other(_) =>
  }

  lemma {:induction false} RunKeepsPrice(b: Bill, s: Saga, ts: seq<Step>, p: int)
    requires p > 0 && AllAt(s, p) && OnePrice(ts, p) && EnabledRun(b, s, ts)
    ensures AllAt(Run(b, s, ts), p)
    decreases |ts|
  {
    if ts != [] {
      assert ts[0] in ts && forall t :: t in ts[1..] ==> t in ts;
      StepKeepsPrice(b, s, ts[0], p);
      RunKeepsPrice(b, Next(b, s, ts[0]), ts[1..], p);
    }
  }

  lemma ChargedAtOnePrice(s: Saga, p: int)
    requires p > 0 && AllAt(s, p)
    ensures ChargedUnits(s) == (if SomePassed(s) then p else 0)
    ensures RefundedUnits(s) == (if s.failures != [] then p else 0)
  {
    var i := FirstPositiveIsFirst(AllUnits(s.attempts));
    var j := FirstPositiveIsFirst(s.failures);
    if ChargedUnits(s) > 0 { assert s.attempts[i] in s.attempts; }
    if a :| a in s.attempts && a != Turned {
      var k :| 0 <= k < |s.attempts| && s.attempts[k] == a;
      assert AllUnits(s.attempts)[k] == p;
    }
    if s.failures != [] { assert s.failures[j] in s.failures && s.failures[0] in s.failures; }
  }

  /**
   At one positive price the attempts cost it exactly when some attempt passed the charge and none
   has failed after it, and nothing otherwise.
   */
  lemma SagaChargesAtMostOnce(b: Bill, store: W.Store, ts: seq<Step>, p: int)
    requires p > 0 && OnePrice(ts, p)
    requires !Charged(store, b) && !Refunded(store, b) && EnabledRun(b, NewSaga(store), ts)
    ensures var r := Run(b, NewSaga(store), ts);
            W.Available(r.store, b.user) - W.Available(store, b.user) - r.others
            == (if SomePassed(r) && r.failures == [] then -p else 0)
  {
    var r := Run(b, NewSaga(store), ts);
    SagaSettles(b, store, ts);
    RunKeepsPrice(b, NewSaga(store), ts, p);
    ChargedAtOnePrice(r, p);
    FailedHavePassed(b, NewSaga(store), ts);
  }

  lemma {:induction false} FailedHavePassed(b: Bill, s: Saga, ts: seq<Step>)
    requires EnabledRun(b, s, ts) && (s.failures != [] ==> SomePassed(s))
    ensures Run(b, s, ts).failures != [] ==> SomePassed(Run(b, s, ts))
    decreases |ts|
  {
    if ts != [] {
      var n := Next(b, s, ts[0]);
      if n.failures != [] {
        match ts[0]
        case Start(_) =>
          var a :| a in s.attempts && a != Turned;
          assert a in n.attempts;
        case Finish(i, _) => assert n.attempts[i] in n.attempts;
        case Other(_) =>
      }
      FailedHavePassed(b, n, ts[1..]);
    }
  }

  function ServedCount(attempts: seq<Attempt>): nat {
    if attempts == [] then 0
    else ServedCount(attempts[..|attempts| - 1]) + if attempts[|attempts| - 1].Served? then 1 else 0
  }

  lemma {:induction false} ServedMoved(attempts: seq<Attempt>, i: nat, a: Attempt)
    requires i < |attempts| && attempts[i].Paid?
    ensures ServedCount(attempts[i := a]) == ServedCount(attempts) + if a.Served? then 1 else 0
  {
    var n := |attempts| - 1;
    if i < n {
      ServedMoved(attempts[..n], i, a);
      assert attempts[i := a][..n] == attempts[..n][i := a];
    } else {
      assert attempts[i := a][..n] == attempts[..n];
    }
  }

  /** Generation stores one draft per served attempt, assistance none; a failed attempt leaves none. */
  lemma {:induction false} OneDraftPerServedAttempt(b: Bill, s: Saga, ts: seq<Step>)
    requires EnabledRun(b, s, ts)
    ensures var r := Run(b, s, ts);
            |r.drafts| - |s.drafts| == (if b.assist then 0 else ServedCount(r.attempts) - ServedCount(s.attempts))
    decreases |ts|
  {
    if ts != [] {
      var n := Next(b, s, ts[0]);
      OneDraftPerServedAttempt(b, n, ts[1..]);
      match ts[0]
      case Start(_) => assert n.attempts[..|s.attempts|] == s.attempts;
      case Finish(i, _) => ServedMoved(s.attempts, i, n.attempts[i]);
      case Other(_) =>
    }
  }

  /** Once an operation has been charged, refunded or not, a retry under its id is served without a new charge. */
  lemma RetryIsFree(b: Bill, s: Saga, price: int, content: string)
    requires Consistent(s.store, b) && Charged(s.store, b)
    ensures var t := Started(b, s, price);
            && t.attempts[|s.attempts|].Paid?
            && (var r := Finished(b, t, |s.attempts|, Some(content));
                && r.attempts[|s.attempts|].Served?
                && W.Available(r.store, b.user) == W.Available(s.store, b.user)
                && r.store.ledger == s.store.ledger)
  {
  }

  // ---- a merge of the payer ----

  /** A first refund keeps the books exactly when its user still has a wallet, and only then pays him. */
  lemma RefundReachesPayerIff(b: Bill, store: W.Store, units: int)
    requires W.Replays(store) && units > 0 && !Refunded(store, b)
    ensures var t := W.Apply(store, RefundOf(b, units)).0;
            && Refunded(t, b)
            && (W.Replays(t) <==> b.user in store.wallets)
            && W.Available(t, b.user) == W.Available(store, b.user) + (if b.user in store.wallets then units else 0)
  {
    W.ApplyKeepsReplayIff(store, RefundOf(b, units));
    W.TakenAppend(store.ledger, W.EntryOf(RefundOf(b, units)), RefundKey(b.assist, b.operation));
  }

  /** The payer is merged while the model call runs, and the call fails: nobody gets the units back. */
  lemma MergedPayerLosesRefund(b: Bill, s: Saga, i: nat, to: Uuid)
    requires W.Replays(s.store) && i < |s.attempts| && s.attempts[i].Paid? && s.attempts[i].units > 0
    requires !Refunded(s.store, b) && to != b.user
    ensures var m := s.(store := W.Merged(s.store, b.user, to));
            var r := Finished(b, m, i, None);
            && Refunded(r.store, b) && r.store.wallets == m.store.wallets && b.user !in r.store.wallets
            && W.Replays(m.store) && !W.Replays(r.store)
  {
    var m := s.(store := W.Merged(s.store, b.user, to));
    W.MergeKeepsReplay(s.store, b.user, to);
    W.ReownedKeepsKey(s.store.ledger, b.user, to, RefundKey(b.assist, b.operation));
    W.MergeConservesCoins(s.store, b.user, to, to);
    RefundReachesPayerIff(b, m.store, s.attempts[i].units);
  }
}
