/**
 One subscription chain, one owner: what verify, restore and notifications keep about purchase
 rows and active subscriptions when every transaction id names one fixed record of one
 environment other than Xcode.
 */
module Ownership {
  import opened Options
  import opened Keys
  import opened Billing

  /** The records Apple would present, by transaction id, each with its original transaction. */
  type Records = map<string, Tx>

  ghost predicate Fixed(rec: Records, env: Environment) {
    && env != Xcode
    && forall id :: id in rec ==>
         && rec[id].transactionId == id
         && rec[id].originalId.Some? && rec[id].originalId.value != ""
         && EnvironmentOf(rec[id].environment) == env
  }

  ghost predicate RowsFollowRecords(cat: Catalogue, rec: Records, rows: seq<Row>) {
    forall i :: 0 <= i < |rows| ==>
      var r := rows[i];
      && r.transactionId in rec
      && (var tx := rec[r.transactionId];
          && r.originalId == tx.originalId && r.env == EnvironmentOf(tx.environment)
          && r.dedupKey == KeyOf(r.user, tx) && Lookup(cat, tx.productId) == Some(r.product))
  }

  ghost predicate OnChain(r: Row, chain: string) { r.product.subscription && r.originalId == Some(chain) }

  /** All subscription rows of a chain belong to one user. */
  ghost predicate ChainsHaveOneOwner(rows: seq<Row>) {
    forall i, j :: 0 <= i < |rows| && 0 <= j < |rows|
      && rows[i].product.subscription && rows[j].product.subscription && rows[i].originalId == rows[j].originalId
      ==> rows[i].user == rows[j].user
  }

  ghost predicate OtherChainsHaveOneOwner(rows: seq<Row>, chain: string) {
    forall i, j :: 0 <= i < |rows| && 0 <= j < |rows|
      && rows[i].product.subscription && rows[j].product.subscription
      && rows[i].originalId == rows[j].originalId && rows[i].originalId != Some(chain)
      ==> rows[i].user == rows[j].user
  }

  ghost predicate Owns(rows: seq<Row>, u: Uuid, chain: string) {
    exists i :: 0 <= i < |rows| && OnChain(rows[i], chain) && rows[i].user == u
  }

  predicate ActiveOn(subs: map<Uuid, Sub>, u: Uuid, chain: string) {
    u in subs && subs[u].status == Active && subs[u].originalId == Some(chain)
  }

  /** Whoever is active on a chain owns it. */
  ghost predicate ActiveMeansOwner(s: State) {
    forall u: Uuid, chain: string :: ActiveOn(s.subs, u, chain) ==> Owns(s.purchases, u, chain)
  }

  ghost predicate Inv(cat: Catalogue, rec: Records, env: Environment, s: State) {
    && Fixed(rec, env) && RowsFollowRecords(cat, rec, s.purchases)
    && ChainsHaveOneOwner(s.purchases) && ActiveMeansOwner(s)
  }

  /** The row that carries a transaction's key is that transaction's row. */
  lemma KeyIdentifiesTransaction(cat: Catalogue, rec: Records, env: Environment, s: State, u: Uuid, tx: Tx, n: nat)
    requires Fixed(rec, env) && RowsFollowRecords(cat, rec, s.purchases)
    requires tx.transactionId in rec && rec[tx.transactionId] == tx
    requires n < |s.purchases| && s.purchases[n].dedupKey == KeyOf(u, tx)
    ensures s.purchases[n].transactionId == tx.transactionId
    ensures s.purchases[n].originalId == tx.originalId && Lookup(cat, tx.productId) == Some(s.purchases[n].product)
  {
    var r := s.purchases[n];
    var own := rec[r.transactionId];
    DedupKeyInjective(EnvironmentOf(own.environment), EnvironmentOf(tx.environment), r.user, u,
                      own.transactionId, tx.transactionId, own.purchaseDateMs, tx.purchaseDateMs);
  }

  lemma ReassignedFollowsRecords(cat: Catalogue, rec: Records, env: Environment, rows: seq<Row>, chain: string, u: Uuid)
    requires Fixed(rec, env) && RowsFollowRecords(cat, rec, rows)
    ensures RowsFollowRecords(cat, rec, Reassigned(rows, chain, env, u))
  {
  }

  /** The transfer hands every row of the chain to the new owner and leaves other chains alone. */
  lemma TransferKeepsOneOwner(cat: Catalogue, rec: Records, env: Environment, rows: seq<Row>, chain: string, u: Uuid)
    requires Fixed(rec, env) && RowsFollowRecords(cat, rec, rows)
    requires OtherChainsHaveOneOwner(rows, chain)
    ensures ChainsHaveOneOwner(Reassigned(rows, chain, env, u))
  {
  }

  lemma OwnsOtherChainStill(rows: seq<Row>, chain: string, env: Environment, u: Uuid, v: Uuid, other: string)
    requires Owns(rows, v, other) && other != chain
    ensures Owns(Reassigned(rows, chain, env, u), v, other)
  {
    var i :| 0 <= i < |rows| && OnChain(rows[i], other) && rows[i].user == v;
    assert Reassigned(rows, chain, env, u)[i] == rows[i];
  }

  /** Transfer followed by activation, on rows that contain one of the chain. */
  lemma TakeoverKeepsInv(cat: Catalogue, rec: Records, env: Environment, s: State, u: Uuid, p: Product, tx: Tx, n: nat)
    requires Fixed(rec, env) && tx.transactionId in rec && rec[tx.transactionId] == tx
    requires RowsFollowRecords(cat, rec, s.purchases) && ActiveMeansOwner(s)
    requires OtherChainsHaveOneOwner(s.purchases, ChainOf(tx))
    requires n < |s.purchases| && OnChain(s.purchases[n], ChainOf(tx))
    ensures Inv(cat, rec, env, Activated(Transferred(s, u, tx), u, p, tx))
  {
    var chain := ChainOf(tx);
    var r := Activated(Transferred(s, u, tx), u, p, tx);
    ReassignedFollowsRecords(cat, rec, env, s.purchases, chain, u);
    TransferKeepsOneOwner(cat, rec, env, s.purchases, chain, u);
    forall v: Uuid, c: string | ActiveOn(r.subs, v, c) ensures Owns(r.purchases, v, c) {
      if v == u {
        assert OnChain(r.purchases[n], chain) && r.purchases[n].user == u;
      } else {
        assert ActiveOn(s.subs, v, c) && c != chain;
        OwnsOtherChainStill(s.purchases, chain, env, u, v, c);
      }
    }
  }

  /** A repeat of the user's own transaction skips the transfer, and needs none. */
  lemma OwnRepeatKeepsInv(cat: Catalogue, rec: Records, env: Environment, s: State, u: Uuid, p: Product, tx: Tx, n: nat)
    requires Inv(cat, rec, env, s) && n < |s.purchases| && s.purchases[n].user == u
    requires s.purchases[n].originalId == tx.originalId && s.purchases[n].product.subscription
    ensures Inv(cat, rec, env, Activated(s, u, p, tx))
  {
    var r := Activated(s, u, p, tx);
    forall v: Uuid, c: string | ActiveOn(r.subs, v, c) ensures Owns(r.purchases, v, c) {
      if v == u {
        assert OnChain(r.purchases[n], c);
      } else {
        assert ActiveOn(s.subs, v, c);
      }
    }
  }

  lemma AppendedRow(cat: Catalogue, rec: Records, env: Environment, s: State, u: Uuid, p: Product, tx: Tx)
    requires Inv(cat, rec, env, s) && tx.transactionId in rec && rec[tx.transactionId] == tx
    requires Lookup(cat, tx.productId) == Some(p)
    ensures var a := s.(purchases := s.purchases + [NewRow(u, p, tx)]);
            && RowsFollowRecords(cat, rec, a.purchases) && ActiveMeansOwner(a)
            && OtherChainsHaveOneOwner(a.purchases, ChainOf(tx))
            && (!p.subscription ==> ChainsHaveOneOwner(a.purchases))
  {
    var a := s.(purchases := s.purchases + [NewRow(u, p, tx)]);
    forall v: Uuid, c: string | ActiveOn(a.subs, v, c) ensures Owns(a.purchases, v, c) {
      assert Owns(s.purchases, v, c);
      var i :| 0 <= i < |s.purchases| && OnChain(s.purchases[i], c) && s.purchases[i].user == v;
      assert a.purchases[i] == s.purchases[i];
    }
  }

  lemma NewTransactionKeepsInv(cat: Catalogue, rec: Records, env: Environment, s: State, u: Uuid, p: Product, tx: Tx)
    requires Inv(cat, rec, env, s) && tx.transactionId in rec && rec[tx.transactionId] == tx
    requires Lookup(cat, tx.productId) == Some(p) && Find(s.purchases, KeyOf(u, tx)) == |s.purchases|
    ensures Inv(cat, rec, env, Applied(cat, s, u, tx).0)
  {
    AppendedRow(cat, rec, env, s, u, p, tx);
    if p.subscription {
      TakeoverKeepsInv(cat, rec, env, s.(purchases := s.purchases + [NewRow(u, p, tx)]), u, p, tx, |s.purchases|);
    }
  }

  lemma RecordedTransactionKeepsInv(cat: Catalogue, rec: Records, env: Environment, s: State, u: Uuid, p: Product,
                                    tx: Tx, n: nat)
    requires Inv(cat, rec, env, s) && tx.transactionId in rec && rec[tx.transactionId] == tx
    requires Lookup(cat, tx.productId) == Some(p) && Find(s.purchases, KeyOf(u, tx)) == n < |s.purchases|
    ensures Inv(cat, rec, env, Applied(cat, s, u, tx).0)
  {
    KeyIdentifiesTransaction(cat, rec, env, s, u, tx, n);
    if p.subscription {
      if s.purchases[n].user != u {
        TakeoverKeepsInv(cat, rec, env, s, u, p, tx, n);
      } else {
        OwnRepeatKeepsInv(cat, rec, env, s, u, p, tx, n);
      }
    }
  }

  lemma AppliedKeepsInv(cat: Catalogue, rec: Records, env: Environment, s: State, u: Uuid, tx: Tx)
    requires Inv(cat, rec, env, s) && tx.transactionId in rec && rec[tx.transactionId] == tx
    ensures Inv(cat, rec, env, Applied(cat, s, u, tx).0)
  {
    if Lookup(cat, tx.productId).Some? {
      var p := Lookup(cat, tx.productId).value;
      var n := Find(s.purchases, KeyOf(u, tx));
      if n < |s.purchases| {
        RecordedTransactionKeepsInv(cat, rec, env, s, u, p, tx, n);
      } else {
        NewTransactionKeepsInv(cat, rec, env, s, u, p, tx);
      }
    }
  }

  // ---- runs ----

  /** Verify and restore by anyone; notifications for whoever the lookup answers. */
  ghost predicate Possible(rec: Records, s: State, e: Event) {
    match e
    case Verify(_, tx) => tx.transactionId in rec && rec[tx.transactionId] == tx
    case Notify(u, tx, _) => tx.transactionId in rec && rec[tx.transactionId] == tx && MayFind(s, ChainOf(tx), u)
    case Economy(_) => true
    case MergeUsers(_, _) => false
  }

  ghost predicate PossibleRun(cat: Catalogue, rec: Records, es: seq<Event>) {
    forall i :: 0 <= i < |es| ==> Possible(rec, Run(cat, EMPTY, es[..i]), es[i])
  }

  lemma RevocationKeepsInv(cat: Catalogue, rec: Records, env: Environment, s: State, u: Uuid, status: SubStatus)
    requires Inv(cat, rec, env, s) && u in s.subs && status != Active
    ensures Inv(cat, rec, env, s.(subs := s.subs[u := s.subs[u].(status := status)]))
  {
    var r := s.(subs := s.subs[u := s.subs[u].(status := status)]);
    forall v: Uuid, c: string | ActiveOn(r.subs, v, c) ensures Owns(r.purchases, v, c) {
      assert ActiveOn(s.subs, v, c);
    }
  }

  lemma AfterKeepsInv(cat: Catalogue, rec: Records, env: Environment, s: State, e: Event)
    requires Inv(cat, rec, env, s) && Possible(rec, s, e)
    ensures Inv(cat, rec, env, After(cat, s, e))
  {
    match e
    case Verify(u, tx) => AppliedKeepsInv(cat, rec, env, s, u, tx);
    case Notify(u, tx, n) =>
      if n == Renewed {
        AppliedKeepsInv(cat, rec, env, s, u, tx);
      } else if u in s.subs {
        RevocationKeepsInv(cat, rec, env, s, u, if n == Lapsed then Expired else Canceled);
      }
    case Economy(op) =>
      var r := After(cat, s, e);
      assert forall v: Uuid, c: string :: ActiveOn(r.subs, v, c) ==> ActiveOn(s.subs, v, c);
  }

  lemma {:induction false} RunKeepsInv(cat: Catalogue, rec: Records, env: Environment, es: seq<Event>)
    requires Fixed(rec, env) && PossibleRun(cat, rec, es)
    ensures Inv(cat, rec, env, Run(cat, EMPTY, es))
  {
    if es != [] {
      var n := |es| - 1;
      forall i | 0 <= i < n ensures Possible(rec, Run(cat, EMPTY, es[..n][..i]), es[..n][i]) {
        assert es[..n][..i] == es[..i];
      }
      RunKeepsInv(cat, rec, env, es[..n]);
      AfterKeepsInv(cat, rec, env, Run(cat, EMPTY, es[..n]), es[n]);
    }
  }

  /**
   Over any run: the subscription rows of a chain have one owner, a user who is active on the chain
   is that owner, and so two users are never active on the same chain.
   */
  lemma OneActiveOwnerPerChain(cat: Catalogue, rec: Records, env: Environment, es: seq<Event>,
                               u: Uuid, v: Uuid, chain: string)
    requires Fixed(rec, env) && PossibleRun(cat, rec, es)
    ensures var s := Run(cat, EMPTY, es);
            && ChainsHaveOneOwner(s.purchases)
            && (ActiveOn(s.subs, u, chain) ==>
                  forall i :: 0 <= i < |s.purchases| && OnChain(s.purchases[i], chain) ==> s.purchases[i].user == u)
            && (ActiveOn(s.subs, u, chain) && ActiveOn(s.subs, v, chain) ==> u == v)
  {
    RunKeepsInv(cat, rec, env, es);
    var s := Run(cat, EMPTY, es);
    assert ActiveOn(s.subs, u, chain) ==> Owns(s.purchases, u, chain);
    assert ActiveOn(s.subs, v, chain) ==> Owns(s.purchases, v, chain);
  }

  /**
   The original id is essential. When another user claims a recorded subscription, the row
   changes owner exactly when the transaction names its original transaction; without it the
   transfer looks for the transaction id in a column that does not hold it.
   */
  lemma ClaimMovesRowIffOriginalKnown(cat: Catalogue, s: State, u: Uuid, tx: Tx, n: nat)
    requires Lookup(cat, tx.productId).Some? && Lookup(cat, tx.productId).value.subscription
    requires EnvironmentOf(tx.environment) != Xcode && tx.transactionId != ""
    requires n == Find(s.purchases, KeyOf(u, tx)) < |s.purchases| && s.purchases[n].user != u
    requires s.purchases[n].originalId == tx.originalId && s.purchases[n].env == EnvironmentOf(tx.environment)
    ensures var (r, answer) := Applied(cat, s, u, tx);
            && answer == Ok(true, true) && ActiveNow(r.subs, u)
            && (r.purchases[n].user == u <==> tx.originalId != None && tx.originalId != Some(""))
  {
  }

  /** The old owner keeps his access exactly when the transaction does not name its original. */
  lemma OldOwnerStaysActiveIff(cat: Catalogue, s: State, u: Uuid, tx: Tx, n: nat)
    requires Lookup(cat, tx.productId).Some? && Lookup(cat, tx.productId).value.subscription
    requires EnvironmentOf(tx.environment) != Xcode && tx.transactionId != ""
    requires n == Find(s.purchases, KeyOf(u, tx)) < |s.purchases| && s.purchases[n].user != u
    requires ActiveNow(s.subs, s.purchases[n].user) && s.subs[s.purchases[n].user].originalId == tx.originalId
    ensures var r := Applied(cat, s, u, tx).0;
            && ActiveNow(r.subs, u)
            && (ActiveNow(r.subs, s.purchases[n].user) <==> tx.originalId == None || tx.originalId == Some(""))
  {
  }

  predicate ActiveNow(subs: map<Uuid, Sub>, u: Uuid) { u in subs && subs[u].status == Active }

  /**
   For any catalogue and any subscription transaction: when one user and then another present it,
   both end up active exactly when it does not name its original.
   */
  lemma TwoActiveIffOriginalUnknown(cat: Catalogue, tx: Tx, u: Uuid, v: Uuid)
    requires u != v && Lookup(cat, tx.productId).Some? && Lookup(cat, tx.productId).value.subscription
    requires EnvironmentOf(tx.environment) != Xcode && tx.transactionId != "" && tx.productId != ""
    ensures var s := Run(cat, EMPTY, [Verify(u, tx), Verify(v, tx)]);
            (ActiveNow(s.subs, u) && ActiveNow(s.subs, v)) <==> tx.originalId == None || tx.originalId == Some("")
  {
    var first := Applied(cat, EMPTY, u, tx).0;
    FirstClaim(cat, tx, u);
    assert KeyOf(u, tx) == KeyOf(v, tx);
    var es := [Verify(u, tx), Verify(v, tx)];
    assert es[..1] == [es[0]] && es[..1][..0] == [];
    assert Run(cat, EMPTY, es[..1]) == first;
    OldOwnerStaysActiveIff(cat, first, v, tx, 0);
  }

  lemma FirstClaim(cat: Catalogue, tx: Tx, u: Uuid)
    requires Lookup(cat, tx.productId).Some? && Lookup(cat, tx.productId).value.subscription
    requires EnvironmentOf(tx.environment) != Xcode
    ensures var s := Applied(cat, EMPTY, u, tx).0;
            && |s.purchases| == 1 && s.purchases[0].user == u && s.purchases[0].dedupKey == KeyOf(u, tx)
            && u in s.subs && s.subs[u].status == Active && s.subs[u].originalId == tx.originalId
  {
    var s := Applied(cat, EMPTY, u, tx).0;
    var r := NewRow(u, Lookup(cat, tx.productId).value, tx);
    assert s.purchases == Reassigned([r], ChainOf(tx), EnvironmentOf(tx.environment), u);
  }
}
