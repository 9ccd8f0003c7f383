/** `purchases` and `subscription_state` updated in place by the billing service. */
module BillingTables {
  import opened Options
  import opened Keys
  import opened CoinTables
  import opened Billing
  import W = Wallets

  class BillingDatabase {
    const coins: CoinDatabase
    var purchases: seq<Row>
    var subs: map<Uuid, Sub>

    function View(): State
      reads this, coins
    {
      State(purchases, subs, coins.View())
    }

    constructor ()
      ensures View() == EMPTY && fresh(coins)
    {
      coins := new CoinDatabase();
      purchases := [];
      subs := map[];
    }

    // ---- PurchasesRepository ----

    /** Position of the row with that key; the table length when there is none. */
    method Position(key: string) returns (n: nat)
      ensures n == Find(purchases, key)
    {
      n := 0;
      while n < |purchases| && purchases[n].dedupKey != key
        invariant 0 <= n <= |purchases|
        invariant forall i :: 0 <= i < n ==> purchases[i].dedupKey != key
      {
        n := n + 1;
      }
    }

    /** Insert that does nothing when the key is taken. */
    method RecordPurchase(r: Row) returns (newly: bool)
      modifies this`purchases
      ensures newly == (Find(old(purchases), r.dedupKey) == |old(purchases)|)
      ensures purchases == if newly then old(purchases) + [r] else old(purchases)
    {
      var n := Position(r.dedupKey);
      if n < |purchases| {
        return false;
      }
      purchases := purchases + [r];
      return true;
    }

    method ReassignOriginalTransaction(chain: string, env: Environment, to: Uuid)
      modifies this`purchases
      ensures purchases == Reassigned(old(purchases), chain, env, to)
    {
      var i := 0;
      while i < |purchases|
        invariant 0 <= i <= |purchases| == |old(purchases)|
        invariant forall k :: 0 <= k < i ==> purchases[k] == Reassigned(old(purchases), chain, env, to)[k]
        invariant forall k :: i <= k < |purchases| ==> purchases[k] == old(purchases)[k]
      {
        if purchases[i].originalId == Some(chain) && purchases[i].env == env && purchases[i].user != to {
          purchases := purchases[i := purchases[i].(user := to)];
        }
        i := i + 1;
      }
    }

    /** First by the purchase rows, then by the subscription rows. */
    method FindUserByOriginalTransaction(chain: string) returns (u: Option<Uuid>)
      ensures u.Some? ==> MayFind(View(), chain, u.value)
      ensures u == None ==> forall v: Uuid :: !MayFind(View(), chain, v)
    {
      var i := 0;
      while i < |purchases|
        invariant 0 <= i <= |purchases|
        invariant forall k :: 0 <= k < i ==> purchases[k].originalId != Some(chain)
      {
        if purchases[i].originalId == Some(chain) {
          return Some(purchases[i].user);
        }
        i := i + 1;
      }
      var left := subs.Keys;
      while left != {}
        invariant left <= subs.Keys
        invariant forall v :: v in subs.Keys && v !in left ==> subs[v].originalId != Some(chain)
        decreases |left|
      {
        var v :| v in left;
        if subs[v].originalId == Some(chain) {
          return Some(v);
        }
        left := left - {v};
      }
      u := None;
    }

    // ---- CreditsRepository, subscriptions ----

    method ExpireForeignSubscriptions(chain: string, keep: Uuid)
      modifies this`subs
      ensures subs == ForeignExpired(old(subs), chain, keep)
    {
      var left := subs.Keys;
      while left != {}
        invariant left <= subs.Keys == old(subs).Keys
        invariant forall v :: v in left ==> subs[v] == old(subs)[v]
        invariant forall v :: v in subs && v !in left ==> subs[v] == ForeignExpired(old(subs), chain, keep)[v]
        decreases |left|
      {
        var v :| v in left;
        if v != keep && subs[v].originalId == Some(chain) && subs[v].status == Active {
          subs := subs[v := subs[v].(status := Expired)];
        }
        left := left - {v};
      }
    }

    method UpsertSubscription(u: Uuid, p: Product, tx: Tx)
      modifies this`subs
      ensures subs == old(subs)[u := Sub(Active, p.id, tx.originalId)]
    {
      subs := subs[u := Sub(Active, p.id, tx.originalId)];
    }

    // ---- BillingService ----

    method TransferSubscriptionChain(u: Uuid, tx: Tx)
      modifies this`purchases, this`subs
      ensures View() == Transferred(old(View()), u, tx)
    {
      var chain := tx.transactionId;
      if tx.originalId.Some? && tx.originalId.value != "" {
        chain := tx.originalId.value;
      }
      ReassignOriginalTransaction(chain, EnvironmentOf(tx.environment), u);
      ExpireForeignSubscriptions(chain, u);
    }

    method ApplyTransaction(cat: Catalogue, u: Uuid, tx: Tx) returns (r: Answer)
      modifies this, coins
      ensures (View(), r) == Applied(cat, old(View()), u, tx)
    {
      var env := EnvironmentOf(tx.environment);
      var key := KeyOf(u, tx);
      var product := Lookup(cat, tx.productId);
      if product == None {
        return Ignored;
      }
      var p := product.value;
      var newly := RecordPurchase(NewRow(u, p, tx));
      if !newly {
        var n := Position(key);
        if purchases[n].user != u {
          if p.subscription && env != Xcode {
            TransferSubscriptionChain(u, tx);
            UpsertSubscription(u, p, tx);
            return Ok(true, true);
          }
          return Rejected;
        }
        if p.subscription {
          UpsertSubscription(u, p, tx);
        }
        return Ok(true, false);
      }
      if p.subscription {
        if env != Xcode {
          TransferSubscriptionChain(u, tx);
        }
        UpsertSubscription(u, p, tx);
      }
      var _ := coins.GrantCoins(GrantOp(u, p, tx));
      r := Ok(false, false);
    }

    method HandleRevocation(u: Uuid, lapsed: bool)
      modifies this`subs
      ensures View() == Ended(old(View()), u, if lapsed then Expired else Canceled)
    {
      if u in subs {
        var status := Canceled;
        if lapsed {
          status := Expired;
        }
        subs := subs[u := subs[u].(status := status)];
      }
    }

    /** A notification applies to whoever the lookup answers, and to nobody when it is silent. */
    method ApplyNotification(cat: Catalogue, tx: Tx, n: Notice) returns (u: Option<Uuid>)
      modifies this, coins
      ensures u.Some? ==> MayFind(old(View()), ChainOf(tx), u.value)
      ensures View() == if u.Some? then Notified(cat, old(View()), u.value, tx, n).0 else old(View())
    {
      u := FindUserByOriginalTransaction(ChainOf(tx));
      if u.Some? {
        if n == Renewed {
          var _ := ApplyTransaction(cat, u.value, tx);
        } else {
          HandleRevocation(u.value, n == Lapsed);
        }
      }
    }
  }
}
