/**
 `coin_wallets` and `credit_ledger` updated in place. Each public method is one
 `session.begin()` block: it runs statement by statement and restores the tables when it
 refuses, and its contract is the atomic transaction of `Wallets.Apply`.
 */
module CoinTables {
  import opened Options
  import opened Keys
  import opened Wallets

  class CoinDatabase {
    var wallets: map<Uuid, Wallet>
    var ledger: seq<Entry>

    function View(): Store
      reads this
    {
      Store(wallets, ledger)
    }

    constructor ()
      ensures View() == EMPTY_STORE
    {
      wallets := map[];
      ledger := [];
    }

    // ---- CreditsRepository ----

    method EnsureWallet(u: Uuid) returns (w: Wallet)
      modifies this
      ensures View() == Ensured(old(View()), u)
      ensures w == WalletOf(old(View()), u)
    {
      if u !in wallets {
        wallets := wallets[u := Wallet(0, 0)];
      }
      w := wallets[u];
      assert wallets == Ensured(old(View()), u).wallets;
    }

    /** `INSERT .. ON CONFLICT DO NOTHING RETURNING`: true for a new row. */
    method AppendLedger(e: Entry) returns (newly: bool)
      modifies this`ledger
      ensures newly == !(e.key.Some? && KeyTaken(old(ledger), e.key.value))
      ensures ledger == if newly then old(ledger) + [e] else old(ledger)
    {
      if e.key.Some? && KeyTaken(ledger, e.key.value) {
        return false;
      }
      ledger := ledger + [e];
      return true;
    }

    /** Adds to the wallet row when there is one. */
    method UpdateWallet(u: Uuid, available: int, reserved: int)
      modifies this`wallets
      ensures wallets == if u in old(wallets) then old(wallets)[u := Wallet(available, reserved)] else old(wallets)
    {
      if u in wallets {
        wallets := wallets[u := Wallet(available, reserved)];
      }
    }

    /** Writes an existing row; an earlier write of the same row in this block is superseded. */
    method SetWallet(u: Uuid, w: Wallet)
      modifies this`wallets
      ensures wallets == old(wallets)[u := w]
      ensures forall m, v {:trigger m[u := v]} :: old(wallets) == m[u := v] ==> wallets == m[u := w]
    {
      wallets := wallets[u := w];
      assert forall m: map<Uuid, Wallet>, v {:trigger m[u := v]} :: m[u := v][u := w] == m[u := w];
    }

    method Rollback(to: Store)
      modifies this
      ensures View() == to
    {
      wallets := to.wallets;
      ledger := to.ledger;
    }

    // ---- CoinWalletService ----

    method Reserve(u: Uuid, price: int) returns (r: Outcome)
      modifies this
      ensures (View(), r) == Apply(old(View()), Op.Reserve(u, price))
    {
      if price <= 0 {
        return Done(0);
      }
      var begin := View();
      var w := EnsureWallet(u);
      if w.available < price {
        Rollback(begin);
        return InsufficientCredits(price, w.available);
      }
      SetWallet(u, Wallet(w.available - price, w.reserved + price));
      var _ := AppendLedger(Entry(u, DebitReserve, -price, None, None, None));
      r := Done(price);
    }

    method Charge(u: Uuid, price: int, assist: bool, operation: string) returns (r: Outcome)
      modifies this
      ensures (View(), r) == Apply(old(View()), Op.Charge(u, price, assist, operation))
    {
      if price <= 0 {
        return Done(0);
      }
      var begin := View();
      var w := EnsureWallet(u);
      var newly := AppendLedger(Entry(u, DebitCapture, -price, Some(LyricsRef(assist)), Some(operation),
                                      Some(ChargeKey(assist, operation))));
      if !newly {
        return Done(price);
      }
      if w.available < price {
        Rollback(begin);
        return InsufficientCredits(price, w.available);
      }
      SetWallet(u, w.(available := w.available - price));
      r := Done(price);
    }

    method Refund(u: Uuid, units: int, assist: bool, operation: string) returns (r: Outcome)
      modifies this
      ensures (View(), r) == Apply(old(View()), Op.Refund(u, units, assist, operation))
    {
      if units <= 0 {
        return Done(0);
      }
      var newly := AppendLedger(Entry(u, CreditRefund, units, Some(LyricsRef(assist)), Some(operation),
                                      Some(RefundKey(assist, operation))));
      if !newly {
        return Done(0);
      }
      var w := WalletOf(View(), u);
      UpdateWallet(u, w.available + units, w.reserved);
      r := Done(units);
    }

    method Capture(u: Uuid, job: Uuid, units: int) returns (r: Outcome)
      modifies this
      ensures (View(), r) == Apply(old(View()), Op.Capture(u, job, units))
    {
      if units <= 0 {
        return Done(0);
      }
      var newly := AppendLedger(Entry(u, DebitCapture, -units, Some("job"), Some(job), Some(CaptureKey(job))));
      if !newly {
        return Done(units);
      }
      var w := WalletOf(View(), u);
      UpdateWallet(u, w.available, Max0(w.reserved - units));
      r := Done(units);
    }

    method Release(u: Uuid, job: Uuid, units: int) returns (r: Outcome)
      modifies this
      ensures (View(), r) == Apply(old(View()), Op.Release(u, job, units))
    {
      if units <= 0 {
        return Done(0);
      }
      var newly := AppendLedger(Entry(u, CreditRelease, units, Some("job"), Some(job), Some(ReleaseKey(job))));
      if !newly {
        return Done(0);
      }
      var w := WalletOf(View(), u);
      UpdateWallet(u, w.available + units, Max0(w.reserved - units));
      r := Done(units);
    }

    // ---- grants ----

    /** `_grant_coins` of the StoreKit and the Adapty service: append first, credit only a new row. */
    method GrantCoins(op: Op) returns (r: Outcome)
      requires op.StoreKitGrant? || op.AdaptyGrant?
      modifies this
      ensures (View(), r) == Apply(old(View()), op)
    {
      if op.coins <= 0 {
        return Done(0);
      }
      var newly := AppendLedger(EntryOf(op));
      if !newly {
        return Done(0);
      }
      var w := EnsureWallet(op.user);
      SetWallet(op.user, w.(available := w.available + op.coins));
      r := Done(op.coins);
    }

    method AdjustTokens(u: Uuid, amount: int) returns (r: Outcome)
      modifies this
      ensures (View(), r) == Apply(old(View()), CrmAdjust(u, amount))
    {
      if amount == 0 {
        return Rejected;
      }
      var begin := View();
      var w := EnsureWallet(u);
      var balance := w.available + amount;
      if balance < 0 {
        Rollback(begin);
        return Rejected;
      }
      SetWallet(u, w.(available := balance));
      var kind, magnitude := CreditAdjustment, amount;
      if amount < 0 {
        kind, magnitude := DebitAdjustment, -amount;
      }
      var _ := AppendLedger(Entry(u, kind, magnitude, Some("crm_admin"), None, None));
      r := Done(balance);
    }

    /** Coin part of the CRM subscription grant: wallet first, ledger row last. */
    method GrantCrmSubscription(u: Uuid, coins: int, grant: string) returns (r: Outcome)
      modifies this
      ensures (View(), r) == Apply(old(View()), CrmGrant(u, coins, grant))
    {
      if KeyTaken(ledger, CrmKey(grant)) {
        return Done(0);
      }
      if coins > 0 {
        var w := EnsureWallet(u);
        SetWallet(u, w.(available := w.available + coins));
      }
      var _ := AppendLedger(Entry(u, CreditSubscriptionGrant, coins, Some("crm_admin"), Some(grant),
                                  Some(CrmKey(grant))));
      r := Done(coins);
    }

    method GrantAdminCredits(u: Uuid, coins: int) returns (r: Outcome)
      modifies this
      ensures (View(), r) == Apply(old(View()), AdminCredits(u, coins))
    {
      var begin := View();
      var w := EnsureWallet(u);
      SetWallet(u, w.(available := w.available + coins));
      var _ := AppendLedger(Entry(u, CreditPromo, coins, Some("admin"), None, None));
      if wallets[u].available < 0 {  // ck_coin_wallets_available_nonneg
        Rollback(begin);
        return Rejected;
      }
      r := Done(wallets[u].available);
    }

    method GrantAdminSubscription(u: Uuid, coins: int) returns (r: Outcome)
      modifies this
      ensures (View(), r) == Apply(old(View()), AdminSubscription(u, coins))
    {
      if coins <= 0 {
        return Done(0);
      }
      var w := EnsureWallet(u);
      SetWallet(u, w.(available := w.available + coins));
      var _ := AppendLedger(Entry(u, CreditSubscriptionGrant, coins, Some("admin"), None, None));
      r := Done(coins);
    }

    // ---- merge.py ----

    /** `UPDATE credit_ledger SET user_id = :to WHERE user_id = :frm`, row by row. */
    method ReassignLedger(frm: Uuid, to: Uuid)
      modifies this`ledger
      ensures ledger == Reowned(old(ledger), frm, to)
    {
      var i := 0;
      while i < |ledger|
        invariant 0 <= i <= |ledger| == |old(ledger)|
        invariant forall k :: 0 <= k < i ==>
          ledger[k] == if old(ledger)[k].user == frm then old(ledger)[k].(user := to) else old(ledger)[k]
        invariant forall k :: i <= k < |ledger| ==> ledger[k] == old(ledger)[k]
      {
        if ledger[i].user == frm {
          ledger := ledger[i := ledger[i].(user := to)];
        }
        i := i + 1;
      }
    }

    /** Upsert of the summed row, then deletion of the guest's row. */
    method MergeCoinWallets(frm: Uuid, to: Uuid)
      modifies this`wallets
      ensures wallets == MergedWallets(old(wallets), frm, to)
    {
      if frm in wallets {
        var w := wallets[frm];
        if to in wallets {
          wallets := wallets[to := Wallet(wallets[to].available + w.available, wallets[to].reserved + w.reserved)];
        } else {
          wallets := wallets[to := w];
        }
      }
      wallets := wallets - {frm};
    }

    method ReassignAll(frm: Uuid, to: Uuid)
      modifies this
      ensures View() == Merged(old(View()), frm, to)
    {
      ReassignLedger(frm, to);
      MergeCoinWallets(frm, to);
    }
  }
}
