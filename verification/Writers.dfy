/**
 What each writer of the coin tables does, read off the two tables: under which plain condition it
 takes effect, the one row it leaves, what it moves in its user's wallet, and what it answers.
 */
module Writers {
  import opened Options
  import opened Keys
  import opened Wallets

  /** `row` is appended, its user's balances move by the two amounts, nobody else's do. */
  ghost predicate Writes(s: Store, t: Store, available: int, reserved: int, row: Entry) {
    && t.ledger == s.ledger + [row]
    && forall v: Uuid ::
         WalletOf(t, v) ==
         if v == row.user then Wallet(Available(s, v) + available, Reserved(s, v) + reserved) else WalletOf(s, v)
  }

  lemma ReserveWrites(s: Store, u: Uuid, price: int)
    ensures var (t, r) := Apply(s, Reserve(u, price));
            if price <= 0 then t == s && r == Done(0)
            else if price > Available(s, u) then t == s && r == InsufficientCredits(price, Available(s, u))
            else r == Done(price) && Writes(s, t, -price, price, Entry(u, DebitReserve, -price, None, None, None))
  {
  }

  lemma ChargeWrites(s: Store, u: Uuid, price: int, assist: bool, id: string)
    ensures var (t, r) := Apply(s, Charge(u, price, assist, id));
            var key, endpoint := ChargeKey(assist, id), if assist then "lyrics_assist" else "lyrics";
            if price <= 0 then t == s && r == Done(0)
            else if KeyTaken(s.ledger, key) then
              t.ledger == s.ledger && r == Done(price) && forall v: Uuid :: WalletOf(t, v) == WalletOf(s, v)
            else if price > Available(s, u) then t == s && r == InsufficientCredits(price, Available(s, u))
            else
              && r == Done(price)
              && Writes(s, t, -price, 0, Entry(u, DebitCapture, -price, Some(endpoint), Some(id), Some(key)))
  {
  }

  /** Without a wallet row the ledger row is written and nothing is credited. */
  lemma RefundWrites(s: Store, u: Uuid, units: int, assist: bool, id: string)
    ensures var (t, r) := Apply(s, Refund(u, units, assist, id));
            var key, endpoint := RefundKey(assist, id), if assist then "lyrics_assist" else "lyrics";
            var row := Entry(u, CreditRefund, units, Some(endpoint), Some(id), Some(key));
            if units <= 0 || KeyTaken(s.ledger, key) then t == s && r == Done(0)
            else r == Done(units) && Writes(s, t, if u in s.wallets then units else 0, 0, row)
  {
  }

  lemma CaptureWrites(s: Store, u: Uuid, job: Uuid, units: int)
    ensures var (t, r) := Apply(s, Capture(u, job, units));
            var row := Entry(u, DebitCapture, -units, Some("job"), Some(job), Some(CaptureKey(job)));
            if units <= 0 then t == s && r == Done(0)
            else if KeyTaken(s.ledger, CaptureKey(job)) then t == s && r == Done(units)
            else
              && r == Done(units)
              && (if u !in s.wallets then Writes(s, t, 0, 0, row)
                  else if Reserved(s, u) >= units then Writes(s, t, 0, -units, row)
                  else Writes(s, t, 0, -Reserved(s, u), row))
  {
  }

  lemma ReleaseWrites(s: Store, u: Uuid, job: Uuid, units: int)
    ensures var (t, r) := Apply(s, Release(u, job, units));
            var row := Entry(u, CreditRelease, units, Some("job"), Some(job), Some(ReleaseKey(job)));
            if units <= 0 || KeyTaken(s.ledger, ReleaseKey(job)) then t == s && r == Done(0)
            else
              && r == Done(units)
              && (if u !in s.wallets then Writes(s, t, 0, 0, row)
                  else if Reserved(s, u) >= units then Writes(s, t, units, -units, row)
                  else Writes(s, t, units, -Reserved(s, u), row))
  {
  }

  lemma StoreKitGrantWrites(s: Store, u: Uuid, subscription: bool, coins: int, tx: string, k: string)
    ensures var (t, r) := Apply(s, StoreKitGrant(u, subscription, coins, tx, k));
            var kind := if subscription then CreditSubscriptionGrant else CreditPurchase;
            if coins <= 0 || KeyTaken(s.ledger, PurchaseKey(k)) then t == s && r == Done(0)
            else
              && r == Done(coins)
              && Writes(s, t, coins, 0, Entry(u, kind, coins, Some("transaction"), Some(tx), Some(PurchaseKey(k))))
  {
  }

  lemma AdaptyGrantWrites(s: Store, u: Uuid, coins: int, tx: string)
    ensures var (t, r) := Apply(s, AdaptyGrant(u, coins, tx));
            var key := AdaptyKey(tx);
            var row := Entry(u, CreditSubscriptionGrant, coins, Some("adapty_transaction"), Some(tx), Some(key));
            if coins <= 0 || KeyTaken(s.ledger, key) then t == s && r == Done(0)
            else r == Done(coins) && Writes(s, t, coins, 0, row)
  {
  }

  /** The one debit whose row carries a positive amount. */
  lemma CrmAdjustWrites(s: Store, u: Uuid, amount: int)
    ensures var (t, r) := Apply(s, CrmAdjust(u, amount));
            if amount == 0 || Available(s, u) + amount < 0 then t == s && r == Rejected
            else
              && r == Done(Available(s, u) + amount)
              && Writes(s, t, amount, 0,
                        if amount > 0 then Entry(u, CreditAdjustment, amount, Some("crm_admin"), None, None)
                        else Entry(u, DebitAdjustment, -amount, Some("crm_admin"), None, None))
  {
  }

  lemma CrmGrantWrites(s: Store, u: Uuid, coins: int, grant: string)
    ensures var (t, r) := Apply(s, CrmGrant(u, coins, grant));
            var row := Entry(u, CreditSubscriptionGrant, coins, Some("crm_admin"), Some(grant), Some(CrmKey(grant)));
            if KeyTaken(s.ledger, CrmKey(grant)) then t == s && r == Done(0)
            else r == Done(coins) && Writes(s, t, if coins > 0 then coins else 0, 0, row)
  {
  }

  lemma AdminCreditsWrites(s: Store, u: Uuid, coins: int)
    ensures var (t, r) := Apply(s, AdminCredits(u, coins));
            if Available(s, u) + coins < 0 then t == s && r == Rejected
            else
              && r == Done(Available(s, u) + coins)
              && Writes(s, t, coins, 0, Entry(u, CreditPromo, coins, Some("admin"), None, None))
  {
  }

  lemma AdminSubscriptionWrites(s: Store, u: Uuid, coins: int)
    ensures var (t, r) := Apply(s, AdminSubscription(u, coins));
            if coins <= 0 then t == s && r == Done(0)
            else
              && r == Done(coins)
              && Writes(s, t, coins, 0, Entry(u, CreditSubscriptionGrant, coins, Some("admin"), None, None))
  {
  }
}
