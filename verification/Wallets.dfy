/**
 The coin economy: one two-field wallet per user and an append-only ledger whose unique
 idempotency keys decide whether an operation takes effect.

 `Apply` specifies every writer of the two tables as one atomic transaction; the class
 `CoinDatabase` performs them in place, statement by statement, rolling back on a refusal.
 */
module Wallets {
  import opened Options
  import opened Keys

  datatype Kind =
    | CreditSubscriptionGrant | CreditPurchase | CreditPromo | CreditRelease | CreditRefund
    | CreditAdjustment | DebitReserve | DebitCapture | DebitAdjustment

  datatype Entry = Entry(user: Uuid, kind: Kind, amount: int,
                         refType: Option<string>, refId: Option<string>, key: Option<LedgerKey>)

  datatype Wallet = Wallet(available: int, reserved: int)

  datatype Store = Store(wallets: map<Uuid, Wallet>, ledger: seq<Entry>)

  const EMPTY_STORE := Store(map[], [])

  datatype Outcome =
    | Done(units: int)                                  // what the service returns
    | InsufficientCredits(required: int, available: int) // HTTP 402, nothing committed
    | Rejected                                           // HTTP 400 or a CHECK violation, nothing committed

  // ---- reading the two tables ----

  function WalletOf(s: Store, u: Uuid): Wallet {
    if u in s.wallets then s.wallets[u] else Wallet(0, 0)
  }

  function Available(s: Store, u: Uuid): int { WalletOf(s, u).available }

  function Reserved(s: Store, u: Uuid): int { WalletOf(s, u).reserved }

  predicate KeyTaken(ledger: seq<Entry>, k: LedgerKey) {
    exists i :: 0 <= i < |ledger| && ledger[i].key == Some(k)
  }

  // ---- statements ----

  function Ensured(s: Store, u: Uuid): Store {
    s.(wallets := s.wallets[u := WalletOf(s, u)])
  }

  function Set(s: Store, u: Uuid, w: Wallet): Store {
    s.(wallets := s.wallets[u := w])
  }

  function Appended(s: Store, e: Entry): Store { s.(ledger := s.ledger + [e]) }

  function Max0(n: int): int { if n < 0 then 0 else n }

  // ---- transactions ----

  datatype Op =
    | Reserve(user: Uuid, price: int)
    | Charge(user: Uuid, price: int, assist: bool, operation: string)
    | Refund(user: Uuid, units: int, assist: bool, operation: string)
    | Capture(user: Uuid, job: Uuid, units: int)
    | Release(user: Uuid, job: Uuid, units: int)
    | StoreKitGrant(user: Uuid, subscription: bool, coins: int, transaction: string, dedupKey: string)
    | AdaptyGrant(user: Uuid, coins: int, transaction: string)
    | CrmAdjust(user: Uuid, amount: int)
    | CrmGrant(user: Uuid, coins: int, grant: string)
    | AdminCredits(user: Uuid, coins: int)
    | AdminSubscription(user: Uuid, coins: int)
    | Merge(from: Uuid, to: Uuid)

  function LyricsRef(assist: bool): string { if assist then "lyrics_assist" else "lyrics" }

  /** The ledger row an operation writes when it takes effect. */
  function EntryOf(op: Op): Entry
    requires !op.Merge?
  {
    match op
    case Reserve(u, price) => Entry(u, DebitReserve, -price, None, None, None)
    case Charge(u, price, assist, id) =>
      Entry(u, DebitCapture, -price, Some(LyricsRef(assist)), Some(id), Some(ChargeKey(assist, id)))
    case Refund(u, units, assist, id) =>
      Entry(u, CreditRefund, units, Some(LyricsRef(assist)), Some(id), Some(RefundKey(assist, id)))
    case Capture(u, job, units) =>
      Entry(u, DebitCapture, -units, Some("job"), Some(job), Some(CaptureKey(job)))
    case Release(u, job, units) =>
      Entry(u, CreditRelease, units, Some("job"), Some(job), Some(ReleaseKey(job)))
    case StoreKitGrant(u, subscription, coins, tx, k) =>
      Entry(u, if subscription then CreditSubscriptionGrant else CreditPurchase, coins,
            Some("transaction"), Some(tx), Some(PurchaseKey(k)))
    case AdaptyGrant(u, coins, tx) =>
      Entry(u, CreditSubscriptionGrant, coins, Some("adapty_transaction"), Some(tx), Some(AdaptyKey(tx)))
    case CrmAdjust(u, amount) =>
      // The debit side stores the absolute value: the one positive debit of the ledger.
      if amount > 0 then Entry(u, CreditAdjustment, amount, Some("crm_admin"), None, None)
      else Entry(u, DebitAdjustment, -amount, Some("crm_admin"), None, None)
    case CrmGrant(u, coins, grant) =>
      Entry(u, CreditSubscriptionGrant, coins, Some("crm_admin"), Some(grant), Some(CrmKey(grant)))
    case AdminCredits(u, coins) => Entry(u, CreditPromo, coins, Some("admin"), None, None)
    case AdminSubscription(u, coins) => Entry(u, CreditSubscriptionGrant, coins, Some("admin"), None, None)
  }

  /** The key already carries an entry, so the statement inserts nothing. */
  predicate Duplicate(s: Store, op: Op) {
    !op.Merge? && EntryOf(op).key.Some? && KeyTaken(s.ledger, EntryOf(op).key.value)
  }

  /** Ledger row plus the wallet that goes with it. */
  function Booked(s: Store, op: Op, w: Wallet): Store
    requires !op.Merge?
  {
    Appended(Set(s, op.user, w), EntryOf(op))
  }

  function Apply(s: Store, op: Op): (Store, Outcome) {
    match op
    case Reserve(u, price) =>
      var w := WalletOf(s, u);
      if price <= 0 then (s, Done(0))
      else if w.available < price then (s, InsufficientCredits(price, w.available))
      else (Booked(s, op, Wallet(w.available - price, w.reserved + price)), Done(price))
    case Charge(u, price, _, _) =>
      var w := WalletOf(s, u);
      if price <= 0 then (s, Done(0))
      else if Duplicate(s, op) then (Ensured(s, u), Done(price))
      else if w.available < price then (s, InsufficientCredits(price, w.available))
      else (Booked(s, op, w.(available := w.available - price)), Done(price))
    case Refund(u, units, _, _) =>
      if units <= 0 || Duplicate(s, op) then (s, Done(0))
      else (Credited(s, op, Wallet(Available(s, u) + units, Reserved(s, u))), Done(units))
    case Capture(u, _, units) =>
      if units <= 0 then (s, Done(0))
      else if Duplicate(s, op) then (s, Done(units))
      else (Credited(s, op, Wallet(Available(s, u), Max0(Reserved(s, u) - units))), Done(units))
    case Release(u, _, units) =>
      if units <= 0 || Duplicate(s, op) then (s, Done(0))
      else (Credited(s, op, Wallet(Available(s, u) + units, Max0(Reserved(s, u) - units))), Done(units))
    case StoreKitGrant(u, _, coins, _, _) => Granted(s, op, coins)
    case AdaptyGrant(u, coins, _) => Granted(s, op, coins)
    case CrmAdjust(u, amount) =>
      var w := WalletOf(s, u);
      if amount == 0 || w.available + amount < 0 then (s, Rejected)
      else (Booked(s, op, w.(available := w.available + amount)), Done(w.available + amount))
    case CrmGrant(u, coins, _) =>
      if Duplicate(s, op) then (s, Done(0))
      else if coins > 0 then (Booked(s, op, Wallet(Available(s, u) + coins, Reserved(s, u))), Done(coins))
      else (Appended(s, EntryOf(op)), Done(coins))
    case AdminCredits(u, coins) =>
      var w := WalletOf(s, u);
      if w.available + coins < 0 then (s, Rejected)
      else (Booked(s, op, w.(available := w.available + coins)), Done(w.available + coins))
    case AdminSubscription(u, coins) =>
      if coins <= 0 then (s, Done(0))
      else (Booked(s, op, Wallet(Available(s, u) + coins, Reserved(s, u))), Done(coins))
    case Merge(frm, to) => (Merged(s, frm, to), Done(0))
  }

  /** `get_wallet_for_update`: without a wallet row only the ledger row is written. */
  function Credited(s: Store, op: Op, w: Wallet): Store
    requires !op.Merge?
  {
    if op.user in s.wallets then Booked(s, op, w) else Appended(s, EntryOf(op))
  }

  function Granted(s: Store, op: Op, coins: int): (Store, Outcome)
    requires op.StoreKitGrant? || op.AdaptyGrant?
  {
    if coins <= 0 || Duplicate(s, op) then (s, Done(0))
    else (Booked(s, op, Wallet(Available(s, op.user) + coins, Reserved(s, op.user))), Done(coins))
  }

  // ---- guest merge ----

  function Reowned(l: seq<Entry>, frm: Uuid, to: Uuid): (r: seq<Entry>)
    ensures |r| == |l|
    ensures forall i :: 0 <= i < |l| ==> r[i] == if l[i].user == frm then l[i].(user := to) else l[i]
  {
    if l == [] then []
    else
      var e := l[|l| - 1];
      Reowned(l[..|l| - 1], frm, to) + [if e.user == frm then e.(user := to) else e]
  }

  /** Upsert the target's wallet with the sum, then delete the guest's row. */
  function MergedWallets(w: map<Uuid, Wallet>, frm: Uuid, to: Uuid): map<Uuid, Wallet> {
    if frm !in w then w
    else
      var target := if to in w then w[to] else Wallet(0, 0);
      w[to := Wallet(target.available + w[frm].available, target.reserved + w[frm].reserved)] - {frm}
  }

  function Merged(s: Store, frm: Uuid, to: Uuid): Store {
    Store(MergedWallets(s.wallets, frm, to), Reowned(s.ledger, frm, to))
  }

  // ---- replay ----

  /** What one ledger row did to `coins_available`. A job's capture only clears the reserve. */
  function Effect(e: Entry): int {
    match e.kind
    case DebitCapture => if e.refType == Some("job") then 0 else e.amount
    case DebitAdjustment => -e.amount
    case _ => e.amount
  }

  /** Fold of a user's ledger, by kind. */
  function Replay(l: seq<Entry>, u: Uuid): int {
    if l == [] then 0
    else
      var e := l[|l| - 1];
      Replay(l[..|l| - 1], u) + if e.user == u then Effect(e) else 0
  }

  /** The ledger explains every balance, and no balance is negative. */
  ghost predicate Replays(s: Store) {
    forall u: Uuid :: ReplaysFor(s, u)
  }

  ghost predicate UniqueKeys(l: seq<Entry>) {
    forall i, j :: 0 <= i < j < |l| && l[i].key.Some? ==> l[i].key != l[j].key
  }

  lemma ReplayAppend(l: seq<Entry>, e: Entry, u: Uuid)
    ensures Replay(l + [e], u) == Replay(l, u) + if e.user == u then Effect(e) else 0
  {
    assert (l + [e])[..|l|] == l;
  }

  lemma {:induction false} ReplayOfReowned(l: seq<Entry>, frm: Uuid, to: Uuid, u: Uuid)
    requires frm != to
    ensures Replay(Reowned(l, frm, to), u) ==
            if u == to then Replay(l, frm) + Replay(l, to) else if u == frm then 0 else Replay(l, u)
  {
    if l != [] {
      ReplayOfReowned(l[..|l| - 1], frm, to, u);
      var r := Reowned(l, frm, to);
      assert r[..|l| - 1] == Reowned(l[..|l| - 1], frm, to);
    }
  }

  /**
   Checkable before the call: the guard under which an operation keeps the ledger an exact
   account. A refund or release writes its row even when the wallet row is missing; a CRM
   grant books a negative catalogue amount without debiting it; merging a user into himself
   deletes his wallet.
   */
  predicate Accountable(s: Store, op: Op) {
    match op
    case Refund(u, units, _, _) => units <= 0 || Duplicate(s, op) || u in s.wallets
    case Release(u, _, units) => units <= 0 || Duplicate(s, op) || u in s.wallets
    case CrmGrant(_, coins, _) => Duplicate(s, op) || coins >= 0
    case Merge(frm, to) => frm != to || Available(s, frm) == 0
    case _ => true
  }

  predicate ReplaysFor(s: Store, u: Uuid) { Available(s, u) == Replay(s.ledger, u) && Available(s, u) >= 0 }

  lemma MergeKeepsReplayFor(s: Store, frm: Uuid, to: Uuid, u: Uuid)
    requires frm != to && ReplaysFor(s, u) && ReplaysFor(s, frm) && ReplaysFor(s, to)
    ensures ReplaysFor(Merged(s, frm, to), u)
  {
    ReplayOfReowned(s.ledger, frm, to, u);
  }

  lemma MergeKeepsReplay(s: Store, frm: Uuid, to: Uuid)
    requires Replays(s) && frm != to
    ensures Replays(Merged(s, frm, to))
  {
    forall u: Uuid ensures ReplaysFor(Merged(s, frm, to), u) {
      assert ReplaysFor(s, u) && ReplaysFor(s, frm) && ReplaysFor(s, to);
      MergeKeepsReplayFor(s, frm, to, u);
    }
  }

  lemma SelfMergeDeletesWallet(s: Store, u: Uuid)
    requires Replays(s)
    ensures Replays(Merged(s, u, u)) <==> Available(s, u) == 0
  {
    var t := Merged(s, u, u);
    assert t.ledger == s.ledger;
    assert Available(t, u) == 0;
    assert ReplaysFor(s, u);
    assert ReplaysFor(t, u) <==> Available(s, u) == 0;
    if Available(s, u) == 0 {
      forall v: Uuid ensures ReplaysFor(t, v) {
        assert ReplaysFor(s, v);
      }
    }
  }

  lemma UnbookedCreditBreaksReplay(s: Store, t: Store, e: Entry)
    requires Replays(s)
    requires t.ledger == s.ledger + [e] && t.wallets == s.wallets && Effect(e) != 0
    ensures !Replays(t)
  {
    ReplayAppend(s.ledger, e, e.user);
    assert ReplaysFor(s, e.user);
    assert Available(t, e.user) == Available(s, e.user);
    assert !ReplaysFor(t, e.user);
  }

  /** An accountable operation writes nothing, or its one row and that row's effect. */
  lemma AppliesOrBooks(s: Store, op: Op, u: Uuid)
    requires Accountable(s, op) && !op.Merge?
    ensures var t := Apply(s, op).0;
            if t.ledger == s.ledger then Available(t, u) == Available(s, u)
            else
              && t.ledger == s.ledger + [EntryOf(op)]
              && Available(t, u) == Available(s, u) + (if u == op.user then Effect(EntryOf(op)) else 0)
  {
  }

  lemma NeverOverdrawn(s: Store, op: Op)
    requires Accountable(s, op) && !op.Merge? && Available(s, op.user) >= 0
    ensures Available(Apply(s, op).0, op.user) >= 0
  {
  }

  lemma AccountableKeepsReplay(s: Store, op: Op)
    requires Replays(s) && Accountable(s, op) && !op.Merge?
    ensures Replays(Apply(s, op).0)
  {
    forall u: Uuid ensures ReplaysFor(Apply(s, op).0, u) {
      assert ReplaysFor(s, u) && ReplaysFor(s, op.user);
      AccountableKeepsReplayFor(s, op, u);
    }
  }

  lemma AccountableKeepsReplayFor(s: Store, op: Op, u: Uuid)
    requires Accountable(s, op) && !op.Merge? && ReplaysFor(s, u) && ReplaysFor(s, op.user)
    ensures ReplaysFor(Apply(s, op).0, u)
  {
    NeverOverdrawn(s, op);
    AppliesOrBooks(s, op, u);
    if Apply(s, op).0.ledger != s.ledger { ReplayAppend(s.ledger, EntryOf(op), u); }
  }

  /** Every transaction keeps the ledger an exact account of the balances exactly when it is accountable. */
  lemma ApplyKeepsReplayIff(s: Store, op: Op)
    requires Replays(s)
    ensures Replays(Apply(s, op).0) <==> Accountable(s, op)
  {
    if op.Merge? {
      if op.from == op.to { SelfMergeDeletesWallet(s, op.from); } else { MergeKeepsReplay(s, op.from, op.to); }
    } else if Accountable(s, op) {
      AccountableKeepsReplay(s, op);
    } else {
      UnbookedCreditBreaksReplay(s, Apply(s, op).0, EntryOf(op));
    }
  }

  // ---- whole runs ----

  function Run(s: Store, ops: seq<Op>): Store {
    if ops == [] then s else Apply(Run(s, ops[..|ops| - 1]), ops[|ops| - 1]).0
  }

  ghost predicate AccountableRun(s: Store, ops: seq<Op>) {
    forall i :: 0 <= i < |ops| ==> Accountable(Run(s, ops[..i]), ops[i])
  }

  /**
   After any run of writers, in any order and however often jobs are captured or released,
   each balance is the by-kind fold of that user's ledger and is not negative.
   */
  lemma {:induction false} LedgerReplaysAfterAnyRun(ops: seq<Op>)
    requires AccountableRun(EMPTY_STORE, ops)
    ensures Replays(Run(EMPTY_STORE, ops))
  {
    if ops != [] {
      var n := |ops| - 1;
      forall i | 0 <= i < n ensures Accountable(Run(EMPTY_STORE, ops[..n][..i]), ops[..n][i]) {
        assert ops[..n][..i] == ops[..i];
      }
      LedgerReplaysAfterAnyRun(ops[..n]);
      ApplyKeepsReplayIff(Run(EMPTY_STORE, ops[..n]), ops[n]);
    }
  }

  // ---- idempotency keys ----

  lemma TakenAppend(l: seq<Entry>, e: Entry, k: LedgerKey)
    ensures KeyTaken(l + [e], k) <==> KeyTaken(l, k) || e.key == Some(k)
  {
    assert (l + [e])[|l|] == e;
    assert forall i :: 0 <= i < |l| ==> (l + [e])[i] == l[i];
  }

  lemma ApplyKeepsUniqueKeys(s: Store, op: Op)
    requires UniqueKeys(s.ledger)
    ensures UniqueKeys(Apply(s, op).0.ledger)
  {
  }

  /** Once written, a key is never lost, also not when its row changes owner. */
  lemma ApplyKeepsKeys(s: Store, op: Op, k: LedgerKey)
    requires KeyTaken(s.ledger, k)
    ensures KeyTaken(Apply(s, op).0.ledger, k)
  {
    var i :| 0 <= i < |s.ledger| && s.ledger[i].key == Some(k);
    assert Apply(s, op).0.ledger[i].key == Some(k);
  }

  /** Only the operation that owns a key can write it, and only while it is free. */
  lemma KeyWrittenByItsOperation(s: Store, op: Op, k: LedgerKey)
    requires !KeyTaken(s.ledger, k) && KeyTaken(Apply(s, op).0.ledger, k)
    ensures !op.Merge? && EntryOf(op).key == Some(k)
    ensures Apply(s, op).0.ledger == s.ledger + [EntryOf(op)]
  {
    var t := Apply(s, op).0;
    var i :| 0 <= i < |t.ledger| && t.ledger[i].key == Some(k);
    if i < |s.ledger| {
      assert t.ledger[i].key == s.ledger[i].key;
    }
  }

  predicate Keyed(op: Op) { !op.Merge? && EntryOf(op).key.Some? }

  /** A repeated keyed operation moves no coins and writes no row, in any later state. */
  lemma RepeatMovesNothing(s: Store, op: Op)
    requires Duplicate(s, op)
    ensures Apply(s, op).0.ledger == s.ledger
    ensures forall u: Uuid :: WalletOf(Apply(s, op).0, u) == WalletOf(s, u)
    ensures !op.Charge? ==> Apply(s, op).0 == s
  {
  }

  lemma {:induction false} RepeatAfterAnyRun(s: Store, op: Op, between: seq<Op>)
    requires Keyed(op)
    requires KeyTaken(Apply(s, op).0.ledger, EntryOf(op).key.value)
    ensures Duplicate(Run(Apply(s, op).0, between), op)
  {
    if between != [] {
      var n := |between| - 1;
      RepeatAfterAnyRun(s, op, between[..n]);
      ApplyKeepsKeys(Run(Apply(s, op).0, between[..n]), between[n], EntryOf(op).key.value);
    }
  }

  /** A refused operation leaves no trace: no coins move and no key is burnt. */
  lemma RefusalLeavesNoTrace(s: Store, op: Op)
    requires !Apply(s, op).1.Done?
    ensures Apply(s, op).0 == s
    ensures Apply(s, op).1.InsufficientCredits? <==>
            (op.Reserve? || op.Charge?) && op.price > Available(s, op.user) && op.price > 0
            && !Duplicate(s, op)
  {
  }

  // ---- merge ----

  /** A merge changes owners, not keys. */
  lemma ReownedKeepsKey(l: seq<Entry>, frm: Uuid, to: Uuid, k: LedgerKey)
    ensures KeyTaken(Reowned(l, frm, to), k) == KeyTaken(l, k)
  {
    assert forall i :: 0 <= i < |l| ==> Reowned(l, frm, to)[i].key == l[i].key;
  }

  /** Merging two different users loses and creates no coin and leaves the guest empty. */
  lemma MergeConservesCoins(s: Store, frm: Uuid, to: Uuid, u: Uuid)
    requires frm != to
    ensures var t := Merged(s, frm, to);
            && WalletOf(t, frm) == Wallet(0, 0) && frm !in t.wallets
            && Available(t, to) == Available(s, frm) + Available(s, to)
            && Reserved(t, to) == Reserved(s, frm) + Reserved(s, to)
            && (u != frm && u != to ==> WalletOf(t, u) == WalletOf(s, u))
            && (forall e :: e in t.ledger ==> e.user != frm)
  {
  }

  lemma SecondMergeChangesNothing(s: Store, frm: Uuid, to: Uuid)
    requires frm != to
    ensures Merged(Merged(s, frm, to), frm, to) == Merged(s, frm, to)
  {
    var t := Merged(s, frm, to);
    assert Reowned(t.ledger, frm, to) == t.ledger;
  }

  /** The distinctness guard of the caller is essential: without it the whole balance is deleted. */
  lemma SelfMergeLosesCoins(u: Uuid)
    ensures var s := Apply(EMPTY_STORE, AdminCredits(u, 100)).0;
            Replays(s) && Available(s, u) == 100 && Available(Merged(s, u, u), u) == 0
  {
    var s := Apply(EMPTY_STORE, AdminCredits(u, 100)).0;
    assert Replays(EMPTY_STORE);
    ApplyKeepsReplayIff(EMPTY_STORE, AdminCredits(u, 100));
  }
}
