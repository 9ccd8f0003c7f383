/**
 StoreKit transactions: purchase rows deduplicated by key, subscriptions that follow the Apple
 ID along a chain of transactions, and coins granted once per purchase.
 */
module Billing {
  import opened Options
  import opened Keys
  import opened Sums
  import W = Wallets
  import WR = Writers

  datatype Product = Product(id: string, subscription: bool, coins: int)

  /** The `products` table, keyed by lower-case external id (its unique index). */
  type Catalogue = map<string, Product>

  /** A decoded transaction; `purchaseDateMs` is already coerced to an integer. */
  datatype Tx = Tx(transactionId: string, originalId: Option<string>, productId: string,
                   environment: string, purchaseDateMs: int)

  datatype Row = Row(user: Uuid, product: Product, transactionId: string, originalId: Option<string>,
                     dedupKey: string, env: Environment)

  datatype SubStatus = Active | Canceled | Expired

  datatype Sub = Sub(status: SubStatus, product: string, originalId: Option<string>)

  datatype State = State(purchases: seq<Row>, subs: map<Uuid, Sub>, store: W.Store)

  const EMPTY := State([], map[], W.EMPTY_STORE)

  datatype Answer = Ignored | Rejected | Ok(deduplicated: bool, transferred: bool) | Revoked

  // ---- reading ----

  function LowerChar(c: char): char {
    if 'A' <= c <= 'Z' then (c as int - 'A' as int + 'a' as int) as char else c
  }

  function Lower(s: string): string {
    if s == "" then "" else [LowerChar(s[0])] + Lower(s[1..])
  }

  function Lookup(cat: Catalogue, externalId: string): Option<Product> {
    if Lower(externalId) in cat then Some(cat[Lower(externalId)]) else None
  }

  function KeyOf(u: Uuid, tx: Tx): string {
    DedupKey(EnvironmentOf(tx.environment), u, tx.transactionId, tx.purchaseDateMs)
  }

  /** `original_transaction_id or transaction_id`. */
  function ChainOf(tx: Tx): string {
    if tx.originalId.Some? && tx.originalId.value != "" then tx.originalId.value else tx.transactionId
  }

  /** Position of the row with that key, or the number of rows. */
  function Find(rows: seq<Row>, key: string): (n: nat)
    ensures n <= |rows|
    ensures n < |rows| ==> rows[n].dedupKey == key
    ensures forall i :: 0 <= i < n ==> rows[i].dedupKey != key
  {
    if rows == [] then 0
    else
      var n := Find(rows[..|rows| - 1], key);
      if n < |rows| - 1 then n else if rows[|rows| - 1].dedupKey == key then |rows| - 1 else |rows|
  }

  // ---- statements ----

  predicate InChain(r: Row, chain: string, env: Environment) { r.originalId == Some(chain) && r.env == env }

  function Reassigned(rows: seq<Row>, chain: string, env: Environment, to: Uuid): (r: seq<Row>)
    ensures |r| == |rows|
    ensures forall i :: 0 <= i < |rows| ==>
      r[i] == if InChain(rows[i], chain, env) then rows[i].(user := to) else rows[i]
  {
    seq(|rows|, i requires 0 <= i < |rows| => if InChain(rows[i], chain, env) then rows[i].(user := to) else rows[i])
  }

  function ForeignExpired(subs: map<Uuid, Sub>, chain: string, keep: Uuid): map<Uuid, Sub> {
    map u | u in subs ::
      if u != keep && subs[u].originalId == Some(chain) && subs[u].status == Active
      then subs[u].(status := Expired) else subs[u]
  }

  /** The chain moves to `u`: its rows, and every other user's active subscription on it ends. */
  function Transferred(s: State, u: Uuid, tx: Tx): State {
    s.(purchases := Reassigned(s.purchases, ChainOf(tx), EnvironmentOf(tx.environment), u),
       subs := ForeignExpired(s.subs, ChainOf(tx), u))
  }

  function Activated(s: State, u: Uuid, p: Product, tx: Tx): State {
    s.(subs := s.subs[u := Sub(Active, p.id, tx.originalId)])
  }

  function NewRow(u: Uuid, p: Product, tx: Tx): Row {
    Row(u, p, tx.transactionId, tx.originalId, KeyOf(u, tx), EnvironmentOf(tx.environment))
  }

  function GrantOp(u: Uuid, p: Product, tx: Tx): W.Op {
    W.StoreKitGrant(u, p.subscription, p.coins, tx.transactionId, KeyOf(u, tx))
  }

  // ---- the transaction ----

  function Applied(cat: Catalogue, s: State, u: Uuid, tx: Tx): (State, Answer) {
    match Lookup(cat, tx.productId)
    case None => (s, Ignored)
    case Some(p) =>
      var movable := p.subscription && EnvironmentOf(tx.environment) != Xcode;
      var n := Find(s.purchases, KeyOf(u, tx));
      if n < |s.purchases| then
        if s.purchases[n].user != u then
          if movable then (Activated(Transferred(s, u, tx), u, p, tx), Ok(true, true)) else (s, Rejected)
        else (if p.subscription then Activated(s, u, p, tx) else s, Ok(true, false))
      else
        var a := s.(purchases := s.purchases + [NewRow(u, p, tx)]);
        var b := if movable then Transferred(a, u, tx) else a;
        var c := if p.subscription then Activated(b, u, p, tx) else b;
        (c.(store := W.Apply(c.store, GrantOp(u, p, tx)).0), Ok(false, false))
  }

  /** `verify_and_apply_transaction`, also what restore does for each receipt. */
  function Verified(cat: Catalogue, s: State, u: Uuid, tx: Tx): (State, Answer) {
    if tx.transactionId == "" || tx.productId == "" then (s, Ignored) else Applied(cat, s, u, tx)
  }

  datatype Notice = Renewed | Refunded | Lapsed

  /** The lookups are `LIMIT 1` without an order: any matching row may answer. */
  ghost predicate MayFind(s: State, chain: string, u: Uuid) {
    if exists i :: 0 <= i < |s.purchases| && s.purchases[i].originalId == Some(chain)
    then exists i :: 0 <= i < |s.purchases| && s.purchases[i].originalId == Some(chain) && s.purchases[i].user == u
    else u in s.subs && s.subs[u].originalId == Some(chain)
  }

  function Notified(cat: Catalogue, s: State, u: Uuid, tx: Tx, n: Notice): (State, Answer) {
    match n
    case Renewed => Applied(cat, s, u, tx)
    case _ => (Ended(s, u, if n == Lapsed then Expired else Canceled), Revoked)
  }

  /** Revocation ends whatever subscription the user has; coins stay. */
  function Ended(s: State, u: Uuid, status: SubStatus): State {
    if u in s.subs then s.(subs := s.subs[u := s.subs[u].(status := status)]) else s
  }

  // ---- exactly one grant per purchase ----

  function RowCoins(): Row -> int { (r: Row) => if r.product.coins > 0 then r.product.coins else 0 }

  function StoreKitAmount(): W.Entry -> int {
    (e: W.Entry) => if e.key.Some? && e.key.value.PurchaseKey? then e.amount else 0
  }

  ghost predicate DistinctKeys(rows: seq<Row>) {
    forall i, j :: 0 <= i < j < |rows| ==> rows[i].dedupKey != rows[j].dedupKey
  }

  ghost predicate Paid(rows: seq<Row>, k: string) {
    exists i :: 0 <= i < |rows| && rows[i].dedupKey == k && rows[i].product.coins > 0
  }

  /** A ledger key exists exactly for the purchases that carry coins, and the totals agree. */
  ghost predicate GrantsMatchPurchases(s: State) {
    && DistinctKeys(s.purchases)
    && (forall k: string :: W.KeyTaken(s.store.ledger, PurchaseKey(k)) <==> Paid(s.purchases, k))
    && Sum(s.store.ledger, StoreKitAmount()) == Sum(s.purchases, RowCoins())
  }

  datatype Event =
    | Verify(user: Uuid, tx: Tx)
    | Notify(user: Uuid, tx: Tx, notice: Notice)
    | Economy(op: W.Op)                    // any other writer of the coin tables
    | MergeUsers(from: Uuid, to: Uuid)

  function MergedState(s: State, frm: Uuid, to: Uuid): State {
    State(seq(|s.purchases|, i requires 0 <= i < |s.purchases| =>
            if s.purchases[i].user == frm then s.purchases[i].(user := to) else s.purchases[i]),
          s.subs, W.Merged(s.store, frm, to))
  }

  function After(cat: Catalogue, s: State, e: Event): State {
    match e
    case Verify(u, tx) => Verified(cat, s, u, tx).0
    case Notify(u, tx, n) => Notified(cat, s, u, tx, n).0
    case Economy(op) => if op.StoreKitGrant? || op.Merge? then s else s.(store := W.Apply(s.store, op).0)
    case MergeUsers(frm, to) => MergedState(s, frm, to)
  }

  function Run(cat: Catalogue, s: State, es: seq<Event>): State {
    if es == [] then s else After(cat, Run(cat, s, es[..|es| - 1]), es[|es| - 1])
  }

  /** Rows that keep key and product, in place, carry the same grants. */
  lemma SameRowsSameGrants(rows: seq<Row>, rows': seq<Row>)
    requires |rows| == |rows'|
    requires forall i :: 0 <= i < |rows| ==>
      rows'[i].dedupKey == rows[i].dedupKey && rows'[i].product == rows[i].product
    ensures DistinctKeys(rows) ==> DistinctKeys(rows')
    ensures forall k :: Paid(rows', k) <==> Paid(rows, k)
    ensures Sum(rows', RowCoins()) == Sum(rows, RowCoins())
  {
    SumSame(rows', rows, RowCoins(), RowCoins());
  }

  /** The grant of a new purchase appends its row exactly when the product carries coins. */
  lemma FirstGrant(st: W.Store, op: W.Op)
    requires op.StoreKitGrant? && !W.KeyTaken(st.ledger, PurchaseKey(op.dedupKey))
    ensures W.Apply(st, op).0.ledger == st.ledger + if op.coins > 0 then [W.EntryOf(op)] else []
    ensures W.EntryOf(op).key == Some(PurchaseKey(op.dedupKey)) && W.EntryOf(op).amount == op.coins
  {
  }

  lemma NewRowMatches(rows: seq<Row>, l: seq<W.Entry>, r: Row, e: W.Entry, k: string)
    requires W.KeyTaken(l, PurchaseKey(k)) <==> Paid(rows, k)
    requires e.key == Some(PurchaseKey(r.dedupKey))
    ensures W.KeyTaken(l + if r.product.coins > 0 then [e] else [], PurchaseKey(k)) <==> Paid(rows + [r], k)
  {
    PaidAppend(rows, r, k);
    W.TakenAppend(l, e, PurchaseKey(k));
    assert l + [] == l;
  }

  lemma NewRowSums(rows: seq<Row>, l: seq<W.Entry>, r: Row, e: W.Entry)
    requires e.key == Some(PurchaseKey(r.dedupKey)) && e.amount == r.product.coins
    ensures Sum(l + if r.product.coins > 0 then [e] else [], StoreKitAmount()) - Sum(l, StoreKitAmount())
            == Sum(rows + [r], RowCoins()) - Sum(rows, RowCoins())
  {
    SumAppend(rows, r, RowCoins());
    SumAppend(l, e, StoreKitAmount());
    assert l + [] == l;
  }

  lemma NewPurchaseMatches(s: State, r: Row, op: W.Op)
    requires GrantsMatchPurchases(s) && Find(s.purchases, r.dedupKey) == |s.purchases|
    requires op.StoreKitGrant? && op.dedupKey == r.dedupKey && op.coins == r.product.coins
    ensures GrantsMatchPurchases(State(s.purchases + [r], s.subs, W.Apply(s.store, op).0))
  {
    var l, e := s.store.ledger, W.EntryOf(op);
    assert !Paid(s.purchases, r.dedupKey);
    assert !W.KeyTaken(l, PurchaseKey(r.dedupKey));
    FirstGrant(s.store, op);
    NewRowSums(s.purchases, l, r, e);
    forall k: string ensures W.KeyTaken(W.Apply(s.store, op).0.ledger, PurchaseKey(k)) <==> Paid(s.purchases + [r], k) {
      NewRowMatches(s.purchases, l, r, e, k);
    }
  }

  lemma PaidAppend(rows: seq<Row>, r: Row, k: string)
    ensures Paid(rows + [r], k) <==> Paid(rows, k) || (r.dedupKey == k && r.product.coins > 0)
  {
    assert (rows + [r])[|rows|] == r;
    assert forall i :: 0 <= i < |rows| ==> (rows + [r])[i] == rows[i];
  }

  lemma TransferKeepsMatch(s: State, u: Uuid, tx: Tx)
    requires GrantsMatchPurchases(s)
    ensures GrantsMatchPurchases(Transferred(s, u, tx))
  {
    SameRowsSameGrants(s.purchases, Reassigned(s.purchases, ChainOf(tx), EnvironmentOf(tx.environment), u));
  }

  lemma SubsDoNotMatter(s: State, t: State)
    requires GrantsMatchPurchases(s)
    ensures s.purchases == t.purchases && s.store == t.store ==> GrantsMatchPurchases(t)
  {
  }

  lemma AppliedKeepsMatch(cat: Catalogue, s: State, u: Uuid, tx: Tx)
    requires GrantsMatchPurchases(s)
    ensures GrantsMatchPurchases(Applied(cat, s, u, tx).0)
  {
    if Lookup(cat, tx.productId).Some? {
      var p := Lookup(cat, tx.productId).value;
      if Find(s.purchases, KeyOf(u, tx)) == |s.purchases| {
        var r := NewRow(u, p, tx);
        var granted := State(s.purchases + [r], s.subs, W.Apply(s.store, GrantOp(u, p, tx)).0);
        NewPurchaseMatches(s, r, GrantOp(u, p, tx));
        TransferKeepsMatch(granted, u, tx);
        SubsDoNotMatter(granted, Applied(cat, s, u, tx).0);
        SubsDoNotMatter(Transferred(granted, u, tx), Applied(cat, s, u, tx).0);
      } else {
        TransferKeepsMatch(s, u, tx);
        SubsDoNotMatter(s, Applied(cat, s, u, tx).0);
        SubsDoNotMatter(Transferred(s, u, tx), Applied(cat, s, u, tx).0);
      }
    }
  }

  /** Any other writer appends at most one row, and not under a purchase key. */
  lemma OtherWritersGrantNothing(st: W.Store, op: W.Op)
    requires !op.StoreKitGrant? && !op.Merge?
    ensures var l := W.Apply(st, op).0.ledger;
            l == st.ledger || l == st.ledger + [W.EntryOf(op)]
    ensures W.EntryOf(op).key.Some? ==> !W.EntryOf(op).key.value.PurchaseKey?
  {
  }

  lemma OtherRowKeepsMatch(s: State, st: W.Store, e: W.Entry)
    requires GrantsMatchPurchases(s) && st.ledger == s.store.ledger + [e]
    requires e.key.Some? ==> !e.key.value.PurchaseKey?
    ensures GrantsMatchPurchases(s.(store := st))
  {
    SumAppend(s.store.ledger, e, StoreKitAmount());
    forall k: string ensures W.KeyTaken(st.ledger, PurchaseKey(k)) <==> Paid(s.purchases, k) {
      W.TakenAppend(s.store.ledger, e, PurchaseKey(k));
    }
  }

  lemma EconomyKeepsMatch(s: State, op: W.Op)
    requires GrantsMatchPurchases(s) && !op.StoreKitGrant? && !op.Merge?
    ensures GrantsMatchPurchases(s.(store := W.Apply(s.store, op).0))
  {
    var st := W.Apply(s.store, op).0;
    OtherWritersGrantNothing(s.store, op);
    if st.ledger != s.store.ledger {
      OtherRowKeepsMatch(s, st, W.EntryOf(op));
    }
  }

  lemma MergeKeepsMatch(s: State, frm: Uuid, to: Uuid)
    requires GrantsMatchPurchases(s)
    ensures GrantsMatchPurchases(MergedState(s, frm, to))
  {
    var r := MergedState(s, frm, to);
    SameRowsSameGrants(s.purchases, r.purchases);
    SumSame(r.store.ledger, s.store.ledger, StoreKitAmount(), StoreKitAmount());
    forall k: string ensures W.KeyTaken(r.store.ledger, PurchaseKey(k)) == W.KeyTaken(s.store.ledger, PurchaseKey(k)) {
      W.ReownedKeepsKey(s.store.ledger, frm, to, PurchaseKey(k));
    }
  }

  lemma AfterKeepsMatch(cat: Catalogue, s: State, e: Event)
    requires GrantsMatchPurchases(s)
    ensures GrantsMatchPurchases(After(cat, s, e))
  {
    match e
    case Verify(u, tx) => AppliedKeepsMatch(cat, s, u, tx);
    case Notify(u, tx, _) => AppliedKeepsMatch(cat, s, u, tx);
    case Economy(op) => if !op.StoreKitGrant? && !op.Merge? { EconomyKeepsMatch(s, op); }
    case MergeUsers(frm, to) => MergeKeepsMatch(s, frm, to);
  }

  lemma {:induction false} RunKeepsMatch(cat: Catalogue, s: State, es: seq<Event>)
    requires GrantsMatchPurchases(s)
    ensures GrantsMatchPurchases(Run(cat, s, es))
  {
    if es != [] {
      RunKeepsMatch(cat, s, es[..|es| - 1]);
      AfterKeepsMatch(cat, Run(cat, s, es[..|es| - 1]), es[|es| - 1]);
    }
  }

  /**
   Over any run by any users, with merges and every other writer in between: `purchase:{k}` is in
   the ledger exactly when a purchase row with key k and a positive coin count exists, and the
   StoreKit coins granted in total are the coins of the rows.
   */
  lemma GrantedExactlyOnce(cat: Catalogue, es: seq<Event>)
    ensures GrantsMatchPurchases(Run(cat, EMPTY, es))
  {
    RunKeepsMatch(cat, EMPTY, es);
  }

  predicate Recorded(rows: seq<Row>, k: string) {
    exists i :: 0 <= i < |rows| && rows[i].dedupKey == k
  }

  lemma AfterKeepsRecorded(cat: Catalogue, s: State, e: Event, k: string)
    requires Recorded(s.purchases, k)
    ensures Recorded(After(cat, s, e).purchases, k)
  {
    var i :| 0 <= i < |s.purchases| && s.purchases[i].dedupKey == k;
    assert After(cat, s, e).purchases[i].dedupKey == k;
  }

  /** A purchase row is never deleted and never loses its key, whoever comes to own it. */
  lemma {:induction false} RunKeepsRecorded(cat: Catalogue, s: State, es: seq<Event>, k: string)
    requires Recorded(s.purchases, k)
    ensures Recorded(Run(cat, s, es).purchases, k)
  {
    if es != [] {
      RunKeepsRecorded(cat, s, es[..|es| - 1], k);
      AfterKeepsRecorded(cat, Run(cat, s, es[..|es| - 1]), es[|es| - 1], k);
    }
  }

  /** Repeats, rejected claims and transfers of a recorded transaction move no coins and add no row. */
  lemma RecordedTransactionMovesNoCoins(cat: Catalogue, s: State, u: Uuid, tx: Tx)
    requires Recorded(s.purchases, KeyOf(u, tx))
    ensures var (r, answer) := Applied(cat, s, u, tx);
            && r.store == s.store && |r.purchases| == |s.purchases|
            && (answer.Ok? ==> answer.deduplicated)
            && (answer.Rejected? ==> r == s)
  {
  }

  // ---- what one transaction does ----

  ghost predicate NoRowWith(rows: seq<Row>, k: string) { forall i :: 0 <= i < |rows| ==> rows[i].dedupKey != k }

  /** Every user's balance grows by `coins` if he is `u`, and stays otherwise. */
  ghost predicate Pays(s: W.Store, t: W.Store, u: Uuid, coins: int) {
    forall v: Uuid :: W.WalletOf(t, v) ==
      if v == u then W.Wallet(W.Available(s, v) + coins, W.Reserved(s, v)) else W.WalletOf(s, v)
  }

  /** The row a transfer to `u` leaves: his, when it is of that chain and environment. */
  function MovedTo(r: Row, u: Uuid, chain: string, env: Environment): Row {
    if r.originalId == Some(chain) && r.env == env then r.(user := u) else r
  }

  /** The name under which Apple groups a subscription's transactions. */
  lemma ChainIs(tx: Tx)
    ensures ChainOf(tx) ==
            match tx.originalId
            case None => tx.transactionId
            case Some(original) => if original != "" then original else tx.transactionId
  {
  }

  /**
   A transaction whose key is in no row: one row is added, with that transaction's data and the
   claiming user; a chain moves to him only for a subscription outside Xcode.
   */
  lemma NewTransactionIsRecorded(cat: Catalogue, s: State, u: Uuid, tx: Tx, p: Product)
    requires Lookup(cat, tx.productId) == Some(p) && NoRowWith(s.purchases, KeyOf(u, tx))
    ensures var (t, answer) := Applied(cat, s, u, tx);
            var moves := p.subscription && tx.environment != "Xcode";
            && answer == Ok(false, false)
            && |t.purchases| == |s.purchases| + 1
            && t.purchases[|s.purchases|] ==
               Row(u, p, tx.transactionId, tx.originalId, KeyOf(u, tx), EnvironmentOf(tx.environment))
            && (forall i :: 0 <= i < |s.purchases| ==>
                  t.purchases[i] ==
                  if moves then MovedTo(s.purchases[i], u, ChainOf(tx), EnvironmentOf(tx.environment))
                  else s.purchases[i])
  {
    assert Find(s.purchases, KeyOf(u, tx)) == |s.purchases|;
  }

  /** It pays its user the product's coins, once per key, with one row that names the transaction. */
  lemma NewTransactionPays(cat: Catalogue, s: State, u: Uuid, tx: Tx, p: Product)
    requires Lookup(cat, tx.productId) == Some(p) && NoRowWith(s.purchases, KeyOf(u, tx))
    ensures var t := Applied(cat, s, u, tx).0;
            var key := PurchaseKey(KeyOf(u, tx));
            var kind := if p.subscription then W.CreditSubscriptionGrant else W.CreditPurchase;
            if p.coins > 0 && !W.KeyTaken(s.store.ledger, key)
            then
              && Pays(s.store, t.store, u, p.coins)
              && t.store.ledger == s.store.ledger
                 + [W.Entry(u, kind, p.coins, Some("transaction"), Some(tx.transactionId), Some(key))]
            else t.store == s.store
  {
    assert Find(s.purchases, KeyOf(u, tx)) == |s.purchases|;
    WR.StoreKitGrantWrites(s.store, u, p.subscription, p.coins, tx.transactionId, KeyOf(u, tx));
  }

  /** In every reachable state the ledger key of an unrecorded transaction is free. */
  lemma UnrecordedKeyIsFree(s: State, k: string)
    requires GrantsMatchPurchases(s) && NoRowWith(s.purchases, k)
    ensures !W.KeyTaken(s.store.ledger, PurchaseKey(k))
  {
    assert !Paid(s.purchases, k);
  }

  /** Who has access after a transaction that was not rejected or ignored. */
  lemma AccessAfter(cat: Catalogue, s: State, u: Uuid, tx: Tx, p: Product, v: Uuid)
    requires Lookup(cat, tx.productId) == Some(p) && Applied(cat, s, u, tx).1.Ok?
    ensures var t := Applied(cat, s, u, tx).0;
            if !p.subscription then t.subs == s.subs
            else if v == u then v in t.subs && t.subs[v] == Sub(Active, p.id, tx.originalId)
            else if v !in s.subs then v !in t.subs
            else
              && v in t.subs
              && (t.subs[v] == s.subs[v]
                  || (&& tx.environment != "Xcode" && t.subs[v] == s.subs[v].(status := Expired)
                      && s.subs[v].status == Active && s.subs[v].originalId == Some(ChainOf(tx))))
  {
  }

  /** A recorded transaction: the owner repeats it, or another user claims it. */
  lemma RecordedTransaction(cat: Catalogue, s: State, u: Uuid, tx: Tx, p: Product, n: nat)
    requires Lookup(cat, tx.productId) == Some(p) && DistinctKeys(s.purchases)
    requires n < |s.purchases| && s.purchases[n].dedupKey == KeyOf(u, tx)
    ensures var (t, answer) := Applied(cat, s, u, tx);
            && t.store == s.store && |t.purchases| == |s.purchases|
            && if s.purchases[n].user == u then
                 && answer == Ok(true, false) && t.purchases == s.purchases
                 && forall v :: v != u ==> (v in t.subs <==> v in s.subs) && (v in s.subs ==> t.subs[v] == s.subs[v])
               else if p.subscription && tx.environment != "Xcode" then
                 && answer == Ok(true, true)
                 && forall i :: 0 <= i < |s.purchases| ==>
                      t.purchases[i] == MovedTo(s.purchases[i], u, ChainOf(tx), EnvironmentOf(tx.environment))
               else answer == Rejected && t == s
  {
    assert Find(s.purchases, KeyOf(u, tx)) == n;
  }

  /** A foreign claim and a new transaction end every other active subscription on the chain. */
  lemma TransferEndsOthers(cat: Catalogue, s: State, u: Uuid, tx: Tx, p: Product, v: Uuid)
    requires Lookup(cat, tx.productId) == Some(p) && p.subscription && tx.environment != "Xcode"
    requires Applied(cat, s, u, tx).1 == Ok(true, true) || Applied(cat, s, u, tx).1 == Ok(false, false)
    requires v != u && v in s.subs && s.subs[v].status == Active && s.subs[v].originalId == Some(ChainOf(tx))
    ensures var t := Applied(cat, s, u, tx).0; v in t.subs && t.subs[v] == s.subs[v].(status := Expired)
  {
  }

  /** Nothing is read off a receipt without ids or for a product the catalogue does not know. */
  lemma IgnoredIff(cat: Catalogue, s: State, u: Uuid, tx: Tx)
    ensures Verified(cat, s, u, tx).1 == Ignored <==>
            tx.transactionId == "" || tx.productId == "" || Lower(tx.productId) !in cat
    ensures Verified(cat, s, u, tx).1 == Ignored ==> Verified(cat, s, u, tx).0 == s
    ensures Verified(cat, s, u, tx).1 != Ignored ==> Verified(cat, s, u, tx) == Applied(cat, s, u, tx)
  {
  }

  /** The catalogue is searched without regard to case. */
  lemma {:induction false} LowerIgnoresCase(a: string, b: string)
    requires |a| == |b|
    requires forall i :: 0 <= i < |a| ==>
      a[i] == b[i] || ('A' <= a[i] <= 'Z' && b[i] as int == a[i] as int + 32)
    ensures Lower(a) == Lower(b)
    ensures (forall i :: 0 <= i < |b| ==> !('A' <= b[i] <= 'Z')) ==> Lower(a) == b
  {
    if a != "" {
      LowerIgnoresCase(a[1..], b[1..]);
      assert b == [b[0]] + b[1..];
      assert LowerChar('A') == 'a';
    }
  }

  /** A renewal is a transaction of its user like any other; the other notices end his subscription only. */
  lemma NoticeDoes(cat: Catalogue, s: State, u: Uuid, tx: Tx, n: Notice)
    ensures var t := Notified(cat, s, u, tx, n).0;
            if n == Renewed then Notified(cat, s, u, tx, n) == Applied(cat, s, u, tx)
            else
              && t.purchases == s.purchases && t.store == s.store && t.subs.Keys == s.subs.Keys
              && forall v :: v in s.subs ==>
                   t.subs[v] ==
                   if v == u then s.subs[v].(status := if n == Lapsed then Expired else Canceled) else s.subs[v]
  {
  }

  /** The renewal of a known subscription pays its coins to its user, on top of whatever he has. */
  lemma RenewalPays(cat: Catalogue, s: State, u: Uuid, tx: Tx, p: Product)
    requires GrantsMatchPurchases(s) && NoRowWith(s.purchases, KeyOf(u, tx))
    requires Lookup(cat, tx.productId) == Some(p) && p.coins > 0
    ensures var t := Notified(cat, s, u, tx, Renewed).0;
            && Pays(s.store, t.store, u, p.coins) && |t.purchases| == |s.purchases| + 1
            && W.KeyTaken(t.store.ledger, PurchaseKey(KeyOf(u, tx)))
  {
    UnrecordedKeyIsFree(s, KeyOf(u, tx));
    NewTransactionPays(cat, s, u, tx, p);
    NewTransactionIsRecorded(cat, s, u, tx, p);
    var l := Notified(cat, s, u, tx, Renewed).0.store.ledger;
    assert l[|s.store.ledger|].key == Some(PurchaseKey(KeyOf(u, tx)));
  }
}
