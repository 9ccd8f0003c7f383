/**
 Migration 0016: purchase rows get an environment-scoped dedup key and the ledger keys of
 StoreKit grants follow. Keys are texts here: the UPDATE statements compare and build them as
 strings, also in rows that no key family describes.
 */
module Migration {
  import opened Options
  import opened Keys
  import opened Sums
  import W = Wallets
  import B = Billing

  /** The columns the upgrade adds. */
  datatype Scope = Scope(environment: Environment, dedupKey: string)

  datatype Purchase = Purchase(user: Uuid, product: B.Product, transactionId: string,
                               originalId: Option<string>, scope: Option<Scope>)

  datatype LedgerRow = LedgerRow(user: Uuid, kind: W.Kind, amount: int,
                                 refType: Option<string>, refId: Option<string>, key: Option<string>)

  datatype Tables = Tables(purchases: seq<Purchase>, ledger: seq<LedgerRow>)

  const BARE := "purchase:"
  const SCOPED := "purchase:Production:"

  // ---- the UPDATE of ledger keys ----

  predicate Selected(r: LedgerRow, p: string) {
    r.refType == Some("transaction") && r.refId.Some? && r.key == Some(p + r.refId.value)
  }

  function Rekeyed(r: LedgerRow, p: string, q: string): LedgerRow {
    if Selected(r, p) then r.(key := Some(q + r.refId.value)) else r
  }

  function Rewritten(rows: seq<LedgerRow>, p: string, q: string): (r: seq<LedgerRow>)
    ensures |r| == |rows| && forall i :: 0 <= i < |rows| ==> r[i] == Rekeyed(rows[i], p, q)
  {
    seq(|rows|, i requires 0 <= i < |rows| => Rekeyed(rows[i], p, q))
  }

  /** The unique index on the key column; empty keys never collide. */
  ghost predicate UniqueTexts(rows: seq<LedgerRow>) {
    forall i, j :: 0 <= i < j < |rows| && rows[i].key.Some? ==> rows[i].key != rows[j].key
  }

  /** Row j holds the key row i is about to take: it comes later or the statement leaves it alone. */
  predicate Collides(rows: seq<LedgerRow>, p: string, q: string, i: nat, j: nat)
    requires i < |rows| && j < |rows|
  {
    && Selected(rows[i], p) && rows[j].key == Some(q + rows[i].refId.value)
    && (i < j || (j < i && !Selected(rows[j], p)))
  }

  ghost predicate Possible(rows: seq<LedgerRow>, p: string, q: string) {
    forall i, j :: 0 <= i < |rows| && 0 <= j < |rows| ==> !Collides(rows, p, q, i, j)
  }

  /** `rows` after the statement has visited the first n of them. */
  ghost predicate Visited(was: seq<LedgerRow>, rows: seq<LedgerRow>, p: string, q: string, n: nat) {
    && n <= |was| == |rows|
    && (forall i :: 0 <= i < n ==> rows[i] == Rekeyed(was[i], p, q))
    && (forall i :: n <= i < |was| ==> rows[i] == was[i])
    && (forall i, j :: 0 <= i < n && 0 <= j < |was| ==> !Collides(was, p, q, i, j))
  }

  lemma SamePrefixSameRest(p: string, a: string, b: string)
    requires p + a == p + b
    ensures a == b
  {
    SamePrefix(p, a, b);
  }

  /** The index rejects the new key of row i exactly when the original rows collide there. */
  lemma TakenIffCollides(was: seq<LedgerRow>, rows: seq<LedgerRow>, p: string, q: string, i: nat, j: nat)
    requires UniqueTexts(was) && Visited(was, rows, p, q, i)
    requires i < |was| && j < |was| && j != i && Selected(was[i], p)
    ensures rows[j].key == Some(q + was[i].refId.value) <==> Collides(was, p, q, i, j)
  {
    if j < i && Selected(was[j], p) {
      SamePrefix(q, was[j].refId.value, was[i].refId.value);
      assert was[j].key != was[i].key;
    }
  }

  ghost predicate TakenElsewhere(rows: seq<LedgerRow>, i: nat, key: string) {
    exists j :: 0 <= j < |rows| && j != i && rows[j].key == Some(key)
  }

  lemma RejectedIffCollides(was: seq<LedgerRow>, rows: seq<LedgerRow>, p: string, q: string, i: nat)
    requires UniqueTexts(was) && Visited(was, rows, p, q, i) && i < |was| && Selected(was[i], p)
    ensures TakenElsewhere(rows, i, q + was[i].refId.value) <==>
            exists j :: 0 <= j < |was| && Collides(was, p, q, i, j)
  {
    forall j | 0 <= j < |was| && j != i
      ensures rows[j].key == Some(q + was[i].refId.value) <==> Collides(was, p, q, i, j)
    {
      TakenIffCollides(was, rows, p, q, i, j);
    }
  }

  /** One row further, once the index accepts its new key. */
  lemma VisitedOneMore(was: seq<LedgerRow>, rows: seq<LedgerRow>, p: string, q: string, i: nat)
    requires Visited(was, rows, p, q, i) && i < |was|
    requires forall j :: 0 <= j < |was| ==> !Collides(was, p, q, i, j)
    ensures Visited(was, rows[i := Rekeyed(was[i], p, q)], p, q, i + 1)
  {
  }

  method FindKey(rows: seq<LedgerRow>, i: nat, key: string) returns (taken: bool)
    ensures taken <==> TakenElsewhere(rows, i, key)
  {
    var j := 0;
    while j < |rows|
      invariant j <= |rows|
      invariant forall k :: 0 <= k < j && k != i ==> rows[k].key != Some(key)
    {
      if j != i && rows[j].key == Some(key) {
        return true;
      }
      j := j + 1;
    }
    taken := false;
  }

  // ---- the migration ----

  function Scoped(r: Purchase): Purchase {
    r.(scope := Some(Scope(Production, "Production:" + r.transactionId)))
  }

  function Unscoped(r: Purchase): Purchase { r.(scope := None) }

  function AllScoped(rows: seq<Purchase>): (r: seq<Purchase>)
    ensures |r| == |rows| && forall i :: 0 <= i < |rows| ==> r[i] == Scoped(rows[i])
  {
    seq(|rows|, i requires 0 <= i < |rows| => Scoped(rows[i]))
  }

  function AllUnscoped(rows: seq<Purchase>): (r: seq<Purchase>)
    ensures |r| == |rows| && forall i :: 0 <= i < |rows| ==> r[i] == Unscoped(rows[i])
  {
    seq(|rows|, i requires 0 <= i < |rows| => Unscoped(rows[i]))
  }

  predicate DistinctTransactions(rows: seq<Purchase>) {
    forall i, j :: 0 <= i < j < |rows| ==> rows[i].transactionId != rows[j].transactionId
  }

  predicate DistinctScopes(rows: seq<Purchase>) {
    forall i, j :: 0 <= i < j < |rows| ==> rows[i].scope != rows[j].scope
  }

  ghost function Upgraded(t: Tables): Option<Tables> {
    if DistinctTransactions(t.purchases) && Possible(t.ledger, BARE, SCOPED)
    then Some(Tables(AllScoped(t.purchases), Rewritten(t.ledger, BARE, SCOPED))) else None
  }

  ghost function Downgraded(t: Tables): Option<Tables> {
    if DistinctTransactions(t.purchases) && Possible(t.ledger, SCOPED, BARE)
    then Some(Tables(AllUnscoped(t.purchases), Rewritten(t.ledger, SCOPED, BARE))) else None
  }

  /** The new unique constraint holds exactly where the old one did. */
  lemma ScopedDistinctIff(rows: seq<Purchase>)
    ensures DistinctScopes(AllScoped(rows)) <==> DistinctTransactions(rows)
  {
    forall i, j | 0 <= i < j < |rows|
      ensures AllScoped(rows)[i].scope == AllScoped(rows)[j].scope <==> rows[i].transactionId == rows[j].transactionId
    {
      SamePrefix("Production:", rows[i].transactionId, rows[j].transactionId);
    }
  }

  /** Two purchases of one transaction: neither constraint can be created. */
  lemma DuplicatesRaise(t: Tables, i: nat, j: nat)
    requires i < j < |t.purchases| && t.purchases[i].transactionId == t.purchases[j].transactionId
    ensures Upgraded(t) == None && Downgraded(t) == None
  {
  }

  class MigrationTables {
    var purchases: seq<Purchase>
    var ledger: seq<LedgerRow>

    ghost predicate Valid() reads this { UniqueTexts(ledger) }

    ghost function View(): Tables reads this { Tables(purchases, ledger) }

    /** One UPDATE, row by row, the unique index checked at each; undone as a whole when it raises. */
    method UpdateLedgerKeys(p: string, q: string) returns (ok: bool)
      requires Valid()
      modifies this`ledger
      ensures Valid()
      ensures ok <==> Possible(old(ledger), p, q)
      ensures ledger == if ok then Rewritten(old(ledger), p, q) else old(ledger)
    {
      var was := ledger;
      var i := 0;
      while i < |was|
        invariant i <= |was| && was == old(ledger)
        invariant Visited(was, ledger, p, q, i)
      {
        if Selected(ledger[i], p) {
          var key := q + ledger[i].refId.value;
          RejectedIffCollides(was, ledger, p, q, i);
          var taken := FindKey(ledger, i, key);
          if taken {
            ledger := was;
            return false;
          }
        }
        VisitedOneMore(was, ledger, p, q, i);
        ledger := ledger[i := Rekeyed(ledger[i], p, q)];
        i := i + 1;
      }
      assert ledger == Rewritten(was, p, q);
      RewriteKeepsUnique(was, p, q);
      ok := true;
    }

    method Upgrade() returns (ok: bool)
      requires Valid()
      modifies this
      ensures Valid()
      ensures Some(View()) == if ok then Upgraded(old(View())) else Some(old(View()))
      ensures ok <==> Upgraded(old(View())).Some?
    {
      var before := purchases;
      purchases := AllScoped(purchases);
      ScopedDistinctIff(before);
      if !DistinctScopes(purchases) {
        purchases := before;
        return false;
      }
      ok := UpdateLedgerKeys(BARE, SCOPED);
      if !ok {
        purchases := before;
      }
    }

    method Downgrade() returns (ok: bool)
      requires Valid()
      modifies this
      ensures Valid()
      ensures Some(View()) == if ok then Downgraded(old(View())) else Some(old(View()))
      ensures ok <==> Downgraded(old(View())).Some?
    {
      var before, was := purchases, ledger;
      ok := UpdateLedgerKeys(SCOPED, BARE);
      if ok {
        purchases := AllUnscoped(purchases);
        if !DistinctTransactions(purchases) {
          purchases, ledger := before, was;
          ok := false;
        }
      }
    }
  }

  // ---- what the statement keeps ----

  /** The unique index survives. */
  lemma RewriteKeepsUnique(rows: seq<LedgerRow>, p: string, q: string)
    requires UniqueTexts(rows) && Possible(rows, p, q)
    ensures UniqueTexts(Rewritten(rows, p, q))
  {
    var r := Rewritten(rows, p, q);
    forall i, j | 0 <= i < j < |r| && r[i].key.Some? ensures r[i].key != r[j].key {
      assert !Collides(rows, p, q, i, j) && !Collides(rows, p, q, j, i);
      if Selected(rows[i], p) && Selected(rows[j], p) && r[i].key == r[j].key {
        SamePrefixSameRest(q, rows[i].refId.value, rows[j].refId.value);
      }
    }
  }

  ghost predicate HasKey(rows: seq<LedgerRow>, k: string) {
    exists i :: 0 <= i < |rows| && rows[i].key == Some(k)
  }

  /** Every key of every other flow is there after the upgrade exactly if it was there before. */
  lemma OtherFlowsUntouched(rows: seq<LedgerRow>, k: LedgerKey)
    requires !k.PurchaseKey?
    ensures HasKey(Rewritten(rows, BARE, SCOPED), KeyText(k)) <==> HasKey(rows, KeyText(k))
    ensures HasKey(Rewritten(rows, SCOPED, BARE), KeyText(k)) <==> HasKey(rows, KeyText(k))
  {
    var up, down := Rewritten(rows, BARE, SCOPED), Rewritten(rows, SCOPED, BARE);
    forall i | 0 <= i < |rows|
      ensures up[i].key == Some(KeyText(k)) <==> rows[i].key == Some(KeyText(k))
      ensures down[i].key == Some(KeyText(k)) <==> rows[i].key == Some(KeyText(k))
    {
      if rows[i].refId.Some? {
        var ref := rows[i].refId.value;
        KeyTextInjective(k, PurchaseKey(ref));
        KeyTextInjective(k, PurchaseKey("Production:" + ref));
        ScopedText(ref);
      }
    }
  }

  lemma ScopedText(ref: string)
    ensures KeyText(PurchaseKey(ref)) == BARE + ref
    ensures KeyText(PurchaseKey("Production:" + ref)) == SCOPED + ref
    ensures BARE + ref != SCOPED + ref
  {
    assert "purchase:" + ("Production:" + ref) == SCOPED + ref;
    assert |BARE + ref| != |SCOPED + ref|;
  }

  // ---- downgrade after upgrade ----

  /** Rewriting back restores every key exactly when no row was in the target form to begin with. */
  lemma RewriteUndoneIff(rows: seq<LedgerRow>)
    ensures Rewritten(Rewritten(rows, BARE, SCOPED), SCOPED, BARE) == rows
            <==> forall i :: 0 <= i < |rows| ==> !Selected(rows[i], SCOPED)
  {
    var back := Rewritten(Rewritten(rows, BARE, SCOPED), SCOPED, BARE);
    forall i | 0 <= i < |rows| ensures back[i] == rows[i] <==> !Selected(rows[i], SCOPED) {
      if rows[i].refId.Some? { ScopedText(rows[i].refId.value); }
    }
    if forall i :: 0 <= i < |rows| ==> !Selected(rows[i], SCOPED) {
      assert back == rows;
    }
  }

  /** No row holds the new key of an old-form purchase row. */
  ghost predicate NewKeysFree(rows: seq<LedgerRow>) {
    forall i, j :: 0 <= i < |rows| && 0 <= j < |rows| && Selected(rows[i], BARE)
      ==> rows[j].key != Some(SCOPED + rows[i].refId.value)
  }

  ghost predicate NoneScoped(rows: seq<LedgerRow>) {
    forall i :: 0 <= i < |rows| ==> !Selected(rows[i], SCOPED)
  }

  /** Which rows the downgrade would touch after the upgrade. */
  lemma SelectedAfter(rows: seq<LedgerRow>, i: nat)
    requires i < |rows| && NoneScoped(rows)
    ensures Selected(Rewritten(rows, BARE, SCOPED)[i], SCOPED) <==> Selected(rows[i], BARE)
  {
    if rows[i].refId.Some? { ScopedText(rows[i].refId.value); }
  }

  lemma DowngradePossible(rows: seq<LedgerRow>)
    requires UniqueTexts(rows) && NoneScoped(rows) && NewKeysFree(rows)
    ensures Possible(Rewritten(rows, BARE, SCOPED), SCOPED, BARE)
  {
    var up := Rewritten(rows, BARE, SCOPED);
    forall i, j | 0 <= i < |up| && 0 <= j < |up| ensures !Collides(up, SCOPED, BARE, i, j) {
      SelectedAfter(rows, i);
      SelectedAfter(rows, j);
    }
  }

  /** A pair whose keys differ by the scope only: one direction or the other raises. */
  lemma PairRaises(rows: seq<LedgerRow>, i: nat, j: nat)
    requires i < |rows| && j < |rows| && NoneScoped(rows)
    requires Selected(rows[i], BARE) && rows[j].key == Some(SCOPED + rows[i].refId.value)
    requires Possible(rows, BARE, SCOPED)
    ensures Collides(Rewritten(rows, BARE, SCOPED), SCOPED, BARE, j, i)
  {
    assert !Collides(rows, BARE, SCOPED, i, j);
    ScopedText(rows[i].refId.value);
    SelectedAfter(rows, i);
    SelectedAfter(rows, j);
  }

  /**
   Upgrade followed by downgrade gives back the original tables exactly when transaction ids are
   distinct, no row is in the new form already, and no row holds a key the upgrade needs.
   */
  lemma RoundTripIff(t: Tables)
    requires UniqueTexts(t.ledger) && forall i :: 0 <= i < |t.purchases| ==> t.purchases[i].scope == None
    ensures (Upgraded(t).Some? && Downgraded(Upgraded(t).value) == Some(t)) <==>
            DistinctTransactions(t.purchases) && NoneScoped(t.ledger) && NewKeysFree(t.ledger)
  {
    var up := Rewritten(t.ledger, BARE, SCOPED);
    RewriteUndoneIff(t.ledger);
    assert AllUnscoped(AllScoped(t.purchases)) == t.purchases;
    assert DistinctTransactions(AllScoped(t.purchases)) <==> DistinctTransactions(t.purchases) by {
      forall i | 0 <= i < |t.purchases|
        ensures AllScoped(t.purchases)[i].transactionId == t.purchases[i].transactionId {}
    }
    if DistinctTransactions(t.purchases) && NoneScoped(t.ledger) {
      if NewKeysFree(t.ledger) {
        DowngradePossible(t.ledger);
      } else if Possible(t.ledger, BARE, SCOPED) {
        var i, j :| 0 <= i < |t.ledger| && 0 <= j < |t.ledger| && Selected(t.ledger[i], BARE)
                    && t.ledger[j].key == Some(SCOPED + t.ledger[i].refId.value);
        PairRaises(t.ledger, i, j);
      }
    }
  }

  // ---- the state the new code finds ----

  function TextOf(e: W.Entry): LedgerRow {
    LedgerRow(e.user, e.kind, e.amount, e.refType, e.refId,
              if e.key.Some? then Some(KeyText(e.key.value)) else None)
  }

  function TextRows(l: seq<W.Entry>): (r: seq<LedgerRow>)
    ensures |r| == |l| && forall i :: 0 <= i < |l| ==> r[i] == TextOf(l[i])
  {
    seq(|l|, i requires 0 <= i < |l| => TextOf(l[i]))
  }

  function BareTables(s: B.State): Tables {
    Tables(seq(|s.purchases|, i requires 0 <= i < |s.purchases| =>
             var r := s.purchases[i]; Purchase(r.user, r.product, r.transactionId, r.originalId, None)),
           TextRows(s.store.ledger))
  }

  function ScopedTables(s: B.State): Tables {
    Tables(seq(|s.purchases|, i requires 0 <= i < |s.purchases| =>
             var r := s.purchases[i];
             Purchase(r.user, r.product, r.transactionId, r.originalId, Some(Scope(r.env, r.dedupKey)))),
           TextRows(s.store.ledger))
  }

  /** What the code before the migration kept: the bare transaction id was the dedup key everywhere. */
  ghost predicate OldFormat(s: B.State) {
    && B.GrantsMatchPurchases(s) && W.UniqueKeys(s.store.ledger)
    && (forall i :: 0 <= i < |s.purchases| ==> s.purchases[i].dedupKey == s.purchases[i].transactionId)
    && (forall i :: 0 <= i < |s.store.ledger| && IsPurchase(s.store.ledger[i]) ==>
          var e := s.store.ledger[i];
          e.refType == Some("transaction") && e.refId == Some(e.key.value.dedupKey))
  }

  predicate IsPurchase(e: W.Entry) { e.key.Some? && e.key.value.PurchaseKey? }

  function MigratedRow(r: B.Row): B.Row { r.(dedupKey := "Production:" + r.transactionId, env := Production) }

  function MigratedEntry(e: W.Entry): W.Entry {
    if IsPurchase(e) then e.(key := Some(PurchaseKey("Production:" + e.key.value.dedupKey))) else e
  }

  /** Every purchase key scoped, in the rows and in the ledger. */
  function Migrated(s: B.State): B.State {
    B.State(seq(|s.purchases|, i requires 0 <= i < |s.purchases| => MigratedRow(s.purchases[i])), s.subs,
            W.Store(s.store.wallets,
                    seq(|s.store.ledger|, i requires 0 <= i < |s.store.ledger| => MigratedEntry(s.store.ledger[i]))))
  }

  lemma EntryMigrates(e: W.Entry)
    requires IsPurchase(e) ==> e.refType == Some("transaction") && e.refId == Some(e.key.value.dedupKey)
    ensures Rekeyed(TextOf(e), BARE, SCOPED) == TextOf(MigratedEntry(e))
    ensures Selected(TextOf(e), BARE) <==> IsPurchase(e)
  {
    if e.refId.Some? {
      ScopedText(e.refId.value);
      if e.key.Some? { KeyTextInjective(e.key.value, PurchaseKey(e.refId.value)); }
    }
  }

  /** The statements write exactly the scoped keys, whenever they do not raise. */
  lemma UpgradeMigrates(s: B.State)
    requires OldFormat(s)
    ensures Upgraded(BareTables(s)).Some? ==> Upgraded(BareTables(s)).value == ScopedTables(Migrated(s))
  {
    var l := s.store.ledger;
    forall i | 0 <= i < |l|
      ensures Rewritten(TextRows(l), BARE, SCOPED)[i] == TextRows(Migrated(s).store.ledger)[i]
    {
      EntryMigrates(l[i]);
    }
    assert Rewritten(TextRows(l), BARE, SCOPED) == TextRows(Migrated(s).store.ledger);
    assert AllScoped(BareTables(s).purchases) == ScopedTables(Migrated(s)).purchases;
  }

  /** Two granted transactions whose ids differ by the scope only, the longer one stored later. */
  predicate ScopedTwin(l: seq<W.Entry>, i: nat, j: nat)
    requires i < |l| && j < |l|
  {
    i < j && IsPurchase(l[i]) && IsPurchase(l[j]) && l[j].key.value.dedupKey == "Production:" + l[i].key.value.dedupKey
  }

  ghost predicate NoLaterScopedTwin(l: seq<W.Entry>) {
    forall i, j :: 0 <= i < |l| && 0 <= j < |l| ==> !ScopedTwin(l, i, j)
  }

  lemma TwinCollides(l: seq<W.Entry>, i: nat, j: nat)
    requires i < |l| && j < |l|
    requires forall k :: 0 <= k < |l| && IsPurchase(l[k]) ==>
               l[k].refType == Some("transaction") && l[k].refId == Some(l[k].key.value.dedupKey)
    ensures Collides(TextRows(l), BARE, SCOPED, i, j) <==> ScopedTwin(l, i, j)
  {
    EntryMigrates(l[i]);
    EntryMigrates(l[j]);
    if IsPurchase(l[i]) {
      var ref := l[i].key.value.dedupKey;
      ScopedText(ref);
      if l[j].key.Some? { KeyTextInjective(l[j].key.value, PurchaseKey("Production:" + ref)); }
    }
  }

  lemma PossibleIff(l: seq<W.Entry>)
    requires forall k :: 0 <= k < |l| && IsPurchase(l[k]) ==>
               l[k].refType == Some("transaction") && l[k].refId == Some(l[k].key.value.dedupKey)
    ensures Possible(TextRows(l), BARE, SCOPED) <==> NoLaterScopedTwin(l)
  {
    forall i, j | 0 <= i < |l| && 0 <= j < |l|
      ensures Collides(TextRows(l), BARE, SCOPED, i, j) <==> ScopedTwin(l, i, j)
    {
      TwinCollides(l, i, j);
    }
  }

  /** From an old-format database the upgrade raises only on such a pair. */
  lemma UpgradeSucceedsIff(s: B.State)
    requires OldFormat(s)
    ensures Upgraded(BareTables(s)).Some? <==> NoLaterScopedTwin(s.store.ledger)
  {
    PossibleIff(s.store.ledger);
    var rows := BareTables(s).purchases;
    forall i, j | 0 <= i < j < |rows| ensures rows[i].transactionId != rows[j].transactionId {
      assert s.purchases[i].dedupKey != s.purchases[j].dedupKey;
    }
  }

  /** No two granted transactions whose ids differ by the scope, stored in either order. */
  ghost predicate NoScopedTwin(l: seq<W.Entry>) {
    forall i, j :: 0 <= i < |l| && 0 <= j < |l| && IsPurchase(l[i]) && IsPurchase(l[j])
      ==> l[j].key.value.dedupKey != "Production:" + l[i].key.value.dedupKey
  }

  ghost predicate PurchasesRefer(l: seq<W.Entry>) {
    forall k :: 0 <= k < |l| && IsPurchase(l[k]) ==>
      l[k].refType == Some("transaction") && l[k].refId == Some(l[k].key.value.dedupKey)
  }

  /** In a ledger of the old format no row has the new form. */
  lemma OldRowIsNotScoped(e: W.Entry)
    requires IsPurchase(e) ==> e.refType == Some("transaction") && e.refId == Some(e.key.value.dedupKey)
    ensures !Selected(TextOf(e), SCOPED)
  {
    if e.refId.Some? && e.key.Some? {
      ScopedText(e.refId.value);
      KeyTextInjective(e.key.value, PurchaseKey("Production:" + e.refId.value));
    }
  }

  lemma NewKeyTaken(l: seq<W.Entry>, i: nat, j: nat)
    requires PurchasesRefer(l) && i < |l| && j < |l|
    ensures (Selected(TextOf(l[i]), BARE) && TextOf(l[j]).key == Some(SCOPED + TextOf(l[i]).refId.value)) <==>
            IsPurchase(l[i]) && IsPurchase(l[j])
            && l[j].key.value.dedupKey == "Production:" + l[i].key.value.dedupKey
  {
    EntryMigrates(l[i]);
    if IsPurchase(l[i]) {
      ScopedText(l[i].key.value.dedupKey);
      if l[j].key.Some? {
        KeyTextInjective(l[j].key.value, PurchaseKey("Production:" + l[i].key.value.dedupKey));
      }
    }
  }

  lemma NewKeysFreeIff(l: seq<W.Entry>)
    requires PurchasesRefer(l)
    ensures NewKeysFree(TextRows(l)) <==> NoScopedTwin(l)
  {
    forall i, j | 0 <= i < |l| && 0 <= j < |l|
      ensures (Selected(TextRows(l)[i], BARE) && TextRows(l)[j].key == Some(SCOPED + TextRows(l)[i].refId.value)) <==>
              IsPurchase(l[i]) && IsPurchase(l[j])
              && l[j].key.value.dedupKey == "Production:" + l[i].key.value.dedupKey
    {
      NewKeyTaken(l, i, j);
    }
  }

  lemma TextsUnique(l: seq<W.Entry>)
    requires W.UniqueKeys(l)
    ensures UniqueTexts(TextRows(l))
  {
    forall i, j | 0 <= i < j < |l| && TextRows(l)[i].key.Some? ensures TextRows(l)[i].key != TextRows(l)[j].key {
      if l[j].key.Some? { KeyTextInjective(l[i].key.value, l[j].key.value); }
    }
  }

  /** From an old-format database the whole round trip gives everything back unless there is such a pair. */
  lemma OldFormatRoundTripIff(s: B.State)
    requires OldFormat(s)
    ensures (Upgraded(BareTables(s)).Some? && Downgraded(Upgraded(BareTables(s)).value) == Some(BareTables(s)))
            <==> NoScopedTwin(s.store.ledger)
  {
    var l, t := s.store.ledger, BareTables(s);
    TextsUnique(l);
    NewKeysFreeIff(l);
    forall i | 0 <= i < |l| ensures !Selected(t.ledger[i], SCOPED) { OldRowIsNotScoped(l[i]); }
    forall i, j | 0 <= i < j < |t.purchases| ensures t.purchases[i].transactionId != t.purchases[j].transactionId {
      assert s.purchases[i].dedupKey != s.purchases[j].dedupKey;
    }
    RoundTripIff(t);
  }

  lemma ScopedGrant(s: B.State, k: string)
    requires OldFormat(s)
    ensures W.KeyTaken(Migrated(s).store.ledger, PurchaseKey("Production:" + k))
            <==> W.KeyTaken(s.store.ledger, PurchaseKey(k))
    ensures B.Paid(Migrated(s).purchases, "Production:" + k) <==> B.Paid(s.purchases, k)
  {
    var l, m := s.store.ledger, Migrated(s).store.ledger;
    forall i | 0 <= i < |l|
      ensures m[i].key == Some(PurchaseKey("Production:" + k)) <==> l[i].key == Some(PurchaseKey(k))
    {
      if IsPurchase(l[i]) { SamePrefix("Production:", l[i].key.value.dedupKey, k); }
    }
    var r, n := s.purchases, Migrated(s).purchases;
    forall i | 0 <= i < |r| ensures n[i].dedupKey == "Production:" + k <==> r[i].dedupKey == k {
      SamePrefix("Production:", r[i].transactionId, k);
    }
    if B.Paid(s.purchases, k) {
      var i :| 0 <= i < |r| && r[i].dedupKey == k && r[i].product.coins > 0;
      assert n[i].dedupKey == "Production:" + k;
    }
    if W.KeyTaken(l, PurchaseKey(k)) {
      var i :| 0 <= i < |l| && l[i].key == Some(PurchaseKey(k));
      assert m[i].key == Some(PurchaseKey("Production:" + k));
    }
  }

  lemma UnscopedAbsent(s: B.State, k: string)
    requires !("Production:" <= k)
    ensures !W.KeyTaken(Migrated(s).store.ledger, PurchaseKey(k)) && !B.Paid(Migrated(s).purchases, k)
  {
  }

  /** The migrated rows and ledger agree the way the StoreKit grant property needs. */
  lemma MigratedMatches(s: B.State)
    requires OldFormat(s)
    ensures B.GrantsMatchPurchases(Migrated(s))
  {
    var m := Migrated(s);
    forall k: string ensures W.KeyTaken(m.store.ledger, PurchaseKey(k)) <==> B.Paid(m.purchases, k) {
      if "Production:" <= k {
        var rest := k[|"Production:"|..];
        assert k == "Production:" + rest;
        ScopedGrant(s, rest);
      } else {
        UnscopedAbsent(s, k);
      }
    }
    forall i, j | 0 <= i < j < |s.purchases| ensures m.purchases[i].dedupKey != m.purchases[j].dedupKey {
      assert s.purchases[i].dedupKey != s.purchases[j].dedupKey;
      SamePrefix("Production:", s.purchases[i].transactionId, s.purchases[j].transactionId);
    }
    SumSame(m.store.ledger, s.store.ledger, B.StoreKitAmount(), B.StoreKitAmount());
    SumSame(m.purchases, s.purchases, B.RowCoins(), B.RowCoins());
  }

  /**
   After the migration and any further run, presenting a Production transaction that was applied
   before it, by whichever user, moves no coins and adds no row.
   */
  lemma OldTransactionsNeverPayAgain(cat: B.Catalogue, s: B.State, es: seq<B.Event>, i: nat, u: Uuid, tx: B.Tx)
    requires OldFormat(s) && i < |s.purchases|
    requires tx.transactionId == s.purchases[i].transactionId && EnvironmentOf(tx.environment) == Production
    ensures var t := B.Run(cat, Migrated(s), es);
            var (r, answer) := B.Applied(cat, t, u, tx);
            && B.GrantsMatchPurchases(t)
            && r.store == t.store && |r.purchases| == |t.purchases|
            && (answer.Ok? ==> answer.deduplicated)
  {
    var t := B.Run(cat, Migrated(s), es);
    MigratedMatches(s);
    B.RunKeepsMatch(cat, Migrated(s), es);
    assert Migrated(s).purchases[i].dedupKey == B.KeyOf(u, tx);
    B.RunKeepsRecorded(cat, Migrated(s), es, B.KeyOf(u, tx));
    B.RecordedTransactionMovesNoCoins(cat, t, u, tx);
  }

  /** A row that is no transaction's is never rewritten, whatever its key looks like. */
  lemma OtherRowsUntouched(r: LedgerRow)
    requires r.refType != Some("transaction") || r.refId == None
    ensures Rekeyed(r, BARE, SCOPED) == r && Rekeyed(r, SCOPED, BARE) == r
  {
  }

  /** A transaction's row is rewritten exactly when its key is the prefix and its own id. */
  lemma TransactionRowRewritten(r: LedgerRow, ref: string)
    requires r.refType == Some("transaction") && r.refId == Some(ref)
    ensures Rekeyed(r, BARE, SCOPED) ==
            if r.key == Some("purchase:" + ref) then r.(key := Some("purchase:Production:" + ref)) else r
    ensures Rekeyed(r, SCOPED, BARE) ==
            if r.key == Some("purchase:Production:" + ref) then r.(key := Some("purchase:" + ref)) else r
  {
  }

  /** Every purchase becomes a Production one under the scoped id; downgrading takes that away again. */
  lemma PurchaseScoped(r: Purchase)
    ensures Scoped(r) == Purchase(r.user, r.product, r.transactionId, r.originalId,
                                  Some(Scope(Production, "Production:" + r.transactionId)))
    ensures r.scope == None ==> Unscoped(Scoped(r)) == r
  {
  }
}
