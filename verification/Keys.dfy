/**
 Identifiers and the text keys that decide whether an operation takes effect:
 the StoreKit purchase key and the idempotency keys of the coin ledger.
 */
module Keys {
  import opened Decimal

  /** Canonical text of a UUID; only its fixed length matters here. */
  type Uuid = s: string | |s| == 36 witness "00000000-0000-0000-0000-000000000000"

  // ---- purchase dedup key (billing_service.py) ----

  datatype Environment = Production | Sandbox | Xcode

  /** The verified `environment` claim; anything unknown is treated as Production. */
  function EnvironmentOf(claim: string): Environment {
    if claim == "Sandbox" then Sandbox
    else if claim == "Xcode" then Xcode
    else Production
  }

  function DedupKey(env: Environment, user: Uuid, transactionId: string, purchaseDateMs: int): string {
    match env
    case Production => "Production:" + transactionId
    case Sandbox => "Sandbox:" + transactionId
    case Xcode => "Xcode:" + user + ":" + transactionId + ":" + IntText(purchaseDateMs)
  }

  lemma SamePrefix(p: string, a: string, b: string)
    ensures p + a == p + b <==> a == b
  {
    if p + a == p + b {
      assert a == (p + a)[|p|..] == (p + b)[|p|..] == b;
    }
  }

  lemma LongerHeadLeavesMark(a: string, b: string, x: string, y: string, c: char)
    requires a + [c] + x == b + [c] + y
    requires |a| < |b|
    ensures c in x
  {
    assert (b + [c] + y)[|b|] == c;
    assert (a + [c] + x)[|b|] == x[|b| - |a| - 1];
  }

  /** Text after the last `c` determines the split, since neither tail contains `c`. */
  lemma SplitAtLast(a: string, b: string, x: string, y: string, c: char)
    requires c !in x && c !in y
    requires a + [c] + x == b + [c] + y
    ensures a == b && x == y
  {
    if |a| < |b| {
      LongerHeadLeavesMark(a, b, x, y, c);
    } else if |b| < |a| {
      LongerHeadLeavesMark(b, a, y, x, c);
    } else {
      var s, t := a + [c] + x, b + [c] + y;
      assert a == s[..|a|] == t[..|b|] == b;
      assert x == s[|a| + 1..] == t[|b| + 1..] == y;
    }
  }

  /** A field of fixed width in front is recovered first, a last field without `c` after it. */
  lemma SplitFields(p: string, u: string, u': string, a: string, b: string, x: string, y: string, c: char)
    requires |u| == |u'| && c !in x && c !in y
    requires p + u + [c] + a + [c] + x == p + u' + [c] + b + [c] + y
    ensures u == u' && a == b && x == y
  {
    var s, t := p + u + [c] + a + [c] + x, p + u' + [c] + b + [c] + y;
    var n := |p| + |u|;
    assert u == s[|p|..n] == t[|p|..n] == u';
    assert s[n + 1..] == a + [c] + x;
    assert t[n + 1..] == b + [c] + y;
    SplitAtLast(a, b, x, y, c);
  }

  lemma IntTextHasNoColon(n: int)
    ensures ':' !in IntText(n)
  {
    if ':' in IntText(n) { IntTextCharacters(n, ':'); }
  }

  /**
   Two transactions share a purchase key exactly when environment and transaction id agree
   and, for Xcode, user and purchase time agree as well. The ids are arbitrary strings.
   */
  lemma DedupKeyInjective(e: Environment, e': Environment, u: Uuid, u': Uuid,
                          t: string, t': string, ms: int, ms': int)
    ensures DedupKey(e, u, t, ms) == DedupKey(e', u', t', ms') <==>
            e == e' && t == t' && (e.Xcode? ==> u == u' && ms == ms')
  {
    if DedupKey(e, u, t, ms) == DedupKey(e', u', t', ms') {
      assert DedupKey(e, u, t, ms)[0] == DedupKey(e', u', t', ms')[0];
      assert e == e';
      match e
      case Production => SamePrefix("Production:", t, t');
      case Sandbox => SamePrefix("Sandbox:", t, t');
      case Xcode =>
        IntTextHasNoColon(ms);
        IntTextHasNoColon(ms');
        SplitFields("Xcode:", u, u', t, t', IntText(ms), IntText(ms'), ':');
        IntTextInjective(ms, ms');
    }
  }

  /** Which claims make a receipt valid once for everybody: all but Xcode's, unknown ones as Production's. */
  lemma SharedAcrossUsersIff(claim: string, u: Uuid, v: Uuid, t: string, ms: int)
    requires u != v
    ensures DedupKey(EnvironmentOf(claim), u, t, ms) == DedupKey(EnvironmentOf(claim), v, t, ms) <==> claim != "Xcode"
    ensures DedupKey(EnvironmentOf(claim), u, t, ms) == "Production:" + t <==> claim != "Xcode" && claim != "Sandbox"
  {
    DedupKeyInjective(EnvironmentOf(claim), EnvironmentOf(claim), u, v, t, t, ms, ms);
    DedupKeyInjective(EnvironmentOf(claim), Production, u, v, t, t, ms, ms);
  }

  // ---- ledger idempotency keys ----

  /** One constructor per family of `credit_ledger.idempotency_key`. */
  datatype LedgerKey =
    | CaptureKey(job: Uuid)
    | ReleaseKey(job: Uuid)
    | PurchaseKey(dedupKey: string)
    | AdaptyKey(transaction: string)
    | CrmKey(grant: string)
    | ChargeKey(assist: bool, operation: string)
    | RefundKey(assist: bool, operation: string)

  function Prefix(k: LedgerKey): string {
    match k
    case CaptureKey(_) => "capture:"
    case ReleaseKey(_) => "release:"
    case PurchaseKey(_) => "purchase:"
    case AdaptyKey(_) => "adapty-txn:"
    case CrmKey(_) => "crm:subscription:"
    case ChargeKey(assist, _) => if assist then "charge:lyrics-assist:" else "charge:lyrics:"
    case RefundKey(assist, _) => if assist then "refund:lyrics-assist:" else "refund:lyrics:"
  }

  function Suffix(k: LedgerKey): string {
    match k
    case CaptureKey(job) => job
    case ReleaseKey(job) => job
    case PurchaseKey(dedupKey) => dedupKey
    case AdaptyKey(transaction) => transaction
    case CrmKey(grant) => grant
    case ChargeKey(_, operation) => operation
    case RefundKey(_, operation) => operation
  }

  /** The text stored in the unique column. */
  function KeyText(k: LedgerKey): string { Prefix(k) + Suffix(k) }

  /** Where two different prefixes differ. */
  lemma PrefixesDiffer(a: LedgerKey, b: LedgerKey) returns (i: nat)
    requires Prefix(a) != Prefix(b)
    ensures i < |Prefix(a)| && i < |Prefix(b)| && Prefix(a)[i] != Prefix(b)[i]
  {
    i := if Prefix(a)[0] != Prefix(b)[0] then 0
         else if Prefix(a)[1] != Prefix(b)[1] then 1
         else if Prefix(a)[2] != Prefix(b)[2] then 2
         else 13;
  }

  lemma DifferentFrontDifferentText(p: string, q: string, x: string, y: string, i: nat)
    requires i < |p| && i < |q| && p[i] != q[i]
    ensures p + x != q + y
  {
    assert (p + x)[i] == p[i] && (q + y)[i] == q[i];
  }

  lemma DifferentFamiliesDifferentText(a: LedgerKey, b: LedgerKey)
    requires Prefix(a) != Prefix(b)
    ensures KeyText(a) != KeyText(b)
  {
    var i := PrefixesDiffer(a, b);
    DifferentFrontDifferentText(Prefix(a), Prefix(b), Suffix(a), Suffix(b), i);
  }

  /**
   The text of a ledger key determines its family and its argument: families never collide,
   whatever strings clients put into operation ids, transaction ids or grant ids.
   */
  lemma KeyTextInjective(a: LedgerKey, b: LedgerKey)
    ensures KeyText(a) == KeyText(b) <==> a == b
  {
    if Prefix(a) != Prefix(b) {
      DifferentFamiliesDifferentText(a, b);
    } else {
      SamePrefix(Prefix(a), Suffix(a), Suffix(b));
      assert Prefix(a)[0] == Prefix(b)[0] && Prefix(a)[2] == Prefix(b)[2];
      assert a.ChargeKey? || a.RefundKey? ==> Prefix(a)[13] == Prefix(b)[13];
    }
  }

  /** The stored forms, by flow. */
  lemma KeyForms(job: Uuid, id: string)
    ensures KeyText(CaptureKey(job)) == "capture:" + job && KeyText(ReleaseKey(job)) == "release:" + job
    ensures KeyText(PurchaseKey(id)) == "purchase:" + id && KeyText(AdaptyKey(id)) == "adapty-txn:" + id
    ensures KeyText(CrmKey(id)) == "crm:subscription:" + id
    ensures KeyText(ChargeKey(false, id)) == "charge:lyrics:" + id
    ensures KeyText(ChargeKey(true, id)) == "charge:lyrics-assist:" + id
    ensures KeyText(RefundKey(false, id)) == "refund:lyrics:" + id
    ensures KeyText(RefundKey(true, id)) == "refund:lyrics-assist:" + id
  {
  }
}
