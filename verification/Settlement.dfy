/**
 The running-sum checks of the integrity audit, and what it means when they all report zero rows
 (scripts/data_integrity_audit.py:238-247, 305-334, 383-392; row shapes from app/models.py).
 Money is in integer cents.
 */
module Settlement {
  import opened Options
  import opened Collections
  import opened Relational

  // ----- rows ------------------------------------------------------------------------------------

  datatype Item = Item(id: string, onHand: int, promised: int)
  datatype Movement = Movement(item: string, onHandDiff: int, promisedDiff: int)

  datatype Payment = Payment(id: string, applied: int)
  datatype Invoice = Invoice(id: string, applied: int)
  datatype Claim = Claim(id: string, applied: int)
  datatype Account = Account(id: string, balance: int)
  datatype Entry = Entry(account: string, amount: int)

  datatype Application = Application(payment: string, invoice: Option<string>, claim: Option<string>,
                                     account: Option<string>, toPayment: Option<string>, amount: int)

  function Set01(column: Option<string>): int { if column.None? then 0 else 1 }

  /** `payment_applications_single_target_ck` */
  predicate SingleTarget(a: Application) {
    Set01(a.invoice) + Set01(a.claim) + Set01(a.account) + Set01(a.toPayment) == 1
  }

  // ----- the checks, as the audit runs them ------------------------------------------------------

  /** `having`: the groups that fail, as their left rows. */
  function Having<P(==), K>(groups: seq<(P, seq<Option<K>>)>, bad: (P, seq<Option<K>>) -> bool): seq<P> {
    if groups == [] then []
    else if bad(groups[0].0, groups[0].1) then [groups[0].0] + Having(groups[1..], bad)
    else Having(groups[1..], bad)
  }

  predicate OfItem(i: Item, m: Movement) { m.item == i.id }
  predicate OfInvoice(i: Invoice, a: Application) { a.invoice == Some(i.id) }
  predicate OfClaim(c: Claim, a: Application) { a.claim == Some(c.id) }
  predicate OfAccount(c: Account, e: Entry) { e.account == c.id }

  function OnHandDiff(m: Movement): int { m.onHandDiff }
  function PromisedDiff(m: Movement): int { m.promisedDiff }
  function Applied(a: Application): int { a.amount }
  function EntryAmount(e: Entry): int { e.amount }

  predicate BadItem(i: Item, cells: seq<Option<Movement>>) {
    i.onHand != SumCells(cells, OnHandDiff) || i.promised != SumCells(cells, PromisedDiff)
  }

  predicate BadInvoice(i: Invoice, cells: seq<Option<Application>>) { i.applied != SumCells(cells, Applied) }

  predicate BadClaim(c: Claim, cells: seq<Option<Application>>) { c.applied != SumCells(cells, Applied) }

  predicate BadAccount(c: Account, cells: seq<Option<Entry>>) { c.balance != SumCells(cells, EntryAmount) }

  function ItemCheck(items: seq<Item>, moves: seq<Movement>): seq<Item> {
    Having(GroupBy(LeftJoin(items, moves, OfItem)), BadItem)
  }

  function InvoiceCheck(invoices: seq<Invoice>, apps: seq<Application>): seq<Invoice> {
    Having(GroupBy(LeftJoin(invoices, apps, OfInvoice)), BadInvoice)
  }

  function ClaimCheck(claims: seq<Claim>, apps: seq<Application>): seq<Claim> {
    Having(GroupBy(LeftJoin(claims, apps, OfClaim)), BadClaim)
  }

  function AccountCheck(accounts: seq<Account>, entries: seq<Entry>): seq<Account> {
    Having(GroupBy(LeftJoin(accounts, entries, OfAccount)), BadAccount)
  }

  /** The payment check: two subqueries, one for each side of the ledger. */
  function PaymentCheck(payments: seq<Payment>, apps: seq<Application>): seq<Payment> {
    if payments == [] then []
    else
      var p, rest := payments[0], PaymentCheck(payments[1..], apps);
      if p.applied != Posted(apps, BySource, p.id) + Posted(apps, ByTarget, p.id) then [p] + rest else rest
  }

  // ----- the column a ledger row is posted under -------------------------------------------------

  datatype Column = BySource | ByTarget | ByInvoice | ByClaim | ByAccount

  function Key(c: Column, a: Application): Option<string> {
    match c
    case BySource => Some(a.payment)
    case ByTarget => a.toPayment
    case ByInvoice => a.invoice
    case ByClaim => a.claim
    case ByAccount => a.account
  }

  /** What the ledger posts under `id` in column `c`. */
  function Posted(apps: seq<Application>, c: Column, id: string): int {
    if apps == [] then 0
    else (if Key(c, apps[0]) == Some(id) then apps[0].amount else 0) + Posted(apps[1..], c, id)
  }

  /** What the ledger posts in column `c` altogether. */
  function Total(apps: seq<Application>, c: Column): int {
    if apps == [] then 0
    else (if Key(c, apps[0]).Some? then apps[0].amount else 0) + Total(apps[1..], c)
  }

  // ----- a check reports exactly the rows that drift ---------------------------------------------

  /** The audit without a join plan: look at each row and its own ledger. */
  function Naive<P, K>(ps: seq<P>, ks: seq<K>, on: (P, K) -> bool, drifts: (P, seq<K>) -> bool): seq<P> {
    if ps == [] then []
    else if drifts(ps[0], Matching(ps[0], ks, on)) then [ps[0]] + Naive(ps[1..], ks, on, drifts)
    else Naive(ps[1..], ks, on, drifts)
  }

  /** It reports every drifting row as often as it is there, and no other. */
  lemma {:induction false} NaiveReports<P, K>(ps: seq<P>, ks: seq<K>, on: (P, K) -> bool, drifts: (P, seq<K>) -> bool,
                                              p: P)
    ensures multiset(Naive(ps, ks, on, drifts))[p] == if drifts(p, Matching(p, ks, on)) then multiset(ps)[p] else 0
  {
    if ps != [] {
      MultisetHead(ps);
      NaiveReports(ps[1..], ks, on, drifts, p);
      if drifts(ps[0], Matching(ps[0], ks, on)) {
        MultisetCons(ps[0], Naive(ps[1..], ks, on, drifts));
      }
    }
  }

  lemma {:induction false} HavingIsNaive<P, K>(ps: seq<P>, ks: seq<K>, on: (P, K) -> bool,
                                               bad: (P, seq<Option<K>>) -> bool, drifts: (P, seq<K>) -> bool)
    requires forall p :: p in ps ==> bad(p, Cells(p, ks, on)) == drifts(p, Matching(p, ks, on))
    ensures Having(EachWithItsCells(ps, ks, on), bad) == Naive(ps, ks, on, drifts)
  {
    if ps != [] {
      assert EachWithItsCells(ps, ks, on)[1..] == EachWithItsCells(ps[1..], ks, on);
      HavingIsNaive(ps[1..], ks, on, bad, drifts);
    }
  }

  /** Left join, group by, having: exactly the parents that drift, as long as the aggregate a check looks at
      says of each parent what its own ledger says. */
  lemma CheckIsNaive<P, K>(ps: seq<P>, ks: seq<K>, on: (P, K) -> bool, bad: (P, seq<Option<K>>) -> bool,
                           drifts: (P, seq<K>) -> bool)
    requires Distinct(ps)
    requires forall p :: p in ps ==> bad(p, Cells(p, ks, on)) == drifts(p, Matching(p, ks, on))
    ensures Having(GroupBy(LeftJoin(ps, ks, on)), bad) == Naive(ps, ks, on, drifts)
  {
    GroupedLeftJoin(ps, ks, on);
    HavingIsNaive(ps, ks, on, bad, drifts);
  }

  predicate ItemDrifts(i: Item, own: seq<Movement>) {
    i.onHand != Sum(own, OnHandDiff) || i.promised != Sum(own, PromisedDiff)
  }

  predicate InvoiceDrifts(i: Invoice, own: seq<Application>) { i.applied != Sum(own, Applied) }

  predicate ClaimDrifts(c: Claim, own: seq<Application>) { c.applied != Sum(own, Applied) }

  predicate AccountDrifts(c: Account, own: seq<Entry>) { c.balance != Sum(own, EntryAmount) }

  lemma ItemCheckExact(items: seq<Item>, moves: seq<Movement>)
    requires forall i, j :: 0 <= i < j < |items| ==> items[i].id != items[j].id
    ensures ItemCheck(items, moves) == Naive(items, moves, OfItem, ItemDrifts)
  {
    forall i | i in items
      ensures BadItem(i, Cells(i, moves, OfItem)) == ItemDrifts(i, Matching(i, moves, OfItem))
    {
      SumOfCells(i, moves, OfItem, OnHandDiff);
      SumOfCells(i, moves, OfItem, PromisedDiff);
    }
    CheckIsNaive(items, moves, OfItem, BadItem, ItemDrifts);
  }

  lemma InvoiceCheckExact(invoices: seq<Invoice>, apps: seq<Application>)
    requires forall i, j :: 0 <= i < j < |invoices| ==> invoices[i].id != invoices[j].id
    ensures InvoiceCheck(invoices, apps) == Naive(invoices, apps, OfInvoice, InvoiceDrifts)
  {
    forall i | i in invoices
      ensures BadInvoice(i, Cells(i, apps, OfInvoice)) == InvoiceDrifts(i, Matching(i, apps, OfInvoice))
    {
      SumOfCells(i, apps, OfInvoice, Applied);
    }
    CheckIsNaive(invoices, apps, OfInvoice, BadInvoice, InvoiceDrifts);
  }

  lemma ClaimCheckExact(claims: seq<Claim>, apps: seq<Application>)
    requires forall i, j :: 0 <= i < j < |claims| ==> claims[i].id != claims[j].id
    ensures ClaimCheck(claims, apps) == Naive(claims, apps, OfClaim, ClaimDrifts)
  {
    forall c | c in claims
      ensures BadClaim(c, Cells(c, apps, OfClaim)) == ClaimDrifts(c, Matching(c, apps, OfClaim))
    {
      SumOfCells(c, apps, OfClaim, Applied);
    }
    CheckIsNaive(claims, apps, OfClaim, BadClaim, ClaimDrifts);
  }

  lemma AccountCheckExact(accounts: seq<Account>, entries: seq<Entry>)
    requires forall i, j :: 0 <= i < j < |accounts| ==> accounts[i].id != accounts[j].id
    ensures AccountCheck(accounts, entries) == Naive(accounts, entries, OfAccount, AccountDrifts)
  {
    forall c | c in accounts
      ensures BadAccount(c, Cells(c, entries, OfAccount)) == AccountDrifts(c, Matching(c, entries, OfAccount))
    {
      SumOfCells(c, entries, OfAccount, EntryAmount);
    }
    CheckIsNaive(accounts, entries, OfAccount, BadAccount, AccountDrifts);
  }

  // ----- conservation ----------------------------------------------------------------------------

  /** The constraints the database keeps: primary keys, foreign keys, one target per application. */
  ghost predicate WellFormed(payments: seq<Payment>, invoices: seq<Invoice>, claims: seq<Claim>,
                             apps: seq<Application>) {
    && (forall i, j :: 0 <= i < j < |payments| ==> payments[i].id != payments[j].id)
    && (forall i, j :: 0 <= i < j < |invoices| ==> invoices[i].id != invoices[j].id)
    && (forall i, j :: 0 <= i < j < |claims| ==> claims[i].id != claims[j].id)
    && forall k :: 0 <= k < |apps| ==>
         && SingleTarget(apps[k])
         && (exists i :: 0 <= i < |payments| && payments[i].id == apps[k].payment)
         && (apps[k].toPayment.Some? ==> exists i :: 0 <= i < |payments| && payments[i].id == apps[k].toPayment.value)
         && (apps[k].invoice.Some? ==> exists i :: 0 <= i < |invoices| && invoices[i].id == apps[k].invoice.value)
         && (apps[k].claim.Some? ==> exists i :: 0 <= i < |claims| && claims[i].id == apps[k].claim.value)
  }

  /** The sum of what the ledger posts under each of `ids`. */
  function PostedUnder(apps: seq<Application>, c: Column, ids: seq<string>): int {
    if ids == [] then 0 else Posted(apps, c, ids[0]) + PostedUnder(apps, c, ids[1..])
  }

  lemma {:induction false} PostedUnderStep(apps: seq<Application>, c: Column, ids: seq<string>)
    requires apps != [] && forall i, j :: 0 <= i < j < |ids| ==> ids[i] != ids[j]
    ensures PostedUnder(apps, c, ids)
            == PostedUnder(apps[1..], c, ids)
               + if Key(c, apps[0]).Some? && Key(c, apps[0]).value in ids then apps[0].amount else 0
  {
    if ids != [] {
      PostedUnderStep(apps, c, ids[1..]);
      assert ids == [ids[0]] + ids[1..];
    }
  }

  /** Summing a column parent by parent is summing it row by row, when every key names one parent. */
  lemma {:induction false} PostedUnderAll(apps: seq<Application>, c: Column, ids: seq<string>)
    requires forall i, j :: 0 <= i < j < |ids| ==> ids[i] != ids[j]
    requires forall k :: 0 <= k < |apps| && Key(c, apps[k]).Some? ==> Key(c, apps[k]).value in ids
    ensures PostedUnder(apps, c, ids) == Total(apps, c)
    decreases |apps|
  {
    if apps == [] {
      NothingPosted(c, ids);
    } else {
      PostedUnderStep(apps, c, ids);
      PostedUnderAll(apps[1..], c, ids);
    }
  }

  lemma {:induction false} NothingPosted(c: Column, ids: seq<string>)
    ensures PostedUnder([], c, ids) == 0
  {
    if ids != [] {
      NothingPosted(c, ids[1..]);
    }
  }

  lemma {:induction false} MatchingIsPosted(apps: seq<Application>, id: string)
    ensures forall i: Invoice :: i.id == id ==>
      Sum(Matching(i, apps, OfInvoice), Applied) == Posted(apps, ByInvoice, id)
    ensures forall c: Claim :: c.id == id ==> Sum(Matching(c, apps, OfClaim), Applied) == Posted(apps, ByClaim, id)
  {
    if apps != [] {
      MatchingIsPosted(apps[1..], id);
    }
  }

  function Ids<P>(rows: seq<P>, id: P -> string): (ids: seq<string>)
    ensures |ids| == |rows| && forall i :: 0 <= i < |rows| ==> ids[i] == id(rows[i])
  {
    seq(|rows|, i requires 0 <= i < |rows| => id(rows[i]))
  }

  function PaymentId(p: Payment): string { p.id }
  function InvoiceId(i: Invoice): string { i.id }
  function ClaimId(c: Claim): string { c.id }

  function PaymentTotal(p: Payment): int { p.applied }
  function InvoiceTotal(i: Invoice): int { i.applied }
  function ClaimTotal(c: Claim): int { c.applied }

  lemma {:induction false} PaymentsPost(payments: seq<Payment>, apps: seq<Application>)
    requires PaymentCheck(payments, apps) == []
    ensures Sum(payments, PaymentTotal)
            == PostedUnder(apps, BySource, Ids(payments, PaymentId))
               + PostedUnder(apps, ByTarget, Ids(payments, PaymentId))
  {
    if payments != [] {
      PaymentsPost(payments[1..], apps);
      assert Ids(payments, PaymentId)[1..] == Ids(payments[1..], PaymentId);
    }
  }

  lemma {:induction false} InvoicesPost(invoices: seq<Invoice>, apps: seq<Application>)
    requires Naive(invoices, apps, OfInvoice, InvoiceDrifts) == []
    ensures Sum(invoices, InvoiceTotal) == PostedUnder(apps, ByInvoice, Ids(invoices, InvoiceId))
  {
    if invoices != [] {
      MatchingIsPosted(apps, invoices[0].id);
      InvoicesPost(invoices[1..], apps);
      assert Ids(invoices, InvoiceId)[1..] == Ids(invoices[1..], InvoiceId);
    }
  }

  lemma {:induction false} ClaimsPost(claims: seq<Claim>, apps: seq<Application>)
    requires Naive(claims, apps, OfClaim, ClaimDrifts) == []
    ensures Sum(claims, ClaimTotal) == PostedUnder(apps, ByClaim, Ids(claims, ClaimId))
  {
    if claims != [] {
      MatchingIsPosted(apps, claims[0].id);
      ClaimsPost(claims[1..], apps);
      assert Ids(claims, ClaimId)[1..] == Ids(claims[1..], ClaimId);
    }
  }

  lemma {:induction false} OneTargetEach(apps: seq<Application>)
    requires forall k :: 0 <= k < |apps| ==> SingleTarget(apps[k])
    ensures Total(apps, BySource)
            == Total(apps, ByInvoice) + Total(apps, ByClaim) + Total(apps, ByAccount) + Total(apps, ByTarget)
  {
    if apps != [] {
      OneTargetEach(apps[1..]);
    }
  }

  lemma ColumnAddsUp<P>(apps: seq<Application>, c: Column, rows: seq<P>, id: P -> string)
    requires forall i, j :: 0 <= i < j < |rows| ==> id(rows[i]) != id(rows[j])
    requires forall k :: 0 <= k < |apps| && Key(c, apps[k]).Some? ==> Key(c, apps[k]).value in Ids(rows, id)
    ensures PostedUnder(apps, c, Ids(rows, id)) == Total(apps, c)
  {
    PostedUnderAll(apps, c, Ids(rows, id));
  }

  /** With the constraints kept, every column adds up parent by parent. */
  lemma ColumnsAddUp(payments: seq<Payment>, invoices: seq<Invoice>, claims: seq<Claim>, apps: seq<Application>)
    requires WellFormed(payments, invoices, claims, apps)
    ensures PostedUnder(apps, BySource, Ids(payments, PaymentId)) == Total(apps, BySource)
    ensures PostedUnder(apps, ByTarget, Ids(payments, PaymentId)) == Total(apps, ByTarget)
    ensures PostedUnder(apps, ByInvoice, Ids(invoices, InvoiceId)) == Total(apps, ByInvoice)
    ensures PostedUnder(apps, ByClaim, Ids(claims, ClaimId)) == Total(apps, ByClaim)
  {
    ForeignKeys(payments, invoices, claims, apps);
    ColumnAddsUp(apps, BySource, payments, PaymentId);
    ColumnAddsUp(apps, ByTarget, payments, PaymentId);
    ColumnAddsUp(apps, ByInvoice, invoices, InvoiceId);
    ColumnAddsUp(apps, ByClaim, claims, ClaimId);
  }

  lemma ChecksPost(payments: seq<Payment>, invoices: seq<Invoice>, claims: seq<Claim>, apps: seq<Application>)
    requires WellFormed(payments, invoices, claims, apps)
    requires PaymentCheck(payments, apps) == [] && InvoiceCheck(invoices, apps) == [] && ClaimCheck(claims, apps) == []
    ensures Sum(payments, PaymentTotal) == Total(apps, BySource) + Total(apps, ByTarget)
    ensures Sum(invoices, InvoiceTotal) == Total(apps, ByInvoice) && Sum(claims, ClaimTotal) == Total(apps, ByClaim)
  {
    InvoiceCheckExact(invoices, apps);
    ClaimCheckExact(claims, apps);
    PaymentsPost(payments, apps);
    InvoicesPost(invoices, apps);
    ClaimsPost(claims, apps);
    ColumnsAddUp(payments, invoices, claims, apps);
  }

  /** What three passing checks say together: every cent the payments claim to have applied is on an
      invoice, on a claim, in an account, or netted between two payments and so counted on both. */
  lemma Conservation(payments: seq<Payment>, invoices: seq<Invoice>, claims: seq<Claim>, apps: seq<Application>)
    requires WellFormed(payments, invoices, claims, apps)
    requires PaymentCheck(payments, apps) == [] && InvoiceCheck(invoices, apps) == [] && ClaimCheck(claims, apps) == []
    ensures Sum(payments, PaymentTotal)
            == Sum(invoices, InvoiceTotal) + Sum(claims, ClaimTotal)
               + Total(apps, ByAccount) + 2 * Total(apps, ByTarget)
  {
    ChecksPost(payments, invoices, claims, apps);
    OneTargetEach(apps);
  }

  lemma ForeignKeys(payments: seq<Payment>, invoices: seq<Invoice>, claims: seq<Claim>, apps: seq<Application>)
    requires WellFormed(payments, invoices, claims, apps)
    ensures forall k :: 0 <= k < |apps| ==>
      && apps[k].payment in Ids(payments, PaymentId)
      && (apps[k].toPayment.Some? ==> apps[k].toPayment.value in Ids(payments, PaymentId))
      && (apps[k].invoice.Some? ==> apps[k].invoice.value in Ids(invoices, InvoiceId))
      && (apps[k].claim.Some? ==> apps[k].claim.value in Ids(claims, ClaimId))
  {
    forall i | 0 <= i < |payments| ensures payments[i].id in Ids(payments, PaymentId) {
      assert Ids(payments, PaymentId)[i] == payments[i].id;
    }
    forall i | 0 <= i < |invoices| ensures invoices[i].id in Ids(invoices, InvoiceId) {
      assert Ids(invoices, InvoiceId)[i] == invoices[i].id;
    }
    forall i | 0 <= i < |claims| ensures claims[i].id in Ids(claims, ClaimId) {
      assert Ids(claims, ClaimId)[i] == claims[i].id;
    }
  }

  // ----- why the payment check has two subqueries ------------------------------------------------

  predicate PaidFrom(p: Payment, a: Application) { a.payment == p.id }
  predicate NettedAgainst(p: Payment, a: Application) { a.toPayment == Some(p.id) }

  /** What one query joining both sides at once would sum for a payment. */
  function JoinedAtOnce(p: Payment, apps: seq<Application>): int {
    SumBoth(CrossCells(Cells(p, apps, PaidFrom), Cells(p, apps, NettedAgainst)), Applied, Applied)
  }

  lemma {:induction false} SidesArePosted(p: Payment, apps: seq<Application>)
    ensures Sum(Matching(p, apps, PaidFrom), Applied) == Posted(apps, BySource, p.id)
    ensures Sum(Matching(p, apps, NettedAgainst), Applied) == Posted(apps, ByTarget, p.id)
  {
    if apps != [] {
      SidesArePosted(p, apps[1..]);
    }
  }

  /** The single join would agree with the ledger exactly when its fan-out adds nothing: each side is
      counted once for every row of the other, so the extra copies must cancel. */
  lemma JoinedAtOnceIsRightIff(p: Payment, apps: seq<Application>)
    ensures var paid, netted := Posted(apps, BySource, p.id), Posted(apps, ByTarget, p.id);
            var n, m := |Cells(p, apps, PaidFrom)|, |Cells(p, apps, NettedAgainst)|;
            JoinedAtOnce(p, apps) == paid + netted <==> (m - 1) * paid + (n - 1) * netted == 0
  {
    FanOut(Cells(p, apps, PaidFrom), Cells(p, apps, NettedAgainst), Applied, Applied);
    SumOfCells(p, apps, PaidFrom, Applied);
    SumOfCells(p, apps, NettedAgainst, Applied);
    SidesArePosted(p, apps);
  }

  /** What a payment paid out, and what was netted against it. */
  predicate PaymentDrifts(p: Payment, apps: seq<Application>) {
    p.applied != Sum(Matching(p, apps, PaidFrom), Applied) + Sum(Matching(p, apps, NettedAgainst), Applied)
  }

  /** The payment check reports exactly the payments whose stored total differs from both sides of their own
      ledger together. */
  lemma {:induction false} PaymentCheckExact(payments: seq<Payment>, apps: seq<Application>, p: Payment)
    ensures multiset(PaymentCheck(payments, apps))[p] == if PaymentDrifts(p, apps) then multiset(payments)[p] else 0
  {
    if payments != [] {
      MultisetHead(payments);
      SidesArePosted(payments[0], apps);
      PaymentCheckExact(payments[1..], apps, p);
      if PaymentDrifts(payments[0], apps) {
        MultisetCons(payments[0], PaymentCheck(payments[1..], apps));
      }
    }
  }
}
