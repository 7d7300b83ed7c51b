/**
 * Applying payments to bills: the mobile-money gateway's payment
 * notifications, payments recorded by hand (cash and the like), and the query
 * that looks a payment up by its transaction identifier.
 *
 * A bill is updated in place (`Bill.RecordPayment`) exactly as the pure
 * `ApplyPayment` describes; the handlers look bills up in a store keyed by
 * bill identifier. The clock is a parameter, amounts are whole shillings, and
 * SMS messages are returned as values rather than sent.
 */
module PaymentWebhook {
  import opened Util
  import opened Billing
  import opened UssdMenu

  /** One entry of a bill's payment history. */
  datatype PaymentEntry = PaymentEntry(
    amount: int,
    date: int,
    paymentMethod: string,
    transactionId: Option<string>,
    notes: Option<string>)

  /** A user as the populated `tenant` and `landlord` references carry it. */
  datatype Contact = Contact(name: string, apartmentName: string, phone: string)

  /** A value snapshot of a bill as the payment handlers see it. */
  datatype BillRecord = BillRecord(
    id: string,
    tenant: Contact,
    landlord: Option<Contact>,
    month: string,
    year: int,
    amount: int,
    paidAmount: int,
    remainingAmount: int,
    status: BillStatus,
    paymentDate: Option<int>,
    paymentHistory: seq<PaymentEntry>)

  /** The balance relation the manual path keeps: what remains is what was billed less what was paid. */
  predicate Balanced(b: BillRecord) {
    b.remainingAmount == b.amount - b.paidAmount
  }

  function SumAmounts(entries: seq<PaymentEntry>): int {
    if entries == [] then 0 else SumAmounts(entries[..|entries| - 1]) + entries[|entries| - 1].amount
  }

  /** `paidAmount` accounts for exactly the recorded payments. */
  predicate PaidMatchesHistory(b: BillRecord) {
    b.paidAmount == SumAmounts(b.paymentHistory)
  }

  /**
   * One payment applied to a bill: the amount is added to `paidAmount`, the
   * remaining balance is recomputed and never negative, the entry is appended
   * to the history, and the bill becomes Paid (with today's payment date)
   * exactly when nothing remains, Partial otherwise.
   */
  function ApplyPayment(b: BillRecord, entry: PaymentEntry, now: int): (r: BillRecord)
    ensures r.paidAmount == b.paidAmount + entry.amount
    ensures r.remainingAmount >= 0 && r.remainingAmount >= b.amount - r.paidAmount
    ensures r.remainingAmount > 0 ==> r.remainingAmount == b.amount - r.paidAmount
    ensures r.status == Paid <==> r.remainingAmount == 0
    ensures r.status == Paid ==> r.paymentDate == Some(now)
    ensures r.status != Paid ==> r.status == Partial && r.paymentDate == b.paymentDate
    ensures |r.paymentHistory| == |b.paymentHistory| + 1
    ensures r.paymentHistory[..|b.paymentHistory|] == b.paymentHistory
    ensures r.paymentHistory[|b.paymentHistory|] == entry
    ensures r.id == b.id && r.tenant == b.tenant && r.landlord == b.landlord
    ensures r.month == b.month && r.year == b.year && r.amount == b.amount
  {
    var paid := b.paidAmount + entry.amount;
    var remaining := Max(0, b.amount - paid);
    var history := b.paymentHistory + [entry];
    if remaining == 0 then
      b.(paidAmount := paid, remainingAmount := remaining, paymentHistory := history,
         status := Paid, paymentDate := Some(now))
    else
      b.(paidAmount := paid, remainingAmount := remaining, paymentHistory := history, status := Partial)
  }

  /** A bill record, updated in place. */
  class Bill {
    const id: string
    const tenant: Contact
    const landlord: Option<Contact>
    const month: string
    const year: int
    const amount: int
    var paidAmount: int
    var remainingAmount: int
    var status: BillStatus
    var paymentDate: Option<int>
    var paymentHistory: seq<PaymentEntry>

    function State(): BillRecord
      reads this
    {
      BillRecord(id, tenant, landlord, month, year, amount, paidAmount, remainingAmount, status, paymentDate, paymentHistory)
    }

    constructor (r: BillRecord)
      ensures State() == r
    {
      id := r.id;
      tenant := r.tenant;
      landlord := r.landlord;
      month := r.month;
      year := r.year;
      amount := r.amount;
      paidAmount := r.paidAmount;
      remainingAmount := r.remainingAmount;
      status := r.status;
      paymentDate := r.paymentDate;
      paymentHistory := r.paymentHistory;
    }

    /** The update both payment paths perform before saving the bill. */
    method RecordPayment(entry: PaymentEntry, now: int)
      modifies this
      ensures State() == ApplyPayment(old(State()), entry, now)
    {
      paidAmount := paidAmount + entry.amount;
      remainingAmount := Max(0, amount - paidAmount);
      paymentHistory := paymentHistory + [entry];
      if remainingAmount == 0 {
        status := Paid;
        paymentDate := Some(now);
      } else {
        status := Partial;
      }
    }
  }

  /** The SMS messages a recorded payment sends. */
  datatype PaymentSms =
    | PaymentConfirmation(to: Contact, amount: int, month: string, year: int, balance: int)
    | LandlordReceipt(to: Contact, tenant: Contact, amount: int, month: string, year: int, remaining: int)

  /** The tenant's confirmation, quoting the balance after the payment. */
  function Confirmation(b: BillRecord, amount: int): PaymentSms {
    PaymentConfirmation(b.tenant, amount, b.month, b.year, b.remainingAmount)
  }

  // ---------------------------------------------------------------------------
  // Gateway notifications

  /** The body of a payment notification; `billId` comes from its metadata. */
  datatype Notification = Notification(
    transactionId: string,
    phoneNumber: string,
    amount: int,
    status: string,
    billId: Option<string>)

  datatype NotificationResult =
    | Processed        // 200, payment applied
    | StatusNoted      // 200, a non-success status acknowledged
    | InvalidMetadata  // 400
    | BillNotFound     // 404
    | NotificationError // 500

  function NotificationStatusCode(r: NotificationResult): int {
    match r
    case Processed | StatusNoted => 200
    case InvalidMetadata => 400
    case BillNotFound => 404
    case NotificationError => 500
  }

  /** `metadata?.billId`, where a missing or empty identifier counts as absent. */
  function NotifiedBillId(n: Notification): (r: Option<string>)
    ensures r.Some? <==> n.billId.Some? && n.billId.value != ""
    ensures r.Some? ==> r == n.billId
  {
    if n.billId.Some? && n.billId.value != "" then n.billId else None
  }

  /** The history entry a successful notification records. */
  function GatewayEntry(n: Notification, now: int): (e: PaymentEntry)
    ensures e.amount == n.amount && e.paymentMethod == "M-Pesa" && e.transactionId == Some(n.transactionId)
  {
    PaymentEntry(n.amount, now, "M-Pesa", Some(n.transactionId), None)
  }

  /** The request reaches a bill: a success status, a bill identifier, and a bill under it. */
  predicate NotificationApplies(n: Notification, store: map<string, Bill>) {
    n.status == "Success" && NotifiedBillId(n).Some? && NotifiedBillId(n).value in store
  }

  /** The result of a notification that does not reach a bill. */
  function Rejection(n: Notification, store: map<string, Bill>): NotificationResult {
    if n.status != "Success" then StatusNoted
    else if NotifiedBillId(n).None? then InvalidMetadata
    else BillNotFound
  }

  /**
   * `handlePaymentNotification`: a non-success status is acknowledged, a
   * missing bill identifier is a 400, an unknown bill a 404; otherwise the
   * payment is applied to that bill alone, the tenant is sent a confirmation
   * and the landlord a receipt. A bill without a landlord fails with a 500
   * after the bill is saved and the tenant notified.
   */
  method HandlePaymentNotification(n: Notification, store: map<string, Bill>, now: int)
    returns (result: NotificationResult, sms: seq<PaymentSms>)
    modifies store.Values
    ensures !NotificationApplies(n, store) ==>
      result == Rejection(n, store) && sms == [] && forall b :: b in store.Values ==> b.State() == old(b.State())
    ensures NotificationApplies(n, store) ==>
      var bill := store[NotifiedBillId(n).value];
      && bill.State() == ApplyPayment(old(bill.State()), GatewayEntry(n, now), now)
      && (forall b :: b in store.Values && b != bill ==> b.State() == old(b.State()))
      && sms == [Confirmation(bill.State(), n.amount)]
           + (if bill.landlord.Some?
              then [LandlordReceipt(bill.landlord.value, bill.tenant, n.amount, bill.month, bill.year, bill.remainingAmount)]
              else [])
      && result == (if bill.landlord.Some? then Processed else NotificationError)
  {
    if n.status != "Success" {
      result, sms := StatusNoted, [];
      return;
    }
    var billId := NotifiedBillId(n);
    if billId.None? {
      result, sms := InvalidMetadata, [];
      return;
    }
    if billId.value !in store {
      result, sms := BillNotFound, [];
      return;
    }
    var bill := store[billId.value];
    bill.RecordPayment(GatewayEntry(n, now), now);
    sms := [Confirmation(bill.State(), n.amount)];
    if bill.landlord.None? {
      result := NotificationError;
      return;
    }
    sms := sms + [LandlordReceipt(bill.landlord.value, bill.tenant, n.amount, bill.month, bill.year, bill.remainingAmount)];
    result := Processed;
  }

  // ---------------------------------------------------------------------------
  // Manual payments

  datatype ManualRequest = ManualRequest(billId: string, amount: int, paymentMethod: Option<string>, notes: Option<string>)

  datatype ManualResult =
    | Recorded(id: string, paidAmount: int, remainingAmount: int, status: BillStatus) // 200
    | ManualBillNotFound                                                           // 404
    | InvalidPaymentAmount                                                         // 400

  function ManualStatusCode(r: ManualResult): int {
    match r
    case Recorded(_, _, _, _) => 200
    case ManualBillNotFound => 404
    case InvalidPaymentAmount => 400
  }

  /** `method || 'Cash'` */
  function MethodOrCash(given: Option<string>): (m: string)
    ensures given.Some? && given.value != "" ==> m == given.value
    ensures given.None? || given.value == "" ==> m == "Cash"
  {
    if given.Some? && given.value != "" then given.value else "Cash"
  }

  /** The history entry a manual payment records. */
  function ManualEntry(req: ManualRequest, now: int): (e: PaymentEntry)
    ensures e.amount == req.amount && e.paymentMethod == MethodOrCash(req.paymentMethod) && e.transactionId.None? && e.notes == req.notes
  {
    PaymentEntry(req.amount, now, MethodOrCash(req.paymentMethod), None, req.notes)
  }

  /** The manual path accepts an amount in (0, remaining]. */
  predicate AcceptableAmount(amount: int, b: BillRecord) {
    0 < amount <= b.remainingAmount
  }

  /**
   * `recordManualPayment`: an unknown bill is a 404 and an amount outside
   * (0, remaining] a 400, both without touching any bill; otherwise the
   * payment is applied, the tenant is sent a confirmation, and the reply
   * reports the bill's new totals and status.
   */
  method RecordManualPayment(req: ManualRequest, store: map<string, Bill>, now: int)
    returns (result: ManualResult, sms: seq<PaymentSms>)
    modifies store.Values
    ensures req.billId !in store ==>
      result == ManualBillNotFound && sms == [] && forall b :: b in store.Values ==> b.State() == old(b.State())
    ensures req.billId in store && !AcceptableAmount(req.amount, old(store[req.billId].State())) ==>
      result == InvalidPaymentAmount && sms == [] && forall b :: b in store.Values ==> b.State() == old(b.State())
    ensures req.billId in store && AcceptableAmount(req.amount, old(store[req.billId].State())) ==>
      var bill := store[req.billId];
      && bill.State() == ApplyPayment(old(bill.State()), ManualEntry(req, now), now)
      && (forall b :: b in store.Values && b != bill ==> b.State() == old(b.State()))
      && sms == [Confirmation(bill.State(), req.amount)]
      && result == Recorded(bill.id, bill.paidAmount, bill.remainingAmount, bill.status)
  {
    if req.billId !in store {
      result, sms := ManualBillNotFound, [];
      return;
    }
    var bill := store[req.billId];
    if req.amount <= 0 || req.amount > bill.remainingAmount {
      result, sms := InvalidPaymentAmount, [];
      return;
    }
    bill.RecordPayment(ManualEntry(req, now), now);
    sms := [Confirmation(bill.State(), req.amount)];
    result := Recorded(bill.id, bill.paidAmount, bill.remainingAmount, bill.status);
  }

  // ---------------------------------------------------------------------------
  // Payment status query

  datatype QueryResult =
    | Completed(transactionId: string, amount: int, date: int, paymentMethod: string, tenant: string, bill: string) // 200
    | TransactionNotFound                                                                                 // 404

  predicate HasTransaction(e: PaymentEntry, transactionId: string) {
    e.transactionId == Some(transactionId)
  }

  predicate BillHasTransaction(b: BillRecord, transactionId: string) {
    exists e :: e in b.paymentHistory && HasTransaction(e, transactionId)
  }

  /** Entry `k` is the earliest entry of the history that carries the transaction. */
  predicate FirstWithTransaction(history: seq<PaymentEntry>, k: int, transactionId: string) {
    && 0 <= k < |history| && HasTransaction(history[k], transactionId)
    && forall j :: 0 <= j < k ==> !HasTransaction(history[j], transactionId)
  }

  /** The `bill` field of the query's reply: `${month} ${year}`. */
  function BillLabel(b: BillRecord): string {
    b.month + " " + IntToDecimal(b.year)
  }

  /** The reply reports entry `k` of bill `b`. */
  predicate ReportsEntry(r: QueryResult, b: BillRecord, k: int)
    requires r.Completed? && 0 <= k < |b.paymentHistory|
  {
    && r.amount == b.paymentHistory[k].amount && r.date == b.paymentHistory[k].date
    && r.paymentMethod == b.paymentHistory[k].paymentMethod
    && r.tenant == b.tenant.name && r.bill == BillLabel(b)
  }

  /**
   * `queryPaymentStatus` over the bills in the order the store scans them:
   * a bill with a history entry carrying the transaction identifier, and that
   * bill's first such entry; a 404 when no bill has one. The query reads the
   * same store the two payment handlers update: `bills` lists the states of
   * the `Bill` objects held in that store.
   */
  function QueryPaymentStatus(bills: seq<BillRecord>, transactionId: string): (r: QueryResult)
    ensures r.TransactionNotFound? <==> forall b :: b in bills ==> !BillHasTransaction(b, transactionId)
    ensures r.Completed? ==> r.transactionId == transactionId
    ensures r.Completed? ==>
      exists b :: (b in bills && BillHasTransaction(b, transactionId)
        && exists k :: FirstWithTransaction(b.paymentHistory, k, transactionId) && ReportsEntry(r, b, k))
  {
    var bill := FindFirst(bills, (b: BillRecord) => BillHasTransaction(b, transactionId));
    match bill
    case None => TransactionNotFound
    case Some(b) =>
      var p := (e: PaymentEntry) => HasTransaction(e, transactionId);
      var payment := FindFirst(b.paymentHistory, p);
      match payment
      case None => assert false; TransactionNotFound
      case Some(e) =>
        var r := Completed(transactionId, e.amount, e.date, e.paymentMethod, b.tenant.name, BillLabel(b));
        assert exists k :: FirstWithTransaction(b.paymentHistory, k, transactionId) && ReportsEntry(r, b, k) by {
          var k :| 0 <= k < |b.paymentHistory| && b.paymentHistory[k] == e
            && forall j :: 0 <= j < k ==> !p(b.paymentHistory[j]);
          assert FirstWithTransaction(b.paymentHistory, k, transactionId);
        }
        r
  }

  // ---------------------------------------------------------------------------
  // Properties

  /**
   * An accepted manual payment keeps a balanced bill balanced and never lets
   * the paid total exceed the billed amount.
   */
  lemma ManualPaymentKeepsBalance(b: BillRecord, entry: PaymentEntry, now: int)
    requires Balanced(b) && AcceptableAmount(entry.amount, b)
    ensures Balanced(ApplyPayment(b, entry, now))
    ensures ApplyPayment(b, entry, now).paidAmount <= ApplyPayment(b, entry, now).amount
    ensures ApplyPayment(b, entry, now).remainingAmount < b.remainingAmount
  {
  }

  /** A gateway payment larger than the balance clears it and leaves the bill overpaid. */
  lemma OverpaymentClearsBalance(b: BillRecord, entry: PaymentEntry, now: int)
    requires Balanced(b) && entry.amount > b.remainingAmount
    ensures ApplyPayment(b, entry, now).remainingAmount == 0
    ensures ApplyPayment(b, entry, now).status == Paid
    ensures ApplyPayment(b, entry, now).paidAmount > ApplyPayment(b, entry, now).amount
  {
  }

  /** Every applied payment is accounted for in the history. */
  lemma ApplyPaymentKeepsHistoryTotal(b: BillRecord, entry: PaymentEntry, now: int)
    requires PaidMatchesHistory(b)
    ensures PaidMatchesHistory(ApplyPayment(b, entry, now))
  {
    var h := ApplyPayment(b, entry, now).paymentHistory;
    assert h[..|h| - 1] == b.paymentHistory;
  }

  /** A sequence of accepted manual payments, applied in order. */
  function ApplyManualPayments(b: BillRecord, entries: seq<PaymentEntry>, now: int): BillRecord
    decreases |entries|
  {
    if entries == [] || !AcceptableAmount(entries[0].amount, b) then b
    else ApplyManualPayments(ApplyPayment(b, entries[0], now), entries[1..], now)
  }

  /**
   * However many manual payments are recorded, a balanced bill whose paid
   * total matches its history stays so, and is never overpaid.
   */
  lemma {:induction false} ManualPaymentsKeepInvariants(b: BillRecord, entries: seq<PaymentEntry>, now: int)
    requires Balanced(b) && PaidMatchesHistory(b) && b.paidAmount <= b.amount
    ensures var r := ApplyManualPayments(b, entries, now);
      Balanced(r) && PaidMatchesHistory(r) && 0 <= r.remainingAmount && r.paidAmount <= r.amount
    decreases |entries|
  {
    if entries != [] && AcceptableAmount(entries[0].amount, b) {
      ManualPaymentKeepsBalance(b, entries[0], now);
      ApplyPaymentKeepsHistoryTotal(b, entries[0], now);
      ManualPaymentsKeepInvariants(ApplyPayment(b, entries[0], now), entries[1..], now);
    }
  }

  /**
   * A payment the gateway reported can be looked up by its transaction
   * identifier once it has been applied to a bill of the store.
   */
  lemma {:induction false} NotifiedPaymentIsQueryable(bills: seq<BillRecord>, i: nat, n: Notification, now: int)
    requires i < |bills|
    ensures QueryPaymentStatus(bills[i := ApplyPayment(bills[i], GatewayEntry(n, now), now)], n.transactionId).Completed?
  {
    var applied := ApplyPayment(bills[i], GatewayEntry(n, now), now);
    var after := bills[i := applied];
    NowHasTransaction(bills[i], n, now);
    assert after[i] == applied;
  }

  /** After a gateway payment is applied, the bill carries its transaction identifier. */
  lemma NowHasTransaction(b: BillRecord, n: Notification, now: int)
    ensures BillHasTransaction(ApplyPayment(b, GatewayEntry(n, now), now), n.transactionId)
  {
    var h := ApplyPayment(b, GatewayEntry(n, now), now).paymentHistory;
    assert h[|b.paymentHistory|] in h;
  }

  /**
   * When the transaction identifier is new to the store, the query reports
   * exactly the applied payment: its amount, date, method and tenant.
   */
  lemma {:induction false} NewPaymentQueryReportsIt(bills: seq<BillRecord>, i: nat, n: Notification, now: int)
    requires i < |bills|
    requires forall b :: b in bills ==> !BillHasTransaction(b, n.transactionId)
    ensures var q := QueryPaymentStatus(bills[i := ApplyPayment(bills[i], GatewayEntry(n, now), now)], n.transactionId);
      q == Completed(n.transactionId, n.amount, now, "M-Pesa", bills[i].tenant.name, BillLabel(bills[i]))
  {
    var entry := GatewayEntry(n, now);
    var applied := ApplyPayment(bills[i], entry, now);
    var after := bills[i := applied];
    var earlier := bills[i].paymentHistory;
    assert applied.paymentHistory == earlier + [entry];
    forall j | 0 <= j < |after| && j != i
      ensures !BillHasTransaction(after[j], n.transactionId)
    {
      assert after[j] == bills[j] && bills[j] in bills;
    }
    assert after[i] == applied;
    NowHasTransaction(bills[i], n, now);
    OnlyBillWithTransaction(after, i, n.transactionId);
    assert bills[i] in bills;
    OnlyEntryWithTransaction(earlier, entry, n.transactionId);
  }

  /** When exactly one bill has the transaction, the query's bill search finds that one. */
  lemma OnlyBillWithTransaction(bills: seq<BillRecord>, i: nat, transactionId: string)
    requires i < |bills| && BillHasTransaction(bills[i], transactionId)
    requires forall j :: 0 <= j < |bills| && j != i ==> !BillHasTransaction(bills[j], transactionId)
    ensures FindFirst(bills, (b: BillRecord) => BillHasTransaction(b, transactionId)) == Some(bills[i])
  {
    var r := FindFirst(bills, (b: BillRecord) => BillHasTransaction(b, transactionId));
    assert bills[i] in bills;
    assert r.Some?;
    var k :| 0 <= k < |bills| && bills[k] == r.value;
    assert BillHasTransaction(bills[k], transactionId);
  }

  /** In a history whose only matching entry is the last one, the search finds it. */
  lemma OnlyEntryWithTransaction(history: seq<PaymentEntry>, entry: PaymentEntry, transactionId: string)
    requires HasTransaction(entry, transactionId)
    requires forall e :: e in history ==> !HasTransaction(e, transactionId)
    ensures FindFirst(history + [entry], (e: PaymentEntry) => HasTransaction(e, transactionId)) == Some(entry)
  {
    var h := history + [entry];
    var p := (e: PaymentEntry) => HasTransaction(e, transactionId);
    var r := FindFirst(h, p);
    assert h[|history|] == entry;
    assert p(entry);
    assert r.Some?;
    var k :| 0 <= k < |h| && h[k] == r.value;
    if k < |history| {
      assert h[k] in history;
    }
  }

  /** In a history where the transaction first appears at `e1`, later entries do not change what the search finds. */
  lemma FirstOfTwoWithTransaction(history: seq<PaymentEntry>, e1: PaymentEntry, e2: PaymentEntry, transactionId: string)
    requires HasTransaction(e1, transactionId)
    requires forall e :: e in history ==> !HasTransaction(e, transactionId)
    ensures FindFirst(history + [e1] + [e2], (e: PaymentEntry) => HasTransaction(e, transactionId)) == Some(e1)
  {
    var p := (e: PaymentEntry) => HasTransaction(e, transactionId);
    OnlyEntryWithTransaction(history, e1, transactionId);
    FindFirstAppend(history + [e1], [e2], p);
  }

  /**
   * A notification delivered twice is applied twice, and the query then
   * reports the first of the two payments, with its date.
   */
  lemma RedeliveryReportsFirstPayment(b: BillRecord, n: Notification, now1: int, now2: int)
    requires !BillHasTransaction(b, n.transactionId)
    ensures var twice := ApplyPayment(ApplyPayment(b, GatewayEntry(n, now1), now1), GatewayEntry(n, now2), now2);
      && twice.paidAmount == b.paidAmount + 2 * n.amount
      && QueryPaymentStatus([twice], n.transactionId)
         == Completed(n.transactionId, n.amount, now1, "M-Pesa", b.tenant.name, BillLabel(b))
  {
    var e1, e2 := GatewayEntry(n, now1), GatewayEntry(n, now2);
    var once := ApplyPayment(b, e1, now1);
    var twice := ApplyPayment(once, e2, now2);
    assert twice.paymentHistory == b.paymentHistory + [e1] + [e2];
    FirstOfTwoWithTransaction(b.paymentHistory, e1, e2, n.transactionId);
    NowHasTransaction(once, n, now2);
    OnlyBillWithTransaction([twice], 0, n.transactionId);
  }
}
