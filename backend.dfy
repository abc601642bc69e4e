/** The two settlement entry points, `submitInvoicePayment` and `markInvoiceAsPaid`, over
    a ledger made of the document store, the payment collection and the log of calls made
    to the payment processor. */
module Backend {
  import opened Wrappers
  import opened Entities
  import opened ServiceRequests
  import opened Payments
  import opened Invoices
  import opened Store
  import opened Fees
  import opened Hydration
  import opened InvoiceAggregation
  import opened Settlement

  /** A call to the payment processor: one charge of the paying party's funding source,
      or one transfer of part of a charge to a payout account. Both carry the invoice id
      as their group key. */
  datatype ProcessorEvent =
    | Charge(invoiceId: Id, cents: int, source: Id)
    | Payout(invoiceId: Id, cents: int, destination: Id)

  datatype Ledger = Ledger(db: Db, payments: seq<PaymentDoc>, events: seq<ProcessorEvent>)

  datatype SubmitError =
    | NoPayer              // the payer is not a user
    | AlreadyPaid          // the payer already has a payment for the invoice
    | Internal             // the rejection message could not be built: the payer has no manager profile
    | NoPaymentApprover    // an approver id was given but is not a user
    | NoPaymentMethod      // the charging party has no customer or no default source
    | NoInvoice            // the invoice does not exist
    | NoInvoicePayer       // the payer is not among the invoice payers
    | NoServiceProviders   // no transfer could be computed

  datatype MarkError =
    | InvoiceNotFound
    | AlreadyFullyPaid
    | NoInvoicePayers
    | NotAuthorized

  // ---------------------------------------------------------------- queries

  /** Whether the payment collection holds a payment of `payerId` for `invoiceId`. */
  predicate HasPayment(payments: seq<PaymentDoc>, invoiceId: Id, payerId: Id)
  {
    exists p :: p in payments && p.invoiceId == invoiceId && p.payerId == payerId
  }

  /** The number of payments recorded for `invoiceId`. */
  function PaymentCount(payments: seq<PaymentDoc>, invoiceId: Id): nat
    decreases |payments|
  {
    if payments == [] then 0
    else PaymentCount(payments[..|payments| - 1], invoiceId)
         + (if payments[|payments| - 1].invoiceId == invoiceId then 1 else 0)
  }

  /** `payers.find(value => value.userId === payerId)`. */
  function FindPayer(payers: seq<HorseManager>, payerId: Id): (p: Option<HorseManager>)
    ensures p.Some? ==> p.value in payers && p.value.userId == payerId
    ensures p.None? <==> !HasSameHorseManager(payerId, payers)
    decreases |payers|
  {
    if payers == [] then None
    else if payers[0].userId == payerId then Some(payers[0])
    else
      var p := FindPayer(payers[1..], payerId);
      assert forall m :: m in payers ==> m == payers[0] || m in payers[1..];
      p
  }

  function Uids(rs: seq<ServiceRequest>): (ids: seq<Id>)
    ensures |ids| == |rs| && forall k :: 0 <= k < |rs| ==> ids[k] == rs[k].uid
  {
    seq(|rs|, k requires 0 <= k < |rs| => rs[k].uid)
  }

  // ---------------------------------------------------------------- full settlement

  /** The batch that marks requests paid: every listed request in the store gets status
      paid; nothing else changes. */
  function MarkRequestsPaid(requests: map<Id, RequestDoc>, ids: seq<Id>): (m: map<Id, RequestDoc>)
    ensures m.Keys == requests.Keys
    ensures forall id :: id in m ==> m[id] == if id in ids then requests[id].(status := Some(Paid)) else requests[id]
    decreases |ids|
  {
    if ids == [] then requests
    else
      var prev := MarkRequestsPaid(requests, ids[..|ids| - 1]);
      var id := ids[|ids| - 1];
      assert forall x :: x in ids <==> x in ids[..|ids| - 1] || x == id by {
        assert ids == ids[..|ids| - 1] + [id];
      }
      if id in prev then prev[id := prev[id].(status := Some(Paid))] else prev
  }

  /** Full settlement: every request of the invoice paid, the invoice fully paid at `now`. */
  function SettleStatuses(db: Db, inv: Invoice, now: int): (d: Db)
    requires inv.uid in db.invoices
    ensures d.invoices == db.invoices[inv.uid := db.invoices[inv.uid].(status := FullPaid, paidAt := Some(now))]
    ensures d.requests == MarkRequestsPaid(db.requests, Uids(inv.requests))
    ensures d.users == db.users && d.horses == db.horses && d.horseOwners == db.horseOwners
    ensures d.shows == db.shows && d.paymentApprovers == db.paymentApprovers
  {
    db.(requests := MarkRequestsPaid(db.requests, Uids(inv.requests)),
        invoices := db.invoices[inv.uid := db.invoices[inv.uid].(status := FullPaid, paidAt := Some(now))])
  }

  // ---------------------------------------------------------------- submit

  /** The processor calls for the transfers, in order. */
  function Payouts(invoiceId: Id, ts: seq<Transfer>): (es: seq<ProcessorEvent>)
    ensures |es| == |ts|
    ensures forall k :: 0 <= k < |ts| ==> es[k] == Payout(invoiceId, ts[k].amount, ts[k].destination)
    decreases |ts|
  {
    if ts == [] then []
    else Payouts(invoiceId, ts[..|ts| - 1]) + [Payout(invoiceId, ts[|ts| - 1].amount, ts[|ts| - 1].destination)]
  }

  /** The charging party: the approver's horse-manager profile when an approver is given,
      else the payer's. */
  function Charger(db: Db, payer: User, approverId: Option<Id>): Result<Option<HorseManager>, SubmitError>
  {
    if approverId.Some? then
      match FetchUser(db, approverId.value)
      case None => Err(NoPaymentApprover)
      case Some(approver) => Ok(approver.horseManager)
    else Ok(payer.horseManager)
  }

  predicate CanPay(charger: Option<HorseManager>)
  {
    charger.Some? && charger.value.customer.Some? && charger.value.customer.value.defaultSource.Some?
  }

  /** The funding source charged: the one-off source when given, else the charging
      party's customer. */
  function ChargeSource(charger: Option<HorseManager>, applePaySource: Option<Id>): Id
    requires CanPay(charger)
  {
    if applePaySource.Some? then applePaySource.value else charger.value.customer.value.id
  }

  /** The aggregated invoice as the settlement sees it. */
  function InvoiceOf(db: Db, invoiceId: Id): Invoice
    requires invoiceId in db.invoices
  {
    InvoiceInformation(db, NewInvoice(invoiceId, db.invoices[invoiceId]))
  }

  /** The payment an in-app settlement records. */
  function InAppPayment(inv: Invoice, payerId: Id, approverId: Option<Id>, percentage: real,
                        applicationFee: real, now: int): PaymentDoc
    requires inv.requests != []
  {
    PaymentDoc(inv.uid, inv.requests[0].serviceProviderId, payerId, approverId,
               AmountShare(inv, percentage, applicationFee),
               Some(TipShareCharged(inv, percentage, applicationFee)), Some(false), Some(now))
  }

  /** The ledger after a successful in-app settlement: one charge, then one payout per
      transfer, one new payment, and full settlement when every payer has now paid. */
  function Settle(l: Ledger, inv: Invoice, payerId: Id, approverId: Option<Id>, percentage: real,
                  source: Id, transfers: seq<Transfer>, applicationFee: real, now: int): Ledger
    requires inv.uid in l.db.invoices && inv.requests != []
  {
    var payments := l.payments + [InAppPayment(inv, payerId, approverId, percentage, applicationFee, now)];
    var events := l.events + [Charge(inv.uid, ChargeCents(inv, percentage, applicationFee), source)]
                  + Payouts(inv.uid, transfers);
    var db := if PaymentCount(payments, inv.uid) == |inv.payers| then SettleStatuses(l.db, inv, now) else l.db;
    Ledger(db, payments, events)
  }

  /** `submitInvoicePayment`, its checks in the order the source makes them. A rejection
      happens before any charge, transfer or write. */
  function Submit(l: Ledger, invoiceId: Id, payerId: Id, approverId: Option<Id>, applePaySource: Option<Id>,
                  applicationFee: real, now: int): Result<Ledger, SubmitError>
  {
    match FetchUser(l.db, payerId)
    case None => Err(NoPayer)
    case Some(payer) =>
      if HasPayment(l.payments, invoiceId, payerId) then
        if payer.horseManager.None? then Err(Internal) else Err(AlreadyPaid)
      else
        match Charger(l.db, payer, approverId)
        case Err(e) => Err(e)
        case Ok(charger) =>
          if !CanPay(charger) then Err(NoPaymentMethod)
          else if invoiceId !in l.db.invoices then Err(NoInvoice)
          else
            var inv := InvoiceOf(l.db, invoiceId);
            match FindPayer(inv.payers, payerId)
            case None => Err(NoInvoicePayer)
            case Some(p) =>
              var transfers := Transfers(l.db, payerId, inv);
              if transfers == [] then Err(NoServiceProviders)
              else
                TransfersNeedRequests(l.db, payerId, inv);
                Ok(Settle(l, inv, payerId, approverId, p.percentage, ChargeSource(charger, applePaySource),
                          transfers, applicationFee, now))
  }

  // ---------------------------------------------------------------- mark as paid

  /** The checks of `markInvoiceAsPaid` as written: the payer check tests whether the
      payer list exists, and an aggregated invoice always has one, so an invoice without
      payers gets through. */
  function MarkRejectionAsWritten(db: Db, invoiceId: Id, serviceProviderId: Id): Option<MarkError>
  {
    if invoiceId !in db.invoices then Some(InvoiceNotFound)
    else
      var inv := InvoiceOf(db, invoiceId);
      if inv.status == FullPaid then Some(AlreadyFullyPaid)
      else if inv.requests == [] || inv.requests[0].serviceProviderId != serviceProviderId then Some(NotAuthorized)
      else None
  }

  /** The checks of `markInvoiceAsPaid` as intended: an invoice without payers is refused. */
  function MarkRejection(db: Db, invoiceId: Id, serviceProviderId: Id): Option<MarkError>
  {
    if invoiceId !in db.invoices then Some(InvoiceNotFound)
    else
      var inv := InvoiceOf(db, invoiceId);
      if inv.status == FullPaid then Some(AlreadyFullyPaid)
      else if inv.payers == [] then Some(NoInvoicePayers)
      else if inv.requests == [] || inv.requests[0].serviceProviderId != serviceProviderId then Some(NotAuthorized)
      else None
  }

  /** The payment recorded for a payer settled outside the app: the payer's share of the
      amount and of the tip, each inflated by the application fee. */
  function OutsidePayment(inv: Invoice, serviceProviderId: Id, payer: HorseManager, applicationFee: real, now: int): PaymentDoc
  {
    PaymentDoc(inv.uid, serviceProviderId, payer.userId, None,
               AmountWithApplicationFee(Percent(inv.amount, payer.percentage), applicationFee),
               Some(AmountWithApplicationFee(Percent(inv.tip, payer.percentage), applicationFee)),
               Some(true), Some(now))
  }

  /** One outside-app payment per payer that had no payment when the call started. */
  function OutsidePayments(payments: seq<PaymentDoc>, inv: Invoice, payers: seq<HorseManager>,
                           serviceProviderId: Id, applicationFee: real, now: int): seq<PaymentDoc>
    decreases |payers|
  {
    if payers == [] then []
    else
      var prev := OutsidePayments(payments, inv, payers[..|payers| - 1], serviceProviderId, applicationFee, now);
      var p := payers[|payers| - 1];
      if HasPayment(payments, inv.uid, p.userId) then prev
      else prev + [OutsidePayment(inv, serviceProviderId, p, applicationFee, now)]
  }

  /** `markInvoiceAsPaid` with the intended payer check: no processor call; every unpaid
      payer gets an outside-app payment; the invoice is then settled. */
  function MarkPaid(l: Ledger, invoiceId: Id, serviceProviderId: Id, applicationFee: real, now: int): Result<Ledger, MarkError>
  {
    match MarkRejection(l.db, invoiceId, serviceProviderId)
    case Some(e) => Err(e)
    case None =>
      var inv := InvoiceOf(l.db, invoiceId);
      var created := OutsidePayments(l.payments, inv, inv.payers, serviceProviderId, applicationFee, now);
      Ok(Ledger(SettleStatuses(l.db, inv, now), l.payments + created, l.events))
  }

  /** `markInvoiceAsPaid` exactly as written, with the payer check that never fires. */
  function MarkPaidAsWritten(l: Ledger, invoiceId: Id, serviceProviderId: Id, applicationFee: real, now: int): Result<Ledger, MarkError>
  {
    match MarkRejectionAsWritten(l.db, invoiceId, serviceProviderId)
    case Some(e) => Err(e)
    case None =>
      var inv := InvoiceOf(l.db, invoiceId);
      var created := OutsidePayments(l.payments, inv, inv.payers, serviceProviderId, applicationFee, now);
      Ok(Ledger(SettleStatuses(l.db, inv, now), l.payments + created, l.events))
  }

  // ---------------------------------------------------------------- properties

  /** No two payments for the same invoice and payer. */
  ghost predicate OnePaymentPerPayer(payments: seq<PaymentDoc>)
  {
    forall i, j :: 0 <= i < j < |payments| ==>
      payments[i].invoiceId != payments[j].invoiceId || payments[i].payerId != payments[j].payerId
  }

  /** A second submission by the same payer for the same invoice is refused once the
      first has succeeded, whatever approver or source it names, and so charges nothing:
      as already paid, or with an internal error when the payer has no manager profile,
      since the source's rejection message reads that profile's name. */
  lemma SubmitTwiceRejected(l: Ledger, invoiceId: Id, payerId: Id, approverId: Option<Id>, applePaySource: Option<Id>,
                            applicationFee: real, now: int,
                            approverId2: Option<Id>, applePaySource2: Option<Id>, applicationFee2: real, now2: int)
    requires Submit(l, invoiceId, payerId, approverId, applePaySource, applicationFee, now).Ok?
    ensures var l2 := Submit(l, invoiceId, payerId, approverId, applePaySource, applicationFee, now).value;
            var again := Submit(l2, invoiceId, payerId, approverId2, applePaySource2, applicationFee2, now2);
            && payerId in l.db.users
            && (l.db.users[payerId].horseManager.Some? ==> again == Err(AlreadyPaid))
            && (l.db.users[payerId].horseManager.None? ==> again == Err(Internal))
  {
    var l2 := Submit(l, invoiceId, payerId, approverId, applePaySource, applicationFee, now).value;
    var inv := InvoiceOf(l.db, invoiceId);
    var p := InAppPayment(inv, payerId, approverId, FindPayer(inv.payers, payerId).value.percentage, applicationFee, now);
    SubmitSettles(l, invoiceId, payerId, approverId, applePaySource, applicationFee, now);
    assert l2.db.users == l.db.users;
    assert p == l2.payments[|l2.payments| - 1];
    assert HasPayment(l2.payments, invoiceId, payerId);
  }

  /** A successful submission keeps at most one payment per invoice and payer. */
  lemma SubmitKeepsOnePaymentPerPayer(l: Ledger, invoiceId: Id, payerId: Id, approverId: Option<Id>,
                                      applePaySource: Option<Id>, applicationFee: real, now: int)
    requires OnePaymentPerPayer(l.payments)
    requires Submit(l, invoiceId, payerId, approverId, applePaySource, applicationFee, now).Ok?
    ensures OnePaymentPerPayer(Submit(l, invoiceId, payerId, approverId, applePaySource, applicationFee, now).value.payments)
  {
    var l2 := Submit(l, invoiceId, payerId, approverId, applePaySource, applicationFee, now).value;
    assert l2.payments[..|l.payments|] == l.payments;
    forall i | 0 <= i < |l.payments|
      ensures l.payments[i].invoiceId != invoiceId || l.payments[i].payerId != payerId
    {
      assert l.payments[i] in l.payments;
    }
  }

  /** A successful submission records one charge of the payer's share of the inflated
      amount and tip, then one payout per transfer, then one in-app payment for the payer;
      the transfers and the charge follow the settlement functions. */
  lemma SubmitEffects(l: Ledger, invoiceId: Id, payerId: Id, approverId: Option<Id>,
                      applePaySource: Option<Id>, applicationFee: real, now: int)
    requires Submit(l, invoiceId, payerId, approverId, applePaySource, applicationFee, now).Ok?
    ensures invoiceId in l.db.invoices
    ensures var l2 := Submit(l, invoiceId, payerId, approverId, applePaySource, applicationFee, now).value;
            var inv := InvoiceOf(l.db, invoiceId);
            var ts := Transfers(l.db, payerId, inv);
            && HasSameHorseManager(payerId, inv.payers)
            && ts != [] && inv.requests != []
            && |l2.events| == |l.events| + 1 + |ts|
            && l2.events[..|l.events|] == l.events
            && l2.events[|l.events|].Charge?
            && l2.events[|l.events|].cents
               == Cents(Percent(AmountWithApplicationFee(inv.amount + inv.tip, applicationFee),
                                FindPayer(inv.payers, payerId).value.percentage))
            && (applePaySource.Some? ==> l2.events[|l.events|].source == applePaySource.value)
            && (forall k :: 0 <= k < |ts| ==> l2.events[|l.events| + 1 + k] == Payout(invoiceId, ts[k].amount, ts[k].destination))
            && |l2.payments| == |l.payments| + 1
            && l2.payments[..|l.payments|] == l.payments
            && l2.payments[|l.payments|].payerId == payerId
            && l2.payments[|l.payments|].invoiceId == invoiceId
            && l2.payments[|l.payments|].isPaidOutsideApp == Some(false)
            && l2.payments[|l.payments|].paymentApproverId == approverId
  {
    var inv := InvoiceOf(l.db, invoiceId);
    var ts := Transfers(l.db, payerId, inv);
    var pct := FindPayer(inv.payers, payerId).value.percentage;
    SubmitSettles(l, invoiceId, payerId, approverId, applePaySource, applicationFee, now);
    var source := ChargeSource(Charger(l.db, l.db.users[payerId], approverId).value, applePaySource);
    var l2 := Submit(l, invoiceId, payerId, approverId, applePaySource, applicationFee, now).value;
    assert l2 == Settle(l, inv, payerId, approverId, pct, source, ts, applicationFee, now);
    SettleEffects(l, inv, payerId, approverId, pct, source, ts, applicationFee, now);
    assert l2.events[|l.events|] == Charge(invoiceId, ChargeCents(inv, pct, applicationFee), source);
    assert l2.payments[|l.payments|] == InAppPayment(inv, payerId, approverId, pct, applicationFee, now);
  }

  /** The ledger a settlement leaves: the charge, then one payout per transfer, appended to
      the events; one in-app payment appended to the payments. */
  lemma SettleEffects(l: Ledger, inv: Invoice, payerId: Id, approverId: Option<Id>, percentage: real,
                      source: Id, transfers: seq<Transfer>, applicationFee: real, now: int)
    requires inv.uid in l.db.invoices && inv.requests != []
    ensures var l2 := Settle(l, inv, payerId, approverId, percentage, source, transfers, applicationFee, now);
            && |l2.events| == |l.events| + 1 + |transfers|
            && l2.events[..|l.events|] == l.events
            && l2.events[|l.events|] == Charge(inv.uid, ChargeCents(inv, percentage, applicationFee), source)
            && (forall k :: 0 <= k < |transfers| ==>
                  l2.events[|l.events| + 1 + k] == Payout(inv.uid, transfers[k].amount, transfers[k].destination))
            && l2.payments == l.payments + [InAppPayment(inv, payerId, approverId, percentage, applicationFee, now)]
  {
    var l2 := Settle(l, inv, payerId, approverId, percentage, source, transfers, applicationFee, now);
    var prefix := l.events + [Charge(inv.uid, ChargeCents(inv, percentage, applicationFee), source)];
    assert l2.events == prefix + Payouts(inv.uid, transfers);
    forall k | 0 <= k < |transfers|
      ensures l2.events[|l.events| + 1 + k] == Payout(inv.uid, transfers[k].amount, transfers[k].destination)
    {
      assert l2.events[|prefix| + k] == Payouts(inv.uid, transfers)[k];
    }
  }

  function PaidPayerIds(payments: seq<PaymentDoc>, invoiceId: Id): set<Id>
  {
    set p | p in payments && p.invoiceId == invoiceId :: p.payerId
  }

  function PayerIds(payers: seq<HorseManager>): set<Id>
  {
    set m | m in payers :: m.userId
  }

  /** With one payment per payer, the payments of an invoice are as many as its paying users. */
  lemma {:induction false} PaymentCountIsPaidPayers(payments: seq<PaymentDoc>, invoiceId: Id)
    requires OnePaymentPerPayer(payments)
    ensures PaymentCount(payments, invoiceId) == |PaidPayerIds(payments, invoiceId)|
    decreases |payments|
  {
    if payments != [] {
      var init := payments[..|payments| - 1];
      var last := payments[|payments| - 1];
      assert OnePaymentPerPayer(init);
      PaymentCountIsPaidPayers(init, invoiceId);
      assert payments == init + [last];
      PaidPayerIdsSnoc(init, last, invoiceId);
    }
  }

  /** One more payment adds its payer to the paying users of its invoice, and a payer who
      had not paid before when payments are one per payer. */
  lemma PaidPayerIdsSnoc(init: seq<PaymentDoc>, last: PaymentDoc, invoiceId: Id)
    requires OnePaymentPerPayer(init + [last])
    ensures PaidPayerIds(init + [last], invoiceId)
         == PaidPayerIds(init, invoiceId) + (if last.invoiceId == invoiceId then {last.payerId} else {})
    ensures last.invoiceId == invoiceId ==> last.payerId !in PaidPayerIds(init, invoiceId)
  {
    var all := init + [last];
    assert forall p :: p in all <==> p in init || p == last;
    forall p | p in init && p.invoiceId == last.invoiceId
      ensures p.payerId != last.payerId
    {
      var i :| 0 <= i < |init| && init[i] == p;
      assert all[i] == p && all[|init|] == last;
    }
  }

  lemma {:induction false} PayerIdsCount(payers: seq<HorseManager>)
    requires DistinctManagers(payers)
    ensures |PayerIds(payers)| == |payers|
    decreases |payers|
  {
    if payers != [] {
      var init := payers[..|payers| - 1];
      var last := payers[|payers| - 1];
      PayerIdsCount(init);
      assert forall m :: m in payers <==> m in init || m == last by {
        assert payers == init + [last];
      }
      assert PayerIds(payers) == PayerIds(init) + {last.userId};
    }
  }

  /** A successful submission is the settlement of the aggregated invoice. */
  lemma SubmitSettles(l: Ledger, invoiceId: Id, payerId: Id, approverId: Option<Id>,
                      applePaySource: Option<Id>, applicationFee: real, now: int)
    requires Submit(l, invoiceId, payerId, approverId, applePaySource, applicationFee, now).Ok?
    ensures payerId in l.db.users && invoiceId in l.db.invoices
    ensures Charger(l.db, l.db.users[payerId], approverId).Ok?
    ensures CanPay(Charger(l.db, l.db.users[payerId], approverId).value)
    ensures FindPayer(InvoiceOf(l.db, invoiceId).payers, payerId).Some?
    ensures InvoiceOf(l.db, invoiceId).requests != []
    ensures Submit(l, invoiceId, payerId, approverId, applePaySource, applicationFee, now).value
         == Settle(l, InvoiceOf(l.db, invoiceId), payerId, approverId,
                   FindPayer(InvoiceOf(l.db, invoiceId).payers, payerId).value.percentage,
                   ChargeSource(Charger(l.db, l.db.users[payerId], approverId).value, applePaySource),
                   Transfers(l.db, payerId, InvoiceOf(l.db, invoiceId)), applicationFee, now)
  {
    TransfersNeedRequests(l.db, payerId, InvoiceOf(l.db, invoiceId));
  }

  /** Before the last payer's submission the invoice has one payment fewer than payers. */
  lemma PaymentCountBeforeLastPayer(payments: seq<PaymentDoc>, inv: Invoice, db: Db, payerId: Id)
    requires inv.uid in db.invoices && inv == InvoiceOf(db, inv.uid)
    requires OnePaymentPerPayer(payments)
    requires HasSameHorseManager(payerId, inv.payers)
    requires PaidPayerIds(payments, inv.uid) == PayerIds(inv.payers) - {payerId}
    ensures PaymentCount(payments, inv.uid) + 1 == |inv.payers|
  {
    PaymentCountIsPaidPayers(payments, inv.uid);
    PayersDistinct(inv.requests);
    PayerIdsCount(inv.payers);
    assert payerId in PayerIds(inv.payers);
  }

  /** Full settlement by the last payer: when, before the submission, the invoice's
      payments are one per payer, all by payers of the invoice, and every payer except the
      submitting one has paid, the submission marks the invoice fully paid at `now` and
      every request of the invoice paid. */
  lemma LastPayerSettlesInvoice(l: Ledger, invoiceId: Id, payerId: Id, approverId: Option<Id>,
                                applePaySource: Option<Id>, applicationFee: real, now: int)
    requires Submit(l, invoiceId, payerId, approverId, applePaySource, applicationFee, now).Ok?
    requires OnePaymentPerPayer(l.payments)
    requires invoiceId in l.db.invoices
    requires PaidPayerIds(l.payments, invoiceId) == PayerIds(InvoiceOf(l.db, invoiceId).payers) - {payerId}
    ensures var l2 := Submit(l, invoiceId, payerId, approverId, applePaySource, applicationFee, now).value;
            var inv := InvoiceOf(l.db, invoiceId);
            && invoiceId in l2.db.invoices
            && l2.db.invoices[invoiceId].status == FullPaid
            && l2.db.invoices[invoiceId].paidAt == Some(now)
            && forall r :: r in inv.requests ==> r.uid in l2.db.requests && l2.db.requests[r.uid].status == Some(Paid)
  {
    SubmitSettles(l, invoiceId, payerId, approverId, applePaySource, applicationFee, now);
    var inv := InvoiceOf(l.db, invoiceId);
    var p := FindPayer(inv.payers, payerId).value;
    PaymentCountBeforeLastPayer(l.payments, inv, l.db, payerId);
    var payment := InAppPayment(inv, payerId, approverId, p.percentage, applicationFee, now);
    var payments := l.payments + [payment];
    assert payments[..|payments| - 1] == l.payments;
    assert PaymentCount(payments, invoiceId) == |inv.payers|;
    var l2 := Submit(l, invoiceId, payerId, approverId, applePaySource, applicationFee, now).value;
    assert l2.payments == payments;
    assert l2.db == SettleStatuses(l.db, inv, now);
    SettledRequestsPaid(l.db, inv, now);
  }

  /** No settlement before the last payer: when, before the submission, the invoice's
      payments are one per payer and all by payers of the invoice, and some other payer
      `q` has not paid yet, the submission leaves every status in the store unchanged. */
  lemma NotLastPayerKeepsStatuses(l: Ledger, invoiceId: Id, payerId: Id, approverId: Option<Id>,
                                  applePaySource: Option<Id>, applicationFee: real, now: int, q: Id)
    requires Submit(l, invoiceId, payerId, approverId, applePaySource, applicationFee, now).Ok?
    requires OnePaymentPerPayer(l.payments)
    requires invoiceId in l.db.invoices
    requires PaidPayerIds(l.payments, invoiceId) <= PayerIds(InvoiceOf(l.db, invoiceId).payers)
    requires q in PayerIds(InvoiceOf(l.db, invoiceId).payers) && q != payerId
    requires q !in PaidPayerIds(l.payments, invoiceId)
    ensures Submit(l, invoiceId, payerId, approverId, applePaySource, applicationFee, now).value.db == l.db
  {
    SubmitSettles(l, invoiceId, payerId, approverId, applePaySource, applicationFee, now);
    SubmitKeepsOnePaymentPerPayer(l, invoiceId, payerId, approverId, applePaySource, applicationFee, now);
    var inv := InvoiceOf(l.db, invoiceId);
    var p := FindPayer(inv.payers, payerId).value;
    var payment := InAppPayment(inv, payerId, approverId, p.percentage, applicationFee, now);
    var l2 := Submit(l, invoiceId, payerId, approverId, applePaySource, applicationFee, now).value;
    assert l2.payments == l.payments + [payment];
    assert payerId in PayerIds(inv.payers);
    CountBelowPayers(l.payments, payment, PayerIds(inv.payers), q);
    PayersDistinct(inv.requests);
    PayerIdsCount(inv.payers);
  }

  /** One more payment, when some payer `q` other than its own still has none, leaves the
      payment count below the number of payers. */
  lemma CountBelowPayers(payments: seq<PaymentDoc>, payment: PaymentDoc, payerIds: set<Id>, q: Id)
    requires OnePaymentPerPayer(payments + [payment])
    requires PaidPayerIds(payments, payment.invoiceId) <= payerIds && payment.payerId in payerIds
    requires q in payerIds && q != payment.payerId && q !in PaidPayerIds(payments, payment.invoiceId)
    ensures PaymentCount(payments + [payment], payment.invoiceId) < |payerIds|
  {
    var all := payments + [payment];
    var invoiceId := payment.invoiceId;
    PaymentCountIsPaidPayers(all, invoiceId);
    assert forall x :: x in all <==> x in payments || x == payment;
    assert PaidPayerIds(all, invoiceId) == PaidPayerIds(payments, invoiceId) + {payment.payerId};
    SubsetCardinality(PaidPayerIds(all, invoiceId), payerIds - {q});
  }

  lemma {:induction false} SubsetCardinality(a: set<Id>, b: set<Id>)
    requires a <= b
    ensures |a| <= |b|
    decreases |b|
  {
    if a != {} {
      var x :| x in a;
      SubsetCardinality(a - {x}, b - {x});
    }
  }

  /** Full settlement marks every request of the invoice paid. */
  lemma SettledRequestsPaid(db: Db, inv: Invoice, now: int)
    requires inv.uid in db.invoices && inv == InvoiceOf(db, inv.uid)
    ensures var d := SettleStatuses(db, inv, now);
            forall r :: r in inv.requests ==> r.uid in d.requests && d.requests[r.uid].status == Some(Paid)
  {
    var d := SettleStatuses(db, inv, now);
    forall r | r in inv.requests ensures r.uid in d.requests && d.requests[r.uid].status == Some(Paid) {
      var k :| 0 <= k < |inv.requests| && inv.requests[k] == r;
      InvoiceRequestsAt(db, inv.requestIds, k);
      assert Uids(inv.requests)[k] == r.uid;
    }
  }

  /** The outside-app payments go to distinct payers of the invoice that had not paid. */
  lemma OutsidePaymentsSpec(payments: seq<PaymentDoc>, inv: Invoice, payers: seq<HorseManager>,
                            serviceProviderId: Id, applicationFee: real, now: int)
    requires DistinctManagers(payers)
    ensures var created := OutsidePayments(payments, inv, payers, serviceProviderId, applicationFee, now);
            && (forall q :: q in created ==>
                  q.invoiceId == inv.uid && q.isPaidOutsideApp == Some(true)
                  && HasSameHorseManager(q.payerId, payers) && !HasPayment(payments, inv.uid, q.payerId))
            && (forall m :: m in payers ==> HasPayment(payments, inv.uid, m.userId) || HasPayment(created, inv.uid, m.userId))
            && OnePaymentPerPayer(created)
  {
    OutsidePaymentsSound(payments, inv, payers, serviceProviderId, applicationFee, now);
    OutsidePaymentsCover(payments, inv, payers, serviceProviderId, applicationFee, now);
    OutsidePaymentsDistinct(payments, inv, payers, serviceProviderId, applicationFee, now);
  }

  lemma {:induction false} OutsidePaymentsSound(payments: seq<PaymentDoc>, inv: Invoice, payers: seq<HorseManager>,
                                                serviceProviderId: Id, applicationFee: real, now: int)
    ensures forall q :: q in OutsidePayments(payments, inv, payers, serviceProviderId, applicationFee, now) ==>
              q.invoiceId == inv.uid && q.isPaidOutsideApp == Some(true)
              && HasSameHorseManager(q.payerId, payers) && !HasPayment(payments, inv.uid, q.payerId)
    decreases |payers|
  {
    if payers != [] {
      var init := payers[..|payers| - 1];
      var last := payers[|payers| - 1];
      OutsidePaymentsSound(payments, inv, init, serviceProviderId, applicationFee, now);
      var prev := OutsidePayments(payments, inv, init, serviceProviderId, applicationFee, now);
      var created := OutsidePayments(payments, inv, payers, serviceProviderId, applicationFee, now);
      forall q | q in created ensures HasSameHorseManager(q.payerId, payers) {
        if q in prev {
          var m :| m in init && m.userId == q.payerId;
          var i :| 0 <= i < |init| && init[i] == m;
          assert payers[i] == m;
        } else {
          assert last in payers;
        }
      }
    }
  }

  lemma {:induction false} OutsidePaymentsCover(payments: seq<PaymentDoc>, inv: Invoice, payers: seq<HorseManager>,
                                                serviceProviderId: Id, applicationFee: real, now: int)
    ensures var created := OutsidePayments(payments, inv, payers, serviceProviderId, applicationFee, now);
            forall m :: m in payers ==> HasPayment(payments, inv.uid, m.userId) || HasPayment(created, inv.uid, m.userId)
    decreases |payers|
  {
    if payers != [] {
      var init := payers[..|payers| - 1];
      var last := payers[|payers| - 1];
      assert forall m :: m in payers ==> m in init || m == last by {
        assert payers == init + [last];
      }
      OutsidePaymentsCover(payments, inv, init, serviceProviderId, applicationFee, now);
      var prev := OutsidePayments(payments, inv, init, serviceProviderId, applicationFee, now);
      var created := OutsidePayments(payments, inv, payers, serviceProviderId, applicationFee, now);
      forall m | m in payers ensures HasPayment(payments, inv.uid, m.userId) || HasPayment(created, inv.uid, m.userId) {
        if m in init && HasPayment(prev, inv.uid, m.userId) {
          var q :| q in prev && q.invoiceId == inv.uid && q.payerId == m.userId;
          assert q in created;
        } else if m == last && !HasPayment(payments, inv.uid, m.userId) {
          assert created[|created| - 1] in created;
        }
      }
    }
  }

  lemma {:induction false} OutsidePaymentsDistinct(payments: seq<PaymentDoc>, inv: Invoice, payers: seq<HorseManager>,
                                                   serviceProviderId: Id, applicationFee: real, now: int)
    requires DistinctManagers(payers)
    ensures OnePaymentPerPayer(OutsidePayments(payments, inv, payers, serviceProviderId, applicationFee, now))
    decreases |payers|
  {
    if payers != [] {
      var init := payers[..|payers| - 1];
      var last := payers[|payers| - 1];
      OutsidePaymentsDistinct(payments, inv, init, serviceProviderId, applicationFee, now);
      OutsidePaymentsSound(payments, inv, init, serviceProviderId, applicationFee, now);
      var prev := OutsidePayments(payments, inv, init, serviceProviderId, applicationFee, now);
      var created := OutsidePayments(payments, inv, payers, serviceProviderId, applicationFee, now);
      if !HasPayment(payments, inv.uid, last.userId) {
        forall i | 0 <= i < |prev| ensures prev[i].payerId != last.userId {
          assert prev[i] in prev;
          var m :| m in init && m.userId == prev[i].payerId;
          var k :| 0 <= k < |init| && init[k] == m;
          assert payers[k].userId != payers[|payers| - 1].userId;
        }
        assert created == prev + [created[|created| - 1]];
      }
    }
  }

  /** Marking as paid leaves every payer of the invoice with a payment, keeps one payment
      per invoice and payer, calls no processor, and settles the invoice and its requests. */
  lemma MarkCoversEveryPayer(l: Ledger, invoiceId: Id, serviceProviderId: Id, applicationFee: real, now: int)
    requires OnePaymentPerPayer(l.payments)
    requires MarkPaid(l, invoiceId, serviceProviderId, applicationFee, now).Ok?
    ensures invoiceId in l.db.invoices
    ensures var l2 := MarkPaid(l, invoiceId, serviceProviderId, applicationFee, now).value;
            var inv := InvoiceOf(l.db, invoiceId);
            && inv.payers != []
            && (forall m :: m in inv.payers ==> HasPayment(l2.payments, invoiceId, m.userId))
            && OnePaymentPerPayer(l2.payments)
            && l2.events == l.events
            && l2.db.invoices[invoiceId].status == FullPaid
            && l2.db.invoices[invoiceId].paidAt == Some(now)
            && inv.requests != [] && inv.requests[0].serviceProviderId == serviceProviderId
            && (forall r :: r in inv.requests ==> r.uid in l2.db.requests && l2.db.requests[r.uid].status == Some(Paid))
  {
    var l2 := MarkPaid(l, invoiceId, serviceProviderId, applicationFee, now).value;
    var inv := InvoiceOf(l.db, invoiceId);
    assert inv.uid == invoiceId;
    SettledRequestsPaid(l.db, inv, now);
    PayersDistinct(inv.requests);
    OutsidePaymentsSound(l.payments, inv, inv.payers, serviceProviderId, applicationFee, now);
    OutsidePaymentsCover(l.payments, inv, inv.payers, serviceProviderId, applicationFee, now);
    OutsidePaymentsDistinct(l.payments, inv, inv.payers, serviceProviderId, applicationFee, now);
    var created := OutsidePayments(l.payments, inv, inv.payers, serviceProviderId, applicationFee, now);
    forall m | m in inv.payers ensures HasPayment(l2.payments, invoiceId, m.userId) {
      if HasPayment(l.payments, invoiceId, m.userId) {
        var q :| q in l.payments && q.invoiceId == invoiceId && q.payerId == m.userId;
        assert q in l2.payments;
      } else {
        var q :| q in created && q.invoiceId == invoiceId && q.payerId == m.userId;
        assert q in l2.payments;
      }
    }
    AppendKeepsOnePaymentPerPayer(l.payments, created);
  }

  /** Appending payments, one per payer, for payers without a payment keeps one payment
      per invoice and payer. */
  lemma AppendKeepsOnePaymentPerPayer(payments: seq<PaymentDoc>, created: seq<PaymentDoc>)
    requires OnePaymentPerPayer(payments) && OnePaymentPerPayer(created)
    requires forall q :: q in created ==> !HasPayment(payments, q.invoiceId, q.payerId)
    ensures OnePaymentPerPayer(payments + created)
  {
    var all := payments + created;
    var n := |payments|;
    forall i, j | 0 <= i < j < |all| && n <= j
      ensures all[i].invoiceId != all[j].invoiceId || all[i].payerId != all[j].payerId
    {
      assert all[j] == created[j - n] && created[j - n] in created;
      if i < n {
        assert all[i] == payments[i] && payments[i] in payments;
      } else {
        assert all[i] == created[i - n];
      }
    }
  }

  /** An invoice already fully paid is refused and the ledger stays as it was. */
  lemma MarkRejectsFullyPaid(l: Ledger, invoiceId: Id, serviceProviderId: Id, applicationFee: real, now: int)
    requires invoiceId in l.db.invoices && l.db.invoices[invoiceId].status == FullPaid
    ensures MarkPaid(l, invoiceId, serviceProviderId, applicationFee, now) == Err(AlreadyFullyPaid)
  {
  }

  /** An outside-app payment records what the payer would have been charged in the app:
      taking the share before or after the fee gives the same amount and tip. */
  lemma OutsidePaymentMatchesCharge(inv: Invoice, serviceProviderId: Id, payer: HorseManager, applicationFee: real, now: int)
    ensures OutsidePayment(inv, serviceProviderId, payer, applicationFee, now).amount
            == AmountShare(inv, payer.percentage, applicationFee)
    ensures OutsidePayment(inv, serviceProviderId, payer, applicationFee, now).tip.Some?
    ensures OutsidePayment(inv, serviceProviderId, payer, applicationFee, now).tip.value
            == TipShareCharged(inv, payer.percentage, applicationFee)
  {
    FeeCommutesWithShare(inv.amount, payer.percentage / 100.0, applicationFee);
    FeeCommutesWithShare(inv.tip, payer.percentage / 100.0, applicationFee);
    assert Percent(inv.amount, payer.percentage) == inv.amount * (payer.percentage / 100.0);
    assert Percent(inv.tip, payer.percentage) == inv.tip * (payer.percentage / 100.0);
    assert Percent(AmountWithApplicationFee(inv.amount, applicationFee), payer.percentage)
        == AmountWithApplicationFee(inv.amount, applicationFee) * (payer.percentage / 100.0);
    assert Percent(AmountWithApplicationFee(inv.tip, applicationFee), payer.percentage)
        == AmountWithApplicationFee(inv.tip, applicationFee) * (payer.percentage / 100.0);
  }

  /** An invoice with one request whose horse is not in the store: it has no payers. */
  function NoPayerDb(): Db
  {
    Db(map[], map[], map[], map[],
       map["request" := RequestDoc("horse", None, "provider", None, [], None, None, None, None)],
       [],
       map["invoice" := InvoiceDoc("Invoice", ["request"], 0.0, 0.0, InvoiceStatus.Pending, None, 0)])
  }

  /** As written, `markInvoiceAsPaid` accepts an invoice without payers and marks it fully
      paid without recording a single payment; with the intended check it is refused. */
  lemma MarkAsWrittenSettlesInvoiceWithoutPayers()
    ensures InvoiceOf(NoPayerDb(), "invoice").payers == []
    ensures MarkRejectionAsWritten(NoPayerDb(), "invoice", "provider").None?
    ensures var l2 := MarkPaidAsWritten(Ledger(NoPayerDb(), [], []), "invoice", "provider", 0.0, 0).value;
            l2.db.invoices["invoice"].status == FullPaid && l2.payments == []
    ensures MarkRejection(NoPayerDb(), "invoice", "provider") == Some(NoInvoicePayers)
  {
    NoPayerInvoice();
    MarkAsWrittenWithoutPayers(Ledger(NoPayerDb(), [], []), "invoice", "provider", 0.0, 0);
  }

  /** As written, any pending invoice without payers passes the checks of whoever provides
      its first request, and is settled without a new payment; the intended check refuses it. */
  lemma MarkAsWrittenWithoutPayers(l: Ledger, invoiceId: Id, serviceProviderId: Id, applicationFee: real, now: int)
    requires invoiceId in l.db.invoices
    requires var inv := InvoiceOf(l.db, invoiceId);
             && inv.payers == [] && inv.status != FullPaid && inv.uid == invoiceId
             && inv.requests != [] && inv.requests[0].serviceProviderId == serviceProviderId
    ensures MarkRejectionAsWritten(l.db, invoiceId, serviceProviderId).None?
    ensures MarkRejection(l.db, invoiceId, serviceProviderId) == Some(NoInvoicePayers)
    ensures var l2 := MarkPaidAsWritten(l, invoiceId, serviceProviderId, applicationFee, now).value;
            l2.payments == l.payments && l2.db.invoices[invoiceId].status == FullPaid
  {
    var inv := InvoiceOf(l.db, invoiceId);
    assert OutsidePayments(l.payments, inv, inv.payers, serviceProviderId, applicationFee, now) == [];
    var l2 := MarkPaidAsWritten(l, invoiceId, serviceProviderId, applicationFee, now).value;
    assert l2.db == SettleStatuses(l.db, inv, now);
    assert l2.payments == l.payments + [];
  }

  /** The invoice of the store above: pending, with one request by "provider", no payers. */
  lemma NoPayerInvoice()
    ensures var inv := InvoiceOf(NoPayerDb(), "invoice");
            && inv.uid == "invoice" && inv.status == InvoiceStatus.Pending && inv.payers == []
            && |inv.requests| == 1 && inv.requests[0].serviceProviderId == "provider"
  {
    var db := NoPayerDb();
    var ids: seq<Id> := ["request"];
    assert ids[..0] == [];
    var r := NewServiceRequest("request", db.requests["request"]);
    assert FindByHorse([], "horse").None?;
    assert InvoiceRequests(db, ids) == [ServiceRequestInformation(db, r)];
    var rs := InvoiceRequests(db, ids);
    assert rs[0].horse.None?;
    assert rs[..0] == [];
    assert PayersFrom(rs) == [];
  }

  // ---------------------------------------------------------------- the backend

  class Backend {
    var db: Db
    var payments: seq<PaymentDoc>
    var events: seq<ProcessorEvent>

    function State(): Ledger
      reads this
    {
      Ledger(db, payments, events)
    }

    constructor(db0: Db, payments0: seq<PaymentDoc>)
      ensures State() == Ledger(db0, payments0, [])
    {
      db := db0;
      payments := payments0;
      events := [];
    }

    /** The batch update of `submitInvoicePayment` and `markInvoiceAsPaid`. */
    method SettleInvoice(inv: Invoice, now: int)
      requires inv.uid in db.invoices
      modifies this
      ensures db == SettleStatuses(old(db), inv, now)
      ensures payments == old(payments) && events == old(events)
    {
      var rs := inv.requests;
      ghost var ids := Uids(rs);
      for i := 0 to |rs|
        invariant db == old(db).(requests := MarkRequestsPaid(old(db).requests, ids[..i]))
        invariant payments == old(payments) && events == old(events)
      {
        assert ids[..i + 1][..i] == ids[..i];
        var uid := rs[i].uid;
        if uid in db.requests {
          db := db.(requests := db.requests[uid := db.requests[uid].(status := Some(Paid))]);
        }
      }
      assert ids[..|ids|] == ids;
      db := db.(invoices := db.invoices[inv.uid := db.invoices[inv.uid].(status := FullPaid, paidAt := Some(now))]);
    }

    /** The model of `submitInvoicePayment`. */
    method SubmitInvoicePayment(invoiceId: Id, payerId: Id, approverId: Option<Id>, applePaySource: Option<Id>,
                                applicationFee: real, now: int) returns (err: Option<SubmitError>)
      modifies this
      ensures var res := Submit(old(State()), invoiceId, payerId, approverId, applePaySource, applicationFee, now);
              && (res.Err? ==> err == Some(res.error) && State() == old(State()))
              && (res.Ok? ==> err.None? && State() == res.value)
    {
      var payer := FetchUser(db, payerId);
      if payer.None? {
        return Some(NoPayer);
      }
      if HasPayment(payments, invoiceId, payerId) {
        if payer.value.horseManager.None? {
          return Some(Internal);
        }
        return Some(AlreadyPaid);
      }
      var charger: Option<HorseManager>;
      if approverId.Some? {
        var approver := FetchUser(db, approverId.value);
        if approver.None? {
          return Some(NoPaymentApprover);
        }
        charger := approver.value.horseManager;
      } else {
        charger := payer.value.horseManager;
      }
      if charger.None? || charger.value.customer.None? || charger.value.customer.value.defaultSource.None? {
        return Some(NoPaymentMethod);
      }
      if invoiceId !in db.invoices {
        return Some(NoInvoice);
      }
      var inv := UpdateInvoiceInformation(db, NewInvoice(invoiceId, db.invoices[invoiceId]));
      var invoicePayer := FindPayer(inv.payers, payerId);
      if invoicePayer.None? {
        return Some(NoInvoicePayer);
      }
      var percentage := invoicePayer.value.percentage;
      var transfers := ComputeTransfers(db, payerId, inv);
      if transfers == [] {
        return Some(NoServiceProviders);
      }
      TransfersNeedRequests(db, payerId, inv);
      var source := ChargeSource(charger, applePaySource);
      assert Submit(old(State()), invoiceId, payerId, approverId, applePaySource, applicationFee, now)
          == Ok(Settle(old(State()), inv, payerId, approverId, percentage, source, transfers, applicationFee, now));
      RecordSettlement(inv, payerId, approverId, percentage, source, transfers, applicationFee, now);
      err := None;
    }

    /** Charge, transfers, payment and full-settlement check of `submitInvoicePayment`. */
    method RecordSettlement(inv: Invoice, payerId: Id, approverId: Option<Id>, percentage: real,
                            source: Id, transfers: seq<Transfer>, applicationFee: real, now: int)
      requires inv.uid in db.invoices && inv.requests != []
      modifies this
      ensures State() == Settle(old(State()), inv, payerId, approverId, percentage, source, transfers, applicationFee, now)
    {
      var chargeCents := Cents(AmountShare(inv, percentage, applicationFee) + TipShareCharged(inv, percentage, applicationFee));
      events := events + [Charge(inv.uid, chargeCents, source)];
      LogPayouts(inv.uid, transfers);
      payments := payments + [InAppPayment(inv, payerId, approverId, percentage, applicationFee, now)];
      if PaymentCount(payments, inv.uid) == |inv.payers| {
        SettleInvoice(inv, now);
      }
    }

    /** One payout per transfer, in order. */
    method LogPayouts(invoiceId: Id, transfers: seq<Transfer>)
      modifies this
      ensures events == old(events) + Payouts(invoiceId, transfers)
      ensures db == old(db) && payments == old(payments)
    {
      for i := 0 to |transfers|
        invariant events == old(events) + Payouts(invoiceId, transfers[..i])
        invariant db == old(db) && payments == old(payments)
      {
        assert transfers[..i + 1][..i] == transfers[..i];
        events := events + [Payout(invoiceId, transfers[i].amount, transfers[i].destination)];
      }
      assert transfers[..|transfers|] == transfers;
    }

    /** The model of `markInvoiceAsPaid`, with the intended payer check. */
    method MarkInvoiceAsPaid(invoiceId: Id, serviceProviderId: Id, applicationFee: real, now: int)
      returns (err: Option<MarkError>)
      modifies this
      ensures var res := MarkPaid(old(State()), invoiceId, serviceProviderId, applicationFee, now);
              && (res.Err? ==> err == Some(res.error) && State() == old(State()))
              && (res.Ok? ==> err.None? && State() == res.value)
    {
      if invoiceId !in db.invoices {
        return Some(InvoiceNotFound);
      }
      var inv := UpdateInvoiceInformation(db, NewInvoice(invoiceId, db.invoices[invoiceId]));
      if inv.status == FullPaid {
        return Some(AlreadyFullyPaid);
      }
      if inv.payers == [] {
        return Some(NoInvoicePayers);
      }
      if inv.requests == [] || inv.requests[0].serviceProviderId != serviceProviderId {
        return Some(NotAuthorized);
      }
      var before := payments;
      var unpaid := inv.payers;
      for i := 0 to |unpaid|
        invariant payments == before + OutsidePayments(before, inv, unpaid[..i], serviceProviderId, applicationFee, now)
        invariant db == old(db) && events == old(events)
      {
        assert unpaid[..i + 1][..i] == unpaid[..i];
        if !HasPayment(before, invoiceId, unpaid[i].userId) {
          payments := payments + [OutsidePayment(inv, serviceProviderId, unpaid[i], applicationFee, now)];
        }
      }
      assert unpaid[..|unpaid|] == unpaid;
      SettleInvoice(inv, now);
      err := None;
    }
  }
}
