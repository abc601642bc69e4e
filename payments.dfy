/** Payment records and the transfer record the settlement accumulates. */
module Payments {
  import opened Wrappers
  import opened Entities

  /** A payment document as the settlement code writes it. Its document id is random and
      is not part of the model. */
  datatype PaymentDoc = PaymentDoc(
    invoiceId: Id,
    serviceProviderId: Id,
    payerId: Id,
    paymentApproverId: Option<Id>,
    amount: real,
    tip: Option<real>,
    isPaidOutsideApp: Option<bool>,
    createdAt: Option<int>)

  /** The payment object built from a document. */
  datatype Payment = Payment(
    uid: Id,
    invoiceId: Id,
    payerId: Id,
    paymentApproverId: Option<Id>,
    amount: real,
    tip: real,
    isPaidOutsideApp: bool,
    createdAt: int)

  /** The payment constructor: invoice, payer, approver and amount are copied unchanged,
      a missing tip is 0, a missing outside-app flag is false, and a missing creation
      time is the current time `now`. */
  function NewPayment(uid: Id, doc: PaymentDoc, now: int): (p: Payment)
    ensures p.uid == uid && p.invoiceId == doc.invoiceId && p.payerId == doc.payerId
    ensures p.amount == doc.amount && p.paymentApproverId == doc.paymentApproverId
    ensures doc.tip.None? ==> p.tip == 0.0
    ensures doc.tip.Some? ==> p.tip == doc.tip.value
    ensures p.isPaidOutsideApp <==> doc.isPaidOutsideApp == Some(true)
    ensures p.createdAt == if doc.createdAt.Some? then doc.createdAt.value else now
  {
    Payment(
      uid, doc.invoiceId, doc.payerId, doc.paymentApproverId, doc.amount,
      if doc.tip.Some? then doc.tip.value else 0.0,
      doc.isPaidOutsideApp == Some(true),
      if doc.createdAt.Some? then doc.createdAt.value else now)
  }

  /** A transfer to one payout destination, its amount in cents. */
  datatype Transfer = Transfer(userId: Id, amount: int, destination: Id)
}
