/** Invoices: the stored document and the invoice object that aggregation fills in. */
module Invoices {
  import opened Wrappers
  import opened Entities
  import opened ServiceRequests

  /** Only `FullPaid` is ever tested or written by the core. */
  datatype InvoiceStatus = Draft | Pending | FullPaid

  /** An invoice as stored. A missing tip is 0. Times are milliseconds. */
  datatype InvoiceDoc = InvoiceDoc(
    name: string,
    requestIds: seq<Id>,
    amount: real,
    tip: real,
    status: InvoiceStatus,
    paidAt: Option<int>,
    createdAt: int)

  /** An invoice with the requests, payers and payment approvers aggregation derives. */
  datatype Invoice = Invoice(
    uid: Id,
    name: string,
    requestIds: seq<Id>,
    amount: real,
    tip: real,
    status: InvoiceStatus,
    paidAt: Option<int>,
    createdAt: int,
    requests: seq<ServiceRequest>,
    payers: seq<HorseManager>,
    paymentApprovers: seq<PaymentApprover>)

  function NewInvoice(uid: Id, doc: InvoiceDoc): Invoice
  {
    Invoice(uid, doc.name, doc.requestIds, doc.amount, doc.tip, doc.status, doc.paidAt, doc.createdAt, [], [], [])
  }
}
