/** The document store as the core sees it once every lookup is a map lookup. */
module Store {
  import opened Wrappers
  import opened Entities
  import opened ServiceRequests
  import opened Invoices

  /** `horseOwners` maps (horseId, userId) to the first horse-owner record the query for
      that pair returns; `paymentApprovers` is the collection in query order. */
  datatype Db = Db(
    users: map<Id, User>,
    horses: map<Id, HorseDoc>,
    horseOwners: map<(Id, Id), HorseManager>,
    shows: map<Id, Show>,
    requests: map<Id, RequestDoc>,
    paymentApprovers: seq<PaymentApprover>,
    invoices: map<Id, InvoiceDoc>)

  /** `fetchUser`: a lookup miss is None. */
  function FetchUser(db: Db, userId: Id): Option<User>
  {
    if userId in db.users then Some(db.users[userId]) else None
  }

  /** The approver records whose `creatorId` is `creatorId`, in collection order. */
  function ApproversOf(approvers: seq<PaymentApprover>, creatorId: Id): (r: seq<PaymentApprover>)
    ensures forall a :: a in r <==> a in approvers && a.creatorId == creatorId
    decreases |approvers|
  {
    if approvers == [] then []
    else
      var rest := ApproversOf(approvers[..|approvers| - 1], creatorId);
      var a := approvers[|approvers| - 1];
      assert forall x :: x in approvers <==> x in approvers[..|approvers| - 1] || x == a by {
        assert approvers == approvers[..|approvers| - 1] + [a];
      }
      if a.creatorId == creatorId then rest + [a] else rest
  }
}
