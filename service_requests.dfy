/** Service requests: the stored document, the request object built from it (with its
    defaults), and the request total `Σ rate × (quantity || 1)`. */
module ServiceRequests {
  import opened Wrappers
  import opened Entities

  datatype RequestStatus = Pending | Accepted | Declined | Completed | Invoiced | Paid

  /** One priced service line; `quantity` is None when the document has none. */
  datatype Service = Service(rate: real, quantity: Option<real>)

  /** A service request as stored. */
  datatype RequestDoc = RequestDoc(
    horseId: Id,
    showId: Option<Id>,
    serviceProviderId: Id,
    assignerId: Option<Id>,
    services: seq<Service>,
    status: Option<RequestStatus>,
    isCustomRequest: Option<bool>,
    dismissedBy: Option<seq<Id>>,
    creatorId: Option<Id>)

  /** A service request together with the related objects hydration may fill in. */
  datatype ServiceRequest = ServiceRequest(
    uid: Id,
    horseId: Id,
    showId: Option<Id>,
    serviceProviderId: Id,
    assignerId: Option<Id>,
    services: seq<Service>,
    status: RequestStatus,
    isCustomRequest: bool,
    dismissedBy: Option<seq<Id>>,
    creatorId: Option<Id>,
    horse: Option<Horse>,
    show: Option<Show>,
    serviceProvider: Option<ServiceProvider>,
    assigner: Option<ServiceProvider>,
    payer: Option<HorseManager>,
    creator: Option<HorseManager>)

  /** The request object built from a stored document: a missing status is pending, a
      missing custom-request flag is false, everything else is copied and no related
      object is filled in yet. */
  function NewServiceRequest(uid: Id, doc: RequestDoc): (r: ServiceRequest)
    ensures r.uid == uid && r.horseId == doc.horseId && r.serviceProviderId == doc.serviceProviderId
    ensures r.services == doc.services && r.showId == doc.showId && r.creatorId == doc.creatorId
    ensures doc.status.None? ==> r.status == Pending
    ensures doc.status.Some? ==> r.status == doc.status.value
    ensures r.isCustomRequest <==> doc.isCustomRequest == Some(true)
    ensures r.assignerId == doc.assignerId && r.dismissedBy == doc.dismissedBy
    ensures r.horse.None? && r.show.None? && r.serviceProvider.None? && r.assigner.None?
    ensures r.payer.None? && r.creator.None?
  {
    ServiceRequest(
      uid, doc.horseId, doc.showId, doc.serviceProviderId, doc.assignerId, doc.services,
      if doc.status.Some? then doc.status.value else Pending,
      doc.isCustomRequest == Some(true),
      doc.dismissedBy, doc.creatorId,
      None, None, None, None, None, None)
  }

  /** `quantity || 1`: an absent or zero quantity counts as one. */
  function Quantity(s: Service): real
  {
    match s.quantity
    case Some(q) => if q != 0.0 then q else 1.0
    case None => 1.0
  }

  function LineTotal(s: Service): real
  {
    s.rate * Quantity(s)
  }

  /** The sum of the line totals, taken left to right as the loop of the source does. */
  function ServicesTotal(services: seq<Service>): real
  {
    if services == [] then 0.0
    else ServicesTotal(services[..|services| - 1]) + LineTotal(services[|services| - 1])
  }

  /** `totalAmount()`: accumulates the line totals in a loop. */
  method TotalAmount(r: ServiceRequest) returns (total: real)
    ensures total == ServicesTotal(r.services)
  {
    total := 0.0;
    for i := 0 to |r.services|
      invariant total == ServicesTotal(r.services[..i])
    {
      assert r.services[..i + 1][..i] == r.services[..i];
      total := total + LineTotal(r.services[i]);
    }
    assert r.services[..|r.services|] == r.services;
  }

  lemma ServiceWithoutQuantityCountsOnce(s: Service)
    requires s.quantity.None? || s.quantity == Some(0.0)
    ensures LineTotal(s) == s.rate
  {
  }

  lemma ServicesTotalEmpty()
    ensures ServicesTotal([]) == 0.0
  {
  }

  lemma ServicesTotalAppend(services: seq<Service>, s: Service)
    ensures ServicesTotal(services + [s]) == ServicesTotal(services) + LineTotal(s)
  {
    assert (services + [s])[..|services|] == services;
  }

  /** The total of a concatenation is the sum of the totals. */
  lemma {:induction false} ServicesTotalConcat(a: seq<Service>, b: seq<Service>)
    ensures ServicesTotal(a + b) == ServicesTotal(a) + ServicesTotal(b)
    decreases |b|
  {
    if b == [] {
      assert a + b == a;
    } else {
      var b' := b[..|b| - 1];
      assert (a + b)[..|a + b| - 1] == a + b';
      ServicesTotalConcat(a, b');
    }
  }

  /** With non-negative rates and quantities no request total is negative. */
  lemma {:induction false} ServicesTotalNonNegative(services: seq<Service>)
    requires forall k :: 0 <= k < |services| ==> services[k].rate >= 0.0
    requires forall k :: 0 <= k < |services| && services[k].quantity.Some? ==> services[k].quantity.value >= 0.0
    ensures ServicesTotal(services) >= 0.0
    decreases |services|
  {
    if services != [] {
      var last := services[|services| - 1];
      ServicesTotalNonNegative(services[..|services| - 1]);
      assert Quantity(last) >= 0.0;
      assert LineTotal(last) >= 0.0;
    }
  }
}
