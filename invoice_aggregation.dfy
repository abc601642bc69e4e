/** `updateInvoiceInformation`: hydrates the requests of an invoice (a later request on
    an already seen horse shares the first one's related objects), sums the amount,
    derives the deduplicated payers with their percentages and unions the payment
    approvers of every payer. */
module InvoiceAggregation {
  import opened Wrappers
  import opened Entities
  import opened ServiceRequests
  import opened Invoices
  import opened Store
  import opened Hydration

  // ---------------------------------------------------------------- requests

  /** The first request of `rs` on horse `horseId`. */
  function FindByHorse(rs: seq<ServiceRequest>, horseId: Id): (k: Option<nat>)
    ensures k.Some? ==> k.value < |rs| && rs[k.value].horseId == horseId
    ensures k.Some? ==> forall j :: 0 <= j < k.value ==> rs[j].horseId != horseId
    ensures k.None? ==> forall j :: 0 <= j < |rs| ==> rs[j].horseId != horseId
    decreases |rs|
  {
    if rs == [] then None
    else if rs[0].horseId == horseId then Some(0)
    else
      match FindByHorse(rs[1..], horseId)
      case Some(k) => Some(k + 1)
      case None => None
  }

  /** A freshly built request `r` hydrated behind the requests `prev` already done: when
      an earlier request is on the same horse, that anchor is hydrated (again) and `r`
      takes over its related objects; otherwise `r` is hydrated on its own. */
  function HydrateInInvoice(db: Db, prev: seq<ServiceRequest>, r: ServiceRequest): ServiceRequest
  {
    match FindByHorse(prev, r.horseId)
    case Some(k) => ShareRelations(ServiceRequestInformation(db, prev[k]), r)
    case None => ServiceRequestInformation(db, r)
  }

  /** The hydrated requests of the ids, in order; an id missing from the store is skipped. */
  function InvoiceRequests(db: Db, ids: seq<Id>): seq<ServiceRequest>
    decreases |ids|
  {
    if ids == [] then []
    else
      var prev := InvoiceRequests(db, ids[..|ids| - 1]);
      var id := ids[|ids| - 1];
      if id in db.requests then prev + [HydrateInInvoice(db, prev, NewServiceRequest(id, db.requests[id]))]
      else prev
  }

  /** Each hydrated request comes from a stored document and was hydrated behind the
      requests before it. */
  lemma {:induction false} InvoiceRequestsAt(db: Db, ids: seq<Id>, k: nat)
    requires k < |InvoiceRequests(db, ids)|
    ensures var rs := InvoiceRequests(db, ids);
            rs[k].uid in db.requests &&
            rs[k] == HydrateInInvoice(db, rs[..k], NewServiceRequest(rs[k].uid, db.requests[rs[k].uid]))
    decreases |ids|
  {
    var rs := InvoiceRequests(db, ids);
    var init := ids[..|ids| - 1];
    var prev := InvoiceRequests(db, init);
    var id := ids[|ids| - 1];
    if id in db.requests && k == |prev| {
      assert rs[..k] == prev;
    } else {
      InvoiceRequestsAt(db, init, k);
      assert rs[..k] == prev[..k];
    }
  }

  /** Anchor sharing. A request whose horse was seen earlier in the invoice carries the
      horse, show, service provider, assigner and creator of the first request on that
      horse, and no payer of its own; any other request is hydrated from its own
      identifiers. Either way it keeps its own identifiers and services. */
  lemma AnchorSharing(db: Db, ids: seq<Id>, k: nat)
    requires k < |InvoiceRequests(db, ids)|
    ensures InvoiceRequests(db, ids)[k].uid in db.requests
    ensures var rs := InvoiceRequests(db, ids);
            var doc := db.requests[rs[k].uid];
            && rs[k].horseId == doc.horseId && rs[k].serviceProviderId == doc.serviceProviderId
            && rs[k].assignerId == doc.assignerId && rs[k].services == doc.services
            && match FindByHorse(rs[..k], rs[k].horseId)
               case Some(j) =>
                 && rs[k].horse == rs[j].horse && rs[k].show == rs[j].show
                 && rs[k].serviceProvider == rs[j].serviceProvider && rs[k].assigner == rs[j].assigner
                 && rs[k].creator == rs[j].creator && rs[k].payer.None?
               case None =>
                 rs[k] == ServiceRequestInformation(db, NewServiceRequest(rs[k].uid, doc))
  {
    var rs := InvoiceRequests(db, ids);
    InvoiceRequestsAt(db, ids, k);
    var built := NewServiceRequest(rs[k].uid, db.requests[rs[k].uid]);
    match FindByHorse(rs[..k], built.horseId) {
      case Some(j) =>
        assert rs[..k][j] == rs[j];
        assert FindByHorse(rs[..j], rs[j].horseId).None? by {
          assert rs[..k][..j] == rs[..j];
        }
        FirstOnHorseIsHydrated(db, ids, j);
        assert rs[k] == ShareRelations(rs[j], built);
      case None =>
    }
  }

  /** The first request on its horse was hydrated on its own, so hydrating it again leaves
      it as it was. */
  lemma FirstOnHorseIsHydrated(db: Db, ids: seq<Id>, j: nat)
    requires j < |InvoiceRequests(db, ids)|
    requires var rs := InvoiceRequests(db, ids); FindByHorse(rs[..j], rs[j].horseId).None?
    ensures var rs := InvoiceRequests(db, ids); ServiceRequestInformation(db, rs[j]) == rs[j]
  {
    var rs := InvoiceRequests(db, ids);
    InvoiceRequestsAt(db, ids, j);
    ServiceRequestInformationIdempotent(db, NewServiceRequest(rs[j].uid, db.requests[rs[j].uid]));
  }

  /** Re-hydrating the anchor of a horse, as the source does before sharing it, leaves
      it as it was. */
  lemma AnchorIsHydrated(db: Db, rs: seq<ServiceRequest>, ids: seq<Id>, horseId: Id)
    requires rs == InvoiceRequests(db, ids)
    requires FindByHorse(rs, horseId).Some?
    ensures ServiceRequestInformation(db, rs[FindByHorse(rs, horseId).value]) == rs[FindByHorse(rs, horseId).value]
  {
    var j := FindByHorse(rs, horseId).value;
    assert FindByHorse(rs[..j], rs[j].horseId).None?;
    FirstOnHorseIsHydrated(db, ids, j);
  }

  /** The request loop of `updateInvoiceInformation`. */
  method HydrateRequests(db: Db, ids: seq<Id>) returns (rs: seq<ServiceRequest>)
    ensures rs == InvoiceRequests(db, ids)
  {
    rs := [];
    for i := 0 to |ids|
      invariant rs == InvoiceRequests(db, ids[..i])
    {
      assert ids[..i + 1][..i] == ids[..i];
      var requestId := ids[i];
      if requestId !in db.requests {
        continue;
      }
      var request := NewServiceRequest(requestId, db.requests[requestId]);
      var same := FindByHorse(rs, request.horseId);
      if same.Some? {
        AnchorIsHydrated(db, rs, ids[..i], request.horseId);
        var anchor, shared := UpdateServiceRequestInformation(db, rs[same.value], Some(request));
        rs := rs[same.value := anchor];
        rs := rs + [shared];
      } else {
        var updated, _ := UpdateServiceRequestInformation(db, request, None);
        rs := rs + [updated];
      }
    }
    assert ids[..|ids|] == ids;
  }

  // ---------------------------------------------------------------- amount

  /** The invoice amount: the request totals of the hydrated requests, summed in order. */
  function RequestsAmount(rs: seq<ServiceRequest>): real
    decreases |rs|
  {
    if rs == [] then 0.0
    else RequestsAmount(rs[..|rs| - 1]) + ServicesTotal(rs[|rs| - 1].services)
  }

  /** The reference amount read straight off the stored documents: the totals of the
      requests whose ids are in the store. */
  function DocsAmount(db: Db, ids: seq<Id>): real
    decreases |ids|
  {
    if ids == [] then 0.0
    else
      var id := ids[|ids| - 1];
      DocsAmount(db, ids[..|ids| - 1]) + (if id in db.requests then ServicesTotal(db.requests[id].services) else 0.0)
  }

  /** The aggregated amount is the sum of the stored request totals: hydration and
      anchor sharing do not touch services, and a missing request contributes nothing. */
  lemma {:induction false} InvoiceAmountFromDocs(db: Db, ids: seq<Id>)
    ensures RequestsAmount(InvoiceRequests(db, ids)) == DocsAmount(db, ids)
    decreases |ids|
  {
    if ids != [] {
      var init := ids[..|ids| - 1];
      InvoiceAmountFromDocs(db, init);
      var prev := InvoiceRequests(db, init);
      var id := ids[|ids| - 1];
      if id in db.requests {
        var rs := InvoiceRequests(db, ids);
        assert rs[..|rs| - 1] == prev;
      }
    }
  }

  /** The amount loops of `updateInvoiceInformation`: reset to 0, then every service of
      every request adds `rate * (quantity || 1)`. */
  method SumAmount(rs: seq<ServiceRequest>) returns (amount: real)
    ensures amount == RequestsAmount(rs)
  {
    amount := 0.0;
    for i := 0 to |rs|
      invariant amount == RequestsAmount(rs[..i])
    {
      assert rs[..i + 1][..i] == rs[..i];
      var services := rs[i].services;
      for j := 0 to |services|
        invariant amount == RequestsAmount(rs[..i]) + ServicesTotal(services[..j])
      {
        assert services[..j + 1][..j] == services[..j];
        amount := amount + services[j].rate * Quantity(services[j]);
      }
      assert services[..|services|] == services;
    }
    assert rs[..|rs|] == rs;
  }

  // ---------------------------------------------------------------- payers

  /** `hasSameHorseManager`. */
  predicate HasSameHorseManager(userId: Id, managers: seq<HorseManager>)
  {
    exists m :: m in managers && m.userId == userId
  }

  ghost predicate DistinctManagers(managers: seq<HorseManager>)
  {
    forall i, j :: 0 <= i < j < |managers| ==> managers[i].userId != managers[j].userId
  }

  function AddPayer(payers: seq<HorseManager>, m: HorseManager): seq<HorseManager>
  {
    if HasSameHorseManager(m.userId, payers) then payers else payers + [m]
  }

  function AddOwners(payers: seq<HorseManager>, owners: seq<HorseManager>): seq<HorseManager>
    decreases |owners|
  {
    if owners == [] then payers
    else AddPayer(AddOwners(payers, owners[..|owners| - 1]), owners[|owners| - 1])
  }

  /** The payers one request adds: its leaser at 100%, else each of its owners at their
      stored percentage, else its trainer at 100%; nothing without a hydrated horse. */
  function AddRequestPayers(payers: seq<HorseManager>, r: ServiceRequest): seq<HorseManager>
  {
    match r.horse
    case None => payers
    case Some(h) =>
      if h.leaser.Some? then AddPayer(payers, h.leaser.value.(percentage := 100.0))
      else if h.owners.Some? && |h.owners.value| > 0 then AddOwners(payers, h.owners.value)
      else if h.trainer.Some? then AddPayer(payers, h.trainer.value.(percentage := 100.0))
      else payers
  }

  function PayersFrom(rs: seq<ServiceRequest>): seq<HorseManager>
    decreases |rs|
  {
    if rs == [] then [] else AddRequestPayers(PayersFrom(rs[..|rs| - 1]), rs[|rs| - 1])
  }

  lemma AddPayerGrows(payers: seq<HorseManager>, m: HorseManager)
    ensures payers <= AddPayer(payers, m)
    ensures HasSameHorseManager(m.userId, AddPayer(payers, m))
    ensures DistinctManagers(payers) ==> DistinctManagers(AddPayer(payers, m))
  {
    if !HasSameHorseManager(m.userId, payers) {
      assert AddPayer(payers, m)[|payers|] == m;
    }
  }

  lemma {:induction false} AddOwnersGrows(payers: seq<HorseManager>, owners: seq<HorseManager>)
    ensures payers <= AddOwners(payers, owners)
    ensures forall o :: o in owners ==> HasSameHorseManager(o.userId, AddOwners(payers, owners))
    ensures DistinctManagers(payers) ==> DistinctManagers(AddOwners(payers, owners))
    decreases |owners|
  {
    if owners != [] {
      var init := owners[..|owners| - 1];
      var last := owners[|owners| - 1];
      AddOwnersGrows(payers, init);
      var mid := AddOwners(payers, init);
      AddPayerGrows(mid, last);
      forall o | o in owners ensures HasSameHorseManager(o.userId, AddOwners(payers, owners)) {
        if o != last {
          assert o in init;
          var m :| m in mid && m.userId == o.userId;
          assert m in AddOwners(payers, owners);
        }
      }
    }
  }

  lemma AddRequestPayersGrows(payers: seq<HorseManager>, r: ServiceRequest)
    ensures payers <= AddRequestPayers(payers, r)
    ensures DistinctManagers(payers) ==> DistinctManagers(AddRequestPayers(payers, r))
  {
    match r.horse {
      case None =>
      case Some(h) =>
        if h.leaser.Some? {
          AddPayerGrows(payers, h.leaser.value.(percentage := 100.0));
        } else if h.owners.Some? && |h.owners.value| > 0 {
          AddOwnersGrows(payers, h.owners.value);
        } else if h.trainer.Some? {
          AddPayerGrows(payers, h.trainer.value.(percentage := 100.0));
        }
    }
  }

  /** Payer user ids are pairwise distinct. */
  lemma {:induction false} PayersDistinct(rs: seq<ServiceRequest>)
    ensures DistinctManagers(PayersFrom(rs))
    decreases |rs|
  {
    if rs != [] {
      PayersDistinct(rs[..|rs| - 1]);
      AddRequestPayersGrows(PayersFrom(rs[..|rs| - 1]), rs[|rs| - 1]);
    }
  }

  /** First-seen order: the payers of the first `i` requests are a prefix of the payers
      of all of them. */
  lemma {:induction false} PayersFirstSeen(rs: seq<ServiceRequest>, i: nat)
    requires i <= |rs|
    ensures PayersFrom(rs[..i]) <= PayersFrom(rs)
    decreases |rs|
  {
    if i < |rs| {
      var init := rs[..|rs| - 1];
      assert rs[..i] == init[..i];
      PayersFirstSeen(init, i);
      AddRequestPayersGrows(PayersFrom(init), rs[|rs| - 1]);
    } else {
      assert rs[..i] == rs;
    }
  }

  /** Every request with a hydrated horse is represented among the payers: its leaser,
      or else every one of its owners, or else its trainer. */
  lemma PayersComplete(rs: seq<ServiceRequest>, k: nat)
    requires k < |rs| && rs[k].horse.Some?
    ensures var h := rs[k].horse.value;
            var payers := PayersFrom(rs);
            && (h.leaser.Some? ==> HasSameHorseManager(h.leaser.value.userId, payers))
            && (h.leaser.None? && h.owners.Some? ==>
                  forall o :: o in h.owners.value ==> HasSameHorseManager(o.userId, payers))
            && (h.leaser.None? && (h.owners.None? || h.owners.value == []) && h.trainer.Some? ==>
                  HasSameHorseManager(h.trainer.value.userId, payers))
  {
    var h := rs[k].horse.value;
    var before := PayersFrom(rs[..k]);
    assert rs[..k + 1][..k] == rs[..k];
    var after := PayersFrom(rs[..k + 1]);
    assert after == AddRequestPayers(before, rs[k]);
    PayersFirstSeen(rs, k + 1);
    var payers := PayersFrom(rs);
    if h.leaser.Some? {
      AddPayerGrows(before, h.leaser.value.(percentage := 100.0));
    } else if h.owners.Some? && |h.owners.value| > 0 {
      AddOwnersGrows(before, h.owners.value);
    } else if h.trainer.Some? {
      AddPayerGrows(before, h.trainer.value.(percentage := 100.0));
    }
    forall u | HasSameHorseManager(u, after) ensures HasSameHorseManager(u, payers) {
      var m :| m in after && m.userId == u;
      assert m in payers;
    }
  }

  /** How horse `h` may contribute `p` to the payers. */
  ghost predicate Contributes(h: Horse, p: HorseManager)
  {
    || (h.leaser.Some? && p == h.leaser.value.(percentage := 100.0))
    || (h.leaser.None? && h.owners.Some? && p in h.owners.value)
    || (h.leaser.None? && (h.owners.None? || h.owners.value == []) && h.trainer.Some?
        && p == h.trainer.value.(percentage := 100.0))
  }

  lemma {:induction false} AddOwnersSound(payers: seq<HorseManager>, owners: seq<HorseManager>, p: HorseManager)
    requires p in AddOwners(payers, owners)
    ensures p in payers || p in owners
    decreases |owners|
  {
    if owners != [] {
      var init := owners[..|owners| - 1];
      if p in AddOwners(payers, init) {
        AddOwnersSound(payers, init, p);
      }
    }
  }

  /** Every payer is the leaser (at 100%), an owner (at the stored percentage) or the
      trainer (at 100%) of the horse of some request of the invoice. */
  lemma {:induction false} PayersSound(rs: seq<ServiceRequest>, p: HorseManager)
    requires p in PayersFrom(rs)
    ensures exists k :: 0 <= k < |rs| && rs[k].horse.Some? && Contributes(rs[k].horse.value, p)
    decreases |rs|
  {
    var init := rs[..|rs| - 1];
    var r := rs[|rs| - 1];
    var before := PayersFrom(init);
    if p in before {
      PayersSound(init, p);
      var k :| 0 <= k < |init| && init[k].horse.Some? && Contributes(init[k].horse.value, p);
      assert rs[k] == init[k];
    } else {
      var h := r.horse.value;
      if h.leaser.None? && h.owners.Some? && |h.owners.value| > 0 {
        AddOwnersSound(before, h.owners.value, p);
      }
      assert Contributes(rs[|rs| - 1].horse.value, p);
    }
  }

  /** When every request is on the same horse with several owners and no leaser, the
      payers are exactly the owners, each with the stored percentage. */
  lemma {:induction false} SingleHorseOwnersArePayers(rs: seq<ServiceRequest>, h: Horse)
    requires rs != []
    requires forall k :: 0 <= k < |rs| ==> rs[k].horse == Some(h)
    requires h.leaser.None? && h.owners.Some? && h.owners.value != []
    requires DistinctManagers(h.owners.value)
    ensures PayersFrom(rs) == h.owners.value
    decreases |rs|
  {
    var owners := h.owners.value;
    var init := rs[..|rs| - 1];
    if init == [] {
      AddOwnersFresh(owners);
    } else {
      SingleHorseOwnersArePayers(init, h);
      AddOwnersPresent(owners, owners);
    }
  }

  lemma {:induction false} AddOwnersFresh(owners: seq<HorseManager>)
    requires DistinctManagers(owners)
    ensures AddOwners([], owners) == owners
    decreases |owners|
  {
    if owners != [] {
      var init := owners[..|owners| - 1];
      var last := owners[|owners| - 1];
      AddOwnersFresh(init);
    }
  }

  lemma {:induction false} AddOwnersPresent(payers: seq<HorseManager>, owners: seq<HorseManager>)
    requires forall o :: o in owners ==> o in payers
    ensures AddOwners(payers, owners) == payers
    decreases |owners|
  {
    if owners != [] {
      AddOwnersPresent(payers, owners[..|owners| - 1]);
      assert owners[|owners| - 1] in payers;
    }
  }

  /** The request-level payer agrees with the invoice: whenever one request has a single
      responsible payer, that payer is among the invoice payers. */
  lemma DerivedPayerIsInvoicePayer(rs: seq<ServiceRequest>, k: nat)
    requires k < |rs| && rs[k].horse.Some? && DerivePayer(rs[k].horse.value).Some?
    ensures HasSameHorseManager(DerivePayer(rs[k].horse.value).value.userId, PayersFrom(rs))
  {
    PayersComplete(rs, k);
    var h := rs[k].horse.value;
    if h.leaser.None? && h.owners.Some? && |h.owners.value| == 1 {
      assert h.owners.value[0] in h.owners.value;
    }
  }

  /** The payer loop of `updateInvoiceInformation`. */
  method CollectPayers(rs: seq<ServiceRequest>) returns (payers: seq<HorseManager>)
    ensures payers == PayersFrom(rs)
  {
    payers := [];
    for i := 0 to |rs|
      invariant payers == PayersFrom(rs[..i])
    {
      assert rs[..i + 1][..i] == rs[..i];
      var request := rs[i];
      if request.horse.None? {
        continue;
      }
      var horse := request.horse.value;
      if horse.leaser.Some? {
        if !HasSameHorseManager(horse.leaser.value.userId, payers) {
          payers := payers + [horse.leaser.value.(percentage := 100.0)];
        }
      } else if horse.owners.Some? && 0 < |horse.owners.value| {
        var owners := horse.owners.value;
        ghost var before := payers;
        for j := 0 to |owners|
          invariant payers == AddOwners(before, owners[..j])
        {
          assert owners[..j + 1][..j] == owners[..j];
          if HasSameHorseManager(owners[j].userId, payers) {
            continue;
          }
          payers := payers + [owners[j]];
        }
        assert owners[..|owners|] == owners;
      } else if horse.trainer.Some? {
        if !HasSameHorseManager(horse.trainer.value.userId, payers) {
          payers := payers + [horse.trainer.value.(percentage := 100.0)];
        }
      }
    }
    assert rs[..|rs|] == rs;
  }

  // ---------------------------------------------------------------- approvers

  predicate HasApprover(userId: Id, approvers: seq<PaymentApprover>)
  {
    exists a :: a in approvers && a.userId == userId
  }

  ghost predicate DistinctApprovers(approvers: seq<PaymentApprover>)
  {
    forall i, j :: 0 <= i < j < |approvers| ==> approvers[i].userId != approvers[j].userId
  }

  function AddApprovers(approvers: seq<PaymentApprover>, records: seq<PaymentApprover>): seq<PaymentApprover>
    decreases |records|
  {
    if records == [] then approvers
    else
      var acc := AddApprovers(approvers, records[..|records| - 1]);
      var a := records[|records| - 1];
      if HasApprover(a.userId, acc) then acc else acc + [a]
  }

  /** The payment approvers of the payers, in payer order, the first record per user. */
  function ApproversFrom(db: Db, payers: seq<HorseManager>): seq<PaymentApprover>
    decreases |payers|
  {
    if payers == [] then []
    else
      AddApprovers(ApproversFrom(db, payers[..|payers| - 1]),
                   ApproversOf(db.paymentApprovers, payers[|payers| - 1].userId))
  }

  lemma {:induction false} AddApproversSpec(approvers: seq<PaymentApprover>, records: seq<PaymentApprover>)
    ensures approvers <= AddApprovers(approvers, records)
    ensures DistinctApprovers(approvers) ==> DistinctApprovers(AddApprovers(approvers, records))
    ensures forall a :: a in AddApprovers(approvers, records) ==> a in approvers || a in records
    ensures forall a :: a in records ==> HasApprover(a.userId, AddApprovers(approvers, records))
    decreases |records|
  {
    if records != [] {
      var init := records[..|records| - 1];
      AddApproversSpec(approvers, init);
      var acc := AddApprovers(approvers, init);
      var a := records[|records| - 1];
      var result := AddApprovers(approvers, records);
      assert acc <= result;
      forall x | x in records ensures HasApprover(x.userId, result) {
        if x != a {
          assert x in init;
          var y :| y in acc && y.userId == x.userId;
          assert y in result;
        } else if !HasApprover(a.userId, acc) {
          assert result[|acc|] == a;
        }
      }
    }
  }

  /** The approvers are pairwise distinct by user, each is an approver record created by
      some payer, and every approver record of every payer is represented. */
  /** Approvers are kept in first-seen order: the approvers of a prefix of the payers are
      a prefix of the approvers of all of them. */
  lemma {:induction false} ApproversFirstSeen(db: Db, payers: seq<HorseManager>, i: nat)
    requires i <= |payers|
    ensures ApproversFrom(db, payers[..i]) <= ApproversFrom(db, payers)
    decreases |payers|
  {
    if i < |payers| {
      var init := payers[..|payers| - 1];
      assert payers[..i] == init[..i];
      ApproversFirstSeen(db, init, i);
      AddApproversSpec(ApproversFrom(db, init), ApproversOf(db.paymentApprovers, payers[|payers| - 1].userId));
    } else {
      assert payers[..i] == payers;
    }
  }

  lemma {:induction false} ApproversSpec(db: Db, payers: seq<HorseManager>)
    ensures DistinctApprovers(ApproversFrom(db, payers))
    ensures forall a :: a in ApproversFrom(db, payers) ==>
              a in db.paymentApprovers && HasSameHorseManager(a.creatorId, payers)
    ensures forall a :: a in db.paymentApprovers && HasSameHorseManager(a.creatorId, payers) ==>
              HasApprover(a.userId, ApproversFrom(db, payers))
    decreases |payers|
  {
    if payers != [] {
      var init := payers[..|payers| - 1];
      var last := payers[|payers| - 1];
      ApproversSpec(db, init);
      var before := ApproversFrom(db, init);
      var records := ApproversOf(db.paymentApprovers, last.userId);
      AddApproversSpec(before, records);
      var result := ApproversFrom(db, payers);
      forall a | a in result ensures a in db.paymentApprovers && HasSameHorseManager(a.creatorId, payers) {
        if a in before {
          var m :| m in init && m.userId == a.creatorId;
          assert m in payers;
        } else {
          assert a in records;
          assert last in payers;
        }
      }
      forall a | a in db.paymentApprovers && HasSameHorseManager(a.creatorId, payers)
        ensures HasApprover(a.userId, result)
      {
        var m :| m in payers && m.userId == a.creatorId;
        if m == last {
          assert a in records;
        } else {
          assert m in init;
          var b :| b in before && b.userId == a.userId;
          assert b in result;
        }
      }
    }
  }

  /** The approver loops of `updateInvoiceInformation`. */
  method CollectApprovers(db: Db, payers: seq<HorseManager>) returns (approvers: seq<PaymentApprover>)
    ensures approvers == ApproversFrom(db, payers)
  {
    approvers := [];
    for i := 0 to |payers|
      invariant approvers == ApproversFrom(db, payers[..i])
    {
      assert payers[..i + 1][..i] == payers[..i];
      var records := ApproversOf(db.paymentApprovers, payers[i].userId);
      ghost var before := approvers;
      for j := 0 to |records|
        invariant approvers == AddApprovers(before, records[..j])
      {
        assert records[..j + 1][..j] == records[..j];
        if !HasApprover(records[j].userId, approvers) {
          approvers := approvers + [records[j]];
        }
      }
      assert records[..|records|] == records;
    }
    assert payers[..|payers|] == payers;
  }

  // ---------------------------------------------------------------- invoice

  /** The invoice with its requests, amount, payers and approvers derived afresh from
      the store; everything else is kept. */
  function InvoiceInformation(db: Db, inv: Invoice): Invoice
  {
    var rs := InvoiceRequests(db, inv.requestIds);
    var payers := PayersFrom(rs);
    inv.(requests := rs, amount := RequestsAmount(rs), payers := payers,
         paymentApprovers := ApproversFrom(db, payers))
  }

  /** The model of `updateInvoiceInformation`. */
  method UpdateInvoiceInformation(db: Db, inv: Invoice) returns (r: Invoice)
    ensures r == InvoiceInformation(db, inv)
  {
    var requests := HydrateRequests(db, inv.requestIds);
    var amount := SumAmount(requests);
    var payers := CollectPayers(requests);
    var approvers := CollectApprovers(db, payers);
    r := inv.(requests := requests, amount := amount, payers := payers, paymentApprovers := approvers);
  }
}
