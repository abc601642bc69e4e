/** Who is notified about a service request or an invoice: ordered lists of
    (user, role) pairs, deduplicated the way `getServiceRequestListeners` and
    `getInvoiceListeners` deduplicate them. */
module Listeners {
  import opened Wrappers
  import opened Entities
  import opened ServiceRequests
  import opened Invoices

  datatype UserType = Provider | Manager

  datatype Listener = Listener(userId: Id, userType: UserType)

  ghost predicate NoDuplicates(ls: seq<Listener>)
  {
    forall i, j :: 0 <= i < j < |ls| ==> ls[i] != ls[j]
  }

  /** Push `l` unless the same (user, role) pair is already listed. */
  function AddListener(ls: seq<Listener>, l: Listener): (r: seq<Listener>)
    ensures ls <= r
    ensures l in r
    ensures forall x :: x in r <==> x in ls || x == l
    ensures NoDuplicates(ls) ==> NoDuplicates(r)
  {
    if l in ls then ls else ls + [l]
  }

  /** Push each of `ids` with role `t`, skipping pairs already listed. */
  function AddUsers(ls: seq<Listener>, ids: seq<Id>, t: UserType): seq<Listener>
    decreases |ids|
  {
    if ids == [] then ls else AddListener(AddUsers(ls, ids[..|ids| - 1], t), Listener(ids[|ids| - 1], t))
  }

  /** Pushing users keeps what was listed, adds exactly the pairs of role `t` for `ids`,
      lists no pair twice, and puts only role `t` behind the old entries. */
  lemma AddUsersSpec(ls: seq<Listener>, ids: seq<Id>, t: UserType)
    ensures ls <= AddUsers(ls, ids, t)
    ensures forall x :: x in AddUsers(ls, ids, t) <==> x in ls || (x.userType == t && x.userId in ids)
    ensures NoDuplicates(ls) ==> NoDuplicates(AddUsers(ls, ids, t))
    ensures forall i :: |ls| <= i < |AddUsers(ls, ids, t)| ==> AddUsers(ls, ids, t)[i].userType == t
  {
    AddUsersPrefix(ls, ids, t);
    AddUsersMembers(ls, ids, t);
    AddUsersDistinct(ls, ids, t);
    AddUsersRoles(ls, ids, t);
  }

  lemma {:induction false} AddUsersPrefix(ls: seq<Listener>, ids: seq<Id>, t: UserType)
    ensures ls <= AddUsers(ls, ids, t)
    decreases |ids|
  {
    if ids != [] {
      AddUsersPrefix(ls, ids[..|ids| - 1], t);
    }
  }

  lemma {:induction false} AddUsersMembers(ls: seq<Listener>, ids: seq<Id>, t: UserType)
    ensures forall x :: x in AddUsers(ls, ids, t) <==> x in ls || (x.userType == t && x.userId in ids)
    decreases |ids|
  {
    if ids != [] {
      var init := ids[..|ids| - 1];
      AddUsersMembers(ls, init, t);
      assert forall x :: x in init || x == ids[|ids| - 1] <==> x in ids;
    }
  }

  lemma {:induction false} AddUsersDistinct(ls: seq<Listener>, ids: seq<Id>, t: UserType)
    ensures NoDuplicates(ls) ==> NoDuplicates(AddUsers(ls, ids, t))
    decreases |ids|
  {
    if ids != [] {
      AddUsersDistinct(ls, ids[..|ids| - 1], t);
    }
  }

  lemma {:induction false} AddUsersRoles(ls: seq<Listener>, ids: seq<Id>, t: UserType)
    ensures forall i :: |ls| <= i < |AddUsers(ls, ids, t)| ==> AddUsers(ls, ids, t)[i].userType == t
    decreases |ids|
  {
    if ids != [] {
      var init := ids[..|ids| - 1];
      AddUsersRoles(ls, init, t);
      AddUsersPrefix(ls, init, t);
    }
  }

  function UserIdsOfManagers(ms: seq<HorseManager>): (ids: seq<Id>)
    ensures |ids| == |ms| && forall i :: 0 <= i < |ms| ==> ids[i] == ms[i].userId
  {
    seq(|ms|, i requires 0 <= i < |ms| => ms[i].userId)
  }

  function UserIdsOfApprovers(as_: seq<PaymentApprover>): (ids: seq<Id>)
    ensures |ids| == |as_| && forall i :: 0 <= i < |as_| ==> ids[i] == as_[i].userId
  {
    seq(|as_|, i requires 0 <= i < |as_| => as_[i].userId)
  }

  // ---------------------------------------------------------------- requests

  /** The provider entries of a request: its provider, then its assigner if any, both
      pushed without a duplicate check. */
  function RequestProviders(r: ServiceRequest): seq<Listener>
  {
    [Listener(r.serviceProviderId, Provider)]
      + (if r.assignerId.Some? then [Listener(r.assignerId.value, Provider)] else [])
  }

  /** The listeners of a request: its providers; then, with a hydrated horse, the leaser
      (unchecked) and each owner id and the trainer as managers when not yet listed as
      managers. The trainer is checked exactly like one more owner. */
  function RequestListeners(r: ServiceRequest): seq<Listener>
  {
    var providers := RequestProviders(r);
    match r.horse
    case None => providers
    case Some(h) =>
      var leaser := if h.leaserId.Some? then [Listener(h.leaserId.value, Manager)] else [];
      AddUsers(providers + leaser, h.ownerIds + [h.trainerId], Manager)
  }

  /** The manager entries of a request, behind its providers. */
  lemma RequestListenersSplit(r: ServiceRequest, h: Horse)
    requires r.horse == Some(h)
    ensures var leaser := if h.leaserId.Some? then [Listener(h.leaserId.value, Manager)] else [];
            var managers := AddUsers(leaser, h.ownerIds + [h.trainerId], Manager);
            && RequestListeners(r) == RequestProviders(r) + managers
            && NoDuplicates(managers)
            && (forall x :: x in managers ==> x.userType == Manager)
  {
    var leaser := if h.leaserId.Some? then [Listener(h.leaserId.value, Manager)] else [];
    AddUsersTail(RequestProviders(r), leaser, h.ownerIds + [h.trainerId], Manager);
    AddUsersSpec(leaser, h.ownerIds + [h.trainerId], Manager);
  }

  /** The listener order and roles of a request: the provider first, the assigner second
      when there is one, both as providers; every later entry is a manager, and there are
      none without a hydrated horse. */
  lemma RequestListenersOrder(r: ServiceRequest)
    ensures var ls := RequestListeners(r);
            var n := if r.assignerId.Some? then 2 else 1;
            && n <= |ls|
            && ls[0] == Listener(r.serviceProviderId, Provider)
            && (r.assignerId.Some? ==> ls[1] == Listener(r.assignerId.value, Provider))
            && (forall i :: 0 <= i < |ls| ==> (ls[i].userType == Provider <==> i < n))
            && (r.horse.None? ==> |ls| == n)
  {
    var ps := RequestProviders(r);
    if r.horse.Some? {
      var h := r.horse.value;
      RequestListenersSplit(r, h);
      var leaser := if h.leaserId.Some? then [Listener(h.leaserId.value, Manager)] else [];
      RolesInOrder(ps, AddUsers(leaser, h.ownerIds + [h.trainerId], Manager));
    } else {
      assert ps + [] == ps;
      RolesInOrder(ps, []);
    }
  }

  /** Providers followed by managers: an entry is a provider exactly when it lies in the
      first block. */
  lemma RolesInOrder(ps: seq<Listener>, ms: seq<Listener>)
    requires forall x :: x in ps ==> x.userType == Provider
    requires forall x :: x in ms ==> x.userType == Manager
    ensures forall i :: 0 <= i < |ps + ms| ==> ((ps + ms)[i].userType == Provider <==> i < |ps|)
  {
    forall i | 0 <= i < |ps + ms| ensures (ps + ms)[i].userType == Provider <==> i < |ps| {
      if i < |ps| {
        assert ps[i] in ps;
      } else {
        assert (ps + ms)[i] == ms[i - |ps|];
        assert ms[i - |ps|] in ms;
      }
    }
  }

  /** Providers followed by distinct managers: no manager entry repeats. */
  lemma ManagersDistinctBehindProviders(ps: seq<Listener>, ms: seq<Listener>)
    requires forall x :: x in ps ==> x.userType == Provider
    requires NoDuplicates(ms)
    ensures forall i, j :: 0 <= i < j < |ps + ms| && (ps + ms)[i].userType == Manager ==> (ps + ms)[i] != (ps + ms)[j]
  {
    var ls := ps + ms;
    forall i, j | 0 <= i < j < |ls| && ls[i].userType == Manager ensures ls[i] != ls[j] {
      if |ps| <= i {
        assert ls[i] == ms[i - |ps|] && ls[j] == ms[j - |ps|];
      }
    }
  }

  /** Exactly who is listed: the provider, the assigner, and with a hydrated horse its
      leaser, owners and trainer as managers. */
  lemma RequestListenersMembers(r: ServiceRequest, x: Listener)
    ensures x in RequestListeners(r) <==>
      || x == Listener(r.serviceProviderId, Provider)
      || (r.assignerId.Some? && x == Listener(r.assignerId.value, Provider))
      || (r.horse.Some? && x.userType == Manager &&
          (Some(x.userId) == r.horse.value.leaserId || x.userId in r.horse.value.ownerIds
           || x.userId == r.horse.value.trainerId))
  {
    if r.horse.Some? {
      var h := r.horse.value;
      var leaser := if h.leaserId.Some? then [Listener(h.leaserId.value, Manager)] else [];
      AddUsersMembers(RequestProviders(r) + leaser, h.ownerIds + [h.trainerId], Manager);
    }
  }

  /** No manager is listed twice. */
  lemma RequestManagersDistinct(r: ServiceRequest)
    ensures var ls := RequestListeners(r);
            forall i, j :: 0 <= i < j < |ls| && ls[i].userType == Manager ==> ls[i] != ls[j]
  {
    var ps := RequestProviders(r);
    if r.horse.Some? {
      var h := r.horse.value;
      RequestListenersSplit(r, h);
      var leaser := if h.leaserId.Some? then [Listener(h.leaserId.value, Manager)] else [];
      ManagersDistinctBehindProviders(ps, AddUsers(leaser, h.ownerIds + [h.trainerId], Manager));
    } else {
      assert ps + [] == ps;
      ManagersDistinctBehindProviders(ps, []);
    }
  }

  /** Manager pairs never coincide with provider pairs, so pushing managers behind a block
      of providers only ever looks at the managers. */
  lemma {:induction false} AddUsersTail(providers: seq<Listener>, managers: seq<Listener>, ids: seq<Id>, t: UserType)
    requires forall x :: x in providers ==> x.userType != t
    ensures AddUsers(providers + managers, ids, t) == providers + AddUsers(managers, ids, t)
    decreases |ids|
  {
    if ids != [] {
      var init := ids[..|ids| - 1];
      AddUsersTail(providers, managers, init, t);
      var l := Listener(ids[|ids| - 1], t);
      assert l in providers + AddUsers(managers, init, t) <==> l in AddUsers(managers, init, t);
    }
  }

  /** As written, the assigner is pushed without looking at the provider entry, so a
      request assigned to its own provider lists that provider twice. */
  lemma RequestProviderMayRepeat(r: ServiceRequest)
    requires r.assignerId == Some(r.serviceProviderId)
    ensures 2 <= |RequestListeners(r)| && RequestListeners(r)[0] == RequestListeners(r)[1]
  {
    RequestListenersOrder(r);
  }

  /** The model of `getServiceRequestListeners`. */
  method GetServiceRequestListeners(r: ServiceRequest) returns (ls: seq<Listener>)
    ensures ls == RequestListeners(r)
  {
    ls := [Listener(r.serviceProviderId, Provider)];
    if r.assignerId.Some? {
      ls := ls + [Listener(r.assignerId.value, Provider)];
    }
    assert ls == RequestProviders(r);
    if r.horse.Some? {
      var horse := r.horse.value;
      if horse.leaserId.Some? {
        ls := ls + [Listener(horse.leaserId.value, Manager)];
      }
      ghost var base := ls;
      assert base == RequestProviders(r) + (if horse.leaserId.Some? then [Listener(horse.leaserId.value, Manager)] else []);
      var ownerIds := horse.ownerIds;
      for j := 0 to |ownerIds|
        invariant ls == AddUsers(base, ownerIds[..j], Manager)
      {
        assert ownerIds[..j + 1][..j] == ownerIds[..j];
        if Listener(ownerIds[j], Manager) !in ls {
          ls := ls + [Listener(ownerIds[j], Manager)];
        }
      }
      assert ownerIds[..|ownerIds|] == ownerIds;
      ghost var ids := ownerIds + [horse.trainerId];
      assert ids[..|ids| - 1] == ownerIds;
      if Listener(horse.trainerId, Manager) !in ls {
        ls := ls + [Listener(horse.trainerId, Manager)];
      }
      assert ls == AddUsers(base, ids, Manager);
    }
  }

  // ---------------------------------------------------------------- invoices

  /** The provider entries of an invoice: each request's provider, then its assigner,
      each when not yet listed. */
  function InvoiceProviders(rs: seq<ServiceRequest>): seq<Listener>
    decreases |rs|
  {
    if rs == [] then []
    else
      var r := rs[|rs| - 1];
      var ls := AddListener(InvoiceProviders(rs[..|rs| - 1]), Listener(r.serviceProviderId, Provider));
      if r.assignerId.Some? then AddListener(ls, Listener(r.assignerId.value, Provider)) else ls
  }

  lemma {:induction false} InvoiceProvidersSpec(rs: seq<ServiceRequest>)
    ensures NoDuplicates(InvoiceProviders(rs))
    ensures forall x :: x in InvoiceProviders(rs) <==>
              exists k :: 0 <= k < |rs| &&
                (x == Listener(rs[k].serviceProviderId, Provider) ||
                 (rs[k].assignerId.Some? && x == Listener(rs[k].assignerId.value, Provider)))
    decreases |rs|
  {
    if rs != [] {
      var init := rs[..|rs| - 1];
      InvoiceProvidersSpec(init);
      forall x ensures x in InvoiceProviders(rs) <==>
              exists k :: 0 <= k < |rs| &&
                (x == Listener(rs[k].serviceProviderId, Provider) ||
                 (rs[k].assignerId.Some? && x == Listener(rs[k].assignerId.value, Provider)))
      {
        if x in InvoiceProviders(init) {
          var k :| 0 <= k < |init| &&
                (x == Listener(init[k].serviceProviderId, Provider) ||
                 (init[k].assignerId.Some? && x == Listener(init[k].assignerId.value, Provider)));
          assert rs[k] == init[k];
        }
        if exists k :: 0 <= k < |rs| &&
                (x == Listener(rs[k].serviceProviderId, Provider) ||
                 (rs[k].assignerId.Some? && x == Listener(rs[k].assignerId.value, Provider)))
        {
          var k :| 0 <= k < |rs| &&
                (x == Listener(rs[k].serviceProviderId, Provider) ||
                 (rs[k].assignerId.Some? && x == Listener(rs[k].assignerId.value, Provider)));
          if k < |init| {
            assert init[k] == rs[k];
          }
        }
      }
    }
  }

  /** The listeners of an invoice: request providers and assigners, then payers, then
      payment approvers, the latter two as managers; a pair already listed is skipped. */
  function InvoiceListeners(inv: Invoice): seq<Listener>
  {
    AddUsers(AddUsers(InvoiceProviders(inv.requests), UserIdsOfManagers(inv.payers), Manager),
             UserIdsOfApprovers(inv.paymentApprovers), Manager)
  }

  lemma ManagerIdsMembers(ms: seq<HorseManager>, u: Id)
    ensures u in UserIdsOfManagers(ms) <==> exists p :: p in ms && p.userId == u
  {
    var ids := UserIdsOfManagers(ms);
    if u in ids {
      var i :| 0 <= i < |ids| && ids[i] == u;
      assert ms[i] in ms;
    }
    if exists p :: p in ms && p.userId == u {
      var p :| p in ms && p.userId == u;
      var i :| 0 <= i < |ms| && ms[i] == p;
      assert ids[i] == u;
    }
  }

  lemma ApproverIdsMembers(as_: seq<PaymentApprover>, u: Id)
    ensures u in UserIdsOfApprovers(as_) <==> exists a :: a in as_ && a.userId == u
  {
    var ids := UserIdsOfApprovers(as_);
    if u in ids {
      var i :| 0 <= i < |ids| && ids[i] == u;
      assert as_[i] in as_;
    }
    if exists a :: a in as_ && a.userId == u {
      var a :| a in as_ && a.userId == u;
      var i :| 0 <= i < |as_| && as_[i] == a;
      assert ids[i] == u;
    }
  }

  /** The invoice listeners never repeat a (user, role) pair. */
  lemma InvoiceListenersDistinct(inv: Invoice)
    ensures NoDuplicates(InvoiceListeners(inv))
  {
    var providers := InvoiceProviders(inv.requests);
    InvoiceProvidersSpec(inv.requests);
    AddUsersSpec(providers, UserIdsOfManagers(inv.payers), Manager);
    AddUsersSpec(AddUsers(providers, UserIdsOfManagers(inv.payers), Manager),
                 UserIdsOfApprovers(inv.paymentApprovers), Manager);
  }

  /** The invoice listeners are exactly the request providers and assigners as providers
      and the payers and approvers as managers. */
  lemma InvoiceListenersMembers(inv: Invoice, x: Listener)
    ensures x in InvoiceListeners(inv) <==>
              || (x.userType == Provider &&
                  exists k :: 0 <= k < |inv.requests| &&
                    (x.userId == inv.requests[k].serviceProviderId || Some(x.userId) == inv.requests[k].assignerId))
              || (x.userType == Manager &&
                  ((exists p :: p in inv.payers && p.userId == x.userId) ||
                   (exists a :: a in inv.paymentApprovers && a.userId == x.userId)))
  {
    var providers := InvoiceProviders(inv.requests);
    InvoiceProvidersSpec(inv.requests);
    AddUsersSpec(providers, UserIdsOfManagers(inv.payers), Manager);
    AddUsersSpec(AddUsers(providers, UserIdsOfManagers(inv.payers), Manager),
                 UserIdsOfApprovers(inv.paymentApprovers), Manager);
    ManagerIdsMembers(inv.payers, x.userId);
    ApproverIdsMembers(inv.paymentApprovers, x.userId);
  }

  /** Every provider entry of an invoice comes before every manager entry. */
  lemma InvoiceListenersOrder(inv: Invoice)
    ensures var ls := InvoiceListeners(inv);
            var n := |InvoiceProviders(inv.requests)|;
            n <= |ls| && forall i :: 0 <= i < |ls| ==> (ls[i].userType == Provider <==> i < n)
  {
    var providers := InvoiceProviders(inv.requests);
    InvoiceProvidersSpec(inv.requests);
    var withPayers := AddUsers(providers, UserIdsOfManagers(inv.payers), Manager);
    AddUsersSpec(providers, UserIdsOfManagers(inv.payers), Manager);
    AddUsersSpec(withPayers, UserIdsOfApprovers(inv.paymentApprovers), Manager);
    var ls := InvoiceListeners(inv);
    forall i | 0 <= i < |providers| ensures ls[i].userType == Provider {
      assert ls[i] == providers[i];
      assert providers[i] in providers;
    }
  }

  /** The model of `getInvoiceListeners`: its three loops are the three steps below. */
  method GetInvoiceListeners(inv: Invoice) returns (ls: seq<Listener>)
    ensures ls == InvoiceListeners(inv)
  {
    ls := PushRequestProviders(inv.requests);
    ls := PushPayers(ls, inv.payers);
    ls := PushApprovers(ls, inv.paymentApprovers);
  }

  /** The first loop: each request's provider, then its assigner, when not yet listed. */
  method PushRequestProviders(rs: seq<ServiceRequest>) returns (ls: seq<Listener>)
    ensures ls == InvoiceProviders(rs)
  {
    ls := [];
    for i := 0 to |rs|
      invariant ls == InvoiceProviders(rs[..i])
    {
      assert rs[..i + 1][..i] == rs[..i];
      if Listener(rs[i].serviceProviderId, Provider) !in ls {
        ls := ls + [Listener(rs[i].serviceProviderId, Provider)];
      }
      if rs[i].assignerId.Some? && Listener(rs[i].assignerId.value, Provider) !in ls {
        ls := ls + [Listener(rs[i].assignerId.value, Provider)];
      }
    }
    assert rs[..|rs|] == rs;
  }

  /** The second loop: each payer as a manager, when not yet listed. */
  method PushPayers(start: seq<Listener>, payers: seq<HorseManager>) returns (ls: seq<Listener>)
    ensures ls == AddUsers(start, UserIdsOfManagers(payers), Manager)
  {
    ls := start;
    ghost var ids := UserIdsOfManagers(payers);
    for i := 0 to |payers|
      invariant ls == AddUsers(start, ids[..i], Manager)
    {
      assert ids[..i + 1][..i] == ids[..i];
      if Listener(payers[i].userId, Manager) !in ls {
        ls := ls + [Listener(payers[i].userId, Manager)];
      }
    }
    assert ids[..|ids|] == ids;
  }

  /** The third loop: each payment approver as a manager, when not yet listed. */
  method PushApprovers(start: seq<Listener>, approvers: seq<PaymentApprover>) returns (ls: seq<Listener>)
    ensures ls == AddUsers(start, UserIdsOfApprovers(approvers), Manager)
  {
    ls := start;
    ghost var ids := UserIdsOfApprovers(approvers);
    for i := 0 to |approvers|
      invariant ls == AddUsers(start, ids[..i], Manager)
    {
      assert ids[..i + 1][..i] == ids[..i];
      if Listener(approvers[i].userId, Manager) !in ls {
        ls := ls + [Listener(approvers[i].userId, Manager)];
      }
    }
    assert ids[..|ids|] == ids;
  }
}
