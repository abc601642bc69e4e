/** Hydration of horses and service requests: each stored identifier is looked up and
    the related object filled in; a lookup miss leaves the field unset and processing
    goes on. Also the per-request payer, chosen by priority. */
module Hydration {
  import opened Wrappers
  import opened Entities
  import opened ServiceRequests
  import opened Store

  /** The horse-manager profile of a user; None when the user or the profile is missing. */
  function ManagerOf(db: Db, userId: Id): Option<HorseManager>
  {
    if userId in db.users then db.users[userId].horseManager else None
  }

  /** The service-provider profile of a user; None when the user or the profile is missing. */
  function ProviderOf(db: Db, userId: Id): Option<ServiceProvider>
  {
    if userId in db.users then db.users[userId].serviceProvider else None
  }

  /** The horse-owner records found for `ownerIds`, in the order of `ownerIds`; an id
      without a record is skipped. */
  function OwnerRecords(db: Db, horseId: Id, ownerIds: seq<Id>): seq<HorseManager>
    decreases |ownerIds|
  {
    if ownerIds == [] then []
    else
      var rest := OwnerRecords(db, horseId, ownerIds[..|ownerIds| - 1]);
      var key := (horseId, ownerIds[|ownerIds| - 1]);
      if key in db.horseOwners then rest + [db.horseOwners[key]] else rest
  }

  /** `updateHorseDetailInformation`: fills in the trainer, the creator, the leaser (when
      the horse has a leaser id) and the owners (when it has owner ids), each only when
      it is not set yet. */
  function HorseDetail(db: Db, h: Horse): (r: Horse)
    ensures r.uid == h.uid && r.trainerId == h.trainerId && r.creatorId == h.creatorId
    ensures r.leaserId == h.leaserId && r.ownerIds == h.ownerIds
    ensures h.trainer.Some? ==> r.trainer == h.trainer
    ensures h.creator.Some? ==> r.creator == h.creator
    ensures h.leaser.Some? || h.leaserId.None? ==> r.leaser == h.leaser
    ensures h.owners.Some? || h.ownerIds == [] ==> r.owners == h.owners
    ensures h.owners.None? && r.owners.Some? ==>
              r.owners.value == OwnerRecords(db, h.uid, h.ownerIds) && r.owners.value != []
    ensures h.owners.None? && OwnerRecords(db, h.uid, h.ownerIds) != [] ==> r.owners.Some?
    ensures h.trainer.None? ==> r.trainer == ManagerOf(db, h.trainerId)
    ensures h.creator.None? ==> r.creator == ManagerOf(db, h.creatorId)
    ensures h.leaser.None? && h.leaserId.Some? ==> r.leaser == ManagerOf(db, h.leaserId.value)
  {
    h.(trainer := HorseTrainer(db, h), creator := HorseCreator(db, h), leaser := HorseLeaser(db, h),
       owners := HorseOwners(db, h))
  }

  /** The fields `HorseDetail` fills in, one by one. */
  function HorseTrainer(db: Db, h: Horse): Option<HorseManager>
  {
    if h.trainer.Some? || h.trainerId !in db.users then h.trainer else ManagerOf(db, h.trainerId)
  }

  function HorseCreator(db: Db, h: Horse): Option<HorseManager>
  {
    if h.creator.Some? || h.creatorId !in db.users then h.creator else ManagerOf(db, h.creatorId)
  }

  function HorseLeaser(db: Db, h: Horse): Option<HorseManager>
  {
    if h.leaserId.Some? && h.leaser.None? && h.leaserId.value in db.users
    then ManagerOf(db, h.leaserId.value) else h.leaser
  }

  function HorseOwners(db: Db, h: Horse): Option<seq<HorseManager>>
  {
    var found := OwnerRecords(db, h.uid, h.ownerIds);
    if h.ownerIds != [] && h.owners.None? && found != [] then Some(found) else h.owners
  }

  /** Hydrating a hydrated horse again changes nothing: a relation that was found stays,
      and a lookup that missed misses again. */
  lemma HorseDetailIdempotent(db: Db, h: Horse)
    ensures HorseDetail(db, HorseDetail(db, h)) == HorseDetail(db, h)
  {
  }

  /** The owner records are exactly the records stored for some listed owner id. */
  lemma {:induction false} OwnerRecordsMembers(db: Db, horseId: Id, ownerIds: seq<Id>, m: HorseManager)
    ensures m in OwnerRecords(db, horseId, ownerIds) <==>
            exists k :: 0 <= k < |ownerIds| && (horseId, ownerIds[k]) in db.horseOwners
                                             && db.horseOwners[(horseId, ownerIds[k])] == m
    decreases |ownerIds|
  {
    if ownerIds != [] {
      var init := ownerIds[..|ownerIds| - 1];
      OwnerRecordsMembers(db, horseId, init, m);
      forall k | 0 <= k < |init| ensures init[k] == ownerIds[k] { }
    }
  }

  /** When every owner id has a record, the owners follow the order of the owner ids. */
  lemma {:induction false} OwnerRecordsInOrder(db: Db, horseId: Id, ownerIds: seq<Id>)
    requires forall k :: 0 <= k < |ownerIds| ==> (horseId, ownerIds[k]) in db.horseOwners
    ensures |OwnerRecords(db, horseId, ownerIds)| == |ownerIds|
    ensures forall k :: 0 <= k < |ownerIds| ==>
              OwnerRecords(db, horseId, ownerIds)[k] == db.horseOwners[(horseId, ownerIds[k])]
    decreases |ownerIds|
  {
    if ownerIds != [] {
      var init := ownerIds[..|ownerIds| - 1];
      OwnerRecordsInOrder(db, horseId, init);
    }
  }

  /** The model of `updateHorseDetailInformation`, the owner queries as one loop. */
  method UpdateHorseDetailInformation(db: Db, h: Horse) returns (r: Horse)
    ensures r == HorseDetail(db, h)
  {
    var trainer := h.trainer;
    if trainer.None? {
      var user := FetchUser(db, h.trainerId);
      if user.Some? {
        trainer := user.value.horseManager;
      }
    }
    var creator := h.creator;
    if creator.None? {
      var user := FetchUser(db, h.creatorId);
      if user.Some? {
        creator := user.value.horseManager;
      }
    }
    var leaser := h.leaser;
    if h.leaserId.Some? && leaser.None? {
      var user := FetchUser(db, h.leaserId.value);
      if user.Some? {
        leaser := user.value.horseManager;
      }
    }
    var owners := FillOwners(db, h);
    r := h.(trainer := trainer, creator := creator, leaser := leaser, owners := owners);
  }

  /** The owner queries: one record per owner id that has one, kept only when some id has. */
  method FillOwners(db: Db, h: Horse) returns (owners: Option<seq<HorseManager>>)
    ensures owners == HorseOwners(db, h)
  {
    owners := h.owners;
    if h.ownerIds != [] && owners.None? {
      var found: seq<HorseManager> := [];
      for i := 0 to |h.ownerIds|
        invariant found == OwnerRecords(db, h.uid, h.ownerIds[..i])
      {
        assert h.ownerIds[..i + 1][..i] == h.ownerIds[..i];
        var key := (h.uid, h.ownerIds[i]);
        if key in db.horseOwners {
          found := found + [db.horseOwners[key]];
        }
      }
      assert h.ownerIds[..|h.ownerIds|] == h.ownerIds;
      if found != [] {
        owners := Some(found);
      }
    }
  }

  /** The single payer responsible for 100% of a request on horse `h`: the leaser when
      there is one, else the owner when there is exactly one, else nobody when there are
      several owners, else the trainer. */
  function DerivePayer(h: Horse): (p: Option<HorseManager>)
    ensures h.leaser.Some? ==> p == h.leaser
    ensures h.leaser.None? && h.owners.Some? && |h.owners.value| == 1 ==> p == Some(h.owners.value[0])
    ensures h.leaser.None? && h.owners.Some? && |h.owners.value| > 1 ==> p.None?
    ensures h.leaser.None? && (h.owners.None? || h.owners.value == []) ==> p == h.trainer
  {
    if h.leaser.Some? then h.leaser
    else if h.owners.Some? && |h.owners.value| > 0 then
      if |h.owners.value| == 1 then Some(h.owners.value[0]) else None
    else h.trainer
  }

  /** `updateServiceRequestInformation` on one request: fills in the horse (deriving the
      payer from it), the show, the service provider, the assigner and the creator, each
      only when it is not set yet; a lookup miss leaves the field unset. */
  function ServiceRequestInformation(db: Db, r: ServiceRequest): (n: ServiceRequest)
    ensures n == r.(horse := n.horse, show := n.show, serviceProvider := n.serviceProvider,
                    assigner := n.assigner, payer := n.payer, creator := n.creator)
    ensures n.horse.Some? <==> r.horse.Some? || r.horseId in db.horses
    ensures r.horse.Some? ==> n.horse == r.horse && n.payer == r.payer
    ensures r.horse.None? && n.horse.Some? ==>
              n.horse.value.uid == r.horseId && n.payer == DerivePayer(n.horse.value)
    ensures r.show.Some? ==> n.show == r.show
    ensures r.serviceProvider.Some? ==> n.serviceProvider == r.serviceProvider
    ensures r.assigner.Some? ==> n.assigner == r.assigner
    ensures r.assignerId.None? ==> n.assigner == r.assigner
    ensures r.creator.Some? ==> n.creator == r.creator
    ensures r.showId.None? ==> n.show == r.show
    ensures r.show.None? && r.showId.Some? ==>
              n.show == if r.showId.value in db.shows then Some(db.shows[r.showId.value]) else None
    ensures r.serviceProvider.None? ==> n.serviceProvider == ProviderOf(db, r.serviceProviderId)
    ensures r.assigner.None? && r.assignerId.Some? ==> n.assigner == ProviderOf(db, r.assignerId.value)
    ensures r.creatorId.None? ==> n.creator == r.creator
    ensures r.creator.None? && r.creatorId.Some? ==> n.creator == ManagerOf(db, r.creatorId.value)
  {
    r.(horse := RequestHorse(db, r), payer := RequestPayer(db, r), show := RequestShow(db, r),
       serviceProvider := RequestProvider(db, r), assigner := RequestAssigner(db, r),
       creator := RequestCreator(db, r))
  }

  /** The fields `ServiceRequestInformation` fills in, one by one. */
  function RequestHorse(db: Db, r: ServiceRequest): Option<Horse>
  {
    if r.horse.Some? || r.horseId !in db.horses then r.horse
    else Some(HorseDetail(db, NewHorse(r.horseId, db.horses[r.horseId])))
  }

  function RequestPayer(db: Db, r: ServiceRequest): Option<HorseManager>
  {
    var horse := RequestHorse(db, r);
    if r.horse.None? && horse.Some? then DerivePayer(horse.value) else r.payer
  }

  function RequestShow(db: Db, r: ServiceRequest): Option<Show>
  {
    if r.showId.Some? && r.show.None? && r.showId.value in db.shows
    then Some(db.shows[r.showId.value]) else r.show
  }

  function RequestProvider(db: Db, r: ServiceRequest): Option<ServiceProvider>
  {
    if r.serviceProvider.None? then ProviderOf(db, r.serviceProviderId) else r.serviceProvider
  }

  function RequestAssigner(db: Db, r: ServiceRequest): Option<ServiceProvider>
  {
    if r.assignerId.Some? && r.assigner.None? then ProviderOf(db, r.assignerId.value) else r.assigner
  }

  function RequestCreator(db: Db, r: ServiceRequest): Option<HorseManager>
  {
    if r.creatorId.Some? && r.creator.None? then ManagerOf(db, r.creatorId.value) else r.creator
  }

  /** Hydrating a hydrated request again changes nothing. */
  lemma ServiceRequestInformationIdempotent(db: Db, r: ServiceRequest)
    ensures ServiceRequestInformation(db, ServiceRequestInformation(db, r)) == ServiceRequestInformation(db, r)
  {
  }

  /** What a later request on the same horse takes over from its anchor: horse, show,
      service provider, assigner and creator. Its identifiers, services and payer stay. */
  function ShareRelations(anchor: ServiceRequest, r: ServiceRequest): ServiceRequest
  {
    r.(horse := anchor.horse, show := anchor.show, serviceProvider := anchor.serviceProvider,
       assigner := anchor.assigner, creator := anchor.creator)
  }

  /** The model of `updateServiceRequestInformation(request, target)`: hydrates `request`
      in place (`updated`) and returns `target`, when given, with the relations of the
      hydrated request, else the hydrated request itself. */
  method UpdateServiceRequestInformation(db: Db, request: ServiceRequest, target: Option<ServiceRequest>)
    returns (updated: ServiceRequest, result: ServiceRequest)
    ensures updated == ServiceRequestInformation(db, request)
    ensures result == if target.Some? then ShareRelations(updated, target.value) else updated
  {
    var horse, payer := FillHorse(db, request);
    var show := FillShow(db, request);
    var provider := FillProvider(db, request);
    var assigner := FillAssigner(db, request);
    var creator := FillCreator(db, request);
    updated := request.(horse := horse, payer := payer, show := show, serviceProvider := provider,
                        assigner := assigner, creator := creator);
    result := if target.Some? then ShareRelations(updated, target.value) else updated;
  }

  /** The horse, hydrated when only its id is stored, and the payer derived from it. */
  method FillHorse(db: Db, request: ServiceRequest) returns (horse: Option<Horse>, payer: Option<HorseManager>)
    ensures horse == ServiceRequestInformation(db, request).horse
    ensures payer == ServiceRequestInformation(db, request).payer
  {
    horse, payer := request.horse, request.payer;
    if horse.None? && request.horseId in db.horses {
      var h := UpdateHorseDetailInformation(db, NewHorse(request.horseId, db.horses[request.horseId]));
      horse, payer := Some(h), DerivePayer(h);
    }
  }

  method FillShow(db: Db, request: ServiceRequest) returns (show: Option<Show>)
    ensures show == ServiceRequestInformation(db, request).show
  {
    show := request.show;
    if request.showId.Some? && show.None? && request.showId.value in db.shows {
      show := Some(db.shows[request.showId.value]);
    }
  }

  method FillProvider(db: Db, request: ServiceRequest) returns (provider: Option<ServiceProvider>)
    ensures provider == ServiceRequestInformation(db, request).serviceProvider
  {
    provider := request.serviceProvider;
    if provider.None? {
      var user := FetchUser(db, request.serviceProviderId);
      if user.Some? && user.value.serviceProvider.Some? {
        provider := user.value.serviceProvider;
      }
    }
  }

  method FillAssigner(db: Db, request: ServiceRequest) returns (assigner: Option<ServiceProvider>)
    ensures assigner == ServiceRequestInformation(db, request).assigner
  {
    assigner := request.assigner;
    if request.assignerId.Some? && assigner.None? {
      var user := FetchUser(db, request.assignerId.value);
      if user.Some? && user.value.serviceProvider.Some? {
        assigner := user.value.serviceProvider;
      }
    }
  }

  method FillCreator(db: Db, request: ServiceRequest) returns (creator: Option<HorseManager>)
    ensures creator == ServiceRequestInformation(db, request).creator
  {
    creator := request.creator;
    if request.creatorId.Some? && creator.None? {
      var user := FetchUser(db, request.creatorId.value);
      if user.Some? && user.value.horseManager.Some? {
        creator := user.value.horseManager;
      }
    }
  }
}
