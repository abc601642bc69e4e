/** The records the core reads but never computes: users with their two capability
    profiles, horse-owner records, payment approvers, shows and horses. */
module Entities {
  import opened Wrappers

  type Id = string

  /** The billing profile of a horse manager; `defaultSource` is the card on file. */
  datatype Customer = Customer(id: Id, defaultSource: Option<Id>)

  /** The payout account of a service provider. */
  datatype Account = Account(id: Id)

  /** The horse-manager profile of a user. A horse-owner record has the same shape and
      carries the owner's share in `percentage`; a record without a share holds 0, which
      is what every reader of the field (`percentage || 0`) makes of it. */
  datatype HorseManager = HorseManager(userId: Id, name: string, percentage: real, customer: Option<Customer>)

  /** The service-provider profile of a user. */
  datatype ServiceProvider = ServiceProvider(userId: Id, name: string, account: Option<Account>)

  /** A user carries either capability profile, both, or neither. */
  datatype User = User(uid: Id, horseManager: Option<HorseManager>, serviceProvider: Option<ServiceProvider>)

  /** A payment-approver record: `userId` may pay on behalf of `creatorId`. */
  datatype PaymentApprover = PaymentApprover(userId: Id, creatorId: Id, name: string)

  datatype Show = Show(uid: Id, name: string)

  /** A horse as stored: only the identifiers of the people around it. */
  datatype HorseDoc = HorseDoc(trainerId: Id, creatorId: Id, leaserId: Option<Id>, ownerIds: seq<Id>)

  /** A horse with the related managers that hydration may fill in. `owners` is either
      absent or non-empty. */
  datatype Horse = Horse(
    uid: Id,
    trainerId: Id,
    creatorId: Id,
    leaserId: Option<Id>,
    ownerIds: seq<Id>,
    trainer: Option<HorseManager>,
    creator: Option<HorseManager>,
    leaser: Option<HorseManager>,
    owners: Option<seq<HorseManager>>)

  /** The horse as the model constructor builds it from a stored document: no relation
      is filled in yet. */
  function NewHorse(uid: Id, doc: HorseDoc): Horse
  {
    Horse(uid, doc.trainerId, doc.creatorId, doc.leaserId, doc.ownerIds, None, None, None, None)
  }
}
