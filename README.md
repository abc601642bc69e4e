# Horse-service invoicing and payments — a Dafny model

This project models the money and aggregation logic of a Firebase backend. Horse managers use it to pay service providers for service requests grouped into invoices. The model covers:

- **Hydration.** A service request and its horse are hydrated from the store. The single payer of a request is derived by priority: leaser, the only owner, nobody, trainer.
- **Invoice aggregation** (`updateInvoiceInformation`):
  - a later request on the same horse shares the relations of the first ("anchor") request;
  - the invoice amount is summed;
  - the payers are deduplicated, in first-seen order;
  - the payment approvers are unioned.
- **In-app settlement** (`submitInvoicePayment`):
  - the ordered precondition checks;
  - each request's cost share, routed to the assigner or the provider;
  - transfers coalesced by destination in floored cents;
  - the tip split evenly among the original providers;
  - the charge with the application fee;
  - the rule that the invoice is fully paid once every payer has paid.
- **Manual settlement** (`markInvoiceAsPaid`): outside-app payments are created for the payers without one, and the invoice is forced to fully paid.
- **Listener projection.** These are the users notified about a request or an invoice, as lists deduplicated by user id and role.
- **Small helpers:**
  - the request total and the record defaults;
  - the application fee and the query limit;
  - the CSV export;
  - the in-memory cursor page and request filter of two search endpoints.

The database is a value `Db` of maps, one per collection. Payment approvers are a sequence that a query filters. The payment processor is a log of `Charge` and `Payout` events. The mutable parts of the backend form the class `Backend.Backend`:

- the database;
- the payment collection;
- the event log.

Its methods are proved equal to the pure functions `Backend.Submit` and `Backend.MarkPaid`, and the lemmas state the properties of those functions. The pure functions model these parts of the source:

- `Backend.Submit` is `submitInvoicePayment` (`functions/src/index.ts:1664-1868`): its checks in source order, then the settlement.
- `Backend.Charger` is the choice of the charging party (`functions/src/index.ts:1685-1698`): the approver's manager profile when an approver id is given, else the payer's.
- `Backend.MarkPaid` is `markInvoiceAsPaid` (`functions/src/index.ts:1590-1662`) with the corrected payer check.
- `Backend.MarkPaidAsWritten` is the same function with the payer check as written.
- `InvoiceAggregation.HasSameHorseManager` is `hasSameHorseManager` (`functions/src/globals.ts:228-232`): some listed manager has the user id. Amounts, rates and percentages are exact reals: `Math.floor(x * 100)` is `Settlement.Cents`, an exact floor. `APPLICATION_FEE` is a parameter (`applicationFee`), because `constants.ts` is not part of this model.

Where the code and its informal description disagree, the model follows the code. The one exception is the payer check of `markInvoiceAsPaid`: `Backend.MarkPaidAsWritten` models it as written, and the class method uses the corrected check (see Findings and Left out).

- **Request listeners can repeat an entry.** The provider and the assigner are pushed without a duplicate check (`functions/src/index.ts:477-483`). A request whose assigner is its provider therefore lists that provider twice. `Listeners.RequestProviderMayRepeat` states this. Only the manager entries are deduplicated (`Listeners.RequestManagersDistinct`).
- **Two guards never fire.** The checks `!objInvoice.requests` and `!objInvoice.payers` test arrays that aggregation always sets for documents that carry `requestIds` and `services` (`functions/src/index.ts:1705-1711`, `1603-1605`).
  - In `submitInvoicePayment` this is harmless. An empty payer list fails the next check anyway, and an empty request list yields no transfer.
  - In `markInvoiceAsPaid` an invoice without payers is accepted (see Findings). `Backend.MarkPaidAsWritten` models this acceptance. `Backend.MarkPaid` and the class method `Backend.Backend.MarkInvoiceAsPaid` refuse such an invoice.

## Model

| member | source | states |
|---|---|---|
| ServiceRequests.NewServiceRequest | functions/src/models/service-requests.ts:38-53 | A missing status becomes pending. A missing custom-request flag becomes false. The assigner id and `dismissedBy` are copied, absent when absent. No related object is filled in. |
| ServiceRequests.TotalAmount | functions/src/models/service-requests.ts:88-94 | The accumulating loop returns the sum over the services of rate × (quantity or 1). |
| ServiceRequests.ServiceWithoutQuantityCountsOnce | functions/src/models/service-requests.ts:91 | A service whose quantity is absent or 0 contributes exactly its rate. |
| ServiceRequests.ServicesTotalEmpty | functions/src/models/service-requests.ts:89-93 | A request without services totals 0. |
| ServiceRequests.ServicesTotalAppend | functions/src/models/service-requests.ts:89-93 | Appending a service adds that service's rate × (quantity or 1) to the total. |
| ServiceRequests.ServicesTotalConcat | functions/src/models/service-requests.ts:88-94 | The total of two service lists is the sum of their totals. |
| ServiceRequests.ServicesTotalNonNegative | functions/src/models/service-requests.ts:88-94 | With non-negative rates and quantities, the total is non-negative. |
| Payments.NewPayment | functions/src/models/payments.ts:11-24 | The invoice id, payer id, amount and approver id are copied unchanged; an absent approver id stays absent. A missing tip is 0. A missing outside-app flag is false. A missing creation time is the current time. |
| Fees.AmountWithApplicationFee | functions/src/globals.ts:314-316 | The fee maps 0 to 0. With a non-negative fee it never lowers a non-negative amount. |
| Fees.FeeIsAdditive | functions/src/globals.ts:314-316 | The fee of a sum is the sum of the fees (linearity). |
| Fees.FeeCommutesWithShare | functions/src/globals.ts:314-316 | Taking a share before or after the fee gives the same amount. |
| Fees.QueryLimit | functions/src/globals.ts:318-320 | The query limit is even, and halving it gives back the page limit, so it exceeds a positive limit. |
| Store.ApproversOf | functions/src/globals.ts:211-213 | The approver query returns exactly the approver records whose creator is the given user. |
| Hydration.HorseDetail | functions/src/globals.ts:33-89 | Only missing relations are filled; identifiers are kept. The leaser is looked up only when there is a leaser id. Owners are set only when some owner record is found, and then they are exactly the records found. An unset trainer or creator, and an unset leaser with a leaser id, becomes the user's manager profile, which stays unset when the user or the profile is missing. |
| Hydration.HorseDetailIdempotent | functions/src/globals.ts:33-89 | Hydrating a hydrated horse again changes nothing. |
| Hydration.OwnerRecordsMembers | functions/src/globals.ts:59-78 | A record is among the owners exactly when it is stored for the horse and some listed owner id. |
| Hydration.OwnerRecordsInOrder | functions/src/globals.ts:59-78 | When every owner id has a record, the owners follow the order of the owner ids, one per id. |
| Hydration.UpdateHorseDetailInformation | functions/src/globals.ts:33-89 | The step-by-step hydration equals `HorseDetail`. |
| Hydration.FillOwners | functions/src/globals.ts:59-83 | The owner queries keep one record per owner id that has one, in id order; the owners are set only when the horse has owner ids, none yet, and some record was found. |
| Hydration.DerivePayer | functions/src/globals.ts:102-109 | The payer is the leaser when present. Otherwise it is the only owner when there is exactly one, nobody when there are several owners, and the trainer when there are no owners. |
| Hydration.ServiceRequestInformation | functions/src/globals.ts:91-154 | Only the relations are changed. The horse is present exactly when it already was or the horse exists. A newly found horse sets the payer by `DerivePayer`. A relation already set is kept. A show is looked up only with a show id, and a miss leaves it unset. An unset provider becomes the provider profile of `serviceProviderId`. The assigner and the creator are looked up only with their ids, in the provider and the manager profile respectively. Every lookup miss leaves the field unset. |
| Hydration.ServiceRequestInformationIdempotent | functions/src/globals.ts:91-154 | Hydrating a hydrated request again changes nothing. |
| Hydration.UpdateServiceRequestInformation | functions/src/globals.ts:91-154 | The source request is hydrated. The target, when given, receives the hydrated relations; otherwise the hydrated request itself is returned. |
| Hydration.FillHorse | functions/src/globals.ts:95-111 | The horse and the payer equal those of `ServiceRequestInformation`: a request without a horse gets the stored horse, hydrated, and the payer derived from it; a missing horse leaves both as they were. |
| Hydration.FillShow | functions/src/globals.ts:114-120 | The show equals that of `ServiceRequestInformation`: it is looked up only when there is a show id and no show yet, and a miss leaves it unset. |
| Hydration.FillProvider | functions/src/globals.ts:123-129 | The provider equals that of `ServiceRequestInformation`: a missing provider is taken from the user's provider profile; a missing user or profile leaves it unset. |
| Hydration.FillAssigner | functions/src/globals.ts:132-138 | The assigner equals that of `ServiceRequestInformation`: a missing assigner is looked up, as a provider profile, only when there is an assigner id. |
| Hydration.FillCreator | functions/src/globals.ts:141-147 | The creator equals that of `ServiceRequestInformation`: a missing creator is looked up only when there is a creator id, from the user's manager profile. |
| InvoiceAggregation.FindByHorse | functions/src/globals.ts:165-167 | Finds the first earlier request on the same horse, or reports that there is none. |
| InvoiceAggregation.InvoiceRequestsAt | functions/src/globals.ts:160-175 | Every invoice request comes from a stored document and is hydrated against the requests before it. |
| InvoiceAggregation.AnchorSharing | functions/src/globals.ts:165-174 | A request keeps its own ids and services. On a horse already seen, it takes the anchor's horse, show, provider, assigner and creator, and its payer stays unset. Otherwise it is the hydrated request. |
| InvoiceAggregation.AnchorIsHydrated | functions/src/globals.ts:168-170 | Re-hydrating the anchor changes nothing, so the in-place write-back leaves the invoice unchanged. |
| InvoiceAggregation.HydrateRequests | functions/src/globals.ts:158-175 | The loop over request ids equals `InvoiceRequests`; ids missing from the store are skipped. |
| InvoiceAggregation.InvoiceAmountFromDocs | functions/src/globals.ts:177-183 | The invoice amount is the sum of the service totals of the stored documents. Missing ids contribute nothing. |
| InvoiceAggregation.SumAmount | functions/src/globals.ts:177-183 | The nested loops, starting from 0, return the sum over requests and services. |
| InvoiceAggregation.AddPayerGrows | functions/src/globals.ts:190-194 | Adding a payer keeps the earlier payers, lists the new one and keeps the ids distinct. |
| InvoiceAggregation.AddOwnersGrows | functions/src/globals.ts:195-199 | Adding owners keeps the earlier payers, lists every owner and keeps the ids distinct. |
| InvoiceAggregation.AddRequestPayersGrows | functions/src/globals.ts:187-206 | One request's payers extend the list and keep the ids distinct. |
| InvoiceAggregation.PayersDistinct | functions/src/globals.ts:185-206 | The invoice payers have pairwise distinct user ids. |
| InvoiceAggregation.PayersFirstSeen | functions/src/globals.ts:185-206 | The payers of a prefix of the requests are a prefix of the payers, so payers appear in first-seen order. |
| InvoiceAggregation.PayersComplete | functions/src/globals.ts:187-206 | Each hydrated request contributes its payers: the leaser, else every owner, else the trainer. |
| InvoiceAggregation.AddOwnersSound | functions/src/globals.ts:195-199 | Adding owners adds nothing but owners. |
| InvoiceAggregation.PayersSound | functions/src/globals.ts:187-206 | Every payer is the leaser at 100, an owner at its stored percentage, or the trainer at 100 of some hydrated request's horse. Requests without a horse add no payer. |
| InvoiceAggregation.SingleHorseOwnersArePayers | functions/src/globals.ts:195-199 | On an invoice for one owned, unleased horse, the payers are exactly its owners in order. |
| InvoiceAggregation.AddOwnersFresh | functions/src/globals.ts:195-199 | Distinct owners added to an empty list are all kept, in order. |
| InvoiceAggregation.AddOwnersPresent | functions/src/globals.ts:197 | Owners already listed add nothing. |
| InvoiceAggregation.DerivedPayerIsInvoicePayer | functions/src/globals.ts:102-109 | A request's derived single payer is always among the invoice payers. |
| InvoiceAggregation.CollectPayers | functions/src/globals.ts:185-206 | The loop equals `PayersFrom`. |
| InvoiceAggregation.AddApproversSpec | functions/src/globals.ts:212-219 | Adding approver records keeps the earlier ones and keeps user ids distinct. It adds only the given records, and it lists every one of them. |
| InvoiceAggregation.ApproversSpec | functions/src/globals.ts:208-220 | The approvers are deduplicated by user id. Each is a stored record whose creator is a payer, and each such record's user is listed. |
| InvoiceAggregation.ApproversFirstSeen | functions/src/globals.ts:208-220 | Approvers are kept in first-seen order: the approvers of a prefix of the payers are a prefix of all the approvers. |
| InvoiceAggregation.CollectApprovers | functions/src/globals.ts:208-220 | The nested loops equal `ApproversFrom`. |
| InvoiceAggregation.UpdateInvoiceInformation | functions/src/globals.ts:156-226 | The whole aggregation equals `InvoiceInformation`: requests, then amount, then payers, then approvers. |
| Listeners.AddListener | functions/src/index.ts:491-494 | A guarded push keeps the list, adds the listener once and keeps the list free of duplicates. |
| Listeners.AddUsersSpec | functions/src/index.ts:489-503 | Guarded pushes of ids with one role keep the list and add exactly those (id, role) pairs, without duplicates. |
| Listeners.UserIdsOfManagers | functions/src/index.ts:619-627 | The payer ids, one per payer, in order. |
| Listeners.UserIdsOfApprovers | functions/src/index.ts:631-639 | The approver ids, one per approver, in order. |
| Listeners.RequestListenersSplit | functions/src/index.ts:474-507 | With a hydrated horse, the list is the providers followed by the managers: leaser, then owners, then trainer, deduplicated. |
| Listeners.RequestListenersOrder | functions/src/index.ts:474-507 | The provider comes first, then the assigner if any, both as provider. Every later entry is a manager. Without a horse, only the providers appear. |
| Listeners.RequestListenersMembers | functions/src/index.ts:474-507 | An entry is listed exactly when it is the provider, the assigner, or, as manager, the leaser, an owner or the trainer of the hydrated horse. |
| Listeners.RequestManagersDistinct | functions/src/index.ts:484-504 | No manager entry appears twice. |
| Listeners.AddUsersTail | functions/src/index.ts:489-503 | The manager deduplication is not affected by provider entries before it. |
| Listeners.RequestProviderMayRepeat | functions/src/index.ts:477-483 | A request whose assigner is its provider lists that provider twice. |
| Listeners.GetServiceRequestListeners | functions/src/index.ts:474-507 | The loop equals `RequestListeners`. |
| Listeners.InvoiceProvidersSpec | functions/src/index.ts:600-616 | The provider entries have no duplicates. Each is exactly some request's provider or assigner. |
| Listeners.ManagerIdsMembers | functions/src/index.ts:619-627 | An id is listed exactly when it belongs to a payer. |
| Listeners.ApproverIdsMembers | functions/src/index.ts:631-639 | An id is listed exactly when it belongs to an approver. |
| Listeners.InvoiceListenersDistinct | functions/src/index.ts:595-643 | No (user id, role) pair appears twice. |
| Listeners.InvoiceListenersMembers | functions/src/index.ts:595-643 | An entry is listed exactly when it is a request's provider or assigner as provider, or a payer or approver as manager. |
| Listeners.InvoiceListenersOrder | functions/src/index.ts:595-643 | All provider entries come first, then the manager entries. |
| Listeners.GetInvoiceListeners | functions/src/index.ts:595-643 | The three loops equal `InvoiceListeners`. |
| Listeners.PushRequestProviders | functions/src/index.ts:600-616 | The request loop equals `InvoiceProviders`: each provider, then each assigner, when not yet listed as provider. |
| Listeners.PushPayers | functions/src/index.ts:618-628 | The payer loop appends each payer as manager unless already listed as manager. |
| Listeners.PushApprovers | functions/src/index.ts:630-640 | The approver loop appends each approver as manager unless already listed as manager. |
| Settlement.FindOwner | functions/src/index.ts:1729 | Finds the first owner record with the payer's id, or reports that there is none. |
| Settlement.PayoutProvider | functions/src/index.ts:1733-1748 | The assigner is preferred over the provider. The chosen user's provider profile is looked up again in the user store, and it is the target only when it has a payout account. A missing user, profile or account yields no target, and so does a request with neither assigner nor provider. |
| Settlement.RequestCost | functions/src/index.ts:1721-1732 | A request without a hydrated horse is skipped. A payer listed as an owner of a horse without leaser but without an owner record is skipped. A payer who is not such an owner (a leaser, a trainer, an unlisted payer) is charged the whole request total. |
| Settlement.AssignedRequestRouting | functions/src/index.ts:1733-1767 | For a request with an assigner, the cost share goes to the assigner's payout account as currently stored, and only when that user and account exist. The tip share goes to the account of the request's hydrated provider, never to the assigner. |
| Settlement.FindDestination | functions/src/index.ts:1751 | Finds the first transfer to a destination, or reports that there is none. |
| Settlement.ReplaceTransfer | functions/src/index.ts:1752-1753 | Raising one entry's amount changes the total and that destination's amount by the difference. |
| Settlement.AddCreditSpec | functions/src/index.ts:1750-1760 | Crediting a destination keeps destinations distinct. It raises the total and that destination's amount by the credit, and adds the destination. |
| Settlement.CoalesceSpec | functions/src/index.ts:1750-1760 | The coalesced transfers have pairwise distinct destinations. They preserve the total and the amount per destination of the credits. |
| Settlement.DestinationsSnoc | functions/src/index.ts:1755-1759 | Appending a transfer adds its destination. |
| Settlement.TransfersNeedRequests | functions/src/index.ts:1782-1784 | An invoice with transfers has requests. |
| Settlement.TipCreditsTotal | functions/src/index.ts:1763-1781 | Each tip credit is the share, and at most one share per request is credited. |
| Settlement.TipNotOverDistributed | functions/src/index.ts:1763-1781 | The tip routed, in cents, never exceeds tip × 100. |
| Settlement.FlooredShare | functions/src/index.ts:1770 | The floored per-request share is non-negative, and that share times the number of requests does not exceed the whole. |
| Settlement.TipOfThirtyOverThree | functions/src/index.ts:1770 | Example: a tip of 30 over three requests credits 1000 cents each. |
| Settlement.OwnerCostsCoverRequest | functions/src/index.ts:1725-1732 | When the owners' percentages sum to 100, their cost shares sum to the request total. |
| Settlement.OwnerCostsProportional | functions/src/index.ts:1725-1732 | The owners' shares sum to the request total scaled by their summed percentage. |
| Settlement.PercentIsAdditive | functions/src/index.ts:1731 | Percentages of one amount add up. |
| Settlement.CostOfListedOwner | functions/src/index.ts:1719-1732 | A listed owner of an unleased horse pays the request total × percentage / 100. |
| Settlement.FindDistinctOwner | functions/src/index.ts:1729 | Among owners with distinct ids, the lookup finds the owner itself. |
| Settlement.RequestCostBounded | functions/src/index.ts:1719-1732 | With percentages in [0, 100], a request's cost share lies between 0 and the request total. |
| Settlement.ChargeCents | functions/src/index.ts:1788-1791 | The charge in cents is the floor of the payer's percentage of the fee-inclusive amount plus tip. |
| Settlement.SixtyFortyScenario | functions/src/index.ts:1719-1761 | Example: two requests of 100 and 50 on a horse owned 60/40 give the 60% owner one transfer of 9000 cents to the provider. |
| Settlement.CollectRequestTransfers | functions/src/index.ts:1718-1761 | The request loop equals coalescing the request credits. |
| Settlement.ComputeRequestCost | functions/src/index.ts:1721-1732 | The cost step equals `RequestCost`, whose contract states the skip cases and the full total charged to non-owners. |
| Settlement.ComputePayoutProvider | functions/src/index.ts:1733-1748 | The payout step equals `PayoutProvider`, whose contract states the assigner preference, the lookup in the user store and the skip on a missing user or account. |
| Settlement.PushCredit | functions/src/index.ts:1750-1760 | The find-or-push step equals `AddCredit`: an existing destination is topped up, a new one appended. |
| Settlement.AddTipTransfers | functions/src/index.ts:1763-1781 | The tip loop continues the coalescing with the tip credits. |
| Settlement.CoalesceSnoc | functions/src/index.ts:1750-1760 | Coalescing one more credit is adding it to the coalesced list. |
| Settlement.ComputeTransfers | functions/src/index.ts:1718-1781 | The two loops equal `Transfers`. |
| Backend.FindPayer | functions/src/index.ts:1712-1715 | Finds a payer with the payer id, or reports that none is listed. |
| Backend.Uids | functions/src/index.ts:1826-1833 | The ids of the invoice requests, in order. |
| Backend.MarkRequestsPaid | functions/src/index.ts:1825-1834 | The batch marks exactly the listed requests paid and keeps every other request. |
| Backend.SettleStatuses | functions/src/index.ts:1836-1840 | The invoice becomes fully paid with the given paid time. Its requests become paid. Every other collection is unchanged. |
| Backend.Payouts | functions/src/index.ts:1800-1802 | One payout event per transfer, in order, with its amount and destination. |
| Backend.SubmitTwiceRejected | functions/src/index.ts:1677-1683 | After a successful submission, the same payer's second submission for the invoice is rejected: as already paid, or with an internal error when the payer has no manager profile, whose name the rejection message reads. |
| Backend.SubmitKeepsOnePaymentPerPayer | functions/src/index.ts:1677-1683 | A successful submission keeps at most one payment per payer and invoice. |
| Backend.SubmitEffects | functions/src/index.ts:1712-1819 | On success, exactly one charge is logged, then one payout per transfer. The charge is for the payer's fee-inclusive share, and the Apple Pay source is used when given. One in-app payment of that payer is appended. |
| Backend.SettleEffects | functions/src/index.ts:1786-1819 | The settlement appends the charge and then one payout per transfer, in order, and appends exactly one in-app payment. |
| Backend.PaymentCountIsPaidPayers | functions/src/index.ts:1822-1823 | With one payment per payer, an invoice's payment count is its number of paying payers. |
| Backend.PayerIdsCount | functions/src/index.ts:1823 | Distinct payers have as many ids as entries. |
| Backend.SubmitSettles | functions/src/index.ts:1672-1819 | A submission succeeds only after every precondition passed, in order, and then settles. |
| Backend.PaymentCountBeforeLastPayer | functions/src/index.ts:1822-1823 | When every payer except this one has paid, the count is one short of the payer count. |
| Backend.LastPayerSettlesInvoice | functions/src/index.ts:1821-1841 | The last payer's submission marks the invoice fully paid at that time and every request paid. |
| Backend.NotLastPayerKeepsStatuses | functions/src/index.ts:1819-1841 | While another payer of the invoice has not paid, a successful submission leaves the store unchanged: no request and no invoice status is updated. |
| Backend.SettledRequestsPaid | functions/src/index.ts:1824-1840 | Full settlement marks every request of the invoice paid. |
| Backend.OutsidePaymentsSpec | functions/src/index.ts:1619-1638 | Each created payment is outside the app and for a payer without a payment. Afterwards every payer has a payment, and no payer gets two. |
| Backend.MarkCoversEveryPayer | functions/src/index.ts:1599-1662 | After a manual settlement, the invoice has payers and each of them has a payment. There is still one payment per payer, nothing is charged, and the invoice is fully paid. Success needs a request whose first entry is the caller's, and every request of the invoice is then paid. |
| Backend.MarkRejectsFullyPaid | functions/src/index.ts:1599-1601 | A fully paid invoice is rejected. |
| Backend.OutsidePaymentMatchesCharge | functions/src/index.ts:1631-1632 | An outside payment records the same amount and tip an in-app charge would. |
| Backend.MarkAsWrittenSettlesInvoiceWithoutPayers | functions/src/index.ts:1603-1605 | The guard as written lets an invoice without payers through, which is then marked fully paid with no payment; the corrected guard rejects it. |
| Backend.MarkAsWrittenWithoutPayers | functions/src/index.ts:1597-1662 | As written, any pending invoice without payers passes for the provider of its first request and is settled with no new payment; the corrected guard refuses it. |
| Backend.Backend.constructor | functions/src/index.ts:1664-1868 | The backend starts from a given store, the given payments and an empty event log. |
| Backend.Backend.SettleInvoice | functions/src/index.ts:1824-1840 | The batch updates and the invoice update change the store exactly as `SettleStatuses` describes. |
| Backend.Backend.SubmitInvoicePayment | functions/src/index.ts:1664-1841 | A rejection returns its error and changes nothing, no charge included. Success changes the state exactly as `Submit` describes. |
| Backend.Backend.RecordSettlement | functions/src/index.ts:1786-1841 | The charge, the payouts, the payment and the full-paid check change the state exactly as `Settle` describes. |
| Backend.Backend.LogPayouts | functions/src/index.ts:1800-1802 | One payout per transfer is appended to the event log, in transfer order; nothing else changes. |
| Backend.Backend.MarkInvoiceAsPaid | functions/src/index.ts:1590-1662 | A rejection returns its error and changes nothing. Success changes the state exactly as `MarkPaid` describes. The payer check is the corrected one (see Left out). |
| Csv.JoinLength | functions/src/globals.ts:250-252 | A joined string is as long as its parts plus one separator between neighbours. |
| Csv.JoinPart | functions/src/globals.ts:250-252 | Each part appears intact at its offset in the joined string. |
| Csv.ProviderNamesConcat | functions/src/globals.ts:258-268 | The provider names of two request lists are the names of each in turn. |
| Csv.ProviderNamesMembers | functions/src/globals.ts:258-268 | A name is listed exactly when some request's hydrated provider has it. Requests without a provider are skipped. |
| Csv.PayerNamesInOrder | functions/src/globals.ts:270-279 | The payer column lists one name per payer, in payer order. |
| Csv.GetServiceProviders | functions/src/globals.ts:258-268 | The loop returns the provider names joined by `;`. |
| Csv.GetPayers | functions/src/globals.ts:270-279 | The loop returns the payer names joined by `;`. |
| Csv.MakeCsvStringWithInvoices | functions/src/globals.ts:234-256 | The loop returns the header followed by the rows joined by CRLF. |
| Csv.CsvStartsWithHeader | functions/src/globals.ts:236 | The export always starts with the header line; without invoices it is just the header. |
| Csv.CsvSnoc | functions/src/globals.ts:250-252 | The first row follows the header directly. Every further invoice appends CRLF and its row. |
| Search.IndexOfUser | functions/src/index.ts:1135-1137 | Finds the first position of the cursor user, or reports that it is absent. |
| Search.PageStart | functions/src/index.ts:1133-1140 | The page starts after the cursor user, or at 0 without a cursor or when its user is absent. |
| Search.CursorPage | functions/src/index.ts:1133-1141 | The page has at most `limit` users. It is short only at the end of the list, and it is the stretch of the list from the start position. |
| Search.FirstPage | functions/src/index.ts:1133-1141 | Without a usable cursor, the page is the head of the list. |
| Search.NextPageContinues | functions/src/index.ts:1133-1141 | With distinct user ids, a full page followed by the page after its last user is the head of the list, without gap or overlap. |
| Search.IndexOfDistinct | functions/src/index.ts:1135-1137 | With distinct user ids, each user is found at its own position. |
| Search.Taken | functions/src/index.ts:1268-1269 | The collector takes every match unless the page fills up, and never overfills it. |
| Search.MatchingSound | functions/src/index.ts:1253-1268 | Every collected request is a hydrated request of the batch that passes the filter. |
| Search.MatchingComplete | functions/src/index.ts:1253-1268 | Every request of the batch that passes the filter is collected. |
| Search.PrefixOfMatching | functions/src/index.ts:1252-1270 | Stopping early yields a prefix of the matches. |
| Search.CollectBatch | functions/src/index.ts:1252-1270 | The batch loop appends the matches in batch order and stops when the page holds `limit` requests. |

## Left out

- **Firestore and Firebase.** Queries, batches, triggers, `Promise.all` and `FieldValue` are replaced by maps and sequences. The pagination loops of the search endpoints are store I/O; only the cut of one page and the filter over one batch are modelled.
- **Store failures.** A batch update of a request id missing from the store is modelled as a skip; Firestore would fail the batch.
- **Stripe.** The calls are events in a log. Processor failures after the charge, and the internal error that follows, are not modelled.
- **Notifications.** Push notifications and notification documents are best-effort I/O.
- **Concurrency.** The existing-payment check and the payment insert are not atomic in the source. Two concurrent submissions can both pass. The model runs operations one at a time and claims uniqueness only for that order.
- **The charger's percentage.** In the source this is written onto a shared manager object (`functions/src/index.ts:1716`). The model passes the percentage as a value, so the aliasing is not modelled.
- **Percentage 100 on shared horse managers.** Aggregation writes `percentage = 100` onto the hydrated horse's leaser or trainer object (`functions/src/globals.ts:192`, `202`). That object is shared with the requests' horse and with a request's derived payer. The model writes 100 only into the entry added to the invoice payers. The horse's leaser and trainer inside the requests, and the requests' payers, keep their stored percentage.
- `Backend.Backend.MarkInvoiceAsPaid`: implements the corrected payer check of `Backend.MarkPaid`. It therefore refuses a pending invoice without payers, which the source settles (`functions/src/index.ts:1603-1605`, see Findings). The behaviour as written is `Backend.MarkPaidAsWritten`.
- **Number formats.** IEEE-754 rounding is not modelled; amounts are exact reals. `toFixed`, `toUpperCase` and `dateformat` are a `Csv.Formatter` parameter.
- **Dates.** Dates, `isSameDay` and clocks are out; "now" is a parameter.
- **Name sort.** The sort by name before the cursor page of `searchHorseUsers` is left out; the page is cut from a list given in its sorted order.
- **Search filters on the store.** The date-range and horse filters of `searchServiceRequests` are applied by the store query and are not modelled.
- **Well-formed documents.** The model assumes that every invoice has `requestIds` and every request has `services`. For a malformed document the source throws inside aggregation or hydration. The exception is swallowed (`functions/src/globals.ts:84`, `149`, `221`) and leaves the invoice partly aggregated, for example without `payers`; those paths are not modelled.
- **Truthiness.** A present optional string is taken as non-empty: an empty id would be falsy in the source.
- **Missing percentage.** A stored percentage that is absent is 0, as every reader's `percentage || 0` makes it.
- **Missing invoice tip.** A stored invoice without a tip is read as tip 0. The source's `markInvoiceAsPaid` would compute a non-number tip for such an invoice, and the CSV export would fail on it.
- `Settlement.TipShare`: with no requests it is 0. The source divides by zero there, but that path is only reached with requests.
- `Search.CursorPage`: `limit` is a natural number. The source takes `data.limit || USER_SEARCH_LIMIT`, and a negative limit would make `slice` count from the end.
- `Search.CollectBatch`: `limit` is a natural number larger than the page so far. The source takes `data.limit || SERVICE_REQUEST_LIMIT` (`functions/src/index.ts:1211`). With a negative limit the page never reaches it, so the source collects every match.
- **Not part of this model:**
  - `functions/src/models/users.ts`, `functions/src/enumerations.ts` and `functions/src/constants.ts`. The invoice statuses other than fully paid are stand-ins.
  - User-lifecycle cascades, the OAuth flow in `functions/src/apis/index.ts`, and the Stripe wrappers in `functions/src/stripes/index.ts`.
  - `toJSON` serialisation.

## Findings

| source | as written | input that shows it | evidently intended | confidence | as-written member | corrected member |
|---|---|---|---|---|---|---|
| functions/src/index.ts:1603-1605 | `!objInvoice.payers` is never true for documents that carry `requestIds` and `services`, because aggregation then always sets `payers` to an array | An invoice whose only request names a horse missing from the store: it has no payers, yet it is accepted and forced to fully paid with no payment recorded | Reject an invoice whose payer list is empty ("This invoice hasn't payers") | not executed | Backend.MarkAsWrittenSettlesInvoiceWithoutPayers | Backend.MarkCoversEveryPayer |
