/** The money side of `submitInvoicePayment`: what each request of an invoice costs the
    paying user, where it is paid out, how the tip is split, how amounts bound for the
    same payout account are coalesced into one transfer, and the charge in cents. */
module Settlement {
  import opened Wrappers
  import opened Entities
  import opened ServiceRequests
  import opened Payments
  import opened Invoices
  import opened Store
  import opened Fees
  import Hydration

  /** `Math.floor(x * 100)`: an amount in currency units as whole cents. */
  function Cents(x: real): int
  {
    (x * 100.0).Floor
  }

  /** `amount * percentage / 100`: a percentage share of an amount. */
  function Percent(amount: real, percentage: real): real
  {
    amount * percentage / 100.0
  }

  /** `owners.find(value => value.userId === payerId)`. */
  function FindOwner(owners: seq<HorseManager>, payerId: Id): (o: Option<HorseManager>)
    ensures o.Some? ==> o.value in owners && o.value.userId == payerId
    ensures o.None? <==> forall m :: m in owners ==> m.userId != payerId
    ensures o.Some? ==> exists k :: 0 <= k < |owners| && owners[k] == o.value &&
                          forall j :: 0 <= j < k ==> owners[j].userId != payerId
    decreases |owners|
  {
    if owners == [] then None
    else if owners[0].userId == payerId then Some(owners[0])
    else
      var o := FindOwner(owners[1..], payerId);
      if o.Some? then
        ghost var k :| 0 <= k < |owners[1..]| && owners[1..][k] == o.value &&
                      forall j :: 0 <= j < k ==> owners[1..][j].userId != payerId;
        assert owners[k + 1] == o.value;
        o
      else
        assert forall m :: m in owners ==> m == owners[0] || m in owners[1..];
        o
  }

  /** What request `r` costs the paying user, or None when the request is skipped: no
      hydrated horse, or the payer is listed as an owner of a horse without leaser and
      no owner record of theirs was found. An owner pays their percentage of the
      request total; anybody else (leaser, trainer, an unlisted payer) the whole total. */
  function RequestCost(payerId: Id, r: ServiceRequest): (c: Option<real>)
    ensures r.horse.None? ==> c.None?
    ensures r.horse.Some? && !IsListedOwner(payerId, r.horse.value) ==> c == Some(ServicesTotal(r.services))
    ensures r.horse.Some? && IsListedOwner(payerId, r.horse.value)
            && (forall m :: m in r.horse.value.owners.value ==> m.userId != payerId)
            ==> c.None?
  {
    match r.horse
    case None => None
    case Some(h) =>
      var total := ServicesTotal(r.services);
      if IsListedOwner(payerId, h) then
        match FindOwner(h.owners.value, payerId)
        case None => None
        case Some(owner) => Some(Percent(total, owner.percentage))
      else Some(total)
  }

  /** The payer pays a share of a request on `h` as one of its owners: the horse has no
      leaser id, its owners are hydrated and the payer is among its owner ids. */
  predicate IsListedOwner(payerId: Id, h: Horse)
  {
    h.leaserId.None? && h.owners.Some? && payerId in h.ownerIds
  }

  /** A provider profile as a payout target: kept only when it has a payout account. */
  function Payable(p: Option<ServiceProvider>): Option<ServiceProvider>
  {
    if p.Some? && p.value.account.Some? then p else None
  }

  /** The provider paid for request `r`: its assigner, else its provider, looked up again
      in the user store so that the payout account is the current one; None when that
      user or its account is missing. */
  function PayoutProvider(db: Db, r: ServiceRequest): (p: Option<ServiceProvider>)
    ensures p.Some? ==> p.value.account.Some?
    ensures r.assigner.Some? ==> p == Payable(Hydration.ProviderOf(db, r.assigner.value.userId))
    ensures r.assigner.None? && r.serviceProvider.Some? ==>
              p == Payable(Hydration.ProviderOf(db, r.serviceProvider.value.userId))
    ensures r.assigner.None? && r.serviceProvider.None? ==> p.None?
  {
    var target := if r.assigner.Some? then r.assigner else r.serviceProvider;
    match target
    case None => None
    case Some(t) =>
      match FetchUser(db, t.userId)
      case None => None
      case Some(u) =>
        if u.serviceProvider.Some? && u.serviceProvider.value.account.Some? then u.serviceProvider else None
  }

  /** The credit one request contributes: its cost, in cents, to its payout account. */
  function RequestCredit(db: Db, payerId: Id, r: ServiceRequest): Option<Transfer>
  {
    match RequestCost(payerId, r)
    case None => None
    case Some(cost) =>
      match PayoutProvider(db, r)
      case None => None
      case Some(p) => Some(Transfer(p.userId, Cents(cost), p.account.value.id))
  }

  /** One request's share of the tip in cents; with no request there is nothing to share. */
  function TipShare(tip: real, n: nat): int
  {
    if n == 0 then 0 else (tip * 100.0 / n as real).Floor
  }

  /** The tip credit of one request: the share, to the payout account of the request's
      original provider as hydrated (neither the assigner nor a fresh lookup). */
  function TipCredit(r: ServiceRequest, share: int): Option<Transfer>
  {
    match r.serviceProvider
    case None => None
    case Some(p) => if p.account.Some? then Some(Transfer(p.userId, share, p.account.value.id)) else None
  }

  function RequestCredits(db: Db, payerId: Id, rs: seq<ServiceRequest>): seq<Transfer>
    decreases |rs|
  {
    if rs == [] then []
    else
      var prev := RequestCredits(db, payerId, rs[..|rs| - 1]);
      match RequestCredit(db, payerId, rs[|rs| - 1])
      case None => prev
      case Some(c) => prev + [c]
  }

  function TipCredits(rs: seq<ServiceRequest>, share: int): seq<Transfer>
    decreases |rs|
  {
    if rs == [] then []
    else
      var prev := TipCredits(rs[..|rs| - 1], share);
      match TipCredit(rs[|rs| - 1], share)
      case None => prev
      case Some(c) => prev + [c]
  }

  /** Every credit of a settlement in the order the source produces them, before
      coalescing: the request credits, then (with a positive tip) the tip credits. */
  function Credits(db: Db, payerId: Id, inv: Invoice): seq<Transfer>
  {
    RequestCredits(db, payerId, inv.requests)
      + (if inv.tip > 0.0 then TipCredits(inv.requests, TipShare(inv.tip, |inv.requests|)) else [])
  }

  // ---------------------------------------------------------------- coalescing

  /** `aryTransfers.find(value => value.destination === destination)`, as an index. */
  function FindDestination(ts: seq<Transfer>, destination: Id): (k: Option<nat>)
    ensures k.Some? ==> k.value < |ts| && ts[k.value].destination == destination
    ensures k.None? ==> forall j :: 0 <= j < |ts| ==> ts[j].destination != destination
    decreases |ts|
  {
    if ts == [] then None
    else if ts[0].destination == destination then Some(0)
    else
      match FindDestination(ts[1..], destination)
      case Some(k) => Some(k + 1)
      case None => None
  }

  /** Add a credit to the transfer already bound for its destination, or push it. */
  function AddCredit(ts: seq<Transfer>, c: Transfer): seq<Transfer>
  {
    match FindDestination(ts, c.destination)
    case Some(k) => ts[k := ts[k].(amount := ts[k].amount + c.amount)]
    case None => ts + [c]
  }

  function Coalesce(ts: seq<Transfer>, credits: seq<Transfer>): seq<Transfer>
    decreases |credits|
  {
    if credits == [] then ts else AddCredit(Coalesce(ts, credits[..|credits| - 1]), credits[|credits| - 1])
  }

  /** The transfers of a settlement. */
  function Transfers(db: Db, payerId: Id, inv: Invoice): seq<Transfer>
  {
    Coalesce([], Credits(db, payerId, inv))
  }

  function Total(ts: seq<Transfer>): int
    decreases |ts|
  {
    if ts == [] then 0 else Total(ts[..|ts| - 1]) + ts[|ts| - 1].amount
  }

  /** The cents bound for destination `d`. */
  function AmountTo(ts: seq<Transfer>, d: Id): int
    decreases |ts|
  {
    if ts == [] then 0
    else AmountTo(ts[..|ts| - 1], d) + (if ts[|ts| - 1].destination == d then ts[|ts| - 1].amount else 0)
  }

  function Destinations(ts: seq<Transfer>): set<Id>
  {
    set t | t in ts :: t.destination
  }

  ghost predicate DistinctDestinations(ts: seq<Transfer>)
  {
    forall i, j :: 0 <= i < j < |ts| ==> ts[i].destination != ts[j].destination
  }

  /** Replacing one transfer by another to the same destination changes the totals by
      the difference of the amounts. */
  lemma {:induction false} ReplaceTransfer(ts: seq<Transfer>, k: nat, t: Transfer, d: Id)
    requires k < |ts| && t.destination == ts[k].destination
    ensures Total(ts[k := t]) == Total(ts) - ts[k].amount + t.amount
    ensures AmountTo(ts[k := t], d) == AmountTo(ts, d) + (if t.destination == d then t.amount - ts[k].amount else 0)
    decreases |ts|
  {
    var ts' := ts[k := t];
    if k < |ts| - 1 {
      ReplaceTransfer(ts[..|ts| - 1], k, t, d);
      assert ts'[..|ts'| - 1] == ts[..|ts| - 1][k := t];
    } else {
      assert ts'[..|ts'| - 1] == ts[..|ts| - 1];
    }
  }

  /** Adding a credit keeps destinations distinct, raises the total and the amount to the
      credited destination by the credit, and adds that destination. */
  lemma AddCreditSpec(ts: seq<Transfer>, c: Transfer)
    ensures DistinctDestinations(ts) ==> DistinctDestinations(AddCredit(ts, c))
    ensures Total(AddCredit(ts, c)) == Total(ts) + c.amount
    ensures forall d :: AmountTo(AddCredit(ts, c), d) == AmountTo(ts, d) + (if c.destination == d then c.amount else 0)
    ensures Destinations(AddCredit(ts, c)) == Destinations(ts) + {c.destination}
  {
    AddCreditDistinct(ts, c);
    AddCreditTotal(ts, c);
    forall d ensures AmountTo(AddCredit(ts, c), d) == AmountTo(ts, d) + (if c.destination == d then c.amount else 0) {
      AddCreditAmountTo(ts, c, d);
    }
    AddCreditDestinations(ts, c);
  }

  lemma AddCreditDistinct(ts: seq<Transfer>, c: Transfer)
    ensures DistinctDestinations(ts) ==> DistinctDestinations(AddCredit(ts, c))
  {
  }

  lemma AddCreditTotal(ts: seq<Transfer>, c: Transfer)
    ensures Total(AddCredit(ts, c)) == Total(ts) + c.amount
  {
    match FindDestination(ts, c.destination) {
      case Some(k) =>
        ReplaceTransfer(ts, k, ts[k].(amount := ts[k].amount + c.amount), c.destination);
      case None =>
        var r := ts + [c];
        assert r[..|r| - 1] == ts;
    }
  }

  lemma AddCreditAmountTo(ts: seq<Transfer>, c: Transfer, d: Id)
    ensures AmountTo(AddCredit(ts, c), d) == AmountTo(ts, d) + (if c.destination == d then c.amount else 0)
  {
    match FindDestination(ts, c.destination) {
      case Some(k) =>
        ReplaceTransfer(ts, k, ts[k].(amount := ts[k].amount + c.amount), d);
      case None =>
        var r := ts + [c];
        assert r[..|r| - 1] == ts;
    }
  }

  lemma AddCreditDestinations(ts: seq<Transfer>, c: Transfer)
    ensures Destinations(AddCredit(ts, c)) == Destinations(ts) + {c.destination}
  {
    match FindDestination(ts, c.destination) {
      case Some(k) =>
        var t := ts[k].(amount := ts[k].amount + c.amount);
        forall x | x in Destinations(ts) ensures x in Destinations(ts[k := t]) {
          var u :| u in ts && u.destination == x;
          var i :| 0 <= i < |ts| && ts[i] == u;
          assert ts[k := t][i].destination == x;
        }
        assert ts[k] in ts;
      case None =>
        DestinationsSnoc(ts, c);
    }
  }

  /** Coalescing keeps one transfer per destination, loses no cent, sends to each
      destination exactly the credits bound for it, and reaches exactly the destinations
      credited. */
  lemma CoalesceSpec(credits: seq<Transfer>)
    ensures DistinctDestinations(Coalesce([], credits))
    ensures Total(Coalesce([], credits)) == Total(credits)
    ensures forall d :: AmountTo(Coalesce([], credits), d) == AmountTo(credits, d)
    ensures Destinations(Coalesce([], credits)) == Destinations(credits)
  {
    CoalesceDistinct(credits);
    CoalesceTotal(credits);
    forall d ensures AmountTo(Coalesce([], credits), d) == AmountTo(credits, d) {
      CoalesceAmountTo(credits, d);
    }
    CoalesceDestinations(credits);
  }

  lemma {:induction false} CoalesceDistinct(credits: seq<Transfer>)
    ensures DistinctDestinations(Coalesce([], credits))
    decreases |credits|
  {
    if credits != [] {
      var init := credits[..|credits| - 1];
      CoalesceDistinct(init);
      AddCreditDistinct(Coalesce([], init), credits[|credits| - 1]);
    }
  }

  lemma {:induction false} CoalesceTotal(credits: seq<Transfer>)
    ensures Total(Coalesce([], credits)) == Total(credits)
    decreases |credits|
  {
    if credits != [] {
      var init := credits[..|credits| - 1];
      CoalesceTotal(init);
      AddCreditTotal(Coalesce([], init), credits[|credits| - 1]);
    }
  }

  lemma {:induction false} CoalesceAmountTo(credits: seq<Transfer>, d: Id)
    ensures AmountTo(Coalesce([], credits), d) == AmountTo(credits, d)
    decreases |credits|
  {
    if credits != [] {
      var init := credits[..|credits| - 1];
      CoalesceAmountTo(init, d);
      AddCreditAmountTo(Coalesce([], init), credits[|credits| - 1], d);
    }
  }

  lemma {:induction false} CoalesceDestinations(credits: seq<Transfer>)
    ensures Destinations(Coalesce([], credits)) == Destinations(credits)
    decreases |credits|
  {
    if credits != [] {
      var init := credits[..|credits| - 1];
      var c := credits[|credits| - 1];
      CoalesceDestinations(init);
      AddCreditDestinations(Coalesce([], init), c);
      DestinationsSnoc(init, c);
      assert credits == init + [c];
    }
  }

  lemma DestinationsSnoc(ts: seq<Transfer>, t: Transfer)
    ensures Destinations(ts + [t]) == Destinations(ts) + {t.destination}
  {
    assert forall u :: u in ts + [t] <==> u in ts || u == t;
  }

  /** Without requests nothing is credited, so a settlement with a transfer has a first
      request whose provider the payment records. */
  lemma TransfersNeedRequests(db: Db, payerId: Id, inv: Invoice)
    requires Transfers(db, payerId, inv) != []
    ensures inv.requests != []
  {
  }

  // ---------------------------------------------------------------- tips

  /** Every tip credit is the same share, so the tip credits total at most one share per
      request. */
  lemma TipCreditsTotal(rs: seq<ServiceRequest>, share: int)
    requires share >= 0
    ensures forall t :: t in TipCredits(rs, share) ==> t.amount == share
    ensures 0 <= Total(TipCredits(rs, share)) <= share * |rs|
  {
    TipCreditsAmounts(rs, share);
    TipCreditsBound(rs, share);
  }

  lemma {:induction false} TipCreditsAmounts(rs: seq<ServiceRequest>, share: int)
    ensures forall t :: t in TipCredits(rs, share) ==> t.amount == share
    decreases |rs|
  {
    if rs != [] {
      TipCreditsAmounts(rs[..|rs| - 1], share);
    }
  }

  lemma {:induction false} TipCreditsBound(rs: seq<ServiceRequest>, share: int)
    requires share >= 0
    ensures 0 <= Total(TipCredits(rs, share)) <= share * |rs|
    decreases |rs|
  {
    if rs != [] {
      var init := rs[..|rs| - 1];
      TipCreditsBound(init, share);
      var prev := TipCredits(init, share);
      MultiplySucc(share, |init|);
      match TipCredit(rs[|rs| - 1], share) {
        case None =>
          assert TipCredits(rs, share) == prev;
        case Some(c) =>
          var ts := prev + [c];
          assert TipCredits(rs, share) == ts;
          assert ts[..|ts| - 1] == prev;
          assert Total(ts) == Total(prev) + share;
      }
    }
  }

  lemma MultiplySucc(a: int, n: nat)
    ensures a * (n + 1) == a * n + a
  {
  }

  /** The tip is never over-distributed: the tip credits add up to at most the tip in
      cents, flooring each share. */
  lemma TipNotOverDistributed(rs: seq<ServiceRequest>, tip: real)
    requires tip > 0.0
    ensures (Total(TipCredits(rs, TipShare(tip, |rs|))) as real) <= tip * 100.0
  {
    var n := |rs|;
    var share := TipShare(tip, n);
    if n > 0 {
      assert share == (tip * 100.0 / n as real).Floor;
      FlooredShare(tip * 100.0, n);
      TipCreditsBound(rs, share);
      var total := Total(TipCredits(rs, share));
      assert total <= share * n;
      assert (total as real) <= ((share * n) as real);
    } else {
      assert rs == [];
    }
  }

  /** `floor(x / n)` taken `n` times is at most `x`. */
  lemma FlooredShare(x: real, n: nat)
    requires x >= 0.0 && n > 0
    ensures 0 <= (x / n as real).Floor
    ensures (((x / n as real).Floor * n) as real) <= x
  {
    var q := x / n as real;
    var s := q.Floor;
    assert q * (n as real) == x;
    assert (s as real) * (n as real) <= q * (n as real) by {
      MultiplyRight(s as real, q, n as real);
    }
    assert ((s * n) as real) == (s as real) * (n as real);
  }

  lemma MultiplyRight(a: real, b: real, c: real)
    requires a <= b && c >= 0.0
    ensures a * c <= b * c
  {
  }

  /** Example: a tip of 30 over three requests is 10 (1000 cents) per request, an
      instance of `FlooredShare`. */
  lemma TipOfThirtyOverThree()
    ensures TipShare(30.0, 3) == 1000
  {
    assert 30.0 * 100.0 / 3.0 == 1000.0;
  }

  // ---------------------------------------------------------------- costs

  function OwnerCosts(owners: seq<HorseManager>, r: ServiceRequest): real
    decreases |owners|
  {
    if owners == [] then 0.0
    else
      var cost := RequestCost(owners[|owners| - 1].userId, r);
      OwnerCosts(owners[..|owners| - 1], r) + (if cost.Some? then cost.value else 0.0)
  }

  function PercentageSum(owners: seq<HorseManager>): real
    decreases |owners|
  {
    if owners == [] then 0.0 else PercentageSum(owners[..|owners| - 1]) + owners[|owners| - 1].percentage
  }

  /** The owner shares of a request add up to its total: when the owners of a horse
      without leaser are distinct, all listed and their percentages add up to 100, the
      costs charged to each of them cover the request exactly. */
  lemma OwnerCostsCoverRequest(r: ServiceRequest, h: Horse)
    requires r.horse == Some(h) && h.leaserId.None? && h.owners.Some?
    requires forall i, j :: 0 <= i < j < |h.owners.value| ==> h.owners.value[i].userId != h.owners.value[j].userId
    requires forall o :: o in h.owners.value ==> o.userId in h.ownerIds
    requires PercentageSum(h.owners.value) == 100.0
    ensures OwnerCosts(h.owners.value, r) == ServicesTotal(r.services)
  {
    OwnerCostsProportional(r, h, h.owners.value);
    assert Percent(ServicesTotal(r.services), 100.0) == ServicesTotal(r.services);
  }

  lemma {:induction false} OwnerCostsProportional(r: ServiceRequest, h: Horse, os: seq<HorseManager>)
    requires r.horse == Some(h) && h.leaserId.None? && h.owners.Some?
    requires forall i, j :: 0 <= i < j < |h.owners.value| ==> h.owners.value[i].userId != h.owners.value[j].userId
    requires forall o :: o in os ==> o in h.owners.value && o.userId in h.ownerIds
    ensures OwnerCosts(os, r) == Percent(ServicesTotal(r.services), PercentageSum(os))
    decreases |os|
  {
    if os != [] {
      var init := os[..|os| - 1];
      var o := os[|os| - 1];
      var total := ServicesTotal(r.services);
      assert o in os;
      OwnerCostsProportional(r, h, init);
      CostOfListedOwner(r, h, o);
      var cost := RequestCost(o.userId, r).value;
      assert OwnerCosts(os, r) == OwnerCosts(init, r) + cost;
      assert PercentageSum(os) == PercentageSum(init) + o.percentage;
      PercentIsAdditive(total, PercentageSum(init), o.percentage);
    } else {
      assert Percent(ServicesTotal(r.services), 0.0) == 0.0;
    }
  }

  /** For a request with an assigner, the cost share is paid to the assigner's payout
      account as currently stored, while the tip share goes to the account of the
      request's original provider as hydrated: neither the assigner nor a fresh lookup. */
  lemma AssignedRequestRouting(db: Db, payerId: Id, r: ServiceRequest, share: int)
    requires r.assigner.Some?
    ensures var current := Hydration.ProviderOf(db, r.assigner.value.userId);
            RequestCredit(db, payerId, r).Some? <==>
              RequestCost(payerId, r).Some? && current.Some? && current.value.account.Some?
    ensures var current := Hydration.ProviderOf(db, r.assigner.value.userId);
            RequestCredit(db, payerId, r).Some? ==>
              RequestCredit(db, payerId, r).value
              == Transfer(current.value.userId, Cents(RequestCost(payerId, r).value), current.value.account.value.id)
    ensures var cached := r.serviceProvider;
            TipCredit(r, share).Some? <==> cached.Some? && cached.value.account.Some?
    ensures var cached := r.serviceProvider;
            TipCredit(r, share).Some? ==>
              TipCredit(r, share).value == Transfer(cached.value.userId, share, cached.value.account.value.id)
  {
  }

  lemma PercentIsAdditive(amount: real, p: real, q: real)
    ensures Percent(amount, p) + Percent(amount, q) == Percent(amount, p + q)
  {
  }

  lemma CostOfListedOwner(r: ServiceRequest, h: Horse, o: HorseManager)
    requires r.horse == Some(h) && h.leaserId.None? && h.owners.Some?
    requires forall i, j :: 0 <= i < j < |h.owners.value| ==> h.owners.value[i].userId != h.owners.value[j].userId
    requires o in h.owners.value && o.userId in h.ownerIds
    ensures RequestCost(o.userId, r).Some?
    ensures RequestCost(o.userId, r).value == Percent(ServicesTotal(r.services), o.percentage)
  {
    FindDistinctOwner(h.owners.value, o);
  }

  /** With distinct user ids, looking an owner up by id finds that owner. */
  lemma FindDistinctOwner(owners: seq<HorseManager>, o: HorseManager)
    requires forall i, j :: 0 <= i < j < |owners| ==> owners[i].userId != owners[j].userId
    requires o in owners
    ensures FindOwner(owners, o.userId) == Some(o)
  {
    var found := FindOwner(owners, o.userId);
    var k :| 0 <= k < |owners| && owners[k] == found.value &&
             forall j :: 0 <= j < k ==> owners[j].userId != o.userId;
    var i :| 0 <= i < |owners| && owners[i] == o;
    assert !(i < k) && !(k < i);
  }

  /** A share never exceeds the request: with a non-negative total and owner
      percentages between 0 and 100, the cost lies between 0 and the total. */
  lemma RequestCostBounded(payerId: Id, r: ServiceRequest)
    requires r.horse.Some? && r.horse.value.owners.Some?
    requires forall o :: o in r.horse.value.owners.value ==> 0.0 <= o.percentage <= 100.0
    requires ServicesTotal(r.services) >= 0.0
    ensures RequestCost(payerId, r).Some? ==> 0.0 <= RequestCost(payerId, r).value <= ServicesTotal(r.services)
  {
    var total := ServicesTotal(r.services);
    var h := r.horse.value;
    if h.leaserId.None? && payerId in h.ownerIds {
      var found := FindOwner(h.owners.value, payerId);
      if found.Some? {
        assert found.value in h.owners.value;
        PercentBounded(total, found.value.percentage);
      }
    } else {
      assert RequestCost(payerId, r) == Some(total);
    }
  }

  /** A percentage between 0 and 100 of a non-negative amount lies between 0 and the amount. */
  lemma PercentBounded(total: real, p: real)
    requires 0.0 <= total && 0.0 <= p <= 100.0
    ensures 0.0 <= Percent(total, p) <= total
  {
    assert 0.0 <= total * p <= total * 100.0 by {
      MultiplyRight(p, 100.0, total);
      MultiplyRight(0.0, p, total);
    }
    assert total * 100.0 / 100.0 == total;
  }

  // ---------------------------------------------------------------- charge

  /** The charged amount share: the inflated invoice amount times the payer's percentage. */
  function AmountShare(inv: Invoice, percentage: real, applicationFee: real): real
  {
    Percent(AmountWithApplicationFee(inv.amount, applicationFee), percentage)
  }

  function TipShareCharged(inv: Invoice, percentage: real, applicationFee: real): real
  {
    Percent(AmountWithApplicationFee(inv.tip, applicationFee), percentage)
  }

  /** The charge in cents. */
  function ChargeCents(inv: Invoice, percentage: real, applicationFee: real): (c: int)
    ensures c == Cents(Percent(AmountWithApplicationFee(inv.amount + inv.tip, applicationFee), percentage))
  {
    FeeIsAdditive(inv.amount, inv.tip, applicationFee);
    Cents(AmountShare(inv, percentage, applicationFee) + TipShareCharged(inv, percentage, applicationFee))
  }

  /** Example, an instance of `CoalesceSpec` and `CostOfListedOwner`: two requests on one
      horse without leaser whose owners hold 60% and 40%, totals of
      100 and 50, no tip, both paid out to the same account: the 60% owner's settlement
      is a single transfer of 9000 cents, and the charge is 60% of the inflated 150. */
  lemma SixtyFortyScenario(db: Db, inv: Invoice, h: Horse, a: HorseManager, b: HorseManager,
                           sp: ServiceProvider, applicationFee: real)
    requires h.leaserId.None? && h.owners == Some([a, b]) && h.ownerIds == [a.userId, b.userId]
    requires a.userId != b.userId && a.percentage == 60.0 && b.percentage == 40.0
    requires |inv.requests| == 2 && inv.tip == 0.0 && inv.amount == 150.0
    requires ServicesTotal(inv.requests[0].services) == 100.0 && ServicesTotal(inv.requests[1].services) == 50.0
    requires forall k :: 0 <= k < 2 ==>
               && inv.requests[k].horse == Some(h) && inv.requests[k].assigner.None?
               && inv.requests[k].serviceProvider.Some?
               && inv.requests[k].serviceProvider.value.userId in db.users
               && db.users[inv.requests[k].serviceProvider.value.userId].serviceProvider == Some(sp)
    requires sp.account.Some?
    ensures Transfers(db, a.userId, inv) == [Transfer(sp.userId, 9000, sp.account.value.id)]
    ensures ChargeCents(inv, a.percentage, applicationFee) == Cents(Percent(AmountWithApplicationFee(150.0, applicationFee), 60.0))
  {
    var rs := inv.requests;
    var d := sp.account.value.id;
    assert FindOwner(h.owners.value, a.userId) == Some(a);
    assert Cents(Percent(100.0, 60.0)) == 6000;
    assert Cents(Percent(50.0, 60.0)) == 3000;
    OwnerCreditToProvider(db, rs[0], h, a, sp);
    OwnerCreditToProvider(db, rs[1], h, a, sp);
    RequestCreditsPair(db, a.userId, rs, Transfer(sp.userId, 6000, d), Transfer(sp.userId, 3000, d));
    assert Credits(db, a.userId, inv) == RequestCredits(db, a.userId, rs);
    var c := Credits(db, a.userId, inv);
    assert c[..1] == [Transfer(sp.userId, 6000, d)];
    assert Coalesce([], c[..1]) == [Transfer(sp.userId, 6000, d)];
  }

  /** Two requests that both yield a credit yield those two credits, in order. */
  lemma RequestCreditsPair(db: Db, payerId: Id, rs: seq<ServiceRequest>, c0: Transfer, c1: Transfer)
    requires |rs| == 2
    requires RequestCredit(db, payerId, rs[0]) == Some(c0) && RequestCredit(db, payerId, rs[1]) == Some(c1)
    ensures RequestCredits(db, payerId, rs) == [c0, c1]
  {
    assert rs[..1][..0] == [];
    assert rs[..1][0] == rs[0];
    assert rs[..2] == rs;
    assert RequestCredits(db, payerId, rs[..1]) == [c0];
  }

  /** An owner's credit for a request without assigner whose provider's stored profile
      has a payout account: the owner's share of the total, to that account. */
  lemma OwnerCreditToProvider(db: Db, r: ServiceRequest, h: Horse, o: HorseManager, sp: ServiceProvider)
    requires r.horse == Some(h) && IsListedOwner(o.userId, h) && FindOwner(h.owners.value, o.userId) == Some(o)
    requires r.assigner.None? && r.serviceProvider.Some? && r.serviceProvider.value.userId in db.users
    requires db.users[r.serviceProvider.value.userId].serviceProvider == Some(sp) && sp.account.Some?
    ensures RequestCredit(db, o.userId, r)
         == Some(Transfer(sp.userId, Cents(Percent(ServicesTotal(r.services), o.percentage)), sp.account.value.id))
  {
    assert PayoutProvider(db, r) == Some(sp);
  }

  // ---------------------------------------------------------------- the loops

  /** `find` followed by `amount +=` or `push`: one credit added to the transfers. */
  method PushCredit(ts: seq<Transfer>, credit: Transfer) returns (r: seq<Transfer>)
    ensures r == AddCredit(ts, credit)
  {
    var same := FindDestination(ts, credit.destination);
    if same.Some? {
      r := ts[same.value := ts[same.value].(amount := ts[same.value].amount + credit.amount)];
    } else {
      r := ts + [credit];
    }
  }

  /** The cost share of one request, or None when the loop skips it. */
  method ComputeRequestCost(payerId: Id, request: ServiceRequest) returns (cost: Option<real>)
    ensures cost == RequestCost(payerId, request)
  {
    if request.horse.None? {
      return None;
    }
    var horse := request.horse.value;
    var requestAmount := TotalAmount(request);
    if IsListedOwner(payerId, horse) {
      var owner := FindOwner(horse.owners.value, payerId);
      if owner.None? {
        return None;
      }
      requestAmount := Percent(requestAmount, owner.value.percentage);
    }
    cost := Some(requestAmount);
  }

  /** The provider a request is paid to, looked up again, or None when the loop skips it. */
  method ComputePayoutProvider(db: Db, request: ServiceRequest) returns (target: Option<ServiceProvider>)
    ensures target == PayoutProvider(db, request)
  {
    target := if request.assigner.Some? then request.assigner else request.serviceProvider;
    if target.Some? {
      var user := FetchUser(db, target.value.userId);
      if user.None? {
        return None;
      }
      target := user.value.serviceProvider;
    }
    if target.Some? && target.value.account.None? {
      target := None;
    }
  }

  lemma RequestCreditsStep(db: Db, payerId: Id, rs: seq<ServiceRequest>, i: nat)
    requires i < |rs|
    ensures RequestCredit(db, payerId, rs[i]).None? ==>
              RequestCredits(db, payerId, rs[..i + 1]) == RequestCredits(db, payerId, rs[..i])
    ensures RequestCredit(db, payerId, rs[i]).Some? ==>
              RequestCredits(db, payerId, rs[..i + 1])
              == RequestCredits(db, payerId, rs[..i]) + [RequestCredit(db, payerId, rs[i]).value]
  {
    assert rs[..i + 1][..i] == rs[..i];
  }

  lemma TipCreditsStep(rs: seq<ServiceRequest>, share: int, i: nat)
    requires i < |rs|
    ensures TipCredit(rs[i], share).None? ==> TipCredits(rs[..i + 1], share) == TipCredits(rs[..i], share)
    ensures TipCredit(rs[i], share).Some? ==>
              TipCredits(rs[..i + 1], share) == TipCredits(rs[..i], share) + [TipCredit(rs[i], share).value]
  {
    assert rs[..i + 1][..i] == rs[..i];
  }

  /** The request loop of `submitInvoicePayment`: each request's cost, in cents, is
      added to the transfer bound for its payout account. */
  method CollectRequestTransfers(db: Db, payerId: Id, rs: seq<ServiceRequest>) returns (ts: seq<Transfer>)
    ensures ts == Coalesce([], RequestCredits(db, payerId, rs))
  {
    ts := [];
    for i := 0 to |rs|
      invariant ts == Coalesce([], RequestCredits(db, payerId, rs[..i]))
    {
      RequestCreditsStep(db, payerId, rs, i);
      var cost := ComputeRequestCost(payerId, rs[i]);
      if cost.None? {
        continue;
      }
      var target := ComputePayoutProvider(db, rs[i]);
      if target.None? {
        continue;
      }
      var credit := Transfer(target.value.userId, Cents(cost.value), target.value.account.value.id);
      assert RequestCredit(db, payerId, rs[i]) == Some(credit);
      CoalesceSnoc(RequestCredits(db, payerId, rs[..i]), credit);
      ts := PushCredit(ts, credit);
    }
    assert rs[..|rs|] == rs;
  }

  /** The tip loop of `submitInvoicePayment`: each request whose original provider has a
      payout account adds one share of the tip to the transfer bound for that account. */
  method AddTipTransfers(ts0: seq<Transfer>, ghost credits: seq<Transfer>, rs: seq<ServiceRequest>, tipAmount: int)
    returns (ts: seq<Transfer>)
    requires ts0 == Coalesce([], credits)
    ensures ts == Coalesce([], credits + TipCredits(rs, tipAmount))
  {
    ts := ts0;
    assert credits + [] == credits;
    for i := 0 to |rs|
      invariant ts == Coalesce([], credits + TipCredits(rs[..i], tipAmount))
    {
      TipCreditsStep(rs, tipAmount, i);
      var provider := rs[i].serviceProvider;
      if provider.None? || provider.value.account.None? {
        continue;
      }
      var credit := Transfer(provider.value.userId, tipAmount, provider.value.account.value.id);
      assert TipCredit(rs[i], tipAmount) == Some(credit);
      ghost var before := credits + TipCredits(rs[..i], tipAmount);
      assert credits + TipCredits(rs[..i + 1], tipAmount) == before + [credit];
      CoalesceSnoc(before, credit);
      ts := PushCredit(ts, credit);
    }
    assert rs[..|rs|] == rs;
  }

  lemma CoalesceSnoc(credits: seq<Transfer>, c: Transfer)
    ensures Coalesce([], credits + [c]) == AddCredit(Coalesce([], credits), c)
  {
    assert (credits + [c])[..|credits|] == credits;
  }

  /** The transfers `submitInvoicePayment` computes. */
  method ComputeTransfers(db: Db, payerId: Id, inv: Invoice) returns (ts: seq<Transfer>)
    ensures ts == Transfers(db, payerId, inv)
  {
    ts := CollectRequestTransfers(db, payerId, inv.requests);
    if inv.tip > 0.0 {
      ts := AddTipTransfers(ts, RequestCredits(db, payerId, inv.requests), inv.requests, TipShare(inv.tip, |inv.requests|));
    } else {
      assert Credits(db, payerId, inv) == RequestCredits(db, payerId, inv.requests);
    }
  }
}
