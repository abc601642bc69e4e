/** The in-memory steps of two search endpoints: the cursor page cut out of the sorted
    horse-user list (`searchHorseUsers`), and the filter that collects matching service
    requests from one fetched batch (`searchServiceRequests`). */
module Search {
  import opened Wrappers
  import opened Entities
  import opened ServiceRequests
  import opened Store
  import opened Hydration

  /** The first position of a user with id `userId`, as `findIndex` finds it. */
  function IndexOfUser(users: seq<HorseManager>, userId: Id): (k: Option<nat>)
    ensures k.Some? ==> k.value < |users| && users[k.value].userId == userId
    ensures k.Some? ==> forall j :: 0 <= j < k.value ==> users[j].userId != userId
    ensures k.None? ==> forall j :: 0 <= j < |users| ==> users[j].userId != userId
  {
    if users == [] then None
    else if users[0].userId == userId then Some(0)
    else
      var rest := IndexOfUser(users[1..], userId);
      if rest.Some? then Some(rest.value + 1) else None
  }

  /** Where the page starts: right after the user of the cursor, or at the beginning when
      there is no cursor or its user is not in the list. */
  function PageStart(users: seq<HorseManager>, lastUserId: Option<Id>): (start: nat)
    ensures start <= |users|
  {
    if lastUserId.None? then 0
    else
      var k := IndexOfUser(users, lastUserId.value);
      if k.None? then 0 else k.value + 1
  }

  /** `slice(start, start + limit)`: the end is clamped to the length of the list. */
  function CursorPage(users: seq<HorseManager>, lastUserId: Option<Id>, limit: nat): (page: seq<HorseManager>)
    ensures |page| <= limit
    ensures PageStart(users, lastUserId) + |page| <= |users|
    ensures |page| == limit || PageStart(users, lastUserId) + |page| == |users|
    ensures forall j :: 0 <= j < |page| ==> page[j] == users[PageStart(users, lastUserId) + j]
  {
    var start := PageStart(users, lastUserId);
    var end := if start + limit <= |users| then start + limit else |users|;
    users[start..end]
  }

  ghost predicate DistinctUserIds(users: seq<HorseManager>)
  {
    forall i, j :: 0 <= i < j < |users| ==> users[i].userId != users[j].userId
  }

  /** Without a cursor, or with a cursor whose user is gone, the page is the head of the list. */
  lemma FirstPage(users: seq<HorseManager>, lastUserId: Option<Id>, limit: nat)
    requires lastUserId.Some? ==> forall j :: 0 <= j < |users| ==> users[j].userId != lastUserId.value
    ensures CursorPage(users, lastUserId, limit) == users[..if limit <= |users| then limit else |users|]
  {
  }

  /** Paging on: the page that starts after the last user of a full page is the next
      stretch of the list, so two pages in a row are the head of the list without a gap
      or an overlap. Requires the list's user ids to be distinct, which the search keeps
      by never adding a user already listed. */
  lemma NextPageContinues(users: seq<HorseManager>, limit: nat)
    requires DistinctUserIds(users)
    requires 0 < limit <= |users|
    ensures var first := CursorPage(users, None, limit);
            var next := CursorPage(users, Some(first[|first| - 1].userId), limit);
            first + next == users[..if 2 * limit <= |users| then 2 * limit else |users|]
  {
    var first := CursorPage(users, None, limit);
    assert first == users[..limit];
    IndexOfDistinct(users, limit - 1);
    assert PageStart(users, Some(first[|first| - 1].userId)) == limit;
  }

  /** In a list with distinct user ids, the user at position `i` is found at `i`. */
  lemma IndexOfDistinct(users: seq<HorseManager>, i: nat)
    requires DistinctUserIds(users) && i < |users|
    ensures IndexOfUser(users, users[i].userId) == Some(i)
  {
  }

  /** What a search for service requests filters on; None is a filter that is not set. */
  datatype RequestFilter = RequestFilter(
    horseId: Option<Id>,
    serviceProviderId: Option<Id>,
    statuses: Option<seq<RequestStatus>>)

  /** A request passes the filter when its status is listed (if statuses are given, even
      an empty list), it is not a custom request when a horse is searched, and, when a
      provider is searched, the provider has not dismissed it and is its assigner or its
      service provider. */
  predicate Matches(f: RequestFilter, r: ServiceRequest)
  {
    (f.statuses.Some? ==> r.status in f.statuses.value)
    && (f.horseId.Some? ==> !r.isCustomRequest)
    && (f.serviceProviderId.Some? ==>
          (r.dismissedBy.None? || f.serviceProviderId.value !in r.dismissedBy.value)
          && (r.assignerId == f.serviceProviderId || r.serviceProviderId == f.serviceProviderId.value))
  }

  /** The hydrated requests of `batch` that pass the filter, in batch order. */
  function Matching(db: Db, f: RequestFilter, batch: seq<ServiceRequest>): seq<ServiceRequest>
    decreases |batch|
  {
    if batch == [] then []
    else
      var rest := Matching(db, f, batch[..|batch| - 1]);
      var r := batch[|batch| - 1];
      if Matches(f, r) then rest + [ServiceRequestInformation(db, r)] else rest
  }

  /** The number of matches the collector takes from a batch: all of them, unless the
      page fills up first. */
  function Taken(found: nat, matches: nat, limit: nat): (n: nat)
    requires found < limit
    ensures n <= matches && found + n <= limit
    ensures n < matches ==> found + n == limit
  {
    if found + matches <= limit then matches else limit - found
  }

  /** The matching requests are hydrated requests of the batch, each one passing the filter
      on its stored fields, in batch order. */
  lemma {:induction false} MatchingSound(db: Db, f: RequestFilter, batch: seq<ServiceRequest>)
    ensures |Matching(db, f, batch)| <= |batch|
    ensures forall m :: m in Matching(db, f, batch) ==>
              exists i :: 0 <= i < |batch| && Matches(f, batch[i]) && m == ServiceRequestInformation(db, batch[i])
    decreases |batch|
  {
    if batch != [] {
      var init := batch[..|batch| - 1];
      MatchingSound(db, f, init);
      forall m | m in Matching(db, f, batch)
        ensures exists i :: 0 <= i < |batch| && Matches(f, batch[i]) && m == ServiceRequestInformation(db, batch[i])
      {
        if m in Matching(db, f, init) {
          var i :| 0 <= i < |init| && Matches(f, init[i]) && m == ServiceRequestInformation(db, init[i]);
          assert batch[i] == init[i];
        } else {
          assert m == ServiceRequestInformation(db, batch[|batch| - 1]);
        }
      }
    }
  }

  /** A request of the batch that passes the filter is among the matches. */
  lemma {:induction false} MatchingComplete(db: Db, f: RequestFilter, batch: seq<ServiceRequest>, i: nat)
    requires i < |batch| && Matches(f, batch[i])
    ensures ServiceRequestInformation(db, batch[i]) in Matching(db, f, batch)
    decreases |batch|
  {
    if i < |batch| - 1 {
      var init := batch[..|batch| - 1];
      assert init[i] == batch[i];
      MatchingComplete(db, f, init, i);
    }
  }

  /** The model of the loop over one fetched batch in `searchServiceRequests`: a request
      that fails the filter is skipped, one that passes is hydrated and appended, and the
      loop stops as soon as the page holds `limit` requests. The caller enters with fewer
      than `limit` requests, since it stops fetching once the page is full. */
  method CollectBatch(db: Db, f: RequestFilter, batch: seq<ServiceRequest>, limit: nat, found: seq<ServiceRequest>)
    returns (page: seq<ServiceRequest>)
    requires |found| < limit
    ensures var matches := Matching(db, f, batch);
            page == found + matches[..Taken(|found|, |matches|, limit)]
  {
    page := found;
    var i := 0;
    while i < |batch|
      invariant 0 <= i <= |batch|
      invariant |found| <= |page| < limit
      invariant page == found + Matching(db, f, batch[..i])
      decreases |batch| - i
    {
      assert batch[..i + 1][..i] == batch[..i];
      var r := batch[i];
      if Matches(f, r) {
        var hydrated := ServiceRequestInformation(db, r);
        page := page + [hydrated];
        if |page| == limit {
          PrefixOfMatching(db, f, batch, i + 1);
          return;
        }
      }
      i := i + 1;
    }
    assert batch[..|batch|] == batch;
  }

  /** The matches of a prefix of the batch are a prefix of the matches of the batch. */
  lemma {:induction false} PrefixOfMatching(db: Db, f: RequestFilter, batch: seq<ServiceRequest>, n: nat)
    requires n <= |batch|
    ensures var all := Matching(db, f, batch);
            var some := Matching(db, f, batch[..n]);
            |some| <= |all| && some == all[..|some|]
    decreases |batch|
  {
    if n < |batch| {
      var init := batch[..|batch| - 1];
      assert init[..n] == batch[..n];
      PrefixOfMatching(db, f, init, n);
    } else {
      assert batch[..n] == batch;
    }
  }
}
