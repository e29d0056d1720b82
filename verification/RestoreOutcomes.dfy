// What the other callbacks come to: who leaves what, which leases are named and
// handed out, which restores go to the workers and which of them survive.
module RestoreOutcomes {
  import opened Common
  import opened RestoreModel
  import opened RestoreInvariant
  import opened RestoreCallbacks
  import opened RestoreAnswers

  // ---- leaving ----

  /** `left` is `order` without `d`, otherwise in the same order. */
  predicate Without(order: seq<Digest>, d: Digest, left: seq<Digest>) {
    exists i :: 0 <= i < |order| && order[i] == d && left == order[..i] + order[i + 1..]
  }

  lemma WithoutLater(first: Digest, rest: seq<Digest>, d: Digest, left: seq<Digest>)
    requires Without(rest, d, left)
    ensures Without([first] + rest, d, [first] + left)
  {
    var i :| 0 <= i < |rest| && rest[i] == d && left == rest[..i] + rest[i + 1..];
    var order := [first] + rest;
    assert order[..i + 1] == [first] + rest[..i] && order[i + 2..] == rest[i + 1..];
    assert [first] + left == order[..i + 1] + order[i + 2..] && order[i + 1] == d;
  }

  lemma WithoutFirst(first: Digest, rest: seq<Digest>)
    ensures Without([first] + rest, first, rest)
  {
    var order := [first] + rest;
    assert order[0] == first && rest == order[..0] + order[1..];
  }

  lemma {:induction false} RemoveExactly(order: seq<Digest>, d: Digest)
    requires Distinct(order)
    ensures d in order ==> Without(order, d, Remove(order, d))
    ensures d !in order ==> Remove(order, d) == order
  {
    if order != [] {
      var first, rest := order[0], order[1..];
      RemoveExactly(rest, d);
      assert order == [first] + rest && first !in rest;
      hide Without;
      if first == d {
        WithoutFirst(first, rest);
      } else if d in rest {
        WithoutLater(first, rest, d, Remove(rest, d));
      }
    }
  }

  /** The flight is gone, with its leader's entry and its followers' bindings. */
  ghost predicate Retired(k: Desk, j: Desk, d: Digest) {
    && d in k.flights && j.flights == k.flights - {d} && Without(k.order, d, j.order)
    && j.leaders == k.leaders - {k.flights[d].leader} && j.followers == k.followers - k.flights[d].followers
    && j == k.(flights := j.flights, order := j.order, leaders := j.leaders, followers := j.followers)
  }

  lemma RetireExactly(k: Desk, d: Digest)
    requires OrderOk(k) && d in k.flights
    ensures Retired(k, Retire(k, d), d)
  {
    RemoveExactly(k.order, d);
    hide Remove, Without, Distinct;
  }

  /** Nobody else of this flight waits for the key that `r` waited for. */
  ghost predicate LastOfTrunk(k: Desk, r: Request)
    requires r in k.followers
  {
    var b := k.followers[r];
    && b.flight in k.flights && k.flights[b.flight].lease.None? && k.flights[b.flight].segment.Some?
    && k.flights[b.flight].segment.value.digest == b.lease
    && forall q :: q in k.followers && q != r && k.followers[q].flight == b.flight ==> k.followers[q].lease != b.lease
  }

  /** `r` has left its flight, which gives up its trunk if `r` was the last to
      wait for it and it is not published yet. */
  ghost predicate LeftFlight(k: Desk, j: Desk, r: Request)
    requires r in k.followers && k.followers[r].flight in k.flights
  {
    var d := k.followers[r].flight;
    var f := k.flights[d];
    var g := f.(followers := f.followers - {r}, segment := if LastOfTrunk(k, r) then None else f.segment);
    j == k.(followers := k.followers - {r}, flights := k.flights[d := g])
  }

  lemma LeaveExactly(k: Desk, r: Request)
    requires r in k.followers && k.followers[r].flight in k.flights
    requires k.flights[k.followers[r].flight].digest == k.followers[r].flight
    ensures LeftFlight(k, RemoveFollower(k, r), r)
  {
    var b := k.followers[r];
    var left := k.followers - {r};
    assert StillNeeded(left, b.flight, b.lease)
           <==> exists q :: q in k.followers && q != r && k.followers[q].flight == b.flight && k.followers[q].lease == b.lease by {
      if q :| q in k.followers && q != r && k.followers[q].flight == b.flight && k.followers[q].lease == b.lease {
        assert q in left && left[q].flight == b.flight && left[q].lease == b.lease;
      }
    }
    hide StillNeeded;
  }

  // ---- lookups by requests that lead or follow already ----

  /** A leader's lookup: done once its blocks are promoted, waiting while its load
      is on the way, offered again while every rank offers its root, and otherwise
      starting over without its flight. */
  ghost predicate LeaderAnswered(k: Desk, r: Request, q: Lookup, j: Desk, a: Answer)
    requires r in k.leaders && k.leaders[r] in k.flights
  {
    var d := k.leaders[r];
    var f := k.flights[d];
    if f.workersFinished && q.computed >= f.span then a == Skip && Retired(k, j, d)
    else if f.dispatched || r in k.pending then a == Wait && j == k
    else if q.computed == 0 && d in q.quorum then a == Offer(f.span) && j == k
    else exists left :: Retired(k.(needLoad := k.needLoad - {r}), left, d) && Answered(left, r, q, j, a)
  }

  lemma LeaderLookup(k: Desk, r: Request, q: Lookup, fin: set<Request>)
    requires Sound(k, fin) && Ordered(k) && PrefixesAscend(k) && Ascend(q.candidates)
    requires r !in k.followers && r in k.leaders
    ensures k.leaders[r] in k.flights
    ensures LeaderAnswered(k, r, q, Match(k, r, q).0, Match(k, r, q).1)
  {
    GiveUpSound(k, r, fin);
    hide *;
    var d := k.leaders[r];
    var cleared := k.(needLoad := k.needLoad - {r});
    var left := Retire(cleared, d);
    SoundParts(k, fin);
    SoundParts(left, fin);
    RetireExactly(k, d);
    SameOrder(k, cleared);
    RetireExactly(cleared, d);
    FewerAscend(k, left, d);
    NotYetFollowing(k, left, r);
    ChooseExactly(left, r, q);
    LeaderMatch(k, r, q);
    var (j, a) := Match(k, r, q);
    LeaderCases(k, r, q, j, a);
  }

  lemma SameOrder(k: Desk, j: Desk)
    requires OrderOk(k) && j.order == k.order && j.flights == k.flights
    ensures OrderOk(j)
  {
  }

  lemma NotYetFollowing(k: Desk, left: Desk, r: Request)
    requires r !in k.followers && left.followers.Keys <= k.followers.Keys
    ensures r !in left.followers
  {
  }

  /** The branches of a leader's lookup. */
  lemma LeaderMatch(k: Desk, r: Request, q: Lookup)
    requires Ordered(k) && r !in k.followers && r in k.leaders && k.leaders[r] in k.flights
    requires Ordered(Retire(k.(needLoad := k.needLoad - {r}), k.leaders[r]))
    ensures var f := k.flights[k.leaders[r]];
            Match(k, r, q)
            == if f.workersFinished && q.computed >= f.span then (Retire(k, k.leaders[r]), Skip)
               else if f.dispatched || r in k.pending then (k, Wait)
               else if q.computed == 0 && k.leaders[r] in q.quorum then (k, Offer(f.span))
               else Choose(Retire(k.(needLoad := k.needLoad - {r}), k.leaders[r]), r, q)
  {
    hide Choose, Retire, Ordered;
  }

  lemma LeaderCases(k: Desk, r: Request, q: Lookup, j: Desk, a: Answer)
    requires r in k.leaders && k.leaders[r] in k.flights
    requires var d := k.leaders[r];
             var left := Retire(k.(needLoad := k.needLoad - {r}), d);
             && Ordered(left) && Retired(k, Retire(k, d), d) && Retired(k.(needLoad := k.needLoad - {r}), left, d)
             && Answered(left, r, q, Choose(left, r, q).0, Choose(left, r, q).1)
             && var f := k.flights[d];
                (j, a) == if f.workersFinished && q.computed >= f.span then (Retire(k, d), Skip)
                          else if f.dispatched || r in k.pending then (k, Wait)
                          else if q.computed == 0 && d in q.quorum then (k, Offer(f.span))
                          else Choose(left, r, q)
    ensures LeaderAnswered(k, r, q, j, a)
  {
    hide Retired, Answered, Choose, Retire, Ordered;
  }

  lemma SoundParts(k: Desk, fin: set<Request>)
    requires Sound(k, fin)
    ensures Linked(k) && OrderOk(k)
  {
  }

  lemma FewerAscend(k: Desk, left: Desk, d: Digest)
    requires PrefixesAscend(k) && d in k.flights && left == Retire(k.(needLoad := left.needLoad), d)
    ensures PrefixesAscend(left)
  {
    hide Ascend, Remove;
  }

  /** A follower's lookup: it leaves once tokens are computed locally, and waits as
      long as its flight is there. */
  lemma FollowerLookup(k: Desk, r: Request, q: Lookup, fin: set<Request>)
    requires Sound(k, fin) && Ordered(k) && r in k.followers && k.followers[r].span > 0
    ensures k.followers[r].flight in k.flights
    ensures var (j, a) := Match(k, r, q);
            if q.computed > 0 then a == Skip && LeftFlight(k, j, r) else a == Wait && j == k
  {
    assert BindingOk(k, r) && FlightOk(k, k.followers[r].flight);
    LeaveExactly(k, r);
    hide Sound, RemoveFollower, LeadOrChoose, LeftFlight, Ordered;
  }

  // ---- rejections ----

  /** A rejected scope: the request stops following, and gives up the flight it
      leads unless that has been sent to the workers. */
  lemma ScopeRejectedExactly(k: Desk, r: Request, fin: set<Request>)
    requires Sound(k, fin)
    ensures var j := RejectScope(k, r);
            && r !in j.followers
            && (forall d :: d in j.flights <==>
                  d in k.flights && !(r in k.leaders && k.leaders[r] == d && !k.flights[d].dispatched))
            && (r in j.leaders ==> j.leaders[r] in j.flights && j.flights[j.leaders[r]].dispatched)
  {
    LeaverFlights(k, r, fin);
    var left := RemoveFollower(k, r);
    RemoveFollowerSound(k, r, fin);
    LeaderDropped(left, r, fin);
    hide Sound, RemoveFollower, Retire;
  }

  /** A rejected lease: its follower leaves, and the flight the request leads ends. */
  lemma LeaseRejectedExactly(k: Desk, r: Request, key: Digest, fin: set<Request>)
    requires Sound(k, fin)
    ensures var j := RejectLease(k, r, key);
            && (r in j.followers ==> r in k.followers && k.followers[r].lease != key)
            && r !in j.leaders
            && forall d :: d in j.flights <==> d in k.flights && !(r in k.leaders && k.leaders[r] == d)
  {
    LeaverFlights(k, r, fin);
    var left := RemoveFollower(k, r);
    RemoveFollowerSound(k, r, fin);
    LeaderDropped(left, r, fin);
    LeaderDropped(k, r, fin);
    hide Sound, RemoveFollower, Retire;
  }

  lemma LeaverFlights(k: Desk, r: Request, fin: set<Request>)
    requires Sound(k, fin)
    ensures var left := RemoveFollower(k, r);
            && r !in left.followers && left.leaders == k.leaders && left.flights.Keys == k.flights.Keys
            && forall d :: d in k.flights ==> left.flights[d].dispatched == k.flights[d].dispatched
  {
    forall d
      ensures d in RemoveFollower(k, r).flights <==> d in k.flights
      ensures d in k.flights ==> RemoveFollower(k, r).flights[d].dispatched == k.flights[d].dispatched
    {
      LeaverKeepsFlight(k, r, d);
    }
    LeaverKeepsFlight(k, r, 0);
    hide RemoveFollower;
  }

  /** Giving up one's flight: it is gone, and so is one's lead. */
  lemma LeaderDropped(k: Desk, r: Request, fin: set<Request>)
    requires Sound(k, fin)
    ensures r in k.leaders ==>
              && k.leaders[r] in k.flights && r !in Retire(k, k.leaders[r]).leaders
              && Retire(k, k.leaders[r]).followers.Keys <= k.followers.Keys
              && forall d :: d in Retire(k, k.leaders[r]).flights <==> d in k.flights && d != k.leaders[r]
  {
    if r in k.leaders {
      assert LeaderOk(k, r);
      hide Linked, Counted, Remove;
    }
  }

  // ---- naming and publishing leases ----

  /** A lease is named for publication exactly when its leader's restore has
      finished on every worker, the leader is still there and nothing is
      published; its key is the flight's trunk if it has one, else its root. */
  lemma NamedExactly(k: Desk, r: Request)
    ensures ToPublish(k, r).Some? <==>
              r in k.leaders && k.leaders[r] in k.flights
              && var f := k.flights[k.leaders[r]]; f.workersFinished && !f.leaderFinished && f.lease.None?
    ensures ToPublish(k, r).Some? ==>
              var f := k.flights[k.leaders[r]];
              ToPublish(k, r).value == match f.segment case Some(p) => p case None => Candidate(f.span, f.digest)
  {
  }

  lemma {:induction false} PublishedInDistinct(k: Desk, n: nat)
    requires n <= |k.order| && Ordered(k) && Distinct(k.order)
    ensures Distinct(PublishedIn(k, n))
  {
    if n > 0 {
      PublishedInDistinct(k, n - 1);
      PublishedInIs(k, n - 1);
      assert k.order[n - 1] !in k.order[..n - 1];
    }
  }

  lemma {:induction false} InsertDistinct(k: Desk, sorted: seq<Digest>, d: Digest)
    requires Distinct(sorted) && d !in sorted
    ensures Distinct(Insert(k, sorted, d)) && forall e :: e in Insert(k, sorted, d) <==> e in sorted || e == d
  {
    if sorted != [] && TimeOf(k, d) < TimeOf(k, sorted[|sorted| - 1]) {
      var front, last := sorted[..|sorted| - 1], sorted[|sorted| - 1];
      assert sorted == front + [last] && last !in front;
      InsertDistinct(k, front, d);
    }
  }

  lemma {:induction false} SortDistinct(k: Desk, ds: seq<Digest>)
    requires Distinct(ds)
    ensures Distinct(SortByTime(k, ds))
  {
    if ds != [] {
      var front, last := ds[..|ds| - 1], ds[|ds| - 1];
      assert ds == front + [last] && last !in front && Distinct(front);
      SortDistinct(k, front);
      SortIs(k, front);
      InsertDistinct(k, SortByTime(k, front), last);
    }
  }

  /** All leases in the order of their publication, the stale ones first: all but
      the newest two. */
  lemma StaleExactly(k: Desk) returns (sorted: seq<Digest>, n: nat)
    requires Ordered(k) && OrderOk(k)
    ensures n <= |sorted| && Stale(k) == sorted[..n] && n == Max(0, |sorted| - MAX_LEASES) && Distinct(sorted)
    ensures forall d :: d in sorted <==> d in k.flights && k.flights[d].lease.Some?
    ensures forall i, j :: 0 <= i < j < |sorted| ==> TimeOf(k, sorted[i]) <= TimeOf(k, sorted[j])
  {
    var listed := PublishedIn(k, |k.order|);
    sorted := SortByTime(k, listed);
    PublishedInIs(k, |k.order|);
    PublishedInDistinct(k, |k.order|);
    SortIs(k, listed);
    SortDistinct(k, listed);
    hide PublishedIn, SortByTime, TimeOf, Distinct;
    assert k.order[..|k.order|] == k.order;
    n := Max(0, |sorted| - MAX_LEASES);
    assert sorted[..0] == [];
  }

  function Listed(ds: seq<Digest>): set<Digest> {
    set d | d in ds
  }

  lemma {:induction false} ListedSize(ds: seq<Digest>)
    requires Distinct(ds)
    ensures |Listed(ds)| == |ds|
  {
    if ds != [] {
      var front, last := ds[..|ds| - 1], ds[|ds| - 1];
      assert ds == front + [last] && last !in front && Distinct(front);
      ListedSize(front);
      assert Listed(ds) == Listed(front) + {last};
    }
  }

  lemma TailListed(ds: seq<Digest>, n: nat)
    requires Distinct(ds) && n <= |ds|
    ensures |Listed(ds[n..])| == |ds| - n && Listed(ds[n..]) == Listed(ds) - Listed(ds[..n])
    ensures |Listed(ds)| == |ds|
  {
    ListedSize(ds);
    ListedSize(ds[n..]);
    assert ds == ds[..n] + ds[n..];
    forall d | d in ds[n..]
      ensures d !in ds[..n]
    {
      var i :| 0 <= i < |ds[n..]| && ds[n..][i] == d;
      assert ds[n + i] == d;
    }
  }

  /** `j` is `k` after retiring all leases but the newest two: what else there is
      stays as it is, and nothing kept is older than something retired. */
  ghost predicate NewestKept(k: Desk, j: Desk) {
    && (forall d :: d in j.flights ==> d in k.flights && j.flights[d] == k.flights[d])
    && (forall d :: d in k.flights && d !in j.flights ==> k.flights[d].lease.Some?)
    && |Published(j.flights)| == Min(MAX_LEASES, |Published(k.flights)|)
    && forall d, e :: d in Published(k.flights) && d !in j.flights && e in Published(j.flights) ==>
         TimeOf(k, d) <= TimeOf(k, e)
  }

  lemma StaleKeepsNewest(k: Desk)
    requires Ordered(k) && OrderOk(k)
    ensures NewestKept(k, RetireAll(k, Stale(k)))
  {
    var sorted, n := StaleExactly(k);
    RetireAllIs(k, Stale(k));
    TailListed(sorted, n);
    var j := RetireAll(k, Stale(k));
    hide *;
    SplitPublished(k, j, sorted, n);
    forall d, e | d in Published(k.flights) && d !in j.flights && e in Published(j.flights)
      ensures TimeOf(k, d) <= TimeOf(k, e)
    {
      OlderFirst(k, sorted, n, d, e);
    }
    NewestParts(k, j);
  }

  lemma NewestParts(k: Desk, j: Desk)
    requires forall d :: d in j.flights ==> d in k.flights && j.flights[d] == k.flights[d]
    requires forall d :: d in k.flights && d !in j.flights ==> k.flights[d].lease.Some?
    requires |Published(j.flights)| == Min(MAX_LEASES, |Published(k.flights)|)
    requires forall d, e :: d in Published(k.flights) && d !in j.flights && e in Published(j.flights) ==>
               TimeOf(k, d) <= TimeOf(k, e)
    ensures NewestKept(k, j)
  {
    hide TimeOf, Published;
  }

  /** What is retired is the first `n` of the list, what is kept the rest. */
  lemma SplitPublished(k: Desk, j: Desk, sorted: seq<Digest>, n: nat)
    requires n <= |sorted| && n == Max(0, |sorted| - MAX_LEASES)
    requires forall d :: d in sorted <==> d in k.flights && k.flights[d].lease.Some?
    requires forall d :: d in j.flights <==> d in k.flights && d !in sorted[..n]
    requires forall d :: d in j.flights ==> j.flights[d] == k.flights[d]
    requires |Listed(sorted)| == |sorted| && |Listed(sorted[n..])| == |sorted| - n
    requires Listed(sorted[n..]) == Listed(sorted) - Listed(sorted[..n])
    ensures forall d :: d in k.flights && d !in j.flights ==> k.flights[d].lease.Some?
    ensures |Published(j.flights)| == Min(MAX_LEASES, |Published(k.flights)|)
    ensures forall d :: d in Published(k.flights) && d !in j.flights ==> d in sorted[..n]
    ensures forall d :: d in Published(j.flights) ==> d in sorted[n..]
  {
    FrontIn(sorted, n);
    assert Listed(sorted) == Published(k.flights);
    assert Published(j.flights) == Listed(sorted[n..]);
  }

  lemma FrontIn(sorted: seq<Digest>, n: nat)
    requires n <= |sorted|
    ensures forall d :: d in sorted[..n] ==> d in sorted
  {
  }

  lemma OlderFirst(k: Desk, sorted: seq<Digest>, n: nat, d: Digest, e: Digest)
    requires n <= |sorted| && d in sorted[..n] && e in sorted[n..]
    requires forall i, j :: 0 <= i < j < |sorted| ==> TimeOf(k, sorted[i]) <= TimeOf(k, sorted[j])
    ensures TimeOf(k, d) <= TimeOf(k, e)
  {
    var i :| 0 <= i < n && sorted[..n][i] == d;
    var j :| 0 <= j < |sorted| - n && sorted[n..][j] == e;
    assert sorted[i] == d && sorted[n + j] == e;
  }

  /** Publication succeeds exactly for the leader of a restore that every worker
      has finished, under the key it would be named by; the lease then lives for
      the configured time, and of all leases the newest two are kept. */
  lemma PublishExactly(k: Desk, r: Request, key: Digest, now: int, fin: set<Request>)
    requires Sound(k, fin) && Ordered(k)
    ensures var (j, ok) := Publish(k, r, key, now);
            && (ok <==> r in k.leaders && k.leaders[r] in k.flights
                        && var f := k.flights[k.leaders[r]];
                           f.workersFinished && key == if f.segment.Some? then f.segment.value.digest else f.digest)
            && (!ok ==> j == k)
            && (ok ==>
                  var d := k.leaders[r];
                  var f := k.flights[d];
                  var lease := Lease(key, if f.segment.Some? then f.segment.value.span else f.span, now, now + k.ttl);
                  NewestKept(k.(flights := k.flights[d := f.(lease := Some(lease))]), j))
  {
    hide RetireAll, Stale, NewestKept, Sound;
    var (j, ok) := Publish(k, r, key, now);
    if ok {
      var d := k.leaders[r];
      var f := k.flights[d];
      var leased := Leased(k, d, Lease(key, LeaseCandidate(f).span, now, now + k.ttl));
      LeasedSound(k, d, Lease(key, LeaseCandidate(f).span, now, now + k.ttl), fin);
      StaleKeepsNewest(leased);
    }
  }

  lemma {:induction false} ExpiredExactly(k: Desk, now: int, n: nat)
    requires n <= |k.order| && Ordered(k)
    ensures forall d :: d in Expired(k, now, n) <==>
              d in k.order[..n] && k.flights[d].lease.Some? && k.flights[d].lease.value.expiresAt <= now
  {
    if n > 0 {
      ExpiredExactly(k, now, n - 1);
      assert k.order[..n] == k.order[..n - 1] + [k.order[n - 1]];
    }
  }

  /** Expiry ends exactly the leases whose time has come. */
  lemma ExpireExactly(k: Desk, now: int)
    requires Ordered(k) && OrderOk(k)
    ensures var j := Expire(k, now);
            && (forall d :: d in j.flights <==>
                  d in k.flights && (k.flights[d].lease.None? || k.flights[d].lease.value.expiresAt > now))
            && forall d :: d in j.flights ==> j.flights[d] == k.flights[d]
  {
    ExpiredExactly(k, now, |k.order|);
    RetireAllIs(k, Expired(k, now, |k.order|));
    hide Expired, RetireAll, Distinct;
    assert k.order[..|k.order|] == k.order;
  }

  // ---- handing leases out ----

  /** The keys that flights have published. */
  function LeasedKeys(k: Desk): set<Digest> {
    set d | d in k.flights && k.flights[d].lease.Some? :: k.flights[d].lease.value.digest
  }

  /** The roots whose own flights have published them. */
  function LeasedRoots(k: Desk): set<Digest> {
    set d | d in k.flights && k.flights[d].lease.Some? && k.flights[d].lease.value.digest == d
  }

  lemma {:induction false} OwnIsSelected(k: Desk, cs: seq<Candidate>)
    ensures match Selected(cs, LeasedRoots(k))
            case None => OwnLease(k, cs) == None
            case Some(c) => OwnLease(k, cs) == Some(c.digest)
  {
    if cs != [] {
      OwnIsSelected(k, cs[..|cs| - 1]);
    }
  }

  /** The search over flights finds one that has published the key, if there is one. */
  lemma {:induction false} LeasedAsExactly(k: Desk, key: Digest, n: nat)
    requires n <= |k.order| && Ordered(k)
    ensures var d := LeasedAs(k, key, n);
            if d.None? then
              forall i :: 0 <= i < n ==>
                !(k.flights[k.order[i]].lease.Some? && k.flights[k.order[i]].lease.value.digest == key)
            else
              exists i :: 0 <= i < n && k.order[i] == d.value
                && k.flights[d.value].lease.Some? && k.flights[d.value].lease.value.digest == key
                && forall j :: 0 <= j < i ==>
                     !(k.flights[k.order[j]].lease.Some? && k.flights[k.order[j]].lease.value.digest == key)
  {
    if n > 0 {
      LeasedAsExactly(k, key, n - 1);
    }
  }

  lemma LeasedAsKey(k: Desk, key: Digest)
    requires Ordered(k) && OrderOk(k)
    ensures LeasedAs(k, key, |k.order|).Some? <==> key in LeasedKeys(k)
    ensures var d := LeasedAs(k, key, |k.order|);
            d.Some? ==> d.value in k.flights && k.flights[d.value].lease.Some? && k.flights[d.value].lease.value.digest == key
  {
    LeasedAsExactly(k, key, |k.order|);
    hide LeasedAs, Distinct;
    if key in LeasedKeys(k) {
      var d :| d in k.flights && k.flights[d].lease.Some? && k.flights[d].lease.value.digest == key;
      assert d in k.order;
      var i :| 0 <= i < |k.order| && k.order[i] == d;
    }
  }

  lemma {:induction false} AnyIsSelected(k: Desk, cs: seq<Candidate>)
    requires Ordered(k) && OrderOk(k)
    ensures match Selected(cs, LeasedKeys(k))
            case None => AnyLease(k, cs) == None
            case Some(c) =>
              && AnyLease(k, cs).Some? && AnyLease(k, cs).value in k.flights
              && k.flights[AnyLease(k, cs).value].lease.Some?
              && k.flights[AnyLease(k, cs).value].lease.value.digest == c.digest
  {
    if cs != [] {
      AnyIsSelected(k, cs[..|cs| - 1]);
      LeasedAsKey(k, cs[|cs| - 1].digest);
      hide LeasedAs, OrderOk, Ordered, LeasedKeys;
    }
  }

  /** The lease of this flight is of candidate `c`. */
  predicate LeaseOf(k: Desk, d: Digest, c: Candidate) {
    d in k.flights && k.flights[d].lease.Some? && k.flights[d].lease.value.digest == c.digest
  }

  /** Which lease a lookup finds: of the candidates whose own flight has published
      their root the longest, and only if there is none, the longest candidate
      that any flight has published. It finds one exactly if one is published. */
  lemma LeaseForExactly(k: Desk, cs: seq<Candidate>) returns (c: Candidate)
    requires Ordered(k) && OrderOk(k) && Ascend(cs)
    ensures var d := LeaseFor(k, cs);
            && (d.Some? <==> exists e :: e in cs && e.digest in LeasedKeys(k))
            && (d.Some? ==>
                  && LeaseOf(k, d.value, c)
                  && if exists e :: e in cs && e.digest in LeasedRoots(k)
                     then d.value == c.digest && Longest(cs, LeasedRoots(k), c)
                     else Longest(cs, LeasedKeys(k), c))
  {
    OwnIsSelected(k, cs);
    AnyIsSelected(k, cs);
    SelectedExactly(cs, LeasedRoots(k));
    SelectedExactly(cs, LeasedKeys(k));
    RootsAreKeys(k);
    var own, any := Selected(cs, LeasedRoots(k)), Selected(cs, LeasedKeys(k));
    c := if own.Some? then own.value else if any.Some? then any.value else Candidate(0, 0);
    hide OwnLease, AnyLease, Ascend, OrderOk, Ordered, LeasedKeys, Selected;
    if own.Some? {
      assert Longest(cs, LeasedRoots(k), c);
      RootLease(k, c);
    } else if any.Some? {
      assert Longest(cs, LeasedKeys(k), c);
    }
  }

  lemma RootLease(k: Desk, c: Candidate)
    requires c.digest in LeasedRoots(k)
    ensures LeaseOf(k, c.digest, c)
  {
  }

  lemma RootsAreKeys(k: Desk)
    ensures LeasedRoots(k) <= LeasedKeys(k)
  {
  }

  /** A longer trunk that some flight has published stands behind the longest root
      that has published itself. */
  ghost predicate TrunkHidden(k: Desk, cs: seq<Candidate>) {
    exists o, l :: Longest(cs, LeasedRoots(k), o) && l in cs && l.digest in LeasedKeys(k) && o.span < l.span
  }

  /** When the lease found is the longest one published: exactly when no longer
      trunk is hidden behind a root. */
  lemma LongestLeaseExactly(k: Desk, cs: seq<Candidate>) returns (c: Candidate)
    requires Ordered(k) && OrderOk(k) && Ascend(cs) && LeaseFor(k, cs).Some?
    ensures LeaseOf(k, LeaseFor(k, cs).value, c) && c in cs
    ensures Longest(cs, LeasedKeys(k), c) <==> !TrunkHidden(k, cs)
  {
    c := LeaseForExactly(k, cs);
    RootsAreKeys(k);
    hide LeaseFor, OrderOk, Ordered, LeasedKeys, LeasedRoots, LeaseOf;
    if o :| Longest(cs, LeasedRoots(k), o) {
      SelectedExactly(cs, LeasedRoots(k));
      hide Ascend, Selected;
      assert o == c;
    }
  }

  /** The search does not promise the longest lease: a flight that published its
      own short root is preferred to one that published a longer trunk. */
  lemma ShorterLeasePreferred()
    ensures var short, long := Candidate(4, 1), Candidate(6, 2);
            var root := Flight(1, 4, 10, {}, {}, true, true, false, [], None, Some(Lease(1, 4, 0, 9)));
            var other := Flight(3, 8, 11, {}, {}, true, true, false, [], Some(long), Some(Lease(2, 6, 1, 9)));
            var k := Empty(4, 9).(flights := map[1 := root, 3 := other], order := [1, 3]);
            && Ordered(k) && long.digest in LeasedKeys(k) && LeaseFor(k, [short, long]) == Some(short.digest)
  {
    var short, long := Candidate(4, 1), Candidate(6, 2);
    var root := Flight(1, 4, 10, {}, {}, true, true, false, [], None, Some(Lease(1, 4, 0, 9)));
    var other := Flight(3, 8, 11, {}, {}, true, true, false, [], Some(long), Some(Lease(2, 6, 1, 9)));
    var k := Empty(4, 9).(flights := map[1 := root, 3 := other], order := [1, 3]);
    assert 3 in k.flights && k.flights[3].lease.value.digest == 2;
    assert [short, long][..1] == [short];
    assert OwnLease(k, [short]) == Some(1);
  }

  /** The follower's flight has published the key the follower waits for. */
  predicate LeasedUnder(k: Desk, b: Binding) {
    b.flight in k.flights && k.flights[b.flight].lease.Some? && k.flights[b.flight].lease.value.digest == b.lease
  }

  /** What attaching comes to. A follower gets its own flight's lease once that is
      published under its key; anybody else follows the flight of the lease it
      finds, unless it leads that flight or the flight is full. */
  lemma AttachExactly(k: Desk, r: Request, cs: seq<Candidate>)
    requires Ordered(k) && OrderOk(k) && Ascend(cs)
    ensures var (j, lease) := Attach(k, r, cs);
            if r in k.followers then
              var b := k.followers[r];
              j == k && lease == if LeasedUnder(k, b) then Some(Candidate(b.span, b.lease)) else None
            else
              var d := LeaseFor(k, cs);
              && (lease.Some? <==>
                    && d.Some? && d.value in k.flights && k.flights[d.value].leader != r
                    && |k.flights[d.value].followers| < MAX_FOLLOWERS)
              && (lease.None? ==> j == k)
              && (lease.Some? ==>
                    && k.flights[d.value].lease.Some?
                    && var l := k.flights[d.value].lease.value;
                       lease.value == Candidate(l.span, l.digest)
                       && Followed(k, j, r, d.value, Binding(d.value, l.digest, l.span)))
  {
    var c := LeaseForExactly(k, cs);
    hide LeaseFor, Ascend, OrderOk, Ordered, LeasedKeys, LeasedRoots, Longest;
    var found := LeaseFor(k, cs);
    if r !in k.followers && found.Some? {
      var l := k.flights[found.value].lease.value;
      RootJoined(k, r, Candidate(l.span, found.value), Binding(found.value, l.digest, l.span));
    }
    hide Followed;
  }
}
