// Each scheduler callback keeps the restore-flight invariant.
module RestoreCallbacks {
  import opened Common
  import opened RestoreModel
  import opened RestoreInvariant

  // ---- looking up ----

  lemma LeadLinked(k: Desk, r: Request, c: Candidate, prefixes: seq<Candidate>)
    requires Linked(k) && c.digest !in k.flights
    ensures Linked(Lead(k, r, c, prefixes))
  {
    var j := Lead(k, r, c, prefixes);
    forall e | e in j.flights
      ensures FlightOk(j, e)
    {
      if e != c.digest {
        assert FlightOk(k, e);
      }
    }
    forall q | q in j.followers
      ensures BindingOk(j, q)
    {
      assert BindingOk(k, q);
    }
  }

  lemma LeadLed(k: Desk, r: Request, c: Candidate, prefixes: seq<Candidate>, fin: set<Request>)
    requires Led(k, fin) && c.digest !in k.flights && r !in k.leaders && r !in fin
    ensures Led(Lead(k, r, c, prefixes), fin)
  {
    var j := Lead(k, r, c, prefixes);
    forall q | q in j.leaders
      ensures LeaderOk(j, q)
    {
      if q != r {
        assert LeaderOk(k, q);
      }
    }
    forall e | e in j.flights
      ensures LedOk(j, fin, e)
    {
      if e != c.digest {
        assert LedOk(k, fin, e);
      }
    }
    forall e | e in k.flights
      ensures k.flights[e].leader != r
    {
      assert LedOk(k, fin, e);
    }
  }

  lemma LeadCounted(k: Desk, r: Request, c: Candidate, prefixes: seq<Candidate>)
    requires Counted(k) && c.digest !in k.flights
    requires |Unpublished(k.flights)| < k.maxPending && (r in k.needLoad || |k.needLoad| < k.maxPending)
    ensures Counted(Lead(k, r, c, prefixes))
  {
    var j := Lead(k, r, c, prefixes);
    assert Unpublished(j.flights) == Unpublished(k.flights) + {c.digest};
    assert Published(j.flights) == Published(k.flights);
    assert j.needLoad.Keys == k.needLoad.Keys + {r};
    assert |j.needLoad| == |j.needLoad.Keys| && |k.needLoad| == |k.needLoad.Keys|;
  }

  /** Following the chosen root's own flight. */
  lemma FollowRootSound(k: Desk, r: Request, c: Candidate, fin: set<Request>)
    requires Sound(k, fin) && r !in k.followers && c.digest in k.flights
    requires |k.flights[c.digest].followers| < MAX_FOLLOWERS
    ensures var f := k.flights[c.digest];
            var span := if f.segment.Some? && f.segment.value.span > 0 then f.segment.value.span else c.span;
            var key := if f.segment.Some? then f.segment.value.digest else c.digest;
            Sound(AddFollower(k, c.digest, r, Binding(c.digest, key, span)), fin)
  {
    var f := k.flights[c.digest];
    assert FlightOk(k, c.digest);
    var span := if f.segment.Some? && f.segment.value.span > 0 then f.segment.value.span else c.span;
    hide Sound, AddFollower;
    AddFollowerSound(k, c.digest, r, Binding(c.digest, KeyOf(f), span), fin);
  }

  lemma ChooseSound(k: Desk, r: Request, q: Lookup, fin: set<Request>)
    requires Sound(k, fin) && Ordered(k) && r !in k.followers && r !in k.leaders && r !in fin
    ensures Sound(Choose(k, r, q).0, fin)
  {
    hide Sound, Ordered, AddFollower, JoinSegment, Lead, Unpublished, Shareable, Selected;
    var selected := Selected(q.candidates, q.quorum);
    if q.computed == 0 && selected.Some? {
      var c := selected.value;
      if c.digest in k.flights {
        if |k.flights[c.digest].followers| < MAX_FOLLOWERS {
          FollowRootSound(k, r, c, fin);
        }
      } else {
        JoinSegmentSound(k, r, q.candidates, c.digest, q.rows, fin);
        LeadSound(k, r, q, c, fin);
      }
    }
  }

  lemma LeadSound(k: Desk, r: Request, q: Lookup, c: Candidate, fin: set<Request>)
    requires Sound(k, fin) && r !in k.leaders && r !in fin && c.digest !in k.flights
    ensures |Unpublished(k.flights)| < k.maxPending && (r in k.needLoad || |k.needLoad| < k.maxPending) ==>
              Sound(Lead(k, r, c, Shareable(q.candidates, q.quorum, c.span)), fin)
  {
    if |Unpublished(k.flights)| < k.maxPending && (r in k.needLoad || |k.needLoad| < k.maxPending) {
      LeadLinked(k, r, c, Shareable(q.candidates, q.quorum, c.span));
      LeadLed(k, r, c, Shareable(q.candidates, q.quorum, c.span), fin);
      LeadCounted(k, r, c, Shareable(q.candidates, q.quorum, c.span));
    }
  }

  lemma ForgetLoadSound(k: Desk, r: Request, fin: set<Request>)
    requires Sound(k, fin)
    ensures Sound(k.(needLoad := k.needLoad - {r}), fin)
  {
    var j := k.(needLoad := k.needLoad - {r});
    SameFlights(k, j, fin);
    assert |j.needLoad| == |j.needLoad.Keys| && |k.needLoad| == |k.needLoad.Keys|;
    Fewer(j.needLoad.Keys, k.needLoad.Keys);
  }

  /** The invariant looks at nothing but flights, leaders, bindings and counts. */
  lemma SameFlights(k: Desk, j: Desk, fin: set<Request>)
    requires j.flights == k.flights && j.order == k.order && j.leaders == k.leaders && j.followers == k.followers
    ensures Linked(k) ==> Linked(j)
    ensures Led(k, fin) ==> Led(j, fin)
  {
    if Linked(k) {
      forall e | e in j.flights
        ensures FlightOk(j, e)
      {
        assert FlightOk(k, e);
      }
      forall q | q in j.followers
        ensures BindingOk(j, q)
      {
        assert BindingOk(k, q);
      }
    }
    if Led(k, fin) {
      forall q | q in j.leaders
        ensures LeaderOk(j, q)
      {
        assert LeaderOk(k, q);
      }
      forall e | e in j.flights
        ensures LedOk(j, fin, e)
      {
        assert LedOk(k, fin, e);
      }
    }
  }

  lemma SoundOrdered(k: Desk, fin: set<Request>)
    requires Sound(k, fin)
    ensures Ordered(k)
  {
  }

  lemma GiveUpSound(k: Desk, r: Request, fin: set<Request>)
    requires Sound(k, fin) && r in k.leaders
    ensures k.leaders[r] in k.flights && k.flights[k.leaders[r]].leader == r
    ensures var left := Retire(k.(needLoad := k.needLoad - {r}), k.leaders[r]);
            Sound(left, fin) && Ordered(left) && r !in left.leaders && left.followers.Keys <= k.followers.Keys
  {
    assert LeaderOk(k, r);
    var cleared := k.(needLoad := k.needLoad - {r});
    ForgetLoadSound(k, r, fin);
    RetireSound(cleared, k.leaders[r], fin);
    SoundOrdered(Retire(cleared, k.leaders[r]), fin);
    hide Sound;
  }

  lemma LeadOrChooseSound(k: Desk, r: Request, q: Lookup, fin: set<Request>)
    requires Sound(k, fin) && Ordered(k) && r !in k.followers && r !in fin
    ensures Sound(LeadOrChoose(k, r, q).0, fin)
  {
    hide Sound, Choose, Retire, Ordered;
    if r in k.leaders {
      GiveUpSound(k, r, fin);
      RetireSound(k, k.leaders[r], fin);
      ChooseSound(Retire(k.(needLoad := k.needLoad - {r}), k.leaders[r]), r, q, fin);
    } else {
      ChooseSound(k, r, q, fin);
    }
  }

  lemma MatchSound(k: Desk, r: Request, q: Lookup, fin: set<Request>)
    requires Sound(k, fin) && Ordered(k) && r !in fin
    ensures Sound(Match(k, r, q).0, fin)
  {
    hide Sound, LeadOrChoose, Ordered;
    if r !in k.followers {
      LeadOrChooseSound(k, r, q, fin);
    } else {
      var left := RemoveFollower(k, r);
      RemoveFollowerSound(k, r, fin);
      SoundOrdered(left, fin);
      LeadOrChooseSound(left, r, q, fin);
    }
  }

  // ---- leases ----

  lemma {:induction false} RetireAllIs(k: Desk, ds: seq<Digest>)
    ensures forall d :: d in RetireAll(k, ds).flights <==> d in k.flights && d !in ds
    ensures forall d :: d in RetireAll(k, ds).flights ==> RetireAll(k, ds).flights[d] == k.flights[d]
  {
    if ds != [] {
      RetireAllIs(k, ds[..|ds| - 1]);
      assert forall d :: d in ds <==> d in ds[..|ds| - 1] || d == ds[|ds| - 1];
    }
  }

  lemma {:induction false} PublishedInIs(k: Desk, n: nat)
    requires n <= |k.order| && Ordered(k)
    ensures forall d :: d in PublishedIn(k, n) <==> d in k.order[..n] && k.flights[d].lease.Some?
  {
    if n > 0 {
      PublishedInIs(k, n - 1);
      assert k.order[..n] == k.order[..n - 1] + [k.order[n - 1]];
    }
  }

  lemma {:induction false} InsertIs(k: Desk, sorted: seq<Digest>, d: Digest)
    requires forall i, j :: 0 <= i < j < |sorted| ==> TimeOf(k, sorted[i]) <= TimeOf(k, sorted[j])
    ensures var r := Insert(k, sorted, d);
            && |r| == |sorted| + 1 && (forall e :: e in r <==> e in sorted || e == d)
            && forall i, j :: 0 <= i < j < |r| ==> TimeOf(k, r[i]) <= TimeOf(k, r[j])
  {
    if sorted != [] && TimeOf(k, d) < TimeOf(k, sorted[|sorted| - 1]) {
      var front, last := sorted[..|sorted| - 1], sorted[|sorted| - 1];
      InsertIs(k, front, d);
      var r := Insert(k, front, d);
      assert forall e :: e in sorted <==> e in front || e == last;
      assert forall i :: 0 <= i < |r| ==> r[i] in r;
      assert forall i :: 0 <= i < |front| ==> front[i] in front && TimeOf(k, front[i]) <= TimeOf(k, last);
      hide TimeOf;
    }
  }

  lemma {:induction false} SortIs(k: Desk, ds: seq<Digest>)
    ensures var r := SortByTime(k, ds);
            && |r| == |ds| && (forall e :: e in r <==> e in ds)
            && forall i, j :: 0 <= i < j < |r| ==> TimeOf(k, r[i]) <= TimeOf(k, r[j])
  {
    if ds != [] {
      SortIs(k, ds[..|ds| - 1]);
      InsertIs(k, SortByTime(k, ds[..|ds| - 1]), ds[|ds| - 1]);
      assert forall e :: e in ds <==> e in ds[..|ds| - 1] || e == ds[|ds| - 1];
    }
  }

  lemma {:induction false} SizeOfList(s: set<Digest>, list: seq<Digest>)
    requires forall d :: d in s ==> d in list
    ensures |s| <= |list|
  {
    if list == [] {
      assert s == {};
    } else {
      var last := list[|list| - 1];
      SizeOfList(s - {last}, list[..|list| - 1]);
      if last in s {
        assert s == (s - {last}) + {last};
      } else {
        assert s - {last} == s;
      }
    }
  }

  /** The published flights by age, and where the stale ones end. */
  lemma StaleIs(k: Desk) returns (sorted: seq<Digest>, n: nat)
    requires Ordered(k) && OrderOk(k)
    ensures n <= |sorted| <= n + MAX_LEASES && Stale(k) == sorted[..n]
    ensures forall d :: d in sorted <==> d in k.flights && k.flights[d].lease.Some?
    ensures forall i, j :: 0 <= i < j < |sorted| ==> TimeOf(k, sorted[i]) <= TimeOf(k, sorted[j])
  {
    var listed := PublishedIn(k, |k.order|);
    sorted := SortByTime(k, listed);
    PublishedInIs(k, |k.order|);
    assert k.order[..|k.order|] == k.order;
    SortIs(k, listed);
    n := if |sorted| <= MAX_LEASES then 0 else |sorted| - MAX_LEASES;
    assert Stale(k) == sorted[..n];
    hide SortByTime, PublishedIn, TimeOf, Stale;
  }

  lemma InOnePart(sorted: seq<Digest>, n: nat, d: Digest)
    requires n <= |sorted| && d in sorted
    ensures d in sorted[..n] || d in sorted[n..]
  {
    assert sorted == sorted[..n] + sorted[n..];
  }

  /** Retiring the stale leases leaves at most two. */
  lemma StaleLeavesTwo(k: Desk)
    requires Ordered(k) && OrderOk(k)
    ensures |Published(RetireAll(k, Stale(k)).flights)| <= MAX_LEASES
  {
    var stale := Stale(k);
    var sorted, n := StaleIs(k);
    RetireAllIs(k, stale);
    hide RetireAll, Stale, TimeOf, OrderOk, Ordered;
    var left := Published(RetireAll(k, stale).flights);
    forall d | d in left
      ensures d in sorted[n..]
    {
      InOnePart(sorted, n, d);
    }
    SizeOfList(left, sorted[n..]);
  }

  /** No lease is evicted before an older one. */
  lemma StaleAreOldest(k: Desk, e: Digest, d: Digest)
    requires Ordered(k) && OrderOk(k) && e in Stale(k)
    requires d in k.flights && d !in Stale(k) && k.flights[d].lease.Some?
    ensures e in k.flights && k.flights[e].lease.Some?
    ensures k.flights[e].lease.value.publishedAt <= k.flights[d].lease.value.publishedAt
  {
    var sorted, n := StaleIs(k);
    InOnePart(sorted, n, d);
    hide Stale, OrderOk, Ordered;
    var i :| 0 <= i < n && sorted[i] == e;
    var j :| 0 <= j < |sorted[n..]| && sorted[n..][j] == d;
    assert sorted[n + j] == d && e in sorted;
  }

  /** The flight as it is once its lease is acknowledged. */
  function Leased(k: Desk, d: Digest, lease: Lease): Desk
    requires d in k.flights
  {
    k.(flights := k.flights[d := k.flights[d].(lease := Some(lease))])
  }

  lemma LeasedLinked(k: Desk, d: Digest, lease: Lease)
    requires Linked(k) && d in k.flights && k.flights[d].workersFinished
    requires lease.digest == LeaseCandidate(k.flights[d]).digest
    ensures Linked(Leased(k, d, lease))
  {
    var j := Leased(k, d, lease);
    assert FlightOk(k, d);
    forall e | e in j.flights
      ensures FlightOk(j, e)
    {
      assert FlightOk(k, e);
    }
    forall q | q in j.followers
      ensures BindingOk(j, q)
    {
      assert BindingOk(k, q);
    }
  }

  lemma LeasedLed(k: Desk, d: Digest, lease: Lease, fin: set<Request>)
    requires Led(k, fin) && d in k.flights
    ensures Led(Leased(k, d, lease), fin)
  {
    var j := Leased(k, d, lease);
    forall q | q in j.leaders
      ensures LeaderOk(j, q)
    {
      assert LeaderOk(k, q);
    }
    forall e | e in j.flights
      ensures LedOk(j, fin, e)
    {
      assert LedOk(k, fin, e);
    }
  }

  lemma {:induction false} RetireAllParts(k: Desk, ds: seq<Digest>, fin: set<Request>)
    requires Linked(k) && Led(k, fin) && |Unpublished(k.flights)| <= k.maxPending && |k.needLoad| <= k.maxPending
    ensures var j := RetireAll(k, ds);
            && Linked(j) && Led(j, fin) && |Unpublished(j.flights)| <= j.maxPending && |j.needLoad| <= j.maxPending
  {
    if ds != [] {
      var before := RetireAll(k, ds[..|ds| - 1]);
      RetireAllParts(k, ds[..|ds| - 1], fin);
      hide Linked, Led, Retire;
      RetireLinked(before, ds[|ds| - 1]);
      RetireLed(before, ds[|ds| - 1], fin);
      RetireCounted(before, ds[|ds| - 1]);
    }
  }

  lemma LeasedSound(k: Desk, d: Digest, lease: Lease, fin: set<Request>)
    requires Sound(k, fin) && d in k.flights && k.flights[d].workersFinished
    requires lease.digest == LeaseCandidate(k.flights[d]).digest
    ensures var leased := Leased(k, d, lease);
            && Linked(leased) && Led(leased, fin) && |leased.needLoad| <= leased.maxPending && Ordered(leased)
            && OrderOk(leased) && |Unpublished(leased.flights)| <= leased.maxPending
  {
    var leased := Leased(k, d, lease);
    LeasedLinked(k, d, lease);
    LeasedLed(k, d, lease, fin);
    Fewer(Unpublished(leased.flights), Unpublished(k.flights));
    LinkedOrdered(leased);
    hide Led;
    assert OrderOk(leased);
  }

  lemma PublishSound(k: Desk, r: Request, key: Digest, now: int, fin: set<Request>)
    requires Sound(k, fin) && Ordered(k)
    ensures Sound(Publish(k, r, key, now).0, fin)
  {
    hide Linked, Led, OrderOk, Stale, RetireAll, Ordered, Unpublished, Published;
    if r in k.leaders && k.leaders[r] in k.flights {
      var d := k.leaders[r];
      var f := k.flights[d];
      if f.workersFinished && LeaseCandidate(f).digest == key {
        var lease := Lease(key, LeaseCandidate(f).span, now, now + k.ttl);
        var leased := Leased(k, d, lease);
        LeasedSound(k, d, lease, fin);
        RetireAllParts(leased, Stale(leased), fin);
        StaleLeavesTwo(leased);
        assert Publish(k, r, key, now).0 == RetireAll(leased, Stale(leased));
        RetireAllSizes(leased, Stale(leased));
      }
    }
  }

  lemma {:induction false} RetireAllSizes(k: Desk, ds: seq<Digest>)
    ensures RetireAll(k, ds).maxPending == k.maxPending && RetireAll(k, ds).ttl == k.ttl
  {
    if ds != [] {
      RetireAllSizes(k, ds[..|ds| - 1]);
    }
  }

  lemma ExpireSound(k: Desk, now: int, fin: set<Request>)
    requires Sound(k, fin) && Ordered(k)
    ensures Sound(Expire(k, now), fin)
  {
    hide Sound;
    RetireAllSound(k, Expired(k, now, |k.order|), fin);
  }

  lemma AttachSound(k: Desk, r: Request, cs: seq<Candidate>, fin: set<Request>)
    requires Sound(k, fin) && Ordered(k)
    ensures Sound(Attach(k, r, cs).0, fin)
  {
    if r !in k.followers {
      var found := LeaseFor(k, cs);
      if found.Some? && found.value in k.flights && k.flights[found.value].lease.Some?
         && r != k.flights[found.value].leader && |k.flights[found.value].followers| < MAX_FOLLOWERS {
        var d := found.value;
        var lease := k.flights[d].lease.value;
        hide Linked, Led, Counted, LeaseFor;
        AddFollowerSound(k, d, r, Binding(d, lease.digest, lease.span), fin);
      }
    }
  }

  // ---- the other callbacks ----

  lemma RejectScopeSound(k: Desk, r: Request, fin: set<Request>)
    requires Sound(k, fin)
    ensures Sound(RejectScope(k, r), fin)
  {
    hide Sound, RemoveFollower, Retire;
    var left := RemoveFollower(k, r);
    RemoveFollowerSound(k, r, fin);
    if r in left.leaders {
      RetireSound(left, left.leaders[r], fin);
    }
  }

  lemma RejectLeaseSound(k: Desk, r: Request, key: Digest, fin: set<Request>)
    requires Sound(k, fin)
    ensures Sound(RejectLease(k, r, key), fin)
  {
    hide Sound, RemoveFollower, Retire;
    RemoveFollowerSound(k, r, fin);
    var left := if r in k.followers && k.followers[r].lease == key then RemoveFollower(k, r) else k;
    if r in left.leaders {
      RetireSound(left, left.leaders[r], fin);
    }
  }

  lemma AllocatedSound(k: Desk, r: Request, external: int, blocks: set<Block>, fin: set<Request>)
    requires Sound(k, fin)
    ensures Sound(Allocated(k, r, external, blocks), fin)
  {
    if r in k.needLoad {
      var left := k.(needLoad := k.needLoad - {r});
      ForgetLoadSound(k, r, fin);
      RetireSound(left, k.needLoad[r].digest, fin);
      var loaded := left.(pending := k.pending[r := (k.needLoad[r].digest, blocks)]);
      SameFlights(left, loaded, fin);
    }
  }

  lemma DispatchOneSound(k: Desk, r: Request, fin: set<Request>)
    requires Sound(k, fin) && r in k.pending
    ensures Sound(DispatchOne(k, r), fin)
  {
    var (d, blocks) := k.pending[r];
    var admitted := k.(admitted := k.admitted[r := (d, blocks)], pending := k.pending - {r});
    SameFlights(k, admitted, fin);
    if d in k.flights && k.flights[d].leader == r {
      var g := k.flights[d].(blocks := blocks, dispatched := true);
      ReflagLinked(admitted, d, g);
      hide Linked, Led, Counted;
      ReplaceLed(admitted, DispatchOne(k, r), d, g, fin);
      ReplaceCounted(k, DispatchOne(k, r), d, g);
    }
  }

  /** A flight whose membership and keys stay as they are. */
  lemma ReflagLinked(k: Desk, d: Digest, g: Flight)
    requires Linked(k) && d in k.flights
    requires g.digest == k.flights[d].digest && g.followers == k.flights[d].followers && g.span == k.flights[d].span
    requires g.segment == k.flights[d].segment && g.lease == k.flights[d].lease
    requires (g.workersFinished ==> g.dispatched) && (k.flights[d].workersFinished ==> g.workersFinished)
    ensures Linked(k.(flights := k.flights[d := g]))
  {
    var j := k.(flights := k.flights[d := g]);
    forall e | e in j.flights
      ensures FlightOk(j, e)
    {
      assert FlightOk(k, e);
    }
    forall q | q in j.followers
      ensures BindingOk(j, q)
    {
      assert BindingOk(k, q);
    }
  }

  lemma {:induction false} DispatchSound(k: Desk, rs: seq<Request>, fin: set<Request>)
    requires Sound(k, fin)
    ensures Sound(Dispatch(k, rs), fin)
  {
    if rs != [] {
      var before := Dispatch(k, rs[..|rs| - 1]);
      DispatchSound(k, rs[..|rs| - 1], fin);
      hide Sound, DispatchOne;
      if rs[|rs| - 1] in before.pending {
        DispatchOneSound(before, rs[|rs| - 1], fin);
      }
    }
  }

  lemma MoreFinished(k: Desk, fin: set<Request>, r: Request)
    requires Led(k, fin)
    ensures Led(k, fin + {r})
  {
    forall e | e in k.flights
      ensures LedOk(k, fin + {r}, e)
    {
      assert LedOk(k, fin, e);
    }
  }

  /** Mark a flight's leader finished; `drop` also forgets who it was. */
  function Orphaned(k: Desk, r: Request, d: Digest, drop: bool): Desk
    requires d in k.flights
  {
    k.(leaders := if drop then k.leaders - {r} else k.leaders,
       flights := k.flights[d := k.flights[d].(leaderFinished := true)])
  }

  lemma OrphanedLinked(k: Desk, r: Request, d: Digest, drop: bool)
    requires Linked(k) && d in k.flights
    ensures Linked(Orphaned(k, r, d, drop))
  {
    var g := k.flights[d].(leaderFinished := true);
    assert FlightOk(k, d);
    hide Linked;
    ReflagLinked(k, d, g);
    LinkedLeaders(k.(flights := k.flights[d := g]), Orphaned(k, r, d, drop));
  }

  lemma OrphanedLed(k: Desk, r: Request, d: Digest, drop: bool, fin: set<Request>)
    requires Led(k, fin) && r in k.leaders && k.leaders[r] == d && r in fin && d in k.flights
    requires drop ==> k.flights[d].lease.Some?
    ensures Led(Orphaned(k, r, d, drop), fin)
  {
    var j := Orphaned(k, r, d, drop);
    assert LeaderOk(k, r);
    forall q | q in j.leaders
      ensures LeaderOk(j, q)
    {
      assert LeaderOk(k, q);
    }
    forall e | e in j.flights
      ensures LedOk(j, fin, e)
    {
      assert LedOk(k, fin, e);
    }
  }

  lemma OrphanedSound(k: Desk, r: Request, d: Digest, drop: bool, fin: set<Request>)
    requires Sound(k, fin) && r in k.leaders && k.leaders[r] == d && r in fin && d in k.flights
    requires drop ==> k.flights[d].lease.Some?
    ensures Sound(Orphaned(k, r, d, drop), fin)
  {
    OrphanedLinked(k, r, d, drop);
    OrphanedLed(k, r, d, drop, fin);
    hide Linked, Led, Counted;
    ReplaceCounted(k, Orphaned(k, r, d, drop), d, k.flights[d].(leaderFinished := true));
  }

  lemma LinkedLeaders(k: Desk, j: Desk)
    requires Linked(k) && j == k.(leaders := j.leaders)
    ensures Linked(j)
  {
    forall e | e in j.flights
      ensures FlightOk(j, e)
    {
      assert FlightOk(k, e);
    }
    forall q | q in j.followers
      ensures BindingOk(j, q)
    {
      assert BindingOk(k, q);
    }
  }

  /** What finishing makes of the flight that the request leads. */
  function Settled(left: Desk, r: Request): Desk {
    if r !in left.leaders || left.leaders[r] !in left.flights then left
    else
      var d := left.leaders[r];
      var f := left.flights[d];
      if f.dispatched && f.lease.Some? then Orphaned(left, r, d, true)
      else if f.dispatched && !f.workersFinished then Orphaned(left, r, d, false)
      else Retire(left, d)
  }

  lemma SettledSound(k: Desk, r: Request, fin: set<Request>)
    requires Sound(k, fin) && r in fin
    ensures Sound(Settled(k, r), fin)
  {
    hide Sound, Orphaned, Retire;
    if r in k.leaders && k.leaders[r] in k.flights {
      var d := k.leaders[r];
      RetireSound(k, d, fin);
      OrphanedSound(k, r, d, k.flights[d].lease.Some?, fin);
    }
  }

  /** What becomes of the flight a finished request leads: retired if it never
      ran or ran for nobody, published if it has a lease, draining otherwise. */
  ghost predicate FinishedFate(f: Flight, d: Digest, r: Request, j: Desk) {
    if !f.dispatched || (f.workersFinished && f.lease.None?) then d !in j.flights && r !in j.leaders
    else
      && d in j.flights && j.flights[d].leaderFinished && j.flights[d].lease == f.lease
      && (if f.lease.Some? then r !in j.leaders else r in j.leaders && j.leaders[r] == d)
  }

  lemma FinishedSound(k: Desk, r: Request, normal: bool, fin: set<Request>)
    requires Sound(k, fin)
    ensures Sound(Finished(k, r, normal), fin + {r})
    ensures r in k.leaders ==>
              k.leaders[r] in k.flights
              && FinishedFate(k.flights[k.leaders[r]], k.leaders[r], r, Finished(k, r, normal))
    ensures var j := Finished(k, r, normal);
            r !in j.followers && r !in j.needLoad && r !in j.pending && r !in j.admitted
  {
    if r in k.leaders {
      assert LeaderOk(k, r);
    }
    FinishedEnds(k, r, normal);
    var all := fin + {r};
    MoreFinished(k, fin, r);
    FinishedIs(k, r, normal);
    hide Linked, Led, Counted, RemoveFollower, Retire, Finished, Settled, FinishedFate;
    RemoveFollowerSound(k, r, all);
    var led := Settled(RemoveFollower(k, r), r);
    SettledSound(RemoveFollower(k, r), r, all);
    ForgottenSound(led, r, all);
  }

  lemma FinishedEnds(k: Desk, r: Request, normal: bool)
    requires r in k.leaders && k.leaders[r] in k.flights ==> k.flights[k.leaders[r]].leader == r
    ensures r in k.leaders && k.leaders[r] in k.flights ==>
              FinishedFate(k.flights[k.leaders[r]], k.leaders[r], r, Finished(k, r, normal))
    ensures var j := Finished(k, r, normal);
            r !in j.followers && r !in j.needLoad && r !in j.pending && r !in j.admitted
  {
    hide RemoveFollower, Remove;
    LeaverKeepsFlight(k, r, if r in k.leaders then k.leaders[r] else 0);
  }

  /** A follower that leaves changes no flight's progress. */
  lemma LeaverIs(k: Desk, r: Request) returns (h: Flight)
    requires r in k.followers && k.followers[r].flight in k.flights
    ensures var d := k.followers[r].flight;
            && h == k.flights[d].(followers := h.followers, segment := h.segment)
            && RemoveFollower(k, r) == k.(followers := k.followers - {r}, flights := k.flights[d := h])
  {
    hide StillNeeded;
    h := RemoveFollower(k, r).flights[k.followers[r].flight];
  }

  lemma LeaverKeepsFlight(k: Desk, r: Request, d: Digest)
    ensures var left := RemoveFollower(k, r);
            && r !in left.followers && left.leaders == k.leaders && (d in left.flights <==> d in k.flights)
            && (d in k.flights ==>
                  && left.flights[d].leader == k.flights[d].leader && left.flights[d].lease == k.flights[d].lease
                  && left.flights[d].dispatched == k.flights[d].dispatched
                  && left.flights[d].workersFinished == k.flights[d].workersFinished)
  {
    if r in k.followers && k.followers[r].flight in k.flights {
      var h := LeaverIs(k, r);
      hide RemoveFollower;
    }
  }

  lemma FinishedIs(k: Desk, r: Request, normal: bool)
    ensures var led := Settled(RemoveFollower(k, r), r);
            Finished(k, r, normal)
            == led.(needLoad := led.needLoad - {r}, pending := led.pending - {r}, admitted := led.admitted - {r})
  {
    hide RemoveFollower, Retire;
  }

  lemma ForgottenSound(k: Desk, r: Request, fin: set<Request>)
    requires Sound(k, fin)
    ensures Sound(k.(needLoad := k.needLoad - {r}, pending := k.pending - {r}, admitted := k.admitted - {r}), fin)
  {
    ForgetLoadSound(k, r, fin);
    var j := k.(needLoad := k.needLoad - {r});
    SameFlights(j, j.(pending := k.pending - {r}, admitted := k.admitted - {r}), fin);
  }

  lemma {:induction false} FailAdmittedSound(k: Desk, rs: seq<Request>, invalid: set<Block>, fin: set<Request>)
    requires Sound(k, fin)
    ensures Sound(FailAdmitted(k, rs, invalid), fin)
  {
    if rs != [] {
      var before := FailAdmitted(k, rs[..|rs| - 1], invalid);
      var r := rs[|rs| - 1];
      FailAdmittedSound(k, rs[..|rs| - 1], invalid, fin);
      if r in before.admitted {
        var left := before.(admitted := before.admitted - {r});
        SameFlights(before, left, fin);
        assert Sound(left, fin);
        hide Sound, Retire;
        RetireSound(left, before.admitted[r].0, fin);
      }
    }
  }

  /** Worker completions name only requests whose plan went out: a leader that
      completes leads a dispatched flight. */
  ghost predicate Dispatched(k: Desk, received: seq<Request>) {
    forall r :: r in received && r in k.leaders && k.leaders[r] in k.flights ==> k.flights[k.leaders[r]].dispatched
  }

  lemma CompleteOneSound(k: Desk, r: Request, fin: set<Request>)
    requires Sound(k, fin)
    requires r in k.leaders && k.leaders[r] in k.flights ==>
               k.flights[k.leaders[r]].dispatched || k.flights[k.leaders[r]].leaderFinished
    ensures Sound(CompleteOne(k, r), fin)
  {
    if r in k.leaders && k.leaders[r] in k.flights {
      var d := k.leaders[r];
      if k.flights[d].leaderFinished {
        RetireSound(k, d, fin);
      } else {
        var g := k.flights[d].(workersFinished := true);
        ReflagLinked(k, d, g);
        hide Linked, Led, Counted;
        ReplaceLed(k, CompleteOne(k, r), d, g, fin);
        ReplaceCounted(k, CompleteOne(k, r), d, g);
      }
    }
  }

  /** A completion keeps the invariant exactly when it names a restore that was
      dispatched, or one whose leader has finished and that it only retires. */
  lemma CompletionExact(k: Desk, r: Request, fin: set<Request>)
    requires Sound(k, fin) && r in k.leaders
    ensures k.leaders[r] in k.flights
    ensures var f := k.flights[k.leaders[r]];
            Sound(CompleteOne(k, r), fin) <==> f.dispatched || f.leaderFinished
  {
    assert LeaderOk(k, r);
    var d := k.leaders[r];
    if k.flights[d].dispatched || k.flights[d].leaderFinished {
      CompleteOneSound(k, r, fin);
    } else {
      assert !FlightOk(CompleteOne(k, r), d);
      hide FlightOk;
    }
  }

  lemma CompleteOneKeeps(k: Desk, r: Request, received: seq<Request>)
    requires Dispatched(k, received)
    ensures Dispatched(CompleteOne(k, r), received)
  {
  }

  lemma {:induction false} CompleteSound(k: Desk, rs: seq<Request>, received: seq<Request>, fin: set<Request>)
    requires Sound(k, fin) && Dispatched(k, received) && forall r :: r in rs ==> r in received
    ensures Sound(Complete(k, rs), fin) && Dispatched(Complete(k, rs), received)
  {
    if rs != [] {
      var front, r := rs[..|rs| - 1], rs[|rs| - 1];
      assert r in rs && forall q :: q in front ==> q in rs;
      var before := Complete(k, front);
      CompleteSound(k, front, received, fin);
      assert r in before.leaders && before.leaders[r] in before.flights ==> before.flights[before.leaders[r]].dispatched;
      hide Sound, CompleteOne;
      CompleteOneSound(before, r, fin);
      CompleteOneKeeps(before, r, received);
    }
  }

  lemma {:induction false} FailKeepsDispatched(k: Desk, rs: seq<Request>, invalid: set<Block>, received: seq<Request>)
    requires Dispatched(k, received)
    ensures Dispatched(FailAdmitted(k, rs, invalid), received)
  {
    if rs != [] {
      FailKeepsDispatched(k, rs[..|rs| - 1], invalid, received);
    }
  }

  lemma {:induction false} RetireKeepsDispatched(k: Desk, ds: seq<Digest>, received: seq<Request>)
    requires Dispatched(k, received)
    ensures Dispatched(RetireAll(k, ds), received)
  {
    if ds != [] {
      RetireKeepsDispatched(k, ds[..|ds| - 1], received);
    }
  }

  lemma WorkerOutputSound(
    k: Desk, admitted: seq<Request>, invalid: set<Block>, received: seq<Request>, fin: set<Request>)
    requires Sound(k, fin) && Dispatched(k, received)
    ensures Sound(WorkerOutput(k, admitted, invalid, received), fin)
  {
    var failed := FailAdmitted(k, admitted, invalid);
    FailAdmittedSound(k, admitted, invalid, fin);
    FailKeepsDispatched(k, admitted, invalid, received);
    SoundOrdered(failed, fin);
    hide Sound, Dispatched, FailAdmitted, RetireAll, Complete, Damaged;
    RetireAllSound(failed, Damaged(failed, invalid, |failed.order|), fin);
    RetireKeepsDispatched(failed, Damaged(failed, invalid, |failed.order|), received);
    CompleteSound(RetireAll(failed, Damaged(failed, invalid, |failed.order|)), received, received, fin);
  }
}
