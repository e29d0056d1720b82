// What every restore-flight callback keeps.
module RestoreInvariant {
  import opened Common
  import opened RestoreModel

  predicate Distinct(order: seq<Digest>) {
    forall i, j :: 0 <= i < j < |order| ==> order[i] != order[j]
  }

  /** The order lists the stored flights, each once. */
  ghost predicate OrderOk(k: Desk) {
    Distinct(k.order) && forall d :: d in k.order <==> d in k.flights
  }

  /** A flight knows its followers, and only a restore that every worker has
      finished is published, under the key it would publish. */
  ghost predicate FlightOk(k: Desk, d: Digest)
    requires d in k.flights
  {
    var f := k.flights[d];
    && f.digest == d && |f.followers| <= MAX_FOLLOWERS
    && (forall r :: r in f.followers ==> r in k.followers && k.followers[r].flight == d)
    && (f.workersFinished ==> f.dispatched)
    && (f.lease.Some? ==> f.workersFinished && f.lease.value.digest == LeaseCandidate(f).digest)
  }

  /** A follower waits for the one key of a stored flight that lists it. */
  ghost predicate BindingOk(k: Desk, r: Request)
    requires r in k.followers
  {
    var b := k.followers[r];
    b.flight in k.flights && r in k.flights[b.flight].followers && b.lease == KeyOf(k.flights[b.flight])
  }

  ghost predicate Linked(k: Desk) {
    && OrderOk(k)
    && (forall d :: d in k.flights ==> FlightOk(k, d))
    && (forall r :: r in k.followers ==> BindingOk(k, r))
  }

  ghost predicate LeaderOk(k: Desk, r: Request)
    requires r in k.leaders
  {
    k.leaders[r] in k.flights && k.flights[k.leaders[r]].leader == r
  }

  /** A flight is led, or its finished leader left it a published lease. */
  ghost predicate LedOk(k: Desk, fin: set<Request>, d: Digest)
    requires d in k.flights
  {
    var f := k.flights[d];
    && ((f.leader in k.leaders && k.leaders[f.leader] == d) || (f.leaderFinished && f.lease.Some?))
    && (f.leaderFinished ==> f.leader in fin)
  }

  ghost predicate Led(k: Desk, fin: set<Request>) {
    && (forall r :: r in k.leaders ==> LeaderOk(k, r))
    && (forall d :: d in k.flights ==> LedOk(k, fin, d))
    && (forall d, e :: d in k.flights && e in k.flights && d != e ==> k.flights[d].leader != k.flights[e].leader)
  }

  ghost predicate Counted(k: Desk) {
    && |Unpublished(k.flights)| <= k.maxPending && |Published(k.flights)| <= MAX_LEASES
    && |k.needLoad| <= k.maxPending
  }

  ghost predicate Sound(k: Desk, fin: set<Request>) {
    Linked(k) && Led(k, fin) && Counted(k)
  }

  lemma LinkedOrdered(k: Desk)
    requires Linked(k)
    ensures Ordered(k)
  {
  }

  lemma Fewer<T>(a: set<T>, b: set<T>)
    requires a <= b
    ensures |a| <= |b|
  {
    if a != b {
      assert b == a + (b - a);
      assert a !! (b - a);
      assert |b| == |a| + |b - a|;
    }
  }

  // ---- leaving ----

  lemma {:induction false} RemoveIs(order: seq<Digest>, d: Digest)
    requires Distinct(order)
    ensures Distinct(Remove(order, d))
    ensures forall e :: e in Remove(order, d) <==> e in order && e != d
  {
    if order != [] {
      RemoveIs(order[1..], d);
      assert forall e :: e in order <==> e == order[0] || e in order[1..];
      var rest := Remove(order[1..], d);
      if order[0] != d {
        assert forall e :: e in [order[0]] + rest <==> e == order[0] || e in rest;
        assert order[0] !in order[1..];
        DistinctFirst(order[0], rest);
      }
    }
  }

  lemma DistinctFirst(d: Digest, rest: seq<Digest>)
    requires Distinct(rest) && d !in rest
    ensures Distinct([d] + rest)
  {
  }

  lemma RetireFlight(k: Desk, d: Digest, e: Digest)
    requires Linked(k) && d in k.flights && e in k.flights && d != e
    ensures FlightOk(Retire(k, d), e)
  {
    assert FlightOk(k, d) && FlightOk(k, e);
    hide Remove, Linked;
  }

  lemma RetireBinding(k: Desk, d: Digest, r: Request)
    requires Linked(k) && d in k.flights && r in Retire(k, d).followers
    ensures BindingOk(Retire(k, d), r)
  {
    assert BindingOk(k, r);
    hide Remove, Linked;
  }

  lemma RetireLinked(k: Desk, d: Digest)
    requires Linked(k)
    ensures Linked(Retire(k, d))
  {
    if d in k.flights {
      var j := Retire(k, d);
      RemoveIs(k.order, d);
      hide Remove, Distinct, FlightOk, BindingOk;
      forall e | e in j.flights
        ensures FlightOk(j, e)
      {
        RetireFlight(k, d, e);
      }
      forall r | r in j.followers
        ensures BindingOk(j, r)
      {
        RetireBinding(k, d, r);
      }
    }
  }

  lemma RetireLed(k: Desk, d: Digest, fin: set<Request>)
    requires Led(k, fin)
    ensures Led(Retire(k, d), fin)
  {
    if d in k.flights {
      var j := Retire(k, d);
      forall r | r in j.leaders
        ensures LeaderOk(j, r)
      {
        assert LeaderOk(k, r);
      }
      forall e | e in j.flights
        ensures LedOk(j, fin, e)
      {
        assert LedOk(k, fin, e);
      }
    }
  }

  lemma RetireCounted(k: Desk, d: Digest)
    requires |Unpublished(k.flights)| <= k.maxPending && |k.needLoad| <= k.maxPending
    ensures var j := Retire(k, d);
            |Unpublished(j.flights)| <= j.maxPending && |j.needLoad| <= j.maxPending
            && |Published(j.flights)| <= |Published(k.flights)|
  {
    var j := Retire(k, d);
    Fewer(Unpublished(j.flights), Unpublished(k.flights));
    Fewer(Published(j.flights), Published(k.flights));
  }

  lemma RetireSound(k: Desk, d: Digest, fin: set<Request>)
    requires Sound(k, fin)
    ensures Sound(Retire(k, d), fin)
  {
    RetireLinked(k, d);
    RetireLed(k, d, fin);
    RetireCounted(k, d);
  }

  lemma {:induction false} RetireAllSound(k: Desk, ds: seq<Digest>, fin: set<Request>)
    requires Sound(k, fin)
    ensures Sound(RetireAll(k, ds), fin)
  {
    if ds != [] {
      RetireAllSound(k, ds[..|ds| - 1], fin);
      hide Sound, Retire;
      RetireSound(RetireAll(k, ds[..|ds| - 1]), ds[|ds| - 1], fin);
    }
  }

  /** One flight is replaced by another under the same key and leader. */
  predicate SameLead(f: Flight, g: Flight) {
    f.leader == g.leader && f.leaderFinished == g.leaderFinished && (f.lease.Some? <==> g.lease.Some?)
  }

  lemma ReplaceLed(k: Desk, j: Desk, d: Digest, g: Flight, fin: set<Request>)
    requires Led(k, fin) && d in k.flights && SameLead(k.flights[d], g)
    requires j.flights == k.flights[d := g] && j.leaders == k.leaders
    ensures Led(j, fin)
  {
    forall r | r in j.leaders
      ensures LeaderOk(j, r)
    {
      assert LeaderOk(k, r);
    }
    forall e | e in j.flights
      ensures LedOk(j, fin, e)
    {
      assert LedOk(k, fin, e);
    }
  }

  lemma ReplaceCounted(k: Desk, j: Desk, d: Digest, g: Flight)
    requires Counted(k) && d in k.flights && (k.flights[d].lease.Some? <==> g.lease.Some?)
    requires j.flights == k.flights[d := g] && j.needLoad == k.needLoad && j.maxPending == k.maxPending
    ensures Counted(j)
  {
    assert Unpublished(j.flights) == Unpublished(k.flights);
    assert Published(j.flights) == Published(k.flights);
  }

  lemma RemoveFollowerLinked(k: Desk, r: Request)
    requires Linked(k)
    ensures Linked(RemoveFollower(k, r))
  {
    if r in k.followers {
      var j := RemoveFollower(k, r);
      var b := k.followers[r];
      assert BindingOk(k, r);
      assert FlightOk(k, b.flight);
      var f := k.flights[b.flight];
      Fewer(f.followers - {r}, f.followers);
      forall e | e in j.flights
        ensures FlightOk(j, e)
      {
        assert FlightOk(k, e);
      }
      forall q | q in j.followers
        ensures BindingOk(j, q)
      {
        assert BindingOk(k, q);
        if k.followers[q].flight == b.flight {
          assert q in (k.followers - {r}) && (k.followers - {r})[q].lease == b.lease;
        }
      }
    }
  }

  lemma RemoveFollowerSound(k: Desk, r: Request, fin: set<Request>)
    requires Sound(k, fin)
    ensures Sound(RemoveFollower(k, r), fin)
  {
    RemoveFollowerLinked(k, r);
    if r in k.followers {
      assert BindingOk(k, r);
      var d := k.followers[r].flight;
      var j := RemoveFollower(k, r);
      hide Linked, Led, Counted;
      ReplaceLed(k, j, d, j.flights[d], fin);
      ReplaceCounted(k, j, d, j.flights[d]);
    }
  }

  // ---- joining ----

  lemma AddFollowerFlight(k: Desk, d: Digest, r: Request, b: Binding, e: Digest)
    requires d in k.flights && r !in k.followers && |k.flights[d].followers| < MAX_FOLLOWERS && b.flight == d
    requires e in k.flights && FlightOk(k, e)
    ensures FlightOk(AddFollower(k, d, r, b), e)
  {
  }

  lemma AddFollowerBinding(k: Desk, d: Digest, r: Request, b: Binding, q: Request)
    requires d in k.flights && r !in k.followers && b.flight == d && b.lease == KeyOf(k.flights[d])
    requires q == r || (q in k.followers && BindingOk(k, q))
    ensures q in AddFollower(k, d, r, b).followers && BindingOk(AddFollower(k, d, r, b), q)
  {
  }

  lemma AddFollowerLinked(k: Desk, d: Digest, r: Request, b: Binding)
    requires Linked(k) && d in k.flights && r !in k.followers && |k.flights[d].followers| < MAX_FOLLOWERS
    requires b.flight == d && b.lease == KeyOf(k.flights[d])
    ensures Linked(AddFollower(k, d, r, b))
  {
    hide FlightOk, BindingOk, Distinct;
    var j := AddFollower(k, d, r, b);
    forall e | e in j.flights
      ensures FlightOk(j, e)
    {
      AddFollowerFlight(k, d, r, b, e);
    }
    forall q | q in j.followers
      ensures BindingOk(j, q)
    {
      AddFollowerBinding(k, d, r, b, q);
    }
  }

  lemma AddFollowerSound(k: Desk, d: Digest, r: Request, b: Binding, fin: set<Request>)
    requires Sound(k, fin) && d in k.flights && r !in k.followers && |k.flights[d].followers| < MAX_FOLLOWERS
    requires b.flight == d && b.lease == KeyOf(k.flights[d])
    ensures Sound(AddFollower(k, d, r, b), fin)
  {
    AddFollowerLinked(k, d, r, b);
    var j := AddFollower(k, d, r, b);
    hide Linked, Led, Counted;
    ReplaceLed(k, j, d, j.flights[d], fin);
    ReplaceCounted(k, j, d, j.flights[d]);
  }

  /** Followers that came for the whole root move to the common trunk together. */
  lemma ReboundLinked(k: Desk, d: Digest, p: Candidate)
    requires Linked(k) && d in k.flights && k.flights[d].segment.None? && !k.flights[d].dispatched
    ensures Linked(k.(flights := k.flights[d := k.flights[d].(segment := Some(p))],
                      followers := Rebound(k.followers, d, Binding(d, p.digest, p.span))))
  {
    var j := k.(flights := k.flights[d := k.flights[d].(segment := Some(p))],
                followers := Rebound(k.followers, d, Binding(d, p.digest, p.span)));
    forall e | e in j.flights
      ensures FlightOk(j, e)
    {
      assert FlightOk(k, e);
    }
    forall q | q in j.followers
      ensures BindingOk(j, q)
    {
      assert BindingOk(k, q) && FlightOk(k, d);
    }
  }

  lemma {:induction false} CommonPrefixIs(f: Flight, offers: map<Digest, nat>, n: nat)
    requires n <= |f.prefixes|
    ensures var p := CommonPrefix(f, offers, n);
            p.Some? ==> (f.segment.Some? ==> f.segment.value.digest == p.value.digest)
                        && p.value.digest in offers && offers[p.value.digest] == p.value.span && p.value in f.prefixes
  {
    if n > 0 {
      CommonPrefixIs(f, offers, n - 1);
    }
  }

  lemma {:induction false} BestSegmentIs(k: Desk, offers: map<Digest, nat>, selected: Digest, n: nat)
    requires n <= |k.order| && Ordered(k)
    ensures var best := BestSegment(k, offers, selected, n);
            best.Some? ==>
              var (d, p) := best.value;
              && d in k.flights && Joinable(k.flights[d], selected)
              && (k.flights[d].segment.Some? ==> k.flights[d].segment.value.digest == p.digest)
              && p in k.flights[d].prefixes && p.digest in offers && offers[p.digest] == p.span
  {
    if n > 0 {
      BestSegmentIs(k, offers, selected, n - 1);
      var f := k.flights[k.order[n - 1]];
      CommonPrefixIs(f, offers, |f.prefixes|);
    }
  }

  lemma JoinSegmentSound(k: Desk, r: Request, cs: seq<Candidate>, selected: Digest, rows: bool, fin: set<Request>)
    requires Sound(k, fin) && r !in k.followers && Ordered(k)
    ensures Sound(JoinSegment(k, r, cs, selected, rows).0, fin)
    ensures !JoinSegment(k, r, cs, selected, rows).1 ==> JoinSegment(k, r, cs, selected, rows).0 == k
  {
    hide Sound, BestSegment, Offers, JoinSegmentOf;
    var best := BestSegment(k, Offers(cs), selected, |k.order|);
    if rows && best.Some? {
      var (d, p) := best.value;
      BestSegmentIs(k, Offers(cs), selected, |k.order|);
      if |k.flights[d].followers| < MAX_FOLLOWERS {
        JoinSegmentOfSound(k, d, r, p, fin);
      }
    }
  }

  lemma JoinSegmentOfSound(k: Desk, d: Digest, r: Request, p: Candidate, fin: set<Request>)
    requires Sound(k, fin) && r !in k.followers && d in k.flights && |k.flights[d].followers| < MAX_FOLLOWERS
    requires !k.flights[d].dispatched
    requires k.flights[d].segment.Some? ==> k.flights[d].segment.value.digest == p.digest
    ensures Sound(JoinSegmentOf(k, d, r, p), fin)
  {
    var f := k.flights[d];
    var b := Binding(d, p.digest, p.span);
    assert FlightOk(k, d);
    if f.segment.Some? {
      AddFollowerSound(k, d, r, b, fin);
    } else {
      var j := k.(flights := k.flights[d := f.(segment := Some(p))], followers := Rebound(k.followers, d, b));
      ReboundLinked(k, d, p);
      hide Linked, Led, Counted, FlightOk;
      ReplaceLed(k, j, d, f.(segment := Some(p)), fin);
      ReplaceCounted(k, j, d, f.(segment := Some(p)));
      AddFollowerSound(j, d, r, b, fin);
    }
  }
}
