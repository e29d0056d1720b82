// No restore that was offered is forgotten on its way to the workers, and in
// every run of orderly lookups the answers are the specified ones.
module RestorePromises {
  import opened Common
  import opened RestoreModel
  import opened RestoreInvariant
  import opened RestoreCallbacks
  import opened RestoreAnswers
  import opened RestoreOutcomes
  import opened RestoreTheorems
  import opened RestoreLoads

  /** The load that this leader was offered is still wanted: it waits for its
      blocks, with the flight's root and span, or to be sent, or has been sent. */
  ghost predicate PromiseOk(k: Desk, r: Request)
    requires r in k.leaders && k.leaders[r] in k.flights
  {
    var d := k.leaders[r];
    var f := k.flights[d];
    && (r in k.needLoad ==> k.needLoad[r] == Candidate(f.span, d))
    && (f.dispatched || r in k.needLoad || (r in k.pending && k.pending[r].0 == d))
  }

  ghost predicate Promised(k: Desk) {
    && PrefixesAscend(k)
    && forall r :: r in k.leaders ==> k.leaders[r] in k.flights && PromiseOk(k, r)
  }

  /** Flights and leaders only go, and nobody's load is touched. */
  ghost predicate Shrinks(k: Desk, j: Desk) {
    && j.needLoad == k.needLoad && j.pending == k.pending
    && (forall d :: d in j.flights ==>
          && d in k.flights && j.flights[d].prefixes == k.flights[d].prefixes && j.flights[d].span == k.flights[d].span
          && (k.flights[d].dispatched ==> j.flights[d].dispatched))
    && forall r :: r in j.leaders ==> r in k.leaders && j.leaders[r] == k.leaders[r] && j.leaders[r] in j.flights
  }

  lemma ShrinksPromised(k: Desk, j: Desk)
    requires Promised(k) && Shrinks(k, j)
    ensures Promised(j)
  {
    hide Ascend;
    forall r | r in j.leaders
      ensures j.leaders[r] in j.flights && PromiseOk(j, r)
    {
      assert PromiseOk(k, r);
    }
  }

  lemma ShrinksOn(a: Desk, b: Desk, c: Desk)
    requires Shrinks(a, b) && Shrinks(b, c)
    ensures Shrinks(a, c)
  {
  }

  lemma StoredLeaders(k: Desk, fin: set<Request>)
    requires Sound(k, fin)
    ensures forall q :: q in k.leaders ==> k.leaders[q] in k.flights
  {
    LedParts(k, fin);
    LeadersStored(k);
  }

  lemma ShrinksSelf(k: Desk, fin: set<Request>)
    requires Sound(k, fin)
    ensures Shrinks(k, k)
  {
    StoredLeaders(k, fin);
    hide Sound;
  }

  lemma RetireLoads(k: Desk, d: Digest)
    ensures Retire(k, d).needLoad == k.needLoad && Retire(k, d).pending == k.pending
  {
  }

  lemma KeptShrinks(k: Desk, j: Desk)
    requires Kept(k, j) && j.needLoad == k.needLoad && j.pending == k.pending
    ensures Shrinks(k, j)
  {
  }

  lemma RetireShrinks(k: Desk, d: Digest, fin: set<Request>)
    requires Sound(k, fin)
    ensures Shrinks(k, Retire(k, d))
  {
    hide *;
    RetireKept(k, d, fin);
    RetireLoads(k, d);
    KeptShrinks(k, Retire(k, d));
  }

  lemma {:induction false} RetireAllLoads(k: Desk, ds: seq<Digest>)
    ensures RetireAll(k, ds).needLoad == k.needLoad && RetireAll(k, ds).pending == k.pending
  {
    if ds != [] {
      RetireAllLoads(k, ds[..|ds| - 1]);
      RetireLoads(RetireAll(k, ds[..|ds| - 1]), ds[|ds| - 1]);
    }
  }

  lemma RetireAllShrinks(k: Desk, ds: seq<Digest>, fin: set<Request>)
    requires Sound(k, fin)
    ensures Shrinks(k, RetireAll(k, ds))
  {
    hide *;
    RetireAllKept(k, ds, fin);
    RetireAllLoads(k, ds);
    KeptShrinks(k, RetireAll(k, ds));
  }

  /** One flight changes in place. */
  lemma ReplaceShrinks(k: Desk, j: Desk, d: Digest, fin: set<Request>)
    requires Sound(k, fin) && d in k.flights && j.flights.Keys == k.flights.Keys && j.leaders.Keys <= k.leaders.Keys
    requires (forall e :: e in k.flights && e != d ==> j.flights[e] == k.flights[e]) && d in j.flights
    requires j.flights[d].prefixes == k.flights[d].prefixes && j.flights[d].span == k.flights[d].span
    requires k.flights[d].dispatched ==> j.flights[d].dispatched
    requires forall r :: r in j.leaders ==> r in k.leaders && j.leaders[r] == k.leaders[r]
    requires j.needLoad == k.needLoad && j.pending == k.pending
    ensures Shrinks(k, j)
  {
    StoredLeaders(k, fin);
    hide Sound;
  }

  lemma LeaverShrinks(k: Desk, r: Request, fin: set<Request>)
    requires Sound(k, fin)
    ensures Shrinks(k, RemoveFollower(k, r))
  {
    ShrinksSelf(k, fin);
    if r in k.followers {
      FollowerStored(k, r, fin);
      var h := LeaverIs(k, r);
      hide RemoveFollower, Sound, Shrinks;
      ReplaceShrinks(k, RemoveFollower(k, r), k.followers[r].flight, fin);
    }
  }

  lemma FollowerStored(k: Desk, r: Request, fin: set<Request>)
    requires Sound(k, fin) && r in k.followers
    ensures k.followers[r].flight in k.flights
  {
    assert BindingOk(k, r);
    hide Led, Counted;
  }

  lemma FollowedShrinks(k: Desk, j: Desk, r: Request, d: Digest, b: Binding, fin: set<Request>)
    requires Sound(k, fin) && Followed(k, j, r, d, b)
    ensures Shrinks(k, j)
  {
    hide Sound, Shrinks;
    ReplaceShrinks(k, j, d, fin);
  }

  // ---- lookups ----

  lemma StartedPromised(k: Desk, j: Desk, r: Request, q: Lookup, c: Candidate)
    requires Promised(k) && Started(k, j, r, q, c) && r !in k.leaders && c.digest !in k.flights
    ensures Promised(j)
  {
    ListedAscend(q.candidates, q.quorum, c.span, j.flights[c.digest].prefixes);
    hide Ascend, ListsPrefixes;
    forall d | d in j.flights
      ensures Ascend(j.flights[d].prefixes)
    {
      if d != c.digest {
        assert d in k.flights;
      }
    }
    forall e | e in j.leaders
      ensures j.leaders[e] in j.flights && PromiseOk(j, e)
    {
      if e != r {
        assert PromiseOk(k, e);
      }
    }
  }

  lemma ListedAscend(cs: seq<Candidate>, quorum: set<Digest>, span: nat, prefixes: seq<Candidate>)
    requires ListsPrefixes(cs, quorum, span, prefixes)
    ensures Ascend(prefixes)
  {
  }

  lemma AnsweredPromised(k: Desk, r: Request, q: Lookup, j: Desk, a: Answer, fin: set<Request>)
    requires Sound(k, fin) && Promised(k) && r !in k.leaders && Answered(k, r, q, j, a)
    ensures Promised(j)
  {
    hide Sound, Promised, Begins, JoinsRoot, JoinsTrunk, Started, Followed, RootBinding;
    if a.Offer? {
      var c :| Begins(k, r, q, c);
      BeginsNew(k, r, q, c);
      StartedPromised(k, j, r, q, c);
    } else if a == Wait {
      if c :| JoinsRoot(k, q, c) {
        FollowedShrinks(k, j, r, c.digest, RootBinding(k, c), fin);
        ShrinksPromised(k, j);
      } else {
        var c, i: nat, p :| JoinsTrunk(k, q, c, i, p);
        TrunkIndex(k, q, c, i, p);
        FollowedShrinks(k, j, r, k.order[i], Binding(k.order[i], p.digest, p.span), fin);
        ShrinksPromised(k, j);
      }
    }
  }

  lemma BeginsNew(k: Desk, r: Request, q: Lookup, c: Candidate)
    requires Begins(k, r, q, c)
    ensures c.digest !in k.flights
  {
  }

  lemma TrunkIndex(k: Desk, q: Lookup, c: Candidate, i: nat, p: Candidate)
    requires JoinsTrunk(k, q, c, i, p)
    ensures i < |k.order|
  {
  }

  lemma DroppedLoad(k: Desk, r: Request)
    requires Promised(k) && r !in k.leaders
    ensures Promised(k.(needLoad := k.needLoad - {r}))
  {
    hide Ascend;
    var j := k.(needLoad := k.needLoad - {r});
    forall q | q in j.leaders
      ensures j.leaders[q] in j.flights && PromiseOk(j, q)
    {
      assert PromiseOk(k, q);
    }
  }

  /** Giving up one's flight before its load is forgotten comes to the same. */
  lemma GivenUp(k: Desk, r: Request, d: Digest)
    ensures Retire(k.(needLoad := k.needLoad - {r}), d) == Retire(k, d).(needLoad := k.needLoad - {r})
  {
  }

  lemma LeaderPromised(k: Desk, r: Request, q: Lookup, fin: set<Request>)
    requires Sound(k, fin) && Ordered(k) && Promised(k) && Ascend(q.candidates)
    requires r !in k.followers && r in k.leaders && r !in fin
    ensures Promised(Match(k, r, q).0)
  {
    hide *;
    GiveUpSound(k, r, fin);
    LedParts(k, fin);
    PromisedParts(k);
    var d := k.leaders[r];
    var left := Retire(k.(needLoad := k.needLoad - {r}), d);
    LeaderMatch(k, r, q);
    RetireShrinks(k, d, fin);
    ShrinksPromised(k, Retire(k, d));
    RetireWell(k, d);
    DroppedLoad(Retire(k, d), r);
    RetireLoads(k, d);
    GivenUp(k, r, d);
    assert Promised(left);
    SoundParts(left, fin);
    PromisedParts(left);
    NotYetFollowing(k, left, r);
    ChooseExactly(left, r, q);
    AnsweredPromised(left, r, q, Choose(left, r, q).0, Choose(left, r, q).1, fin);
  }

  lemma PromisedParts(k: Desk)
    requires Promised(k)
    ensures PrefixesAscend(k)
  {
  }

  lemma FreshPromised(k: Desk, r: Request, q: Lookup, fin: set<Request>)
    requires Sound(k, fin) && Ordered(k) && Promised(k) && Ascend(q.candidates)
    requires r !in k.followers && r !in k.leaders
    ensures Promised(Match(k, r, q).0)
  {
    hide *;
    SoundParts(k, fin);
    PromisedParts(k);
    LookupExactly(k, r, q);
    AnsweredPromised(k, r, q, Match(k, r, q).0, Match(k, r, q).1, fin);
  }

  lemma LookupPromised(k: Desk, r: Request, q: Lookup, fin: set<Request>)
    requires Sound(k, fin) && Ordered(k) && Promised(k) && Ascend(q.candidates) && r !in fin
    ensures Promised(Match(k, r, q).0)
  {
    if r in k.followers {
      RemoveFollowerSound(k, r, fin);
      LeaverShrinks(k, r, fin);
      LeaverKeepsFlight(k, r, 0);
      var left := RemoveFollower(k, r);
      hide Sound, Promised, RemoveFollower, LeadOrChoose, Shrinks, Ascend;
      SoundOrdered(left, fin);
      hide Ordered;
      ShrinksPromised(k, left);
      if r in left.leaders {
        LeaderPromised(left, r, q, fin);
      } else {
        FreshPromised(left, r, q, fin);
      }
      AfterLeaving(k, r, q);
    } else if r in k.leaders {
      LeaderPromised(k, r, q, fin);
    } else {
      FreshPromised(k, r, q, fin);
    }
  }

  /** A follower's lookup stays, leaves, or goes on as that of one who has left. */
  lemma AfterLeaving(k: Desk, r: Request, q: Lookup)
    requires Ordered(k) && r in k.followers && r !in RemoveFollower(k, r).followers && Ordered(RemoveFollower(k, r))
    ensures Match(k, r, q).0 == k || Match(k, r, q).0 == RemoveFollower(k, r)
            || Match(k, r, q).0 == Match(RemoveFollower(k, r), r, q).0
  {
    hide RemoveFollower, LeadOrChoose, Ordered;
  }

  // ---- the other callbacks ----

  lemma AddedShrinks(k: Desk, d: Digest, r: Request, b: Binding, fin: set<Request>)
    requires Sound(k, fin) && d in k.flights
    ensures Shrinks(k, AddFollower(k, d, r, b))
  {
    hide Sound, Shrinks;
    ReplaceShrinks(k, AddFollower(k, d, r, b), d, fin);
  }

  lemma AttachCases(k: Desk, r: Request, cs: seq<Candidate>)
    requires Ordered(k)
    ensures Attach(k, r, cs).0 == k
            || exists d, b :: d in k.flights && Attach(k, r, cs).0 == AddFollower(k, d, r, b)
  {
    hide LeaseFor, AddFollower;
  }

  lemma AttachShrinks(k: Desk, r: Request, cs: seq<Candidate>, fin: set<Request>)
    requires Sound(k, fin) && Ordered(k)
    ensures Shrinks(k, Attach(k, r, cs).0)
  {
    hide *;
    ShrinksSelf(k, fin);
    AttachCases(k, r, cs);
    if Attach(k, r, cs).0 != k {
      var d, b :| d in k.flights && Attach(k, r, cs).0 == AddFollower(k, d, r, b);
      AddedShrinks(k, d, r, b, fin);
    }
  }

  lemma AllocatedPromised(k: Desk, r: Request, external: int, blocks: set<Block>, fin: set<Request>)
    requires Sound(k, fin) && Promised(k)
    ensures Promised(Allocated(k, r, external, blocks))
  {
    if r in k.needLoad {
      var d := k.needLoad[r].digest;
      if external <= 0 {
        RefusedPromised(k, r, fin);
        GivenUp(k, r, d);
      } else {
        var j := Allocated(k, r, external, blocks);
        hide Sound, Ascend;
        forall q | q in j.leaders
          ensures j.leaders[q] in j.flights && PromiseOk(j, q)
        {
          assert PromiseOk(k, q);
        }
      }
    }
  }

  /** A load that gets no blocks ends the flight it was for. */
  lemma RefusedPromised(k: Desk, r: Request, fin: set<Request>)
    requires Sound(k, fin) && Promised(k) && r in k.needLoad
    ensures Promised(Retire(k, k.needLoad[r].digest).(needLoad := k.needLoad - {r}))
  {
    var d := k.needLoad[r].digest;
    var left := Retire(k, d);
    RetireShrinks(k, d, fin);
    ShrinksPromised(k, left);
    assert r in k.leaders ==> k.leaders[r] in k.flights && PromiseOk(k, r);
    RetireDrops(k, r, fin);
    hide Sound, Promised, Shrinks, Retire;
    RetireLoads(k, d);
    DroppedLoad(left, r);
  }

  lemma RetireDrops(k: Desk, r: Request, fin: set<Request>)
    requires Sound(k, fin) && r in k.needLoad && (r in k.leaders ==> k.leaders[r] == k.needLoad[r].digest)
    ensures r !in Retire(k, k.needLoad[r].digest).leaders
  {
    var d := k.needLoad[r].digest;
    LedParts(k, fin);
    LeadersStored(k);
    hide Sound, LedWell;
    if d in k.flights {
      RetireWell(k, d);
    } else {
      RetireNothing(k, d);
    }
    hide Retire;
  }

  lemma DispatchPromised(k: Desk, rs: seq<Request>, fin: set<Request>)
    requires Sound(k, fin) && Promised(k)
    ensures Promised(Dispatch(k, rs))
  {
    DispatchExactly(k, rs);
    LedParts(k, fin);
    var j := Dispatch(k, rs);
    hide Dispatch, Sound;
    SameLeaders(k, j, rs);
    forall q | q in j.leaders
      ensures j.leaders[q] in j.flights && PromiseOk(j, q)
    {
      hide Dispatches;
      SentPromise(k, j, rs, q);
    }
    SentAscend(k, j, rs);
    hide Dispatches, PrefixesAscend, LedWell;
  }

  lemma SameLeaders(k: Desk, j: Desk, rs: seq<Request>)
    requires Dispatches(k, j, rs)
    ensures j.leaders == k.leaders && j.needLoad == k.needLoad
  {
    hide Sent, LoadsSent;
  }

  lemma SentPromise(k: Desk, j: Desk, rs: seq<Request>, q: Request)
    requires Promised(k) && LedWell(k) && Dispatches(k, j, rs) && q in k.leaders
    ensures j.leaders == k.leaders && k.leaders[q] in j.flights && PromiseOk(j, q)
  {
    hide Ascend, Sent;
    assert PromiseOk(k, q) && LeaderOk(k, q);
    SentFlight(k, rs, q);
  }

  lemma SentAscend(k: Desk, j: Desk, rs: seq<Request>)
    requires Promised(k) && Dispatches(k, j, rs)
    ensures PrefixesAscend(j)
  {
    hide Ascend, LoadsSent, Sent;
    forall d | d in j.flights
      ensures Ascend(j.flights[d].prefixes)
    {
      SameSent(k, rs, d);
    }
  }

  lemma SentFlight(k: Desk, rs: seq<Request>, r: Request)
    requires r in k.leaders && LeaderOk(k, r)
    ensures var d := k.leaders[r];
            var f := Sent(k, rs, d);
            && f.span == k.flights[d].span && (k.flights[d].dispatched ==> f.dispatched)
            && (r in rs && r in k.pending && k.pending[r].0 == d ==> f.dispatched)
  {
  }

  lemma SameSent(k: Desk, rs: seq<Request>, d: Digest)
    requires d in k.flights
    ensures Sent(k, rs, d).prefixes == k.flights[d].prefixes
  {
  }

  lemma LeasedShrinks(k: Desk, d: Digest, lease: Lease, fin: set<Request>)
    requires Sound(k, fin) && d in k.flights
    ensures Shrinks(k, Leased(k, d, lease))
  {
    hide Sound, Shrinks;
    ReplaceShrinks(k, Leased(k, d, lease), d, fin);
  }

  /** Publication changes nothing, or leases one flight and retires stale leases. */
  lemma PublishCases(k: Desk, r: Request, key: Digest, now: int)
    requires Ordered(k)
    ensures Publish(k, r, key, now).0 == k
            || (&& r in k.leaders && k.leaders[r] in k.flights && k.flights[k.leaders[r]].workersFinished
                && var d := k.leaders[r];
                   var c := LeaseCandidate(k.flights[d]);
                   c.digest == key
                   && var leased := Leased(k, d, Lease(key, c.span, now, now + k.ttl));
                      Ordered(leased) && Publish(k, r, key, now).0 == RetireAll(leased, Stale(leased)))
  {
    hide RetireAll, Stale;
  }

  lemma PublishShrinks(k: Desk, r: Request, key: Digest, now: int, fin: set<Request>)
    requires Sound(k, fin) && Ordered(k)
    ensures Shrinks(k, Publish(k, r, key, now).0)
  {
    hide *;
    ShrinksSelf(k, fin);
    PublishCases(k, r, key, now);
    if Publish(k, r, key, now).0 != k {
      var d := k.leaders[r];
      var lease := Lease(key, LeaseCandidate(k.flights[d]).span, now, now + k.ttl);
      var leased := Leased(k, d, lease);
      LeasedSound(k, d, lease, fin);
      LeasedShrinks(k, d, lease, fin);
      StaleShrinks(leased, fin);
      ShrinksOn(k, leased, RetireAll(leased, Stale(leased)));
    }
  }

  /** Retiring by publication needs no bound on the leases before it. */
  lemma {:induction false} RetireAllWell(k: Desk, ds: seq<Digest>)
    requires LedWell(k)
    ensures LedWell(RetireAll(k, ds)) && Shrinks(k, RetireAll(k, ds))
  {
    LeadersStored(k);
    if ds == [] {
      hide LedWell;
    } else {
      var before := RetireAll(k, ds[..|ds| - 1]);
      RetireAllWell(k, ds[..|ds| - 1]);
      hide LedWell, Shrinks, Retire;
      RetireOneWell(before, ds[|ds| - 1]);
      ShrinksOn(k, before, Retire(before, ds[|ds| - 1]));
    }
  }

  lemma RetireOneWell(k: Desk, d: Digest)
    requires LedWell(k)
    ensures LedWell(Retire(k, d)) && Shrinks(k, Retire(k, d))
  {
    LeadersStored(k);
    RetireLoads(k, d);
    if d in k.flights {
      RetireWell(k, d);
      var j := Retire(k, d);
      hide Retire;
      forall r | r in j.leaders
        ensures LeaderOk(j, r)
      {
        assert LeaderOk(k, r);
      }
    } else {
      RetireNothing(k, d);
      hide Retire, LedWell;
    }
  }

  lemma StaleShrinks(k: Desk, fin: set<Request>)
    requires Led(k, fin) && Ordered(k)
    ensures Shrinks(k, RetireAll(k, Stale(k)))
  {
    assert LedWell(k);
    hide LedWell, Shrinks, RetireAll, Stale;
    RetireAllWell(k, Stale(k));
  }

  /** A rejection lets the request leave, gives up its flight, or both. */
  lemma RejectCases(k: Desk, r: Request, key: Digest)
    ensures var left := RemoveFollower(k, r);
            && (RejectScope(k, r) == left
                || (r in left.leaders && RejectScope(k, r) == Retire(left, left.leaders[r])))
            && (RejectLease(k, r, key) in {k, left}
                || (r in left.leaders && RejectLease(k, r, key) == Retire(left, left.leaders[r]))
                || (r in k.leaders && RejectLease(k, r, key) == Retire(k, k.leaders[r])))
  {
    hide RemoveFollower, Retire;
  }

  lemma RejectsShrink(k: Desk, r: Request, key: Digest, fin: set<Request>)
    requires Sound(k, fin)
    ensures Shrinks(k, RejectScope(k, r)) && Shrinks(k, RejectLease(k, r, key))
  {
    hide *;
    ShrinksSelf(k, fin);
    LeaverShrinks(k, r, fin);
    RemoveFollowerSound(k, r, fin);
    var left := RemoveFollower(k, r);
    if r in left.leaders {
      RetireShrinks(left, left.leaders[r], fin);
      ShrinksOn(k, left, Retire(left, left.leaders[r]));
    }
    if r in k.leaders {
      RetireShrinks(k, k.leaders[r], fin);
    }
    RejectCases(k, r, key);
  }

  lemma OrphanedShrinks(k: Desk, r: Request, d: Digest, drop: bool, fin: set<Request>)
    requires Sound(k, fin) && d in k.flights
    ensures Shrinks(k, Orphaned(k, r, d, drop))
  {
    hide Sound, Shrinks;
    ReplaceShrinks(k, Orphaned(k, r, d, drop), d, fin);
  }

  lemma SettledCases(k: Desk, r: Request)
    ensures Settled(k, r) == k || (r in k.leaders && k.leaders[r] in k.flights)
    ensures r in k.leaders && k.leaders[r] in k.flights ==>
              Settled(k, r) in {Orphaned(k, r, k.leaders[r], true), Orphaned(k, r, k.leaders[r], false),
                                Retire(k, k.leaders[r])}
  {
    hide Retire, Orphaned;
  }

  lemma SettledSent(k: Desk, r: Request)
    requires LedWell(k) && r in k.leaders && k.leaders[r] in k.flights
    ensures var j := Settled(k, r);
            r in j.leaders && j.leaders[r] in j.flights ==> j.flights[j.leaders[r]].dispatched
  {
    RetireWell(k, k.leaders[r]);
    hide Retire, LedWell;
  }

  lemma SettledShrinks(k: Desk, r: Request, fin: set<Request>)
    requires Sound(k, fin)
    ensures Shrinks(k, Settled(k, r))
    ensures r in Settled(k, r).leaders && Settled(k, r).leaders[r] in Settled(k, r).flights ==>
              Settled(k, r).flights[Settled(k, r).leaders[r]].dispatched
  {
    hide *;
    ShrinksSelf(k, fin);
    LedParts(k, fin);
    SettledCases(k, r);
    if r in k.leaders && k.leaders[r] in k.flights {
      var d := k.leaders[r];
      RetireShrinks(k, d, fin);
      OrphanedShrinks(k, r, d, true, fin);
      OrphanedShrinks(k, r, d, false, fin);
      SettledSent(k, r);
    } else {
      LeadersStored(k);
    }
  }

  lemma FinishedPromised(k: Desk, r: Request, normal: bool, fin: set<Request>)
    requires Sound(k, fin) && Promised(k)
    ensures Promised(Finished(k, r, normal))
  {
    FinishedIs(k, r, normal);
    RemoveFollowerSound(k, r, fin);
    LeaverShrinks(k, r, fin);
    var left := RemoveFollower(k, r);
    SettledShrinks(left, r, fin);
    ShrinksOn(k, left, Settled(left, r));
    ShrinksPromised(k, Settled(left, r));
    hide Finished, Settled, RemoveFollower, Sound, Shrinks;
    var led := Settled(left, r);
    var j := led.(needLoad := led.needLoad - {r}, pending := led.pending - {r}, admitted := led.admitted - {r});
    ForgottenPromised(led, j, r);
  }

  /** Forgetting the loads of one whose flight, if any, has been sent. */
  lemma ForgottenPromised(k: Desk, j: Desk, r: Request)
    requires Promised(k)
    requires r in k.leaders && k.leaders[r] in k.flights ==> k.flights[k.leaders[r]].dispatched
    requires j == k.(needLoad := k.needLoad - {r}, pending := k.pending - {r}, admitted := j.admitted)
    ensures Promised(j)
  {
    hide Ascend;
    forall q | q in j.leaders
      ensures j.leaders[q] in j.flights && PromiseOk(j, q)
    {
      assert PromiseOk(k, q);
    }
  }

  lemma {:induction false} FailLoads(k: Desk, rs: seq<Request>, invalid: set<Block>)
    ensures FailAdmitted(k, rs, invalid).needLoad == k.needLoad && FailAdmitted(k, rs, invalid).pending == k.pending
  {
    if rs != [] {
      FailLoads(k, rs[..|rs| - 1], invalid);
    }
  }

  lemma {:induction false} CompleteLoads(k: Desk, rs: seq<Request>)
    ensures Complete(k, rs).needLoad == k.needLoad && Complete(k, rs).pending == k.pending
  {
    if rs != [] {
      CompleteLoads(k, rs[..|rs| - 1]);
    }
  }

  lemma ClearedLoads(k: Desk, admitted: seq<Request>, invalid: set<Block>)
    requires Ordered(FailAdmitted(k, admitted, invalid))
    ensures var j := ClearedDesk(k, admitted, invalid);
            j.needLoad == k.needLoad && j.pending == k.pending
  {
    FailLoads(k, admitted, invalid);
    ClearedIs(k, admitted, invalid);
    var failed := FailAdmitted(k, admitted, invalid);
    RetireAllLoads(failed, Damaged(failed, invalid, |failed.order|));
    hide *;
  }

  lemma CompletedShrinks(k: Desk, j: Desk, rs: seq<Request>)
    requires LedWell(k) && Completed(k, j, rs) && j.needLoad == k.needLoad && j.pending == k.pending
    ensures Shrinks(k, j)
  {
    CompletedFlights(k, j, rs);
    hide LedWell, Landed, CompletedAt;
  }

  lemma WorkersShrink(
    k: Desk, admitted: seq<Request>, invalid: set<Block>, received: seq<Request>, fin: set<Request>)
    requires Sound(k, fin)
    ensures Shrinks(k, WorkerOutput(k, admitted, invalid, received))
  {
    hide *;
    ClearExactly(k, admitted, invalid, fin);
    OutputIs(k, admitted, invalid, received);
    var cleared := ClearedDesk(k, admitted, invalid);
    LedParts(cleared, fin);
    ClearedLoads(k, admitted, invalid);
    KeptShrinks(k, cleared);
    CompleteExactly(cleared, received);
    CompleteLoads(cleared, received);
    CompletedShrinks(cleared, Complete(cleared, received), received);
    ShrinksOn(k, cleared, Complete(cleared, received));
  }

  // ---- whole runs ----

  /** Lookups bring their candidates shortest first. */
  predicate OrderlyOne(a: Action) {
    a.ALookup? ==> Ascend(a.q.candidates)
  }

  predicate Orderly(actions: seq<Action>) {
    forall i :: 0 <= i < |actions| ==> OrderlyOne(actions[i])
  }

  lemma StepPromised(s: System, a: Action)
    requires Sound(s.k, s.fin) && Ordered(s.k) && Enabled(s, a) && Promised(s.k) && OrderlyOne(a)
    ensures Promised(Step(s, a).k)
  {
    var k, fin := s.k, s.fin;
    hide Sound, Promised, Shrinks, Ordered, Ascend, Match, Finished, Allocated, Dispatch, WorkerOutput, Publish, Attach, Expire,
         RejectLease, RejectScope;
    match a {
      case ALookup(r, q) => LookupPromised(k, r, q, fin);
      case AAttach(r, candidates, now) => AttachStep(k, r, candidates, now, fin);
      case AExpire(now) => ExpirePromised(k, now, fin);
      case ARejectScope(r) => RejectsShrink(k, r, 0, fin); ShrinksPromised(k, RejectScope(k, r));
      case AAllocated(r, external, blocks) => AllocatedPromised(k, r, external, blocks, fin);
      case ADispatch(rs) => DispatchPromised(k, rs, fin);
      case APublish(r, key, now) => PublishShrinks(k, r, key, now, fin); ShrinksPromised(k, Publish(k, r, key, now).0);
      case ARejectLease(r, key) => RejectsShrink(k, r, key, fin); ShrinksPromised(k, RejectLease(k, r, key));
      case AFinished(r, normal) => FinishedPromised(k, r, normal, fin);
      case AWorkers(admitted, invalid, received) =>
        WorkersShrink(k, admitted, invalid, received, fin);
        ShrinksPromised(k, WorkerOutput(k, admitted, invalid, received));
    }
  }

  lemma ExpirePromised(k: Desk, now: int, fin: set<Request>)
    requires Sound(k, fin) && Ordered(k) && Promised(k)
    ensures Promised(Expire(k, now))
  {
    hide Sound, Promised, Shrinks, Ordered, RetireAll, Expired;
    RetireAllShrinks(k, Expired(k, now, |k.order|), fin);
    ShrinksPromised(k, Expire(k, now));
  }

  lemma AttachStep(k: Desk, r: Request, candidates: seq<Candidate>, now: int, fin: set<Request>)
    requires Sound(k, fin) && Ordered(k) && Promised(k)
    ensures Promised(Expire(k, now))
    ensures Ordered(Expire(k, now)) ==> Promised(Attach(Expire(k, now), r, candidates).0)
  {
    ExpirePromised(k, now, fin);
    ExpireSound(k, now, fin);
    hide Sound, Promised, Shrinks, Ordered, Attach, Expire;
    if Ordered(Expire(k, now)) {
      AttachShrinks(Expire(k, now), r, candidates, fin);
      ShrinksPromised(Expire(k, now), Attach(Expire(k, now), r, candidates).0);
    }
  }

  lemma {:induction false} RunPromised(s: System, actions: seq<Action>)
    requires Sound(s.k, s.fin) && Promised(s.k) && Runnable(s, actions) && Orderly(actions)
    ensures Promised(Run(s, actions).k)
    decreases |actions|
  {
    if actions != [] {
      assert OrderlyOne(actions[0]);
      StepPromised(s, actions[0]);
      StepSound(s, actions[0]);
      assert Orderly(actions[1..]);
      hide Sound, Step, Enabled, Ordered, Promised, OrderlyOne;
      RunPromised(Step(s, actions[0]), actions[1..]);
    }
  }

  /** Nothing is forgotten. After any callbacks, every led flight that has not been
      sent to the workers has its load waiting: for its blocks, under exactly the
      flight's root and span, or to be sent under its root. */
  lemma NoRestoreForgotten(maxPending: nat, ttl: nat, actions: seq<Action>)
    requires Reachable(maxPending, ttl, actions) && Orderly(actions)
    ensures var k := Reached(maxPending, ttl, actions);
            && PrefixesAscend(k)
            && forall r :: r in k.leaders ==>
                 && k.leaders[r] in k.flights
                 && var d := k.leaders[r];
                    !k.flights[d].dispatched ==>
                      || (r in k.needLoad && k.needLoad[r] == Candidate(k.flights[d].span, d))
                      || (r in k.pending && k.pending[r].0 == d)
  {
    EmptySound(maxPending, ttl);
    RunPromised(System(Empty(maxPending, ttl), {}), actions);
    hide Run, Reachable, PrefixesAscend;
    var k := Reached(maxPending, ttl, actions);
    assert forall r :: r in k.leaders ==> k.leaders[r] in k.flights && PromiseOk(k, r);
  }

  /** In every run of orderly lookups, the next lookup by a request that neither
      follows nor leads is answered as specified. */
  lemma LookupInRuns(maxPending: nat, ttl: nat, actions: seq<Action>, r: Request, q: Lookup)
    requires Reachable(maxPending, ttl, actions) && Orderly(actions) && Ascend(q.candidates)
    requires var k := Reached(maxPending, ttl, actions); r !in k.followers && r !in k.leaders
    ensures var k := Reached(maxPending, ttl, actions);
            Ordered(k) && Answered(k, r, q, Match(k, r, q).0, Match(k, r, q).1)
  {
    hide *;
    var fin := ReachedSound(maxPending, ttl, actions);
    NoRestoreForgotten(maxPending, ttl, actions);
    var k := Reached(maxPending, ttl, actions);
    SoundParts(k, fin);
    LookupExactly(k, r, q);
  }
}
