// What holds after any sequence of scheduler callbacks about restore flights.
module RestoreTheorems {
  import opened Common
  import opened RestoreModel
  import opened RestoreInvariant
  import opened RestoreCallbacks

  /** The desk and the requests that have finished; a finished id never recurs. */
  datatype System = System(k: Desk, fin: set<Request>)

  datatype Action =
    | ALookup(r: Request, q: Lookup)
    | AAttach(r: Request, candidates: seq<Candidate>, now: int)
    | AExpire(now: int)
    | ARejectScope(r: Request)
    | AAllocated(r: Request, external: int, blocks: set<Block>)
    | ADispatch(rs: seq<Request>)
    | APublish(r: Request, key: Digest, now: int)
    | ARejectLease(r: Request, key: Digest)
    | AFinished(r: Request, normal: bool)
    | AWorkers(admitted: seq<Request>, invalid: set<Block>, received: seq<Request>)

  ghost predicate Enabled(s: System, a: Action) {
    match a
    case ALookup(r, _) => r !in s.fin
    case AWorkers(_, _, received) => Dispatched(s.k, received)
    case _ => true
  }

  ghost function Step(s: System, a: Action): System
    requires Ordered(s.k)
  {
    match a
    case ALookup(r, q) => s.(k := Match(s.k, r, q).0)
    case AAttach(r, candidates, now) =>
      var e := Expire(s.k, now);
      if Ordered(e) then s.(k := Attach(e, r, candidates).0) else s.(k := e)
    case AExpire(now) => s.(k := Expire(s.k, now))
    case ARejectScope(r) => s.(k := RejectScope(s.k, r))
    case AAllocated(r, external, blocks) => s.(k := Allocated(s.k, r, external, blocks))
    case ADispatch(rs) => s.(k := Dispatch(s.k, rs))
    case APublish(r, key, now) => s.(k := Publish(s.k, r, key, now).0)
    case ARejectLease(r, key) => s.(k := RejectLease(s.k, r, key))
    case AFinished(r, normal) => System(Finished(s.k, r, normal), s.fin + {r})
    case AWorkers(admitted, invalid, received) => s.(k := WorkerOutput(s.k, admitted, invalid, received))
  }

  ghost predicate Runnable(s: System, actions: seq<Action>)
    decreases |actions|
  {
    Ordered(s.k) && (actions == [] || (Enabled(s, actions[0]) && Runnable(Step(s, actions[0]), actions[1..])))
  }

  ghost function Run(s: System, actions: seq<Action>): System
    requires Runnable(s, actions)
    decreases |actions|
  {
    if actions == [] then s else Run(Step(s, actions[0]), actions[1..])
  }

  lemma StepSound(s: System, a: Action)
    requires Sound(s.k, s.fin) && Ordered(s.k) && Enabled(s, a)
    ensures Sound(Step(s, a).k, Step(s, a).fin) && Ordered(Step(s, a).k)
  {
    hide Sound;
    match a {
      case ALookup(r, q) => MatchSound(s.k, r, q, s.fin);
      case AAttach(r, candidates, now) =>
        ExpireSound(s.k, now, s.fin);
        SoundOrdered(Expire(s.k, now), s.fin);
        AttachSound(Expire(s.k, now), r, candidates, s.fin);
      case AExpire(now) => ExpireSound(s.k, now, s.fin);
      case ARejectScope(r) => RejectScopeSound(s.k, r, s.fin);
      case AAllocated(r, external, blocks) => AllocatedSound(s.k, r, external, blocks, s.fin);
      case ADispatch(rs) => DispatchSound(s.k, rs, s.fin);
      case APublish(r, key, now) => PublishSound(s.k, r, key, now, s.fin);
      case ARejectLease(r, key) => RejectLeaseSound(s.k, r, key, s.fin);
      case AFinished(r, normal) => FinishedSound(s.k, r, normal, s.fin);
      case AWorkers(admitted, invalid, received) => WorkerOutputSound(s.k, admitted, invalid, received, s.fin);
    }
    SoundOrdered(Step(s, a).k, Step(s, a).fin);
  }

  lemma {:induction false} RunSound(s: System, actions: seq<Action>)
    requires Sound(s.k, s.fin) && Runnable(s, actions)
    ensures Sound(Run(s, actions).k, Run(s, actions).fin)
    decreases |actions|
  {
    if actions != [] {
      StepSound(s, actions[0]);
      hide Sound, Step, Enabled, Ordered;
      RunSound(Step(s, actions[0]), actions[1..]);
    }
  }

  // ---- the configured bounds do not change ----

  lemma {:induction false} FailSizes(k: Desk, rs: seq<Request>, invalid: set<Block>)
    ensures FailAdmitted(k, rs, invalid).maxPending == k.maxPending
  {
    if rs != [] {
      FailSizes(k, rs[..|rs| - 1], invalid);
    }
  }

  lemma {:induction false} CompleteSizes(k: Desk, rs: seq<Request>)
    ensures Complete(k, rs).maxPending == k.maxPending
  {
    if rs != [] {
      CompleteSizes(k, rs[..|rs| - 1]);
    }
  }

  lemma {:induction false} DispatchSizes(k: Desk, rs: seq<Request>)
    ensures Dispatch(k, rs).maxPending == k.maxPending
  {
    if rs != [] {
      DispatchSizes(k, rs[..|rs| - 1]);
    }
  }

  lemma ChooseSizes(k: Desk, r: Request, q: Lookup)
    requires Ordered(k)
    ensures Choose(k, r, q).0.maxPending == k.maxPending
  {
    hide BestSegment, Selected, Shareable, Rebound, Unpublished, Offers;
  }

  lemma LeadOrChooseSizes(k: Desk, r: Request, q: Lookup)
    requires Ordered(k)
    ensures LeadOrChoose(k, r, q).0.maxPending == k.maxPending
  {
    hide Choose, Remove, Ordered;
    if r in k.leaders {
      var left := Retire(k.(needLoad := k.needLoad - {r}), k.leaders[r]);
      if Ordered(left) {
        ChooseSizes(left, r, q);
      }
    }
    ChooseSizes(k, r, q);
  }

  lemma LookupSizes(k: Desk, r: Request, q: Lookup)
    requires Ordered(k)
    ensures Match(k, r, q).0.maxPending == k.maxPending
  {
    hide LeadOrChoose, StillNeeded, Ordered;
    if Ordered(RemoveFollower(k, r)) {
      LeadOrChooseSizes(RemoveFollower(k, r), r, q);
    }
    LeadOrChooseSizes(k, r, q);
  }

  lemma ExpireSizes(k: Desk, now: int)
    requires Ordered(k)
    ensures Expire(k, now).maxPending == k.maxPending
  {
    hide RetireAll, Expired;
    RetireAllSizes(k, Expired(k, now, |k.order|));
  }

  lemma AttachSizes(k: Desk, r: Request, candidates: seq<Candidate>, now: int)
    requires Ordered(k)
    ensures var e := Expire(k, now);
            e.maxPending == k.maxPending && (Ordered(e) ==> Attach(e, r, candidates).0.maxPending == k.maxPending)
  {
    hide LeaseFor, Expire, Ordered;
    ExpireSizes(k, now);
  }

  lemma RemoveFollowerSizes(k: Desk, r: Request)
    ensures RemoveFollower(k, r).maxPending == k.maxPending
  {
    hide StillNeeded;
  }

  lemma RetireSizes(k: Desk, d: Digest)
    ensures Retire(k, d).maxPending == k.maxPending
  {
    hide Remove;
  }

  lemma RejectScopeSizes(k: Desk, r: Request)
    ensures RejectScope(k, r).maxPending == k.maxPending
  {
    hide RemoveFollower, Retire;
    var left := RemoveFollower(k, r);
    RemoveFollowerSizes(k, r);
    if r in left.leaders {
      RetireSizes(left, left.leaders[r]);
    }
  }

  lemma RejectLeaseSizes(k: Desk, r: Request, key: Digest)
    ensures RejectLease(k, r, key).maxPending == k.maxPending
  {
    hide RemoveFollower, Retire;
    var left := if r in k.followers && k.followers[r].lease == key then RemoveFollower(k, r) else k;
    RemoveFollowerSizes(k, r);
    if r in left.leaders {
      RetireSizes(left, left.leaders[r]);
    }
  }

  lemma FinishedSizes(k: Desk, r: Request, normal: bool)
    ensures Finished(k, r, normal).maxPending == k.maxPending
  {
    hide RemoveFollower, Retire;
    var left := RemoveFollower(k, r);
    RemoveFollowerSizes(k, r);
    if r in left.leaders {
      RetireSizes(left, left.leaders[r]);
    }
  }

  lemma AllocatedSizes(k: Desk, r: Request, external: int, blocks: set<Block>)
    ensures Allocated(k, r, external, blocks).maxPending == k.maxPending
  {
    hide Remove;
  }

  lemma StepSizes(s: System, a: Action)
    requires Ordered(s.k)
    ensures Step(s, a).k.maxPending == s.k.maxPending
  {
    hide Match, Attach, Expire, RejectScope, Allocated, Dispatch, Publish, RejectLease, Finished, WorkerOutput, Ordered;
    match a
    case ALookup(r, q) => LookupSizes(s.k, r, q);
    case AAttach(r, candidates, now) => AttachSizes(s.k, r, candidates, now);
    case AExpire(now) => ExpireSizes(s.k, now);
    case ARejectScope(r) => RejectScopeSizes(s.k, r);
    case AAllocated(r, external, blocks) => AllocatedSizes(s.k, r, external, blocks);
    case ADispatch(rs) => DispatchSizes(s.k, rs);
    case APublish(r, key, now) => PublishSizes(s.k, r, key, now);
    case ARejectLease(r, key) => RejectLeaseSizes(s.k, r, key);
    case AFinished(r, normal) => FinishedSizes(s.k, r, normal);
    case AWorkers(admitted, invalid, received) => WorkerSizes(s.k, admitted, invalid, received);
  }

  lemma PublishSizes(k: Desk, r: Request, key: Digest, now: int)
    requires Ordered(k)
    ensures Publish(k, r, key, now).0.maxPending == k.maxPending
  {
    hide RetireAll, Stale;
    if r in k.leaders && k.leaders[r] in k.flights {
      var d := k.leaders[r];
      var lease := Lease(key, LeaseCandidate(k.flights[d]).span, now, now + k.ttl);
      assert Ordered(Leased(k, d, lease));
      RetireAllSizes(Leased(k, d, lease), Stale(Leased(k, d, lease)));
    }
  }

  lemma WorkerSizes(k: Desk, admitted: seq<Request>, invalid: set<Block>, received: seq<Request>)
    ensures WorkerOutput(k, admitted, invalid, received).maxPending == k.maxPending
  {
    var failed := FailAdmitted(k, admitted, invalid);
    FailSizes(k, admitted, invalid);
    if Ordered(failed) {
      RetireAllSizes(failed, Damaged(failed, invalid, |failed.order|));
      CompleteSizes(RetireAll(failed, Damaged(failed, invalid, |failed.order|)), received);
    }
    CompleteSizes(failed, received);
  }

  lemma {:induction false} RunSizes(s: System, actions: seq<Action>)
    requires Runnable(s, actions)
    ensures Run(s, actions).k.maxPending == s.k.maxPending
    decreases |actions|
  {
    if actions != [] {
      StepSizes(s, actions[0]);
      hide Step, Enabled;
      RunSizes(Step(s, actions[0]), actions[1..]);
    }
  }

  // ---- main results ----

  ghost predicate Reachable(maxPending: nat, ttl: nat, actions: seq<Action>) {
    Runnable(System(Empty(maxPending, ttl), {}), actions)
  }

  ghost function Reached(maxPending: nat, ttl: nat, actions: seq<Action>): Desk
    requires Reachable(maxPending, ttl, actions)
  {
    Run(System(Empty(maxPending, ttl), {}), actions).k
  }

  lemma EmptySound(maxPending: nat, ttl: nat)
    ensures Sound(Empty(maxPending, ttl), {})
  {
    assert Unpublished(map[]) == {} && Published(map[]) == {};
  }

  lemma ReachedSound(maxPending: nat, ttl: nat, actions: seq<Action>) returns (fin: set<Request>)
    requires Reachable(maxPending, ttl, actions)
    ensures Sound(Reached(maxPending, ttl, actions), fin) && Ordered(Reached(maxPending, ttl, actions))
    ensures Reached(maxPending, ttl, actions).maxPending == maxPending
  {
    EmptySound(maxPending, ttl);
    RunSound(System(Empty(maxPending, ttl), {}), actions);
    RunSizes(System(Empty(maxPending, ttl), {}), actions);
    fin := Run(System(Empty(maxPending, ttl), {}), actions).fin;
    SoundOrdered(Reached(maxPending, ttl, actions), fin);
  }

  /** After any callbacks: bindings and follower sets are inverse, every follower
      waits for the one key its flight would publish or has published, and all
      the bounds hold. */
  lemma FlightsConsistent(maxPending: nat, ttl: nat, actions: seq<Action>)
    requires Reachable(maxPending, ttl, actions)
    ensures var k := Reached(maxPending, ttl, actions);
            && (forall r, d :: r in k.followers && k.followers[r].flight == d <==>
                  d in k.flights && r in k.flights[d].followers)
            && (forall r :: r in k.followers ==>
                  k.followers[r].flight in k.flights && k.followers[r].lease == KeyOf(k.flights[k.followers[r].flight]))
            && (forall d :: d in k.flights ==> |k.flights[d].followers| <= MAX_FOLLOWERS)
            && |Published(k.flights)| <= MAX_LEASES && |Unpublished(k.flights)| <= maxPending
            && |k.needLoad| <= maxPending
  {
    var fin := ReachedSound(maxPending, ttl, actions);
    var k := Reached(maxPending, ttl, actions);
    hide Reached, Reachable, Led, Published, Unpublished;
    assert forall d :: d in k.flights ==> FlightOk(k, d);
    assert forall r :: r in k.followers ==> BindingOk(k, r);
  }

  /** A lease is named or handed out only after every worker finished, and what a
      follower gets is the key its flight published. */
  lemma LeasesAreVerified(
    maxPending: nat, ttl: nat, actions: seq<Action>, r: Request, candidates: seq<Candidate>)
    requires Reachable(maxPending, ttl, actions)
    ensures var k := Reached(maxPending, ttl, actions);
            && Ordered(k)
            && (ToPublish(k, r).Some? ==>
                  && r in k.leaders && k.leaders[r] in k.flights && k.flights[k.leaders[r]].workersFinished
                  && ToPublish(k, r).value.digest == KeyOf(k.flights[k.leaders[r]]))
            && var (after, lease) := Attach(k, r, candidates);
               lease.Some? ==>
                 && r in after.followers && after.followers[r].flight in after.flights
                 && var f := after.flights[after.followers[r].flight];
                    f.workersFinished && f.lease.Some? && f.lease.value.digest == lease.value.digest
                    && r in f.followers
  {
    hide Reached, Reachable, Attach, Sound, Ordered;
    var fin := ReachedSound(maxPending, ttl, actions);
    var k := Reached(maxPending, ttl, actions);
    AttachSound(k, r, candidates, fin);
    var (after, lease) := Attach(k, r, candidates);
    if lease.Some? {
      AttachNames(k, r, candidates);
      PublishedIsFinished(after, r, fin);
    }
  }

  /** What attaching hands out is the lease of the flight it binds to. */
  lemma AttachNames(k: Desk, r: Request, candidates: seq<Candidate>)
    requires Ordered(k) && Attach(k, r, candidates).1.Some?
    ensures var (after, lease) := Attach(k, r, candidates);
            && r in after.followers && after.followers[r].flight in after.flights
            && var f := after.flights[after.followers[r].flight];
               f.lease.Some? && f.lease.value.digest == lease.value.digest
  {
    hide LeaseFor, Ordered;
  }

  lemma PublishedIsFinished(k: Desk, r: Request, fin: set<Request>)
    requires Sound(k, fin) && r in k.followers
    ensures k.followers[r].flight in k.flights && r in k.flights[k.followers[r].flight].followers
    ensures k.flights[k.followers[r].flight].lease.Some? ==> k.flights[k.followers[r].flight].workersFinished
  {
    hide Led, Counted;
    assert BindingOk(k, r);
    assert FlightOk(k, k.followers[r].flight);
  }

  /** Every stored flight still has somebody to end it: the request that leads it,
      or the expiry of the lease that its finished leader left. */
  lemma NoFlightStranded(maxPending: nat, ttl: nat, actions: seq<Action>)
    requires Reachable(maxPending, ttl, actions)
    ensures var k := Reached(maxPending, ttl, actions);
            forall d :: d in k.flights ==>
              || (k.flights[d].leader in k.leaders && k.leaders[k.flights[d].leader] == d)
              || (k.flights[d].leaderFinished && k.flights[d].lease.Some?)
  {
    var fin := ReachedSound(maxPending, ttl, actions);
    var k := Reached(maxPending, ttl, actions);
    hide Reached, Reachable, Linked, Counted;
    assert forall d :: d in k.flights ==> LedOk(k, fin, d);
  }

  /** A lone lease is never stale. */
  lemma LoneLease(k: Desk, d: Digest)
    requires k.order == [d] && d in k.flights && k.flights[d].lease.Some?
    ensures RetireAll(k, Stale(k)) == k
  {
    assert k.order[..0] == [] && PublishedIn(k, 0) == [];
    assert PublishedIn(k, 1) == [d];
    assert [d][..0] == [];
    assert SortByTime(k, [d]) == [d] by {
      assert SortByTime(k, []) == [];
    }
  }

  /** The one flight at hand is found by the prefix both sides share. */
  lemma LoneSegment(k: Desk, d: Digest, p: Candidate, offers: map<Digest, nat>, selected: Digest)
    requires k.order == [d] && d in k.flights && Joinable(k.flights[d], selected)
    requires k.flights[d].prefixes == [p] && k.flights[d].segment.None?
    requires p.digest in offers && offers[p.digest] == p.span
    ensures BestSegment(k, offers, selected, |k.order|) == Some((d, p))
  {
    assert CommonPrefix(k.flights[d], offers, 1) == Some(p);
    assert BestSegment(k, offers, selected, 0) == None;
  }

  lemma TwoOffers(a: Candidate, b: Candidate)
    requires a.digest != b.digest
    ensures a.digest in Offers([a, b]) && Offers([a, b])[a.digest] == a.span
  {
    assert [a, b][..1] == [a] && [a][..0] == [];
    assert Offers([a])[a.digest] == a.span;
  }

  /** Without the discipline that completions follow dispatch, bindings of one
      flight can name a key it did not publish: an undispatched but completed
      flight publishes its whole root, and a later join adds a trunk. */
  lemma CompletionBeforeDispatchBreaksKeys()
    ensures var whole, trunk := Candidate(8, 1), Candidate(4, 2);
            var led := Lead(Empty(4, 10), 0, whole, [trunk]);
            var done := CompleteOne(led, 0);
            Ordered(done)
            && var published := Publish(done, 0, 1, 5).0;
               Ordered(published)
               && var (joined, found) := JoinSegment(published, 7, [trunk, Candidate(8, 3)], 3, true);
                  found && 7 in joined.followers && 1 in joined.flights && joined.followers[7].flight == 1
                  && joined.followers[7].lease != KeyOf(joined.flights[1])
  {
    hide Stale, RetireAll, BestSegment, Offers;
    var whole, trunk := Candidate(8, 1), Candidate(4, 2);
    var led := Lead(Empty(4, 10), 0, whole, [trunk]);
    var done := CompleteOne(led, 0);
    assert led.order == [1];
    var leased := Leased(done, 1, Lease(1, 8, 5, 15));
    LoneLease(leased, 1);
    assert Publish(done, 0, 1, 5).0 == leased;
    TwoOffers(trunk, Candidate(8, 3));
    LoneSegment(leased, 1, trunk, Offers([trunk, Candidate(8, 3)]), 3);
  }
}
