// The scheduler-side restore-flight callbacks of the connector, changing its
// dictionaries in place; each is specified by its function in RestoreModel.
module RestoreScheduler {
  import opened Common
  import opened RestoreModel
  import opened RestoreInvariant
  import opened RestoreCallbacks

  class RestoreScheduler {
    const maxPending: nat
    const ttl: nat
    var flights: map<Digest, Flight>
    var order: seq<Digest>
    var leaders: map<Request, Digest>
    var followers: map<Request, Binding>
    var needLoad: map<Request, Candidate>
    var pending: map<Request, (Digest, set<Block>)>
    var admitted: map<Request, (Digest, set<Block>)>

    function View(): Desk
      reads this
    {
      Desk(maxPending, ttl, flights, order, leaders, followers, needLoad, pending, admitted)
    }

    /** The dictionary's keys and its order agree, as in any dictionary. */
    ghost predicate Valid()
      reads this
    {
      OrderOk(View())
    }

    constructor (maxPending: nat, ttl: nat)
      ensures Valid() && View() == Empty(maxPending, ttl)
    {
      this.maxPending, this.ttl := maxPending, ttl;
      flights, order, leaders, followers := map[], [], map[], map[];
      needLoad, pending, admitted := map[], map[], map[];
    }

    method RetireFlight(d: Digest)
      requires Valid()
      modifies this
      ensures Valid() && View() == Retire(old(View()), d)
    {
      if d !in flights {
        return;
      }
      var f := flights[d];
      RemoveIs(order, d);
      flights := flights - {d};
      order := Remove(order, d);
      leaders := leaders - {f.leader};
      var left := f.followers;
      ghost var before := followers;
      while left != {}
        invariant left <= f.followers && followers == before - (f.followers - left)
        invariant flights == old(flights) - {d} && order == Remove(old(order), d)
        invariant leaders == old(leaders) - {f.leader} && needLoad == old(needLoad)
        invariant pending == old(pending) && admitted == old(admitted)
        decreases left
      {
        var r :| r in left;
        followers := followers - {r};
        left := left - {r};
      }
    }

    method RetireEach(ds: seq<Digest>)
      requires Valid()
      modifies this
      ensures Valid() && View() == RetireAll(old(View()), ds)
    {
      for n := 0 to |ds|
        invariant Valid() && View() == RetireAll(old(View()), ds[..n])
      {
        assert ds[..n + 1][..n] == ds[..n];
        RetireFlight(ds[n]);
      }
      assert ds[..|ds|] == ds;
    }

    method RemoveRestoreFollower(r: Request)
      requires Valid()
      modifies this
      ensures Valid() && View() == RemoveFollower(old(View()), r)
    {
      if r !in followers {
        return;
      }
      var b := followers[r];
      followers := followers - {r};
      if b.flight !in flights {
        return;
      }
      var f := flights[b.flight];
      var g := f.(followers := f.followers - {r});
      var needed := exists q :: q in followers && followers[q].flight == g.digest && followers[q].lease == b.lease;
      if g.segment.Some? && b.lease == g.segment.value.digest && g.lease.None? && !needed {
        g := g.(segment := None);
      }
      flights := flights[b.flight := g];
    }

    method Join(d: Digest, r: Request, b: Binding)
      requires Valid() && d in flights
      modifies this
      ensures Valid() && View() == AddFollower(old(View()), d, r, b)
    {
      flights := flights[d := flights[d].(followers := flights[d].followers + {r})];
      followers := followers[r := b];
    }

    /** Search every joinable flight for its longest common prefix. */
    method FindSegment(offers: map<Digest, nat>, selected: Digest) returns (best: Option<(Digest, Candidate)>)
      requires Valid()
      ensures best == BestSegment(View(), offers, selected, |order|)
    {
      best := None;
      for n := 0 to |order|
        invariant best == BestSegment(View(), offers, selected, n)
      {
        var f := flights[order[n]];
        if f.digest != selected && !f.leaderFinished && !f.dispatched {
          var found := LongestCommon(f, offers);
          if found.Some? && (best.None? || found.value.span > best.value.1.span) {
            best := Some((order[n], found.value));
          }
        }
      }
    }

    method JoinSegmentFlight(r: Request, candidates: seq<Candidate>, selected: Digest, rows: bool) returns (joined: bool)
      requires Valid()
      modifies this
      ensures Valid() && (View(), joined) == JoinSegment(old(View()), r, candidates, selected, rows)
    {
      if !rows {
        return false;
      }
      var offers := CollectOffers(candidates);
      var best := FindSegment(offers, selected);
      if best.None? {
        return false;
      }
      BestSegmentIs(View(), offers, selected, |order|);
      var (d, p) := best.value;
      if |flights[d].followers| >= MAX_FOLLOWERS {
        return false;
      }
      var b := Binding(flights[d].digest, p.digest, p.span);
      if flights[d].segment.None? {
        var digest := flights[d].digest;
        flights := flights[d := flights[d].(segment := Some(p))];
        followers := map q | q in followers :: if followers[q].flight == digest then b else followers[q];
      }
      Join(d, r, b);
      joined := true;
    }

    method StartFlight(r: Request, c: Candidate, prefixes: seq<Candidate>)
      requires Valid() && c.digest !in flights
      modifies this
      ensures Valid() && View() == Lead(old(View()), r, c, prefixes)
    {
      flights := flights[c.digest := Flight(c.digest, c.span, r, {}, {}, false, false, false, prefixes, None, None)];
      order := order + [c.digest];
      leaders := leaders[r := c.digest];
      needLoad := needLoad[r := c];
    }

    method ChooseFlight(r: Request, q: Lookup) returns (a: Answer)
      requires Valid()
      modifies this
      ensures Valid() && (View(), a) == Choose(old(View()), r, q)
    {
      if q.computed > 0 {
        return Skip;
      }
      var selected := SelectRoot(q.candidates, q.quorum);
      if selected.None? {
        return Skip;
      }
      var c := selected.value;
      if c.digest in flights {
        var f := flights[c.digest];
        if |f.followers| >= MAX_FOLLOWERS {
          return Skip;
        }
        var span := if f.segment.Some? && f.segment.value.span > 0 then f.segment.value.span else c.span;
        var key := if f.segment.Some? then f.segment.value.digest else c.digest;
        Join(c.digest, r, Binding(c.digest, key, span));
        return Wait;
      }
      var joined := JoinSegmentFlight(r, q.candidates, c.digest, q.rows);
      if joined {
        return Wait;
      }
      JoinedOrNot(old(View()), r, q.candidates, c.digest, q.rows);
      var active := set d | d in flights && flights[d].lease.None?;
      assert View() == old(View()) && active == Unpublished(flights);
      if |active| >= maxPending || (r !in needLoad && |needLoad| >= maxPending) {
        return Skip;
      }
      if !q.probe {
        return Skip;
      }
      StartFlight(r, c, Shareable(q.candidates, q.quorum, c.span));
      a := Offer(c.span);
    }

    /** `get_num_new_matched_tokens`, once the scope is valid. */
    method GetNumNewMatchedTokens(r: Request, q: Lookup) returns (a: Answer)
      requires Valid()
      modifies this
      ensures Valid() && Ordered(old(View())) && (View(), a) == Match(old(View()), r, q)
    {
      if r in followers {
        var b := followers[r];
        if q.computed > 0 {
          RemoveRestoreFollower(r);
          return Skip;
        }
        if b.flight in flights && q.computed < b.span {
          return Wait;
        }
        RemoveRestoreFollower(r);
      }
      a := this.AsLeader(r, q);
    }

    method AsLeader(r: Request, q: Lookup) returns (a: Answer)
      requires Valid()
      modifies this
      ensures Valid() && Ordered(old(View())) && (View(), a) == LeadOrChoose(old(View()), r, q)
    {
      if r in leaders && leaders[r] in flights {
        var d := leaders[r];
        var f := flights[d];
        if f.workersFinished && q.computed >= f.span {
          RetireFlight(d);
          return Skip;
        }
        if f.dispatched || r in pending {
          return Wait;
        }
        if q.computed == 0 && d in q.quorum {
          return Offer(f.span);
        }
        needLoad := needLoad - {r};
        RetireFlight(d);
      }
      a := ChooseFlight(r, q);
    }

    method ExpireLeases(now: int)
      requires Valid()
      modifies this
      ensures Valid() && Ordered(old(View())) && View() == Expire(old(View()), now)
    {
      var expired: seq<Digest> := [];
      for n := 0 to |order|
        invariant Valid() && View() == old(View()) && expired == Expired(View(), now, n)
      {
        var lease := flights[order[n]].lease;
        if lease.Some? && lease.value.expiresAt <= now {
          expired := expired + [order[n]];
        }
      }
      RetireEach(expired);
    }

    method LeaseToPublish(r: Request) returns (lease: Option<Candidate>)
      ensures lease == ToPublish(View(), r)
    {
      if r !in leaders || leaders[r] !in flights {
        return None;
      }
      var f := flights[leaders[r]];
      if !f.workersFinished || f.leaderFinished || f.lease.Some? {
        return None;
      }
      lease := Some(LeaseCandidate(f));
    }

    method LeasePublished(r: Request, key: Digest, now: int) returns (ok: bool)
      requires Valid()
      modifies this
      ensures Valid() && Ordered(old(View())) && (View(), ok) == Publish(old(View()), r, key, now)
    {
      if r !in leaders || leaders[r] !in flights {
        return false;
      }
      var d := leaders[r];
      var f := flights[d];
      if !f.workersFinished || LeaseCandidate(f).digest != key {
        return false;
      }
      flights := flights[d := f.(lease := Some(Lease(key, LeaseCandidate(f).span, now, now + ttl)))];
      var published := this.ListPublished();
      var sorted := SortByTime(View(), published);
      RetireEach(if |sorted| <= MAX_LEASES then [] else sorted[..|sorted| - MAX_LEASES]);
      ok := true;
    }

    method ListPublished() returns (ds: seq<Digest>)
      requires Valid()
      ensures ds == PublishedIn(View(), |order|)
    {
      ds := [];
      for n := 0 to |order|
        invariant ds == PublishedIn(View(), n)
      {
        if flights[order[n]].lease.Some? {
          ds := ds + [order[n]];
        }
      }
    }

    method AttachLease(r: Request, candidates: seq<Candidate>, now: int) returns (lease: Option<Candidate>)
      requires Valid()
      modifies this
      ensures Valid() && Ordered(old(View())) && Ordered(Expire(old(View()), now))
      ensures (View(), lease) == Attach(Expire(old(View()), now), r, candidates)
    {
      ExpireLeases(now);
      if r in followers {
        var b := followers[r];
        if b.flight in flights && flights[b.flight].lease.Some? && b.lease == flights[b.flight].lease.value.digest {
          return Some(Candidate(b.span, b.lease));
        }
        return None;
      }
      var found := LeaseFor(View(), candidates);
      if found.None? || found.value !in flights || flights[found.value].lease.None?
         || r == flights[found.value].leader || |flights[found.value].followers| >= MAX_FOLLOWERS {
        return None;
      }
      var held := flights[found.value].lease.value;
      Join(found.value, r, Binding(found.value, held.digest, held.span));
      lease := Some(Candidate(held.span, held.digest));
    }

    method ScopeRejected(r: Request)
      requires Valid()
      modifies this
      ensures Valid() && View() == RejectScope(old(View()), r)
    {
      RemoveRestoreFollower(r);
      if r in leaders && leaders[r] in flights && !flights[leaders[r]].dispatched {
        RetireFlight(leaders[r]);
      }
    }

    method LeaseRejected(r: Request, key: Digest)
      requires Valid()
      modifies this
      ensures Valid() && View() == RejectLease(old(View()), r, key)
    {
      if r in followers && followers[r].lease == key {
        RemoveRestoreFollower(r);
      }
      if r in leaders && leaders[r] in flights {
        RetireFlight(leaders[r]);
      }
    }

    method UpdateStateAfterAlloc(r: Request, external: int, blocks: set<Block>)
      requires Valid()
      modifies this
      ensures Valid() && View() == Allocated(old(View()), r, external, blocks)
    {
      if r !in needLoad {
        return;
      }
      var c := needLoad[r];
      needLoad := needLoad - {r};
      if external <= 0 {
        RetireFlight(c.digest);
      } else {
        pending := pending[r := (c.digest, blocks)];
      }
    }

    /** Every pending load goes out, in dictionary order. */
    method DispatchPending(rs: seq<Request>)
      requires Valid()
      modifies this
      ensures Valid() && View() == Dispatch(old(View()), rs)
    {
      for n := 0 to |rs|
        invariant Valid() && View() == Dispatch(old(View()), rs[..n])
      {
        assert rs[..n + 1][..n] == rs[..n];
        if rs[n] in pending {
          var r := rs[n];
          var (d, blocks) := pending[r];
          admitted := admitted[r := (d, blocks)];
          if d in flights && flights[d].leader == r {
            flights := flights[d := flights[d].(blocks := blocks, dispatched := true)];
          }
          pending := pending - {r};
        }
      }
      assert rs[..|rs|] == rs;
    }

    method RequestFinished(r: Request, normal: bool)
      requires Valid()
      modifies this
      ensures Valid() && View() == Finished(old(View()), r, normal)
    {
      RemoveRestoreFollower(r);
      if r in leaders && leaders[r] in flights {
        var d := leaders[r];
        var f := flights[d];
        if f.dispatched {
          if f.lease.Some? {
            leaders := leaders - {r};
            flights := flights[d := f.(leaderFinished := true)];
          } else if f.workersFinished && normal {
            RetireFlight(d);
          } else if f.workersFinished {
            RetireFlight(d);
          } else {
            flights := flights[d := f.(leaderFinished := true)];
          }
        } else {
          RetireFlight(d);
        }
      }
      needLoad := needLoad - {r};
      pending := pending - {r};
      admitted := admitted - {r};
    }

    method UpdateConnectorOutput(rs: seq<Request>, invalid: set<Block>, received: seq<Request>)
      requires Valid()
      modifies this
      ensures Valid() && View() == WorkerOutput(old(View()), rs, invalid, received)
    {
      FailAdmissions(rs, invalid);
      var damaged: seq<Digest> := [];
      ghost var failed := View();
      for n := 0 to |order|
        invariant Valid() && View() == failed && damaged == Damaged(failed, invalid, n)
      {
        if flights[order[n]].blocks * invalid != {} {
          damaged := damaged + [order[n]];
        }
      }
      RetireEach(damaged);
      ghost var cleared := View();
      for n := 0 to |received|
        invariant Valid() && View() == Complete(cleared, received[..n])
      {
        assert received[..n + 1][..n] == received[..n];
        CompleteRequest(received[n]);
      }
      assert received[..|received|] == received;
    }

    method FailAdmissions(rs: seq<Request>, invalid: set<Block>)
      requires Valid()
      modifies this
      ensures Valid() && View() == FailAdmitted(old(View()), rs, invalid)
    {
      for n := 0 to |rs|
        invariant Valid() && View() == FailAdmitted(old(View()), rs[..n], invalid)
      {
        assert rs[..n + 1][..n] == rs[..n];
        var r := rs[n];
        if r in admitted && admitted[r].1 * invalid != {} {
          var d := admitted[r].0;
          admitted := admitted - {r};
          RetireFlight(d);
        }
      }
      assert rs[..|rs|] == rs;
    }

    method CompleteRequest(r: Request)
      requires Valid()
      modifies this
      ensures Valid() && View() == CompleteOne(old(View()), r)
    {
      if r in leaders && leaders[r] in flights {
        var d := leaders[r];
        if flights[d].leaderFinished {
          RetireFlight(d);
        } else {
          flights := flights[d := flights[d].(workersFinished := true)];
        }
      }
    }
  }

  lemma JoinedOrNot(k: Desk, r: Request, candidates: seq<Candidate>, selected: Digest, rows: bool)
    requires Ordered(k)
    ensures !JoinSegment(k, r, candidates, selected, rows).1 ==> JoinSegment(k, r, candidates, selected, rows).0 == k
  {
  }

  method LongestCommon(f: Flight, offers: map<Digest, nat>) returns (found: Option<Candidate>)
    ensures found == CommonPrefix(f, offers, |f.prefixes|)
  {
    var n: nat := |f.prefixes|;
    while n > 0
      invariant CommonPrefix(f, offers, |f.prefixes|) == CommonPrefix(f, offers, n)
    {
      var p := f.prefixes[n - 1];
      if p.digest in offers && offers[p.digest] == p.span && (f.segment.None? || f.segment.value.digest == p.digest) {
        return Some(p);
      }
      n := n - 1;
    }
    found := None;
  }

  method CollectOffers(candidates: seq<Candidate>) returns (offers: map<Digest, nat>)
    ensures offers == Offers(candidates)
  {
    offers := map[];
    for n := 0 to |candidates|
      invariant offers == Offers(candidates[..n])
    {
      assert candidates[..n + 1][..n] == candidates[..n];
      offers := offers[candidates[n].digest := candidates[n].span];
    }
    assert candidates[..|candidates|] == candidates;
  }

  method SelectRoot(cs: seq<Candidate>, quorum: set<Digest>) returns (c: Option<Candidate>)
    ensures c == Selected(cs, quorum)
  {
    var n: nat := |cs|;
    assert cs[..n] == cs;
    while n > 0
      invariant Selected(cs, quorum) == Selected(cs[..n], quorum)
    {
      if cs[n - 1].digest in quorum {
        return Some(cs[n - 1]);
      }
      assert cs[..n][..n - 1] == cs[..n - 1];
      n := n - 1;
    }
    c := None;
  }
}
