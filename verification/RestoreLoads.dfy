// From an offer to a finished restore: which loads go to the workers, what their
// answers do to the flights, and that no started restore is ever forgotten.
module RestoreLoads {
  import opened Common
  import opened RestoreModel
  import opened RestoreInvariant
  import opened RestoreCallbacks
  import opened RestoreAnswers
  import opened RestoreOutcomes
  import opened RestoreTheorems

  // ---- sending loads ----

  /** The flight as one dispatch of these requests leaves it. */
  function Sent(k: Desk, rs: seq<Request>, d: Digest): Flight
    requires d in k.flights
  {
    var f := k.flights[d];
    if f.leader in rs && f.leader in k.pending && k.pending[f.leader].0 == d
    then f.(blocks := k.pending[f.leader].1, dispatched := true) else f
  }

  /** What dispatching these requests leaves. */
  ghost predicate Dispatches(k: Desk, j: Desk, rs: seq<Request>) {
    && j == k.(flights := j.flights, pending := j.pending, admitted := j.admitted)
    && j.flights.Keys == k.flights.Keys && (forall d :: d in k.flights ==> j.flights[d] == Sent(k, rs, d))
    && LoadsSent(k, j, rs)
  }

  /** Their loads are no longer pending but admitted. */
  ghost predicate LoadsSent(k: Desk, j: Desk, rs: seq<Request>) {
    && (forall r :: r in j.pending <==> r in k.pending && r !in rs)
    && (forall r :: r in j.pending ==> j.pending[r] == k.pending[r])
    && (forall r :: r in j.admitted <==> r in k.admitted || (r in rs && r in k.pending))
    && forall r :: r in j.admitted ==>
         j.admitted[r] == if r in rs && r in k.pending then k.pending[r] else k.admitted[r]
  }

  lemma NothingSent(k: Desk)
    ensures Dispatches(k, k, [])
  {
  }

  lemma LoadsSentNext(k: Desk, before: Desk, j: Desk, front: seq<Request>, r: Request)
    requires LoadsSent(k, before, front)
    requires if r in before.pending
             then j.pending == before.pending - {r} && j.admitted == before.admitted[r := before.pending[r]]
             else j.pending == before.pending && j.admitted == before.admitted
    ensures LoadsSent(k, j, front + [r])
  {
    assert forall q :: q in front + [r] <==> q in front || q == r;
  }

  lemma SentNext(k: Desk, before: Desk, j: Desk, front: seq<Request>, r: Request, d: Digest)
    requires d in k.flights && d in before.flights && d in j.flights
    requires before.flights[d] == Sent(k, front, d) && LoadsSent(k, before, front)
    requires j.flights[d] == if r in before.pending && before.flights[d].leader == r && before.pending[r].0 == d
                             then before.flights[d].(blocks := before.pending[r].1, dispatched := true)
                             else before.flights[d]
    ensures j.flights[d] == Sent(k, front + [r], d)
  {
    assert forall q :: q in front + [r] <==> q in front || q == r;
  }

  lemma DispatchesNext(k: Desk, before: Desk, front: seq<Request>, r: Request)
    requires Dispatches(k, before, front)
    ensures Dispatches(k, if r in before.pending then DispatchOne(before, r) else before, front + [r])
  {
    var j := if r in before.pending then DispatchOne(before, r) else before;
    if r in before.pending {
      DispatchOneExactly(before, r);
    }
    hide DispatchOne, Sent, LoadsSent;
    LoadsSentNext(k, before, j, front, r);
    forall d | d in k.flights
      ensures j.flights[d] == Sent(k, front + [r], d)
    {
      SentNext(k, before, j, front, r, d);
    }
  }

  /** Dispatch sends exactly the pending loads of the listed requests: each marks
      the flight its request leads, with its blocks, and nothing else is touched. */
  lemma {:induction false} DispatchExactly(k: Desk, rs: seq<Request>)
    ensures Dispatches(k, Dispatch(k, rs), rs)
  {
    if rs == [] {
      NothingSent(k);
    } else {
      var front := rs[..|rs| - 1];
      DispatchExactly(k, front);
      hide Dispatches, DispatchOne;
      DispatchesNext(k, Dispatch(k, front), front, rs[|rs| - 1]);
      assert rs == front + [rs[|rs| - 1]];
    }
  }

  lemma DispatchOneExactly(k: Desk, r: Request)
    requires r in k.pending
    ensures var j := DispatchOne(k, r);
            && j == k.(flights := j.flights, pending := k.pending - {r}, admitted := k.admitted[r := k.pending[r]])
            && j.flights.Keys == k.flights.Keys
            && forall d :: d in k.flights ==>
                 j.flights[d] == if k.flights[d].leader == r && k.pending[r].0 == d
                                 then k.flights[d].(blocks := k.pending[r].1, dispatched := true) else k.flights[d]
  {
    var (d, blocks) := k.pending[r];
    assert k.pending[r] == (d, blocks);
  }

  // ---- what workers answer ----

  /** Some listed admission of this root was hit by an invalid block. */
  predicate Failed(k: Desk, rs: seq<Request>, invalid: set<Block>, d: Digest) {
    exists r :: r in rs && r in k.admitted && k.admitted[r].1 * invalid != {} && k.admitted[r].0 == d
  }

  /** What retiring some flights leaves: the others, and exactly their leaders. */
  ghost predicate Kept(k: Desk, j: Desk) {
    && (forall d :: d in j.flights ==> d in k.flights && j.flights[d] == k.flights[d])
    && (forall r :: r in j.leaders <==> r in k.leaders && k.leaders[r] in j.flights)
    && forall r :: r in j.leaders ==> j.leaders[r] == k.leaders[r]
  }

  lemma RetireKept(k: Desk, d: Digest, fin: set<Request>)
    requires Sound(k, fin)
    ensures Kept(k, Retire(k, d)) && forall e :: e in Retire(k, d).flights <==> e in k.flights && e != d
  {
    hide *;
    LedParts(k, fin);
    LeadersStored(k);
    KeptSelf(k, fin);
    if d in k.flights {
      RetireWell(k, d);
      KeptWithout(k, Retire(k, d), d);
    } else {
      RetireNothing(k, d);
    }
  }

  lemma RetireNothing(k: Desk, d: Digest)
    requires d !in k.flights
    ensures Retire(k, d) == k
  {
  }

  lemma KeptWithout(k: Desk, j: Desk, d: Digest)
    requires j.flights == k.flights - {d} && forall q :: q in k.leaders ==> k.leaders[q] in k.flights
    requires forall q :: q in j.leaders <==> q in k.leaders && k.leaders[q] != d
    requires forall q :: q in j.leaders ==> j.leaders[q] == k.leaders[q]
    ensures Kept(k, j)
  {
  }

  lemma KeptOn(a: Desk, b: Desk, c: Desk)
    requires Kept(a, b) && Kept(b, c)
    ensures Kept(a, c)
  {
  }

  lemma KeptSelf(k: Desk, fin: set<Request>)
    requires Sound(k, fin)
    ensures Kept(k, k)
  {
    hide Linked, Counted;
    assert forall r :: r in k.leaders ==> LeaderOk(k, r);
  }

  lemma {:induction false} RetireAllKept(k: Desk, ds: seq<Digest>, fin: set<Request>)
    requires Sound(k, fin)
    ensures Kept(k, RetireAll(k, ds)) && Sound(RetireAll(k, ds), fin)
    ensures forall d :: d in RetireAll(k, ds).flights <==> d in k.flights && d !in ds
  {
    RetireAllIs(k, ds);
    RetireAllSound(k, ds, fin);
    if ds == [] {
      KeptSelf(k, fin);
    } else {
      var before := RetireAll(k, ds[..|ds| - 1]);
      RetireAllKept(k, ds[..|ds| - 1], fin);
      RetireKept(before, ds[|ds| - 1], fin);
      hide Sound, Retire, Kept;
      KeptOn(k, before, Retire(before, ds[|ds| - 1]));
    }
  }

  lemma {:induction false} FailExactly(k: Desk, rs: seq<Request>, invalid: set<Block>, fin: set<Request>)
    requires Sound(k, fin)
    ensures var j := FailAdmitted(k, rs, invalid);
            && Kept(k, j) && Sound(j, fin)
            && (forall d :: d in j.flights <==> d in k.flights && !Failed(k, rs, invalid, d))
            && (forall r :: r in j.admitted <==>
                  r in k.admitted && !(r in rs && k.admitted[r].1 * invalid != {}))
            && (forall r :: r in j.admitted ==> j.admitted[r] == k.admitted[r])
  {
    FailAdmittedSound(k, rs, invalid, fin);
    if rs == [] {
      KeptSelf(k, fin);
    } else {
      var front, r := rs[..|rs| - 1], rs[|rs| - 1];
      FailExactly(k, front, invalid, fin);
      assert forall q :: q in rs <==> q in front || q == r;
      FailedMore(k, rs, invalid);
      var before := FailAdmitted(k, front, invalid);
      var left := before.(admitted := before.admitted - {r});
      LeftSound(before, left, fin);
      if r in before.admitted {
        RetireKept(left, before.admitted[r].0, fin);
      }
      hide Failed, Retire, Sound, Kept;
      KeptSelf(left, fin);
      if r in before.admitted && before.admitted[r].1 * invalid != {} {
        FailStep(k, before, left, Retire(left, before.admitted[r].0));
        RetireAdmitted(left, before.admitted[r].0);
      }
    }
  }

  lemma RetireAdmitted(k: Desk, d: Digest)
    ensures Retire(k, d).admitted == k.admitted
  {
  }

  lemma FailStep(k: Desk, before: Desk, left: Desk, j: Desk)
    requires Kept(k, before) && left.flights == before.flights && left.leaders == before.leaders && Kept(left, j)
    ensures Kept(k, j)
  {
  }

  lemma LeftSound(k: Desk, left: Desk, fin: set<Request>)
    requires Sound(k, fin) && left == k.(admitted := left.admitted)
    ensures Sound(left, fin)
  {
    SameFlights(k, left, fin);
  }

  lemma FailedMore(k: Desk, rs: seq<Request>, invalid: set<Block>)
    requires rs != []
    ensures forall d :: Failed(k, rs, invalid, d) <==>
              Failed(k, rs[..|rs| - 1], invalid, d)
              || (var r := rs[|rs| - 1]; r in k.admitted && k.admitted[r].1 * invalid != {} && k.admitted[r].0 == d)
  {
    var front, r := rs[..|rs| - 1], rs[|rs| - 1];
    assert forall q :: q in rs <==> q in front || q == r;
  }

  lemma {:induction false} DamagedExactly(k: Desk, invalid: set<Block>, n: nat)
    requires n <= |k.order| && Ordered(k)
    ensures forall d :: d in Damaged(k, invalid, n) <==> d in k.order[..n] && k.flights[d].blocks * invalid != {}
  {
    if n > 0 {
      DamagedExactly(k, invalid, n - 1);
      assert k.order[..n] == k.order[..n - 1] + [k.order[n - 1]];
    }
  }

  /** A listed request leads this flight. */
  predicate Landed(k: Desk, rs: seq<Request>, d: Digest) {
    exists r :: r in rs && r in k.leaders && k.leaders[r] == d
  }

  /** Leaders lead, and no two flights have the same one. */
  ghost predicate LedWell(k: Desk) {
    && (forall r :: r in k.leaders ==> LeaderOk(k, r))
    && forall d, e :: d in k.flights && e in k.flights && d != e ==> k.flights[d].leader != k.flights[e].leader
  }

  /** A flight that is completed, or not: gone if its leader has finished, else
      finished by the workers. */
  ghost predicate CompletedAt(k: Desk, j: Desk, completed: bool, d: Digest) {
    && (d in j.flights <==> d in k.flights && !(completed && k.flights[d].leaderFinished))
    && (d in j.flights ==>
          j.flights[d] == if completed then k.flights[d].(workersFinished := true) else k.flights[d])
  }

  /** Leaders stay exactly with the flights that stay. */
  ghost predicate LeadersKept(k: Desk, j: Desk) {
    && (forall r :: r in j.leaders <==> r in k.leaders && k.leaders[r] in j.flights)
    && forall r :: r in j.leaders ==> j.leaders[r] == k.leaders[r]
  }

  /** What completions of these requests leave. */
  ghost predicate Completed(k: Desk, j: Desk, rs: seq<Request>) {
    LeadersKept(k, j) && forall d :: CompletedAt(k, j, Landed(k, rs, d), d)
  }

  lemma CompletedFlights(k: Desk, j: Desk, rs: seq<Request>)
    requires Completed(k, j, rs)
    ensures forall d :: d in j.flights <==> d in k.flights && !(Landed(k, rs, d) && k.flights[d].leaderFinished)
    ensures forall d :: d in j.flights ==>
              j.flights[d] == if Landed(k, rs, d) then k.flights[d].(workersFinished := true) else k.flights[d]
  {
    hide Landed;
    forall d
      ensures d in j.flights <==> d in k.flights && !(Landed(k, rs, d) && k.flights[d].leaderFinished)
      ensures d in j.flights ==>
                j.flights[d] == if Landed(k, rs, d) then k.flights[d].(workersFinished := true) else k.flights[d]
    {
      assert CompletedAt(k, j, Landed(k, rs, d), d);
    }
  }

  lemma CompletedWell(k: Desk, j: Desk, rs: seq<Request>)
    requires LedWell(k) && Completed(k, j, rs)
    ensures LedWell(j)
  {
    CompletedFlights(k, j, rs);
    hide Landed, CompletedAt;
    forall r | r in j.leaders
      ensures LeaderOk(j, r)
    {
      assert LeaderOk(k, r);
    }
  }

  predicate Leads(k: Desk, r: Request, d: Digest) {
    r in k.leaders && k.leaders[r] == d
  }

  /** What one completion leaves. */
  ghost predicate CompletedOne(k: Desk, j: Desk, r: Request) {
    LeadersKept(k, j) && forall d :: CompletedAt(k, j, Leads(k, r, d), d)
  }

  lemma RetireWell(k: Desk, d: Digest)
    requires LedWell(k) && d in k.flights
    ensures var j := Retire(k, d);
            && j.flights == k.flights - {d}
            && (forall q :: q in j.leaders <==> q in k.leaders && k.leaders[q] != d)
            && forall q :: q in j.leaders ==> j.leaders[q] == k.leaders[q]
  {
    hide Remove;
    forall q | q in k.leaders
      ensures k.leaders[q] == d <==> q == k.flights[d].leader
    {
      assert LeaderOk(k, q);
    }
  }

  lemma CompleteOneExactly(k: Desk, r: Request)
    requires LedWell(k)
    ensures CompletedOne(k, CompleteOne(k, r), r)
  {
    LeadersStored(k);
    if r in k.leaders {
      RetireWell(k, k.leaders[r]);
    }
    hide LedWell, Retire;
  }

  lemma LeadersStored(k: Desk)
    requires LedWell(k)
    ensures forall q :: q in k.leaders ==> k.leaders[q] in k.flights
  {
    assert forall q :: q in k.leaders ==> LeaderOk(k, q);
  }

  lemma CompletedAtOn(k: Desk, before: Desk, j: Desk, first: bool, r: Request, d: Digest)
    requires CompletedAt(k, before, first, d) && CompletedAt(before, j, Leads(before, r, d), d) && LeadersKept(k, before)
    ensures CompletedAt(k, j, first || Leads(k, r, d), d)
  {
    if d in before.flights {
      assert Leads(before, r, d) <==> Leads(k, r, d);
    }
  }

  lemma CompletedOn(k: Desk, before: Desk, j: Desk, front: seq<Request>, r: Request)
    requires Completed(k, before, front) && CompletedOne(before, j, r)
    ensures Completed(k, j, front + [r])
  {
    var rs := front + [r];
    assert rs[..|rs| - 1] == front && rs[|rs| - 1] == r;
    LandedMore(k, rs);
    forall d
      ensures CompletedAt(k, j, Landed(k, rs, d), d)
    {
      hide Landed, Leads, LeadersKept;
      assert CompletedAt(k, before, Landed(k, front, d), d) && CompletedAt(before, j, Leads(before, r, d), d);
      CompletedAtOn(k, before, j, Landed(k, front, d), r, d);
      LandedOrLeads(k, front, r, d);
    }
    LeadersKeptOn(k, before, j, front, r);
  }

  lemma LandedOrLeads(k: Desk, front: seq<Request>, r: Request, d: Digest)
    ensures Landed(k, front + [r], d) <==> Landed(k, front, d) || Leads(k, r, d)
  {
    var rs := front + [r];
    assert rs[..|rs| - 1] == front && rs[|rs| - 1] == r;
    LandedMore(k, rs);
  }

  lemma LeadersKeptOn(k: Desk, before: Desk, j: Desk, front: seq<Request>, r: Request)
    requires Completed(k, before, front) && CompletedOne(before, j, r)
    ensures LeadersKept(k, j)
  {
    hide Landed, Leads;
    forall q | q in k.leaders && k.leaders[q] in j.flights
      ensures k.leaders[q] in before.flights
    {
      assert CompletedAt(before, j, Leads(before, r, k.leaders[q]), k.leaders[q]);
    }
    forall q | q in j.leaders
      ensures q in before.leaders && k.leaders[q] in j.flights
    {
    }
  }

  lemma NoneCompleted(k: Desk)
    requires LedWell(k)
    ensures Completed(k, k, [])
  {
    assert forall q :: q in k.leaders ==> LeaderOk(k, q);
  }

  lemma {:induction false} CompleteExactly(k: Desk, rs: seq<Request>)
    requires LedWell(k)
    ensures Completed(k, Complete(k, rs), rs)
  {
    if rs == [] {
      NoneCompleted(k);
    } else {
      var front, r := rs[..|rs| - 1], rs[|rs| - 1];
      var before := Complete(k, front);
      CompleteExactly(k, front);
      hide LedWell, Completed, CompletedOne, CompleteOne;
      CompletedWell(k, before, front);
      CompleteOneExactly(before, r);
      CompletedOn(k, before, CompleteOne(before, r), front, r);
      assert rs == front + [r];
    }
  }

  lemma LandedMore(k: Desk, rs: seq<Request>)
    requires rs != []
    ensures forall d :: Landed(k, rs, d) <==>
              Landed(k, rs[..|rs| - 1], d) || (var r := rs[|rs| - 1]; r in k.leaders && k.leaders[r] == d)
  {
    var front, r := rs[..|rs| - 1], rs[|rs| - 1];
    assert forall q :: q in rs <==> q in front || q == r;
  }

  /** Which flights survive what the workers report. */
  predicate Survives(
    k: Desk, admitted: seq<Request>, invalid: set<Block>, received: seq<Request>, d: Digest)
    requires d in k.flights
  {
    && !Failed(k, admitted, invalid, d) && k.flights[d].blocks * invalid == {}
    && !(Landed(k, received, d) && k.flights[d].leaderFinished)
  }

  /** What the workers' errors leave. */
  ghost predicate Cleared(k: Desk, j: Desk, admitted: seq<Request>, invalid: set<Block>) {
    forall d :: d in j.flights <==> d in k.flights && !Failed(k, admitted, invalid, d) && k.flights[d].blocks * invalid == {}
  }

  function ClearedDesk(k: Desk, admitted: seq<Request>, invalid: set<Block>): Desk
    requires Ordered(FailAdmitted(k, admitted, invalid))
  {
    var failed := FailAdmitted(k, admitted, invalid);
    RetireAll(failed, Damaged(failed, invalid, |failed.order|))
  }

  lemma OutputIs(k: Desk, admitted: seq<Request>, invalid: set<Block>, received: seq<Request>)
    requires Ordered(FailAdmitted(k, admitted, invalid))
    ensures WorkerOutput(k, admitted, invalid, received) == Complete(ClearedDesk(k, admitted, invalid), received)
  {
    hide FailAdmitted, Damaged, RetireAll, Complete;
  }

  lemma HitExactly(k: Desk, invalid: set<Block>)
    requires OrderOk(k) && Ordered(k)
    ensures forall d :: d in Damaged(k, invalid, |k.order|) <==> d in k.flights && k.flights[d].blocks * invalid != {}
  {
    DamagedExactly(k, invalid, |k.order|);
    assert k.order[..|k.order|] == k.order;
    hide Damaged, Distinct;
  }

  lemma ClearedParts(
    k: Desk, failed: Desk, j: Desk, admitted: seq<Request>, invalid: set<Block>, hit: seq<Digest>)
    requires forall d :: d in failed.flights <==> d in k.flights && !Failed(k, admitted, invalid, d)
    requires forall d :: d in failed.flights ==> d in k.flights && failed.flights[d] == k.flights[d]
    requires forall d :: d in hit <==> d in failed.flights && failed.flights[d].blocks * invalid != {}
    requires forall d :: d in j.flights <==> d in failed.flights && d !in hit
    ensures Cleared(k, j, admitted, invalid)
  {
    hide Failed;
  }

  lemma ClearExactly(k: Desk, admitted: seq<Request>, invalid: set<Block>, fin: set<Request>)
    requires Sound(k, fin)
    ensures Ordered(FailAdmitted(k, admitted, invalid))
    ensures var j := ClearedDesk(k, admitted, invalid);
            Sound(j, fin) && Kept(k, j) && Cleared(k, j, admitted, invalid)
  {
    hide *;
    var failed := FailAdmitted(k, admitted, invalid);
    FailExactly(k, admitted, invalid, fin);
    SoundOrdered(failed, fin);
    SoundParts(failed, fin);
    var hit := Damaged(failed, invalid, |failed.order|);
    HitExactly(failed, invalid);
    var j := RetireAll(failed, hit);
    RetireAllKept(failed, hit, fin);
    KeptOn(k, failed, j);
    KeptFlights(k, failed);
    ClearedParts(k, failed, j, admitted, invalid, hit);
    ClearedIs(k, admitted, invalid);
  }

  lemma ClearedIs(k: Desk, admitted: seq<Request>, invalid: set<Block>)
    requires Ordered(FailAdmitted(k, admitted, invalid))
    ensures var failed := FailAdmitted(k, admitted, invalid);
            ClearedDesk(k, admitted, invalid) == RetireAll(failed, Damaged(failed, invalid, |failed.order|))
  {
  }

  /** Workers' answers, exactly. A flight goes if a listed admission of its root or
      its own blocks were hit, or if it completes for a leader that has finished;
      every other flight stays as it is, finished by the workers if its leader's
      load has been received. */
  lemma WorkersExactly(
    k: Desk, admitted: seq<Request>, invalid: set<Block>, received: seq<Request>, fin: set<Request>)
    requires Sound(k, fin)
    ensures var j := WorkerOutput(k, admitted, invalid, received);
            && (forall d :: d in j.flights <==> d in k.flights && Survives(k, admitted, invalid, received, d))
            && forall d :: d in j.flights ==>
                 j.flights[d]
                 == if Landed(k, received, d) then k.flights[d].(workersFinished := true) else k.flights[d]
  {
    hide *;
    ClearExactly(k, admitted, invalid, fin);
    OutputIs(k, admitted, invalid, received);
    var cleared := ClearedDesk(k, admitted, invalid);
    LedParts(cleared, fin);
    CompleteExactly(cleared, received);
    KeptLanded(k, cleared, received);
    KeptFlights(k, cleared);
    WorkersGlue(k, cleared, WorkerOutput(k, admitted, invalid, received), admitted, invalid, received);
  }

  lemma WorkersGlue(
    k: Desk, cleared: Desk, j: Desk, admitted: seq<Request>, invalid: set<Block>, received: seq<Request>)
    requires Cleared(k, cleared, admitted, invalid) && Completed(cleared, j, received)
    requires forall d :: d in cleared.flights ==> d in k.flights && cleared.flights[d] == k.flights[d]
    requires forall d :: d in cleared.flights ==> (Landed(cleared, received, d) <==> Landed(k, received, d))
    ensures forall d :: d in j.flights <==> d in k.flights && Survives(k, admitted, invalid, received, d)
    ensures forall d :: d in j.flights ==>
              j.flights[d] == if Landed(k, received, d) then k.flights[d].(workersFinished := true) else k.flights[d]
  {
    CompletedFlights(cleared, j, received);
    hide Landed, Failed, Completed;
  }

  lemma KeptFlights(k: Desk, j: Desk)
    requires Kept(k, j)
    ensures forall d :: d in j.flights ==> d in k.flights && j.flights[d] == k.flights[d]
  {
  }

  lemma LedParts(k: Desk, fin: set<Request>)
    requires Sound(k, fin)
    ensures LedWell(k)
  {
    hide Linked, Counted, LeaderOk;
  }

  lemma KeptLanded(k: Desk, j: Desk, rs: seq<Request>)
    requires Kept(k, j)
    ensures forall d :: d in j.flights ==> (Landed(j, rs, d) <==> Landed(k, rs, d))
  {
  }
}
