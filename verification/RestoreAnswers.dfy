// What a lookup takes and answers: the longest root every rank offers, the
// longest trunk shared with a flight that can still be joined, and when it waits,
// offers or skips.
module RestoreAnswers {
  import opened Common
  import opened RestoreModel
  import opened RestoreInvariant
  import opened RestoreCallbacks

  // ---- the root ----

  /** Shortest first, as the prefixes of one request come. */
  predicate Ascend(cs: seq<Candidate>) {
    forall i, j :: 0 <= i < j < |cs| ==> cs[i].span < cs[j].span
  }

  /** The root every rank offers, and no longer candidate is offered by all. */
  predicate Longest(cs: seq<Candidate>, quorum: set<Digest>, c: Candidate) {
    c in cs && c.digest in quorum && forall e :: e in cs && e.digest in quorum ==> e.span <= c.span
  }

  lemma AscendFront(cs: seq<Candidate>)
    requires Ascend(cs) && cs != []
    ensures Ascend(cs[..|cs| - 1])
    ensures forall e :: e in cs[..|cs| - 1] ==> e.span < cs[|cs| - 1].span
    ensures forall e :: e in cs <==> e in cs[..|cs| - 1] || e == cs[|cs| - 1]
  {
    assert cs == cs[..|cs| - 1] + [cs[|cs| - 1]];
  }

  lemma {:induction false} SelectedExactly(cs: seq<Candidate>, quorum: set<Digest>)
    requires Ascend(cs)
    ensures var s := Selected(cs, quorum);
            && (s.None? <==> forall e :: e in cs ==> e.digest !in quorum)
            && forall c :: Longest(cs, quorum, c) <==> s == Some(c)
  {
    if cs != [] {
      AscendFront(cs);
      SelectedExactly(cs[..|cs| - 1], quorum);
      hide Ascend;
      var last := cs[|cs| - 1];
      forall c
        ensures Longest(cs, quorum, c) <==> Selected(cs, quorum) == Some(c)
      {
        if last.digest !in quorum {
          assert Longest(cs, quorum, c) <==> Longest(cs[..|cs| - 1], quorum, c);
        } else if Longest(cs, quorum, c) {
          assert last in cs && last.span <= c.span;
        }
      }
    }
  }

  // ---- the prefixes a new flight can share ----

  lemma {:induction false} ShorterExactly(cs: seq<Candidate>, quorum: set<Digest>, span: nat)
    requires Ascend(cs)
    ensures var s := Shorter(cs, quorum, span);
            Ascend(s) && forall p :: p in s <==> p in cs && p.span < span && p.digest in quorum
  {
    if cs != [] {
      AscendFront(cs);
      ShorterExactly(cs[..|cs| - 1], quorum, span);
      var front, last := Shorter(cs[..|cs| - 1], quorum, span), cs[|cs| - 1];
      forall p | p in front
        ensures p.span < last.span
      {
        assert p in cs[..|cs| - 1];
      }
    }
  }

  /** A new flight lists the offered roots shorter than its own, the longest
      sixty-four of them, shortest first. */
  ghost predicate ListsPrefixes(cs: seq<Candidate>, quorum: set<Digest>, span: nat, prefixes: seq<Candidate>) {
    && Ascend(prefixes) && |prefixes| <= MAX_PREFIXES
    && (forall p :: p in prefixes ==> p in cs && p.span < span && p.digest in quorum)
    && forall p :: p in cs && p.span < span && p.digest in quorum && p !in prefixes ==>
         |prefixes| == MAX_PREFIXES && forall e :: e in prefixes ==> p.span < e.span
  }

  lemma LaterPart(all: seq<Candidate>, n: nat)
    requires Ascend(all) && n <= |all|
    ensures Ascend(all[n..]) && forall p :: p in all[n..] ==> p in all
    ensures forall p, e :: p in all && p !in all[n..] && e in all[n..] ==> p.span < e.span
  {
    var kept := all[n..];
    forall p, e | p in all && p !in kept && e in kept
      ensures p.span < e.span
    {
      var i :| 0 <= i < |all| && all[i] == p;
      var j :| 0 <= j < |kept| && kept[j] == e;
      InLaterPart(all, n, i);
      assert all[n + j] == e;
    }
  }

  lemma InLaterPart(all: seq<Candidate>, n: nat, i: nat)
    requires n <= |all| && i < |all|
    ensures i >= n ==> all[i] in all[n..]
  {
    if i >= n {
      assert all[n..][i - n] == all[i];
    }
  }

  lemma ShareableIs(cs: seq<Candidate>, quorum: set<Digest>, span: nat) returns (n: nat)
    ensures n <= |Shorter(cs, quorum, span)| && Shareable(cs, quorum, span) == Shorter(cs, quorum, span)[n..]
    ensures n == 0 || |Shareable(cs, quorum, span)| == MAX_PREFIXES
    ensures |Shareable(cs, quorum, span)| <= MAX_PREFIXES
  {
    var all := Shorter(cs, quorum, span);
    hide Shorter;
    n := if |all| <= MAX_PREFIXES then 0 else |all| - MAX_PREFIXES;
  }

  lemma ShareableExactly(cs: seq<Candidate>, quorum: set<Digest>, span: nat)
    requires Ascend(cs)
    ensures ListsPrefixes(cs, quorum, span, Shareable(cs, quorum, span))
  {
    ShorterExactly(cs, quorum, span);
    var n := ShareableIs(cs, quorum, span);
    var all := Shorter(cs, quorum, span);
    hide Shorter, Shareable, Ascend;
    LaterPart(all, n);
    if n == 0 {
      assert all[n..] == all;
    }
  }

  // ---- the trunk ----

  /** The request offers this very prefix: its last word on that digest. */
  predicate Offered(cs: seq<Candidate>, p: Candidate) {
    exists i :: 0 <= i < |cs| && cs[i] == p && forall j :: i < j < |cs| ==> cs[j].digest != p.digest
  }

  lemma {:induction false} OffersExactly(cs: seq<Candidate>, p: Candidate)
    ensures p.digest in Offers(cs) && Offers(cs)[p.digest] == p.span <==> Offered(cs, p)
    ensures p.digest in Offers(cs) <==> exists i :: 0 <= i < |cs| && cs[i].digest == p.digest
  {
    if cs != [] {
      var front, last := cs[..|cs| - 1], cs[|cs| - 1];
      OffersExactly(front, p);
      OfferedFront(front, last, p);
      assert cs == front + [last];
      if last.digest == p.digest {
        assert cs[|cs| - 1].digest == p.digest;
      } else if i :| 0 <= i < |front| && front[i].digest == p.digest {
        assert cs[i].digest == p.digest;
      }
    }
  }

  lemma OfferedFront(front: seq<Candidate>, last: Candidate, p: Candidate)
    ensures Offered(front + [last], p) <==> p == last || (last.digest != p.digest && Offered(front, p))
  {
    var cs := front + [last];
    if p == last {
      assert cs[|front|] == p;
    } else if last.digest != p.digest && Offered(front, p) {
      var i :| 0 <= i < |front| && front[i] == p && forall j :: i < j < |front| ==> front[j].digest != p.digest;
      assert cs[i] == p && forall j :: i < j < |cs| ==> cs[j].digest != p.digest;
    }
    if Offered(cs, p) && p != last {
      var i :| 0 <= i < |cs| && cs[i] == p && forall j :: i < j < |cs| ==> cs[j].digest != p.digest;
      assert i < |front| && cs[|front|].digest != p.digest;
      assert front[i] == p && forall j :: i < j < |front| ==> front[j].digest != p.digest by {
        forall j | i < j < |front|
          ensures front[j].digest != p.digest
        {
          assert cs[j] == front[j];
        }
      }
    }
  }

  /** The flight and the request share this prefix, and no other trunk is set. */
  predicate Shares(f: Flight, cs: seq<Candidate>, p: Candidate) {
    p in f.prefixes && Offered(cs, p) && (f.segment.None? || f.segment.value.digest == p.digest)
  }

  lemma {:induction false} CommonExactly(f: Flight, cs: seq<Candidate>, n: nat)
    requires Ascend(f.prefixes) && n <= |f.prefixes|
    ensures var p := CommonPrefix(f, Offers(cs), n);
            && (p.Some? ==> Shares(f, cs, p.value))
            && forall i :: 0 <= i < n && Shares(f, cs, f.prefixes[i]) ==> p.Some? && f.prefixes[i].span <= p.value.span
  {
    if n > 0 {
      CommonExactly(f, cs, n - 1);
      OffersExactly(cs, f.prefixes[n - 1]);
      hide Offers, Offered;
    }
  }

  /** The longest prefix shared, over the whole list. */
  lemma CommonIsLongest(f: Flight, cs: seq<Candidate>)
    requires Ascend(f.prefixes)
    ensures var found := CommonPrefix(f, Offers(cs), |f.prefixes|);
            && (found.Some? ==> Shares(f, cs, found.value))
            && forall p :: Shares(f, cs, p) ==> found.Some? && p.span <= found.value.span
  {
    CommonExactly(f, cs, |f.prefixes|);
    hide Offers, Offered, CommonPrefix;
    forall p | Shares(f, cs, p)
      ensures CommonPrefix(f, Offers(cs), |f.prefixes|).Some?
      ensures p.span <= CommonPrefix(f, Offers(cs), |f.prefixes|).value.span
    {
      var i :| 0 <= i < |f.prefixes| && f.prefixes[i] == p;
    }
  }

  /** Flight `d` can still be joined through prefix `p`. */
  predicate Trunk(k: Desk, cs: seq<Candidate>, selected: Digest, d: Digest, p: Candidate) {
    && d in k.flights && k.flights[d].digest != selected && !k.flights[d].leaderFinished && !k.flights[d].dispatched
    && Shares(k.flights[d], cs, p)
  }

  /** ... no other trunk is longer, and none among the first `i` flights as long. */
  ghost predicate BestTrunk(
    k: Desk, cs: seq<Candidate>, selected: Digest, n: nat, i: nat, p: Candidate)
    requires i < n <= |k.order|
  {
    && Trunk(k, cs, selected, k.order[i], p)
    && (forall j, e :: 0 <= j < n && Trunk(k, cs, selected, k.order[j], e) ==> e.span <= p.span)
    && forall j, e :: 0 <= j < i && Trunk(k, cs, selected, k.order[j], e) ==> e.span < p.span
  }

  ghost predicate PrefixesAscend(k: Desk) {
    forall d :: d in k.flights ==> Ascend(k.flights[d].prefixes)
  }

  /** The search over the first `n` flights finds the first of the longest trunks. */
  lemma {:induction false} BestExactly(k: Desk, cs: seq<Candidate>, selected: Digest, n: nat) returns (i: nat)
    requires n <= |k.order| && Ordered(k) && PrefixesAscend(k)
    ensures var best := BestSegment(k, Offers(cs), selected, n);
            if best.None? then forall j, e :: 0 <= j < n ==> !Trunk(k, cs, selected, k.order[j], e)
            else i < n && best.value.0 == k.order[i] && BestTrunk(k, cs, selected, n, i, best.value.1)
  {
    i := 0;
    if n > 0 {
      i := BestExactly(k, cs, selected, n - 1);
      var d := k.order[n - 1];
      CommonIsLongest(k.flights[d], cs);
      TrunkIs(k, cs, selected, d);
      hide Offers, CommonPrefix, Trunk, Shares, Ascend, PrefixesAscend;
      var found := if Joinable(k.flights[d], selected) then CommonPrefix(k.flights[d], Offers(cs), |k.flights[d].prefixes|)
                   else None;
      var best := BestSegment(k, Offers(cs), selected, n - 1);
      if found.Some? && (best.None? || found.value.span > best.value.1.span) {
        i := n - 1;
      }
    }
  }

  lemma TrunkIs(k: Desk, cs: seq<Candidate>, selected: Digest, d: Digest)
    requires d in k.flights
    ensures forall p :: Trunk(k, cs, selected, d, p) <==> Joinable(k.flights[d], selected) && Shares(k.flights[d], cs, p)
  {
    hide Shares;
  }

  // ---- the whole lookup ----

  /** Room for one more restore that has to load. */
  predicate LoadRoom(k: Desk, r: Request) {
    |Unpublished(k.flights)| < k.maxPending && (r in k.needLoad || |k.needLoad| < k.maxPending)
  }

  /** The longest offered root has a flight already, which takes another follower. */
  predicate JoinsRoot(k: Desk, q: Lookup, c: Candidate) {
    && q.computed == 0 && Longest(q.candidates, q.quorum, c)
    && c.digest in k.flights && |k.flights[c.digest].followers| < MAX_FOLLOWERS
  }

  /** The longest offered root has no flight, but the flight of the best trunk
      takes another follower. */
  ghost predicate JoinsTrunk(k: Desk, q: Lookup, c: Candidate, i: nat, p: Candidate) {
    && q.computed == 0 && Longest(q.candidates, q.quorum, c) && c.digest !in k.flights
    && q.rows && i < |k.order| && BestTrunk(k, q.candidates, c.digest, |k.order|, i, p)
    && k.order[i] in k.flights && |k.flights[k.order[i]].followers| < MAX_FOLLOWERS
  }

  ghost predicate NoTrunk(k: Desk, q: Lookup, c: Candidate) {
    forall i, p :: !JoinsTrunk(k, q, c, i, p)
  }

  /** The longest offered root has no flight, no trunk can be joined, and there is
      room and the probe's consent for a flight of its own. */
  ghost predicate Begins(k: Desk, r: Request, q: Lookup, c: Candidate) {
    && q.computed == 0 && Longest(q.candidates, q.quorum, c) && c.digest !in k.flights && NoTrunk(k, q, c)
    && LoadRoom(k, r) && q.probe
  }

  /** `r` has become a follower of this flight under this key, and nothing else of
      the desk but that flight's trunk and its followers' bindings differs. */
  ghost predicate Followed(k: Desk, j: Desk, r: Request, d: Digest, b: Binding) {
    && d in k.flights && r in j.followers && j.followers[r] == b && b.flight == d
    && j.order == k.order && j.leaders == k.leaders && j.needLoad == k.needLoad && j.pending == k.pending
    && j.admitted == k.admitted && j.flights.Keys == k.flights.Keys && j.followers.Keys == k.followers.Keys + {r}
    && (forall e :: e in k.flights && e != d ==> j.flights[e] == k.flights[e])
    && j.flights[d] == k.flights[d].(followers := k.flights[d].followers + {r}, segment := j.flights[d].segment)
    && forall f :: f in k.followers && f != r && k.followers[f].flight != d ==> j.followers[f] == k.followers[f]
  }

  /** `r` leads a new flight of this root, and its load is asked for. */
  ghost predicate Started(k: Desk, j: Desk, r: Request, q: Lookup, c: Candidate) {
    && j.flights.Keys == k.flights.Keys + {c.digest} && (forall e :: e in k.flights ==> j.flights[e] == k.flights[e])
    && ListsPrefixes(q.candidates, q.quorum, c.span, j.flights[c.digest].prefixes)
    && j.flights[c.digest]
       == Flight(c.digest, c.span, r, {}, {}, false, false, false, j.flights[c.digest].prefixes, None, None)
    && j.order == k.order + [c.digest] && j.leaders == k.leaders[r := c.digest] && j.needLoad == k.needLoad[r := c]
    && j.followers == k.followers && j.pending == k.pending && j.admitted == k.admitted
  }

  lemma TrunkJoined(k: Desk, r: Request, d: Digest, p: Candidate)
    requires d in k.flights && k.flights[d].digest == d && r !in k.followers
    requires k.flights[d].segment.Some? ==> k.flights[d].segment.value.digest == p.digest
    ensures var j := JoinSegmentOf(k, d, r, p);
            && Followed(k, j, r, d, Binding(d, p.digest, p.span))
            && j.flights[d].segment.Some? && j.flights[d].segment.value.digest == p.digest
            && (k.flights[d].segment.None? ==>
                  j.flights[d].segment.value == p
                  && forall f :: f in k.followers && k.followers[f].flight == d ==>
                       j.followers[f] == Binding(d, p.digest, p.span))
  {
  }

  lemma RootJoined(k: Desk, r: Request, c: Candidate, b: Binding)
    requires c.digest in k.flights && r !in k.followers && b.flight == c.digest
    ensures Followed(k, AddFollower(k, c.digest, r, b), r, c.digest, b)
    ensures forall f :: f in k.followers ==> AddFollower(k, c.digest, r, b).followers[f] == k.followers[f]
  {
    assert k.flights[c.digest].(segment := k.flights[c.digest].segment) == k.flights[c.digest];
  }

  lemma LeadStarts(k: Desk, r: Request, q: Lookup, c: Candidate)
    requires Ascend(q.candidates) && c.digest !in k.flights
    ensures Started(k, Lead(k, r, c, Shareable(q.candidates, q.quorum, c.span)), r, q, c)
  {
    ShareableExactly(q.candidates, q.quorum, c.span);
    hide Shareable, ListsPrefixes, Ascend;
  }

  /** The key under which a flight is waited for by those who want its root. */
  function RootBinding(k: Desk, c: Candidate): Binding
    requires c.digest in k.flights
  {
    var f := k.flights[c.digest];
    match f.segment
    case Some(p) => Binding(c.digest, p.digest, if p.span > 0 then p.span else c.span)
    case None => Binding(c.digest, c.digest, c.span)
  }

  lemma BestOnce(
    k: Desk, cs: seq<Candidate>, selected: Digest, n: nat, i: nat, p: Candidate, i': nat, p': Candidate)
    requires i < n <= |k.order| && i' < n && BestTrunk(k, cs, selected, n, i, p) && BestTrunk(k, cs, selected, n, i', p')
    requires PrefixesAscend(k)
    ensures i == i' && p == p'
  {
    hide Offered;
    assert p.span == p'.span;
    assert i == i';
    assert Ascend(k.flights[k.order[i]].prefixes);
  }

  lemma NoneToJoin(k: Desk, q: Lookup, c: Candidate)
    requires q.rows ==> forall j, e :: 0 <= j < |k.order| ==> !Trunk(k, q.candidates, c.digest, k.order[j], e)
    ensures NoTrunk(k, q, c)
  {
    hide Trunk, Longest;
  }

  lemma FullToJoin(k: Desk, q: Lookup, c: Candidate, i: nat, p: Candidate)
    requires i < |k.order| && BestTrunk(k, q.candidates, c.digest, |k.order|, i, p) && PrefixesAscend(k)
    requires k.order[i] in k.flights && |k.flights[k.order[i]].followers| >= MAX_FOLLOWERS
    ensures NoTrunk(k, q, c)
  {
    hide BestTrunk, Longest, PrefixesAscend;
    forall i', p'
      ensures !JoinsTrunk(k, q, c, i', p')
    {
      if JoinsTrunk(k, q, c, i', p') {
        BestOnce(k, q.candidates, c.digest, |k.order|, i, p, i', p');
      }
    }
  }

  lemma NoSegment(k: Desk, r: Request, q: Lookup, c: Candidate)
    requires Ordered(k)
    requires var best := BestSegment(k, Offers(q.candidates), c.digest, |k.order|);
             !q.rows || best.None?
             || (best.value.0 in k.flights && |k.flights[best.value.0].followers| >= MAX_FOLLOWERS)
    ensures JoinSegment(k, r, q.candidates, c.digest, q.rows) == (k, false)
  {
    hide BestSegment, Offers;
  }

  lemma SomeSegment(k: Desk, r: Request, q: Lookup, c: Candidate)
    requires Ordered(k) && q.rows
    requires var best := BestSegment(k, Offers(q.candidates), c.digest, |k.order|);
             best.Some? && best.value.0 in k.flights && |k.flights[best.value.0].followers| < MAX_FOLLOWERS
    ensures var best := BestSegment(k, Offers(q.candidates), c.digest, |k.order|);
            JoinSegment(k, r, q.candidates, c.digest, q.rows)
            == (JoinSegmentOf(k, best.value.0, r, best.value.1), true)
  {
    hide BestSegment, Offers, JoinSegmentOf;
  }

  /** The search for a trunk to join: the best one, if its flight has room. */
  lemma SegmentExactly(k: Desk, r: Request, q: Lookup, c: Candidate) returns (i: nat, p: Candidate)
    requires Ordered(k) && PrefixesAscend(k)
    requires q.computed == 0 && Longest(q.candidates, q.quorum, c) && c.digest !in k.flights
    ensures if NoTrunk(k, q, c) then JoinSegment(k, r, q.candidates, c.digest, q.rows) == (k, false)
            else
              && JoinsTrunk(k, q, c, i, p)
              && JoinSegment(k, r, q.candidates, c.digest, q.rows) == (JoinSegmentOf(k, k.order[i], r, p), true)
    ensures forall i', p' :: JoinsTrunk(k, q, c, i', p') ==> i' == i && p' == p
  {
    i := BestExactly(k, q.candidates, c.digest, |k.order|);
    var best := BestSegment(k, Offers(q.candidates), c.digest, |k.order|);
    p := if best.Some? then best.value.1 else c;
    hide BestSegment, Offers, Longest, PrefixesAscend, BestTrunk, JoinSegment, JoinSegmentOf, Trunk;
    if !q.rows || best.None? {
      NoneToJoin(k, q, c);
      NoSegment(k, r, q, c);
    } else if |k.flights[k.order[i]].followers| >= MAX_FOLLOWERS {
      FullToJoin(k, q, c, i, p);
      NoSegment(k, r, q, c);
    } else {
      assert JoinsTrunk(k, q, c, i, p);
      SomeSegment(k, r, q, c);
      forall i', p' | JoinsTrunk(k, q, c, i', p')
        ensures i' == i && p' == p
      {
        BestOnce(k, q.candidates, c.digest, |k.order|, i, p, i', p');
      }
    }
  }

  lemma LongestOnce(q: Lookup, c: Candidate, e: Candidate)
    requires Ascend(q.candidates) && Longest(q.candidates, q.quorum, c) && Longest(q.candidates, q.quorum, e)
    ensures c == e
  {
    SelectedExactly(q.candidates, q.quorum);
    hide Longest, Selected;
  }

  lemma NothingOffered(k: Desk, r: Request, q: Lookup)
    requires q.computed > 0 || forall c :: !Longest(q.candidates, q.quorum, c)
    ensures forall c :: !JoinsRoot(k, q, c) && !Begins(k, r, q, c)
    ensures forall c, i, p :: !JoinsTrunk(k, q, c, i, p)
  {
    hide Longest, NoTrunk, BestTrunk;
  }

  /** What a lookup by a request that neither follows nor leads must come to. */
  ghost predicate Answered(k: Desk, r: Request, q: Lookup, j: Desk, a: Answer) {
    && (a == Skip ==> j == k)
    && (a.Offer? <==> exists c :: Begins(k, r, q, c))
    && (a == Wait <==> (exists c :: JoinsRoot(k, q, c)) || exists c, i: nat, p :: JoinsTrunk(k, q, c, i, p))
    && (forall c :: Begins(k, r, q, c) ==> a == Offer(c.span) && Started(k, j, r, q, c))
    && (forall c :: JoinsRoot(k, q, c) ==>
          c.digest in k.flights && Followed(k, j, r, c.digest, RootBinding(k, c))
          && forall f :: f in k.followers ==> f in j.followers && j.followers[f] == k.followers[f])
    && forall c, i: nat, p :: JoinsTrunk(k, q, c, i, p) ==> TrunkTaken(k, j, r, k.order[i], p)
  }

  /** `r` has joined flight `d` through `p`, which is now the flight's one trunk:
      if it had none, everybody who followed it follows the trunk instead. */
  ghost predicate TrunkTaken(k: Desk, j: Desk, r: Request, d: Digest, p: Candidate) {
    && Followed(k, j, r, d, Binding(d, p.digest, p.span))
    && d in j.flights && j.flights[d].segment.Some? && j.flights[d].segment.value.digest == p.digest
    && (k.flights[d].segment.None? ==>
          j.flights[d].segment.value == p
          && forall f :: f in k.followers && k.followers[f].flight == d ==> j.followers[f] == Binding(d, p.digest, p.span))
  }

  /** With one longest root that has a flight, only that flight can be followed. */
  lemma RootFacts(k: Desk, r: Request, q: Lookup, c: Candidate)
    requires Ascend(q.candidates) && Longest(q.candidates, q.quorum, c) && c.digest in k.flights
    ensures forall e :: JoinsRoot(k, q, e) <==> e == c && q.computed == 0 && |k.flights[c.digest].followers| < MAX_FOLLOWERS
    ensures forall e, i: nat, p :: !JoinsTrunk(k, q, e, i, p)
    ensures forall e :: !Begins(k, r, q, e)
  {
    forall e | Longest(q.candidates, q.quorum, e)
      ensures e == c
    {
      LongestOnce(q, c, e);
    }
    TrunkRoots(k, q);
    hide Longest, BestTrunk, Ascend, LoadRoom, JoinsTrunk, NoTrunk;
  }

  lemma RootCase(k: Desk, r: Request, q: Lookup, c: Candidate, j: Desk, a: Answer)
    requires Ascend(q.candidates) && q.computed == 0 && Longest(q.candidates, q.quorum, c) && c.digest in k.flights
    requires r !in k.followers
    requires (j, a) == if |k.flights[c.digest].followers| >= MAX_FOLLOWERS then (k, Skip)
                       else (AddFollower(k, c.digest, r, RootBinding(k, c)), Wait)
    ensures Answered(k, r, q, j, a)
  {
    RootFacts(k, r, q, c);
    BindsRoot(k, c);
    RootJoined(k, r, c, RootBinding(k, c));
    AddedThere(k, c.digest, r, RootBinding(k, c));
    hide Longest, BestTrunk, Ascend, Started, TrunkTaken, Followed, AddFollower, JoinsRoot, JoinsTrunk, Begins, NoTrunk,
         RootBinding;
    if a == Wait {
      assert JoinsRoot(k, q, c);
    }
  }

  lemma AddedThere(k: Desk, d: Digest, r: Request, b: Binding)
    requires d in k.flights
    ensures k.followers.Keys <= AddFollower(k, d, r, b).followers.Keys
  {
  }

  lemma BindsRoot(k: Desk, c: Candidate)
    requires c.digest in k.flights
    ensures RootBinding(k, c).flight == c.digest
  {
  }

  /** With one longest root, without a flight and without a trunk, only a flight
      of its own is left. */
  lemma OwnFacts(k: Desk, r: Request, q: Lookup, c: Candidate)
    requires Ascend(q.candidates) && Longest(q.candidates, q.quorum, c) && c.digest !in k.flights && NoTrunk(k, q, c)
    ensures forall e :: !JoinsRoot(k, q, e)
    ensures forall e, i: nat, p :: !JoinsTrunk(k, q, e, i, p)
    ensures forall e :: Begins(k, r, q, e) <==> e == c && q.computed == 0 && LoadRoom(k, r) && q.probe
  {
    forall e | Longest(q.candidates, q.quorum, e)
      ensures e == c
    {
      LongestOnce(q, c, e);
    }
    TrunkRoots(k, q);
    hide Longest, BestTrunk, Ascend, LoadRoom, JoinsTrunk;
  }

  lemma TrunkRoots(k: Desk, q: Lookup)
    ensures forall e, i: nat, p :: JoinsTrunk(k, q, e, i, p) ==> Longest(q.candidates, q.quorum, e) && e.digest !in k.flights
  {
    hide Longest, BestTrunk;
  }

  lemma OwnCase(k: Desk, r: Request, q: Lookup, c: Candidate, j: Desk, a: Answer)
    requires Ascend(q.candidates) && q.computed == 0 && Longest(q.candidates, q.quorum, c) && c.digest !in k.flights
    requires NoTrunk(k, q, c)
    requires (j, a) == if !LoadRoom(k, r) || !q.probe then (k, Skip)
                       else (Lead(k, r, c, Shareable(q.candidates, q.quorum, c.span)), Offer(c.span))
    ensures Answered(k, r, q, j, a)
  {
    OwnFacts(k, r, q, c);
    LeadStarts(k, r, q, c);
    hide Longest, BestTrunk, Ascend, Started, TrunkTaken, Followed, Lead, Shareable, LoadRoom, JoinsRoot, JoinsTrunk, Begins,
         NoTrunk, RootBinding;
    if LoadRoom(k, r) && q.probe {
      assert Begins(k, r, q, c);
    }
  }

  /** With one longest root and one best trunk with room, only that is joined. */
  lemma TrunkFacts(k: Desk, r: Request, q: Lookup, c: Candidate, i: nat, p: Candidate)
    requires Ascend(q.candidates) && JoinsTrunk(k, q, c, i, p)
    requires forall i', p' :: JoinsTrunk(k, q, c, i', p') ==> i' == i && p' == p
    ensures forall e :: !JoinsRoot(k, q, e) && !Begins(k, r, q, e)
    ensures forall e, i', p' :: JoinsTrunk(k, q, e, i', p') ==> e == c && i' == i && p' == p
  {
    TrunkRoots(k, q);
    forall e | Longest(q.candidates, q.quorum, e)
      ensures e == c
    {
      LongestOnce(q, c, e);
    }
    hide Longest, BestTrunk, Ascend, LoadRoom, JoinsTrunk;
    assert !NoTrunk(k, q, c);
  }

  lemma TrunkCase(k: Desk, r: Request, q: Lookup, c: Candidate, i: nat, p: Candidate)
    requires Ascend(q.candidates) && JoinsTrunk(k, q, c, i, p) && r !in k.followers && FlightOk(k, k.order[i])
    requires forall i', p' :: JoinsTrunk(k, q, c, i', p') ==> i' == i && p' == p
    ensures Answered(k, r, q, JoinSegmentOf(k, k.order[i], r, p), Wait)
  {
    TrunkFacts(k, r, q, c, i, p);
    TrunkSegment(k, q, c, i, p);
    TrunkIsTaken(k, r, k.order[i], p);
    hide Longest, BestTrunk, Ascend, Started, Followed, JoinSegmentOf, JoinsRoot, JoinsTrunk, Begins, NoTrunk, TrunkTaken;
  }

  lemma TrunkSegment(k: Desk, q: Lookup, c: Candidate, i: nat, p: Candidate)
    requires JoinsTrunk(k, q, c, i, p)
    ensures k.flights[k.order[i]].segment.Some? ==> k.flights[k.order[i]].segment.value.digest == p.digest
  {
    hide Longest, Offered;
  }

  lemma TrunkIsTaken(k: Desk, r: Request, d: Digest, p: Candidate)
    requires d in k.flights && k.flights[d].digest == d && r !in k.followers
    requires k.flights[d].segment.Some? ==> k.flights[d].segment.value.digest == p.digest
    ensures TrunkTaken(k, JoinSegmentOf(k, d, r, p), r, d, p)
  {
    TrunkJoined(k, r, d, p);
    hide JoinSegmentOf, Followed;
  }

  lemma SkipCase(k: Desk, r: Request, q: Lookup)
    requires q.computed > 0 || forall c :: !Longest(q.candidates, q.quorum, c)
    ensures Answered(k, r, q, k, Skip)
  {
    NothingOffered(k, r, q);
    hide Longest, JoinsRoot, JoinsTrunk, Begins;
  }

  lemma ChooseRoot(k: Desk, r: Request, q: Lookup, c: Candidate)
    requires Ordered(k) && q.computed == 0 && Selected(q.candidates, q.quorum) == Some(c) && c.digest in k.flights
    ensures Choose(k, r, q) == if |k.flights[c.digest].followers| >= MAX_FOLLOWERS then (k, Skip)
                               else (AddFollower(k, c.digest, r, RootBinding(k, c)), Wait)
  {
    hide Selected, AddFollower, JoinSegment;
  }

  lemma ChooseOwn(k: Desk, r: Request, q: Lookup, c: Candidate)
    requires Ordered(k) && q.computed == 0 && Selected(q.candidates, q.quorum) == Some(c) && c.digest !in k.flights
    ensures var (joined, found) := JoinSegment(k, r, q.candidates, c.digest, q.rows);
            Choose(k, r, q)
            == if found then (joined, Wait)
               else if !LoadRoom(k, r) || !q.probe then (k, Skip)
               else (Lead(k, r, c, Shareable(q.candidates, q.quorum, c.span)), Offer(c.span))
  {
    hide Selected, AddFollower, JoinSegment, Lead, Shareable, Unpublished;
  }

  /** Lookups, exactly. With shortest-first candidates, a request that neither
      follows nor leads takes the longest root every rank offers: it follows that
      root's flight, or the best trunk it shares with another, or leads a flight
      of its own and is offered the root's span; it is skipped just when no root
      is offered, the flight is full, or there is no room or no consent. */
  lemma LookupExactly(k: Desk, r: Request, q: Lookup)
    requires Linked(k) && Ordered(k) && PrefixesAscend(k) && Ascend(q.candidates)
    requires r !in k.followers && r !in k.leaders
    ensures Answered(k, r, q, Match(k, r, q).0, Match(k, r, q).1)
  {
    ChooseExactly(k, r, q);
    hide Answered, Choose, Linked, Ordered, PrefixesAscend, Ascend;
  }

  lemma ChooseExactly(k: Desk, r: Request, q: Lookup)
    requires Linked(k) && Ordered(k) && PrefixesAscend(k) && Ascend(q.candidates) && r !in k.followers
    ensures Answered(k, r, q, Choose(k, r, q).0, Choose(k, r, q).1)
  {
    SelectedExactly(q.candidates, q.quorum);
    var selected := Selected(q.candidates, q.quorum);
    if q.computed > 0 || selected.None? {
      SkipCase(k, r, q);
      hide *;
      ChooseNothing(k, r, q);
    } else {
      var c := selected.value;
      assert Longest(q.candidates, q.quorum, c);
      hide *;
      var (j, a) := Choose(k, r, q);
      if c.digest in k.flights {
        ChooseRoot(k, r, q, c);
        RootCase(k, r, q, c, j, a);
      } else {
        ChooseOwn(k, r, q, c);
        var i, p := SegmentExactly(k, r, q, c);
        if NoTrunk(k, q, c) {
          OwnCase(k, r, q, c, j, a);
        } else {
          OrderedOk(k, i);
          TrunkCase(k, r, q, c, i, p);
        }
      }
    }
  }

  lemma ChooseNothing(k: Desk, r: Request, q: Lookup)
    requires Ordered(k) && (q.computed > 0 || Selected(q.candidates, q.quorum).None?)
    ensures Choose(k, r, q) == (k, Skip)
  {
    hide Selected;
  }

  lemma OrderedOk(k: Desk, i: nat)
    requires Linked(k)
    ensures i < |k.order| ==> k.order[i] in k.flights && FlightOk(k, k.order[i])
  {
    hide FlightOk, BindingOk;
  }
}
