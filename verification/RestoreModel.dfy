// Restore flights on the scheduler: what every callback does to the flights,
// the leaders, the follower bindings and the pending loads.
module RestoreModel {
  import opened Common

  type Request = nat
  type Digest = nat
  type Block = nat

  const MAX_FOLLOWERS := 16
  const MAX_LEASES := 2
  const MAX_PREFIXES := 64

  /** A candidate prefix root of a request: its span and its digest. */
  datatype Candidate = Candidate(span: nat, digest: Digest)

  datatype Lease = Lease(digest: Digest, span: nat, publishedAt: int, expiresAt: int)

  datatype Flight = Flight(
    digest: Digest, span: nat, leader: Request, followers: set<Request>, blocks: set<Block>,
    dispatched: bool, workersFinished: bool, leaderFinished: bool, prefixes: seq<Candidate>,
    segment: Option<Candidate>, lease: Option<Lease>)

  datatype Binding = Binding(flight: Digest, lease: Digest, span: nat)

  /** `order` is the insertion order of the flights. */
  datatype Desk = Desk(
    maxPending: nat, ttl: nat, flights: map<Digest, Flight>, order: seq<Digest>, leaders: map<Request, Digest>,
    followers: map<Request, Binding>, needLoad: map<Request, Candidate>,
    pending: map<Request, (Digest, set<Block>)>, admitted: map<Request, (Digest, set<Block>)>)

  function Empty(maxPending: nat, ttl: nat): Desk {
    Desk(maxPending, ttl, map[], [], map[], map[], map[], map[], map[])
  }

  function Remove(order: seq<Digest>, d: Digest): seq<Digest> {
    if order == [] then [] else if order[0] == d then Remove(order[1..], d) else [order[0]] + Remove(order[1..], d)
  }

  /** The key a flight publishes, or has published. */
  function KeyOf(f: Flight): Digest {
    if f.lease.Some? then f.lease.value.digest else LeaseCandidate(f).digest
  }

  function LeaseCandidate(f: Flight): Candidate {
    if f.segment.Some? then f.segment.value else Candidate(f.span, f.digest)
  }

  // ---- leaving ----

  /** Drop a flight together with its leader entry and its followers' bindings. */
  function Retire(k: Desk, d: Digest): Desk {
    if d !in k.flights then k
    else
      k.(flights := k.flights - {d}, order := Remove(k.order, d), leaders := k.leaders - {k.flights[d].leader},
         followers := k.followers - k.flights[d].followers)
  }

  function RetireAll(k: Desk, ds: seq<Digest>): Desk {
    if ds == [] then k else Retire(RetireAll(k, ds[..|ds| - 1]), ds[|ds| - 1])
  }

  /** Is some binding of this flight still waiting for this key? */
  ghost predicate StillNeeded(followers: map<Request, Binding>, flight: Digest, lease: Digest) {
    exists r :: r in followers && followers[r].flight == flight && followers[r].lease == lease
  }

  ghost function RemoveFollower(k: Desk, r: Request): Desk {
    if r !in k.followers then k
    else
      var b := k.followers[r];
      var left := k.followers - {r};
      if b.flight !in k.flights then k.(followers := left)
      else
        var f := k.flights[b.flight];
        var g := f.(followers := f.followers - {r});
        var h :=
          if g.segment.Some? && b.lease == g.segment.value.digest && g.lease.None?
             && !StillNeeded(left, g.digest, b.lease)
          then g.(segment := None) else g;
        k.(followers := left, flights := k.flights[b.flight := h])
  }

  // ---- joining ----

  function Offers(candidates: seq<Candidate>): map<Digest, nat> {
    if candidates == [] then map[]
    else Offers(candidates[..|candidates| - 1])[candidates[|candidates| - 1].digest := candidates[|candidates| - 1].span]
  }

  /** The longest shareable prefix of the flight that the request offers too. */
  function CommonPrefix(f: Flight, offers: map<Digest, nat>, n: nat): Option<Candidate>
    requires n <= |f.prefixes|
  {
    if n == 0 then None
    else
      var p := f.prefixes[n - 1];
      if p.digest in offers && offers[p.digest] == p.span && (f.segment.None? || f.segment.value.digest == p.digest)
      then Some(p) else CommonPrefix(f, offers, n - 1)
  }

  predicate Joinable(f: Flight, selected: Digest) {
    f.digest != selected && !f.leaderFinished && !f.dispatched
  }

  /** The first flight, in order, with the longest common prefix. */
  function BestSegment(k: Desk, offers: map<Digest, nat>, selected: Digest, n: nat): Option<(Digest, Candidate)>
    requires n <= |k.order| && forall i :: 0 <= i < |k.order| ==> k.order[i] in k.flights
  {
    if n == 0 then None
    else
      var best := BestSegment(k, offers, selected, n - 1);
      var f := k.flights[k.order[n - 1]];
      var found := if Joinable(f, selected) then CommonPrefix(f, offers, |f.prefixes|) else None;
      if found.Some? && (best.None? || found.value.span > best.value.1.span) then Some((k.order[n - 1], found.value))
      else best
  }

  /** Rebind every follower of a flight. */
  function Rebound(followers: map<Request, Binding>, flight: Digest, b: Binding): map<Request, Binding> {
    map r | r in followers :: if followers[r].flight == flight then b else followers[r]
  }

  function AddFollower(k: Desk, d: Digest, r: Request, b: Binding): Desk
    requires d in k.flights
  {
    k.(flights := k.flights[d := k.flights[d].(followers := k.flights[d].followers + {r})],
       followers := k.followers[r := b])
  }

  function JoinSegmentOf(k: Desk, d: Digest, r: Request, p: Candidate): Desk
    requires d in k.flights
  {
    var f := k.flights[d];
    var b := Binding(f.digest, p.digest, p.span);
    var bound :=
      if f.segment.Some? then k
      else k.(flights := k.flights[d := f.(segment := Some(p))], followers := Rebound(k.followers, f.digest, b));
    AddFollower(bound, d, r, b)
  }

  function JoinSegment(k: Desk, r: Request, candidates: seq<Candidate>, selected: Digest, rows: bool): (Desk, bool)
    requires forall i :: 0 <= i < |k.order| ==> k.order[i] in k.flights
  {
    if !rows then (k, false)
    else
      match BestSegment(k, Offers(candidates), selected, |k.order|)
      case None => (k, false)
      case Some((d, p)) =>
        if d !in k.flights || |k.flights[d].followers| >= MAX_FOLLOWERS then (k, false) else (JoinSegmentOf(k, d, r, p), true)
  }

  // ---- looking up ----

  datatype Answer = Skip | Wait | Offer(tokens: nat)

  /** What the lookup is told: block-aligned local tokens, the candidate roots
      shortest first, which roots every rank offers, whether storage is by rows,
      and whether the scheduler's own probe accepts the chosen root. */
  datatype Lookup = Lookup(computed: nat, candidates: seq<Candidate>, quorum: set<Digest>, rows: bool, probe: bool)

  function Selected(cs: seq<Candidate>, quorum: set<Digest>): Option<Candidate> {
    if cs == [] then None
    else if cs[|cs| - 1].digest in quorum then Some(cs[|cs| - 1]) else Selected(cs[..|cs| - 1], quorum)
  }

  /** The last 64 shorter roots that every rank offers. */
  function Shareable(cs: seq<Candidate>, quorum: set<Digest>, span: nat): seq<Candidate> {
    var all := Shorter(cs, quorum, span);
    if |all| <= MAX_PREFIXES then all else all[|all| - MAX_PREFIXES..]
  }

  function Shorter(cs: seq<Candidate>, quorum: set<Digest>, span: nat): seq<Candidate> {
    if cs == [] then []
    else
      var last := cs[|cs| - 1];
      Shorter(cs[..|cs| - 1], quorum, span) + (if last.span < span && last.digest in quorum then [last] else [])
  }

  function Unpublished(flights: map<Digest, Flight>): set<Digest> {
    set d | d in flights && flights[d].lease.None?
  }

  function Published(flights: map<Digest, Flight>): set<Digest> {
    set d | d in flights && flights[d].lease.Some?
  }

  predicate Ordered(k: Desk) {
    forall i :: 0 <= i < |k.order| ==> k.order[i] in k.flights
  }

  /** A new flight led by this request. */
  function Lead(k: Desk, r: Request, c: Candidate, prefixes: seq<Candidate>): Desk {
    k.(flights := k.flights[c.digest := Flight(c.digest, c.span, r, {}, {}, false, false, false, prefixes, None, None)],
       order := k.order + [c.digest], leaders := k.leaders[r := c.digest], needLoad := k.needLoad[r := c])
  }

  /** Lookup by a request that is neither follower nor leader. */
  function Choose(k: Desk, r: Request, q: Lookup): (Desk, Answer)
    requires Ordered(k)
  {
    if q.computed > 0 then (k, Skip)
    else
      match Selected(q.candidates, q.quorum)
      case None => (k, Skip)
      case Some(c) =>
        if c.digest in k.flights then
          var f := k.flights[c.digest];
          if |f.followers| >= MAX_FOLLOWERS then (k, Skip)
          else
            var span := if f.segment.Some? && f.segment.value.span > 0 then f.segment.value.span else c.span;
            var key := if f.segment.Some? then f.segment.value.digest else c.digest;
            (AddFollower(k, c.digest, r, Binding(c.digest, key, span)), Wait)
        else
          var (joined, found) := JoinSegment(k, r, q.candidates, c.digest, q.rows);
          if found then (joined, Wait)
          else if |Unpublished(k.flights)| >= k.maxPending || (r !in k.needLoad && |k.needLoad| >= k.maxPending) then
            (k, Skip)
          else if !q.probe then (k, Skip)
          else (Lead(k, r, c, Shareable(q.candidates, q.quorum, c.span)), Offer(c.span))
  }

  /** Lookup by a request that may already lead a flight. */
  function LeadOrChoose(k: Desk, r: Request, q: Lookup): (Desk, Answer)
    requires Ordered(k)
  {
    if r in k.leaders && k.leaders[r] in k.flights then
      var f := k.flights[k.leaders[r]];
      if f.workersFinished && q.computed >= f.span then (Retire(k, k.leaders[r]), Skip)
      else if f.dispatched || r in k.pending then (k, Wait)
      else if q.computed == 0 && k.leaders[r] in q.quorum then (k, Offer(f.span))
      else
        var left := Retire(k.(needLoad := k.needLoad - {r}), k.leaders[r]);
        if Ordered(left) then Choose(left, r, q) else (left, Skip)
    else Choose(k, r, q)
  }

  /** `get_num_new_matched_tokens` for a request with a valid scope. */
  ghost function Match(k: Desk, r: Request, q: Lookup): (Desk, Answer)
    requires Ordered(k)
  {
    if r !in k.followers then LeadOrChoose(k, r, q)
    else
      var left := RemoveFollower(k, r);
      if q.computed > 0 then (left, Skip)
      else if k.followers[r].flight in k.flights && q.computed < k.followers[r].span then (k, Wait)
      else if Ordered(left) then LeadOrChoose(left, r, q)
      else (left, Skip)
  }

  // ---- leases ----

  function Expired(k: Desk, now: int, n: nat): seq<Digest>
    requires n <= |k.order| && Ordered(k)
  {
    if n == 0 then []
    else
      var f := k.flights[k.order[n - 1]];
      Expired(k, now, n - 1) + (if f.lease.Some? && f.lease.value.expiresAt <= now then [k.order[n - 1]] else [])
  }

  function Expire(k: Desk, now: int): Desk
    requires Ordered(k)
  {
    RetireAll(k, Expired(k, now, |k.order|))
  }

  /** `get_shared_prefix_lease_to_publish`. */
  function ToPublish(k: Desk, r: Request): Option<Candidate> {
    if r !in k.leaders || k.leaders[r] !in k.flights then None
    else
      var f := k.flights[k.leaders[r]];
      if !f.workersFinished || f.leaderFinished || f.lease.Some? then None else Some(LeaseCandidate(f))
  }

  function PublishedIn(k: Desk, n: nat): seq<Digest>
    requires n <= |k.order| && Ordered(k)
  {
    if n == 0 then []
    else PublishedIn(k, n - 1) + (if k.flights[k.order[n - 1]].lease.Some? then [k.order[n - 1]] else [])
  }

  function TimeOf(k: Desk, d: Digest): int {
    if d in k.flights && k.flights[d].lease.Some? then k.flights[d].lease.value.publishedAt else 0
  }

  /** Insert behind everything not newer: a stable sort by publication time. */
  function Insert(k: Desk, sorted: seq<Digest>, d: Digest): seq<Digest> {
    if sorted == [] then [d]
    else if TimeOf(k, d) < TimeOf(k, sorted[|sorted| - 1]) then
      Insert(k, sorted[..|sorted| - 1], d) + [sorted[|sorted| - 1]]
    else sorted + [d]
  }

  function SortByTime(k: Desk, ds: seq<Digest>): seq<Digest> {
    if ds == [] then [] else Insert(k, SortByTime(k, ds[..|ds| - 1]), ds[|ds| - 1])
  }

  /** All published leases but the newest two, oldest first. */
  function Stale(k: Desk): seq<Digest>
    requires Ordered(k)
  {
    var sorted := SortByTime(k, PublishedIn(k, |k.order|));
    if |sorted| <= MAX_LEASES then [] else sorted[..|sorted| - MAX_LEASES]
  }

  /** `shared_prefix_lease_published`. */
  function Publish(k: Desk, r: Request, key: Digest, now: int): (Desk, bool)
    requires Ordered(k)
  {
    if r !in k.leaders || k.leaders[r] !in k.flights then (k, false)
    else
      var d := k.leaders[r];
      var f := k.flights[d];
      if !f.workersFinished || LeaseCandidate(f).digest != key then (k, false)
      else
        var lease := Lease(key, LeaseCandidate(f).span, now, now + k.ttl);
        var leased := k.(flights := k.flights[d := f.(lease := Some(lease))]);
        (RetireAll(leased, Stale(leased)), true)
  }

  /** The first published flight whose lease is this key. */
  function LeasedAs(k: Desk, key: Digest, n: nat): Option<Digest>
    requires n <= |k.order| && Ordered(k)
  {
    if n == 0 then None
    else
      var before := LeasedAs(k, key, n - 1);
      var f := k.flights[k.order[n - 1]];
      if before.Some? then before
      else if f.lease.Some? && f.lease.value.digest == key then Some(k.order[n - 1]) else None
  }

  /** Longest candidate that is the lease of its own flight. */
  function OwnLease(k: Desk, cs: seq<Candidate>): Option<Digest> {
    if cs == [] then None
    else
      var d := cs[|cs| - 1].digest;
      if d in k.flights && k.flights[d].lease.Some? && k.flights[d].lease.value.digest == d then Some(d)
      else OwnLease(k, cs[..|cs| - 1])
  }

  function AnyLease(k: Desk, cs: seq<Candidate>): Option<Digest>
    requires Ordered(k)
  {
    if cs == [] then None
    else
      var found := LeasedAs(k, cs[|cs| - 1].digest, |k.order|);
      if found.Some? then found else AnyLease(k, cs[..|cs| - 1])
  }

  function LeaseFor(k: Desk, cs: seq<Candidate>): Option<Digest>
    requires Ordered(k)
  {
    var own := OwnLease(k, cs);
    if own.Some? then own else AnyLease(k, cs)
  }

  /** `get_shared_prefix_lease_candidate` after expiry, for a valid scope. */
  function Attach(k: Desk, r: Request, cs: seq<Candidate>): (Desk, Option<Candidate>)
    requires Ordered(k)
  {
    if r in k.followers then
      var b := k.followers[r];
      if b.flight in k.flights && k.flights[b.flight].lease.Some? && b.lease == k.flights[b.flight].lease.value.digest
      then (k, Some(Candidate(b.span, b.lease))) else (k, None)
    else
      match LeaseFor(k, cs)
      case None => (k, None)
      case Some(d) =>
        if d !in k.flights || k.flights[d].lease.None? || r == k.flights[d].leader
           || |k.flights[d].followers| >= MAX_FOLLOWERS
        then (k, None)
        else
          var lease := k.flights[d].lease.value;
          (AddFollower(k, d, r, Binding(d, lease.digest, lease.span)), Some(Candidate(lease.span, lease.digest)))
  }

  // ---- the other callbacks ----

  /** A rejected scope: stop following, and give up an undispatched flight. */
  ghost function RejectScope(k: Desk, r: Request): Desk {
    var left := RemoveFollower(k, r);
    if r in left.leaders && left.leaders[r] in left.flights && !left.flights[left.leaders[r]].dispatched
    then Retire(left, left.leaders[r]) else left
  }

  /** `update_state_after_alloc`. */
  function Allocated(k: Desk, r: Request, external: int, blocks: set<Block>): Desk {
    if r !in k.needLoad then k
    else
      var c := k.needLoad[r];
      var left := k.(needLoad := k.needLoad - {r});
      if external <= 0 then Retire(left, c.digest) else left.(pending := k.pending[r := (c.digest, blocks)])
  }

  /** One pending load becomes a plan for the workers. */
  function DispatchOne(k: Desk, r: Request): Desk
    requires r in k.pending
  {
    var (d, blocks) := k.pending[r];
    var admitted := k.(admitted := k.admitted[r := (d, blocks)], pending := k.pending - {r});
    if d in k.flights && k.flights[d].leader == r
    then admitted.(flights := k.flights[d := k.flights[d].(blocks := blocks, dispatched := true)]) else admitted
  }

  function Dispatch(k: Desk, rs: seq<Request>): Desk {
    if rs == [] then k
    else
      var before := Dispatch(k, rs[..|rs| - 1]);
      if rs[|rs| - 1] in before.pending then DispatchOne(before, rs[|rs| - 1]) else before
  }

  /** `shared_prefix_lease_rejected`. */
  ghost function RejectLease(k: Desk, r: Request, key: Digest): Desk {
    var left := if r in k.followers && k.followers[r].lease == key then RemoveFollower(k, r) else k;
    if r in left.leaders && left.leaders[r] in left.flights then Retire(left, left.leaders[r]) else left
  }

  /** `request_finished`. */
  ghost function Finished(k: Desk, r: Request, normal: bool): Desk {
    var left := RemoveFollower(k, r);
    var led :=
      if r !in left.leaders || left.leaders[r] !in left.flights then left
      else
        var d := left.leaders[r];
        var f := left.flights[d];
        if !f.dispatched then Retire(left, d)
        else if f.lease.Some? then
          left.(leaders := left.leaders - {r}, flights := left.flights[d := f.(leaderFinished := true)])
        else if f.workersFinished then Retire(left, d)
        else left.(flights := left.flights[d := f.(leaderFinished := true)]);
    led.(needLoad := led.needLoad - {r}, pending := led.pending - {r}, admitted := led.admitted - {r})
  }

  /** Admissions hit by invalid blocks fail their flights. */
  function FailAdmitted(k: Desk, rs: seq<Request>, invalid: set<Block>): Desk {
    if rs == [] then k
    else
      var before := FailAdmitted(k, rs[..|rs| - 1], invalid);
      var r := rs[|rs| - 1];
      if r in before.admitted && before.admitted[r].1 * invalid != {}
      then Retire(before.(admitted := before.admitted - {r}), before.admitted[r].0) else before
  }

  function Damaged(k: Desk, invalid: set<Block>, n: nat): seq<Digest>
    requires n <= |k.order| && Ordered(k)
  {
    if n == 0 then []
    else
      Damaged(k, invalid, n - 1) + (if k.flights[k.order[n - 1]].blocks * invalid != {} then [k.order[n - 1]] else [])
  }

  function CompleteOne(k: Desk, r: Request): Desk {
    if r !in k.leaders || k.leaders[r] !in k.flights then k
    else
      var d := k.leaders[r];
      if k.flights[d].leaderFinished then Retire(k, d)
      else k.(flights := k.flights[d := k.flights[d].(workersFinished := true)])
  }

  function Complete(k: Desk, rs: seq<Request>): Desk {
    if rs == [] then k else CompleteOne(Complete(k, rs[..|rs| - 1]), rs[|rs| - 1])
  }

  /** `update_connector_output`, as far as flights go. */
  function WorkerOutput(k: Desk, admitted: seq<Request>, invalid: set<Block>, received: seq<Request>): Desk {
    var failed := FailAdmitted(k, admitted, invalid);
    var cleared := if Ordered(failed) then RetireAll(failed, Damaged(failed, invalid, |failed.order|)) else failed;
    Complete(cleared, received)
  }
}
