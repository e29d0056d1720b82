// Every interleaving of request threads over the base-read coordinator.
module BaseReadProtocol {
  import opened Common
  import opened BaseReadModel

  /** Where a request's thread stands inside `resolve`; absent means outside. */
  datatype Phase = InReader(id: FlightId) | Waits(id: FlightId)

  datatype ReadEvent = ReadEvent(id: FlightId, reader: Request, read: Option<Value>)
  datatype EndEvent = EndEvent(id: FlightId, request: Request, outcome: Outcome)

  datatype System = System(
    c: Coordinator, phases: map<Request, Phase>, log: seq<ReadEvent>, ends: seq<EndEvent>)

  /** Request threads call `resolve` and `finish` for themselves only; anyone may
      register or cancel; readers may return anything. */
  datatype Action =
    | DoRegister(key: Key, ids: seq<Request>)
    | DoEnter(r: Request, key: Key)
    | DoRead(r: Request, read: Option<Value>)
    | DoWake(r: Request)
    | DoCancel(r: Request)
    | DoFinish(r: Request)
    | DoClose(order: seq<Request>)

  ghost predicate Enabled(s: System, a: Action) {
    match a
    case DoRegister(_, _) => true
    case DoEnter(r, _) => r !in s.phases
    case DoRead(r, _) => r in s.phases && s.phases[r].InReader? && s.phases[r].id in s.c.flights
    case DoWake(r) =>
      r in s.phases && s.phases[r].Waits? && s.phases[r].id in s.c.flights && Awake(s.c, r, s.phases[r].id)
    case DoCancel(_) => true
    case DoFinish(r) => r !in s.phases
    case DoClose(order) => forall r :: r in order <==> r in s.c.requests
  }

  function Enters(phases: map<Request, Phase>, r: Request, e: Entry): map<Request, Phase> {
    match e
    case Leads(id) => phases[r := InReader(id)]
    case Follows(id) => phases[r := Waits(id)]
    case _ => phases
  }

  ghost function Step(s: System, a: Action): System
    requires Enabled(s, a)
  {
    match a
    case DoRegister(key, ids) => s.(c := Register(s.c, key, ids).0)
    case DoEnter(r, key) =>
      var (c, e) := Enter(s.c, r, key);
      s.(c := c, phases := Enters(s.phases, r, e))
    case DoRead(r, read) =>
      var id := s.phases[r].id;
      var (c, outcome) := Publish(s.c, r, id, read);
      System(c, s.phases - {r}, s.log + [ReadEvent(id, r, read)], s.ends + [EndEvent(id, r, outcome)])
    case DoWake(r) =>
      var id := s.phases[r].id;
      var (c, outcome) := Wake(s.c, r, id);
      s.(c := c, phases := s.phases - {r}, ends := s.ends + [EndEvent(id, r, outcome)])
    case DoCancel(r) => s.(c := Cancel(s.c, r).0)
    case DoFinish(r) => s.(c := Finish(s.c, r))
    case DoClose(order) => s.(c := FinishAll(ShutAll(s.c), order))
  }

  ghost predicate Runnable(s: System, actions: seq<Action>)
    decreases |actions|
  {
    actions == [] || (Enabled(s, actions[0]) && Runnable(Step(s, actions[0]), actions[1..]))
  }

  ghost function Run(s: System, actions: seq<Action>): System
    requires Runnable(s, actions)
    decreases |actions|
  {
    if actions == [] then s else Run(Step(s, actions[0]), actions[1..])
  }

  function Start(b: Bounds): System {
    System(Initial(b), map[], [], [])
  }

  // ---- the coordinator's invariant ----

  ghost predicate RequestOk(c: Coordinator, r: Request)
    requires r in c.requests
  {
    c.requests[r] in c.table && c.table[c.requests[r]] in c.flights && r in c.flights[c.table[c.requests[r]]].members
  }

  ghost predicate StoredOk(c: Coordinator, k: Key)
    requires k in c.table
  {
    && c.table[k] in c.flights && c.flights[c.table[k]].key == k
    && c.flights[c.table[k]].cancelled <= c.flights[c.table[k]].members
    && forall m :: m in c.flights[c.table[k]].members ==> m in c.requests && c.requests[m] == k
  }

  /** Requests and members are inverse, and a stored flight stands under its own key. */
  ghost predicate Paired(c: Coordinator) {
    && (forall r :: r in c.requests ==> RequestOk(c, r))
    && (forall k :: k in c.table ==> StoredOk(c, k))
    && (forall id :: id in c.flights ==> id < c.nextId)
  }

  ghost predicate Peopled(c: Coordinator, k: Key)
    requires k in c.table
  {
    c.table[k] in c.flights && c.flights[c.table[k]].members != {}
  }

  /** ... and every stored flight has a member. */
  ghost predicate Inverse(c: Coordinator) {
    Paired(c) && forall k :: k in c.table ==> Peopled(c, k)
  }

  ghost predicate Linked(c: Coordinator) {
    Inverse(c) && (c.closed ==> c.table == map[] && c.requests == map[])
  }

  /** The memory and membership bounds. */
  ghost predicate TableBounds(c: Coordinator) {
    && BoundsValid(c.bounds) && |c.table| <= c.bounds.flights && 2 * Declared(c.table.Keys) <= c.bounds.total
    && forall k :: k in c.table ==> 0 < k.bytes <= c.bounds.perFlight
  }

  ghost predicate MemberBounds(c: Coordinator) {
    forall id :: id in c.flights ==> |c.flights[id].members| <= c.flights[id].participants <= c.bounds.members
  }

  ghost predicate WithinBounds(c: Coordinator) {
    TableBounds(c) && MemberBounds(c)
  }

  ghost predicate StageOk(f: Flight) {
    && f.stage != Closed
    && (f.stage == Registered ==> f.starts == 0 && f.leader == None)
    && (f.stage != Registered ==> f.starts == 1 && f.leader.Some?)
    && (f.result.Some? <==> f.stage == Ready)
    && (f.result.Some? ==> f.result.value.bytes == f.key.bytes)
  }

  ghost predicate Staged(c: Coordinator) {
    && (forall id :: id in c.flights ==> c.flights[id].starts <= 1)
    && forall k :: k in c.table && c.table[k] in c.flights ==> StageOk(c.flights[c.table[k]])
  }

  predicate Stored(c: Coordinator, id: FlightId) {
    id in c.flights && c.flights[id].key in c.table && c.table[c.flights[id].key] == id
  }

  /** Only stored flights retain bytes. */
  ghost predicate Released(c: Coordinator) {
    forall id :: id in c.flights && c.flights[id].result.Some? ==> Stored(c, id)
  }

  ghost predicate Sound(c: Coordinator) {
    Linked(c) && WithinBounds(c) && Staged(c) && Released(c)
  }

  /** `r` is a member of the stored flight `id`. */
  predicate Member(c: Coordinator, r: Request, id: FlightId) {
    id in c.flights && c.flights[id].key in c.table && c.table[c.flights[id].key] == id && r in c.flights[id].members
  }

  /** A thread inside `resolve` keeps its flight stored until the coordinator closes. */
  ghost predicate PhaseOk(c: Coordinator, r: Request, p: Phase) {
    && p.id in c.flights
    && (p.InReader? ==> c.flights[p.id].leader == Some(r) && c.flights[p.id].stage != Registered)
    && (!c.closed ==> Member(c, r, p.id))
    && (!c.closed && p.InReader? ==> c.flights[p.id].stage == Reading)
    && (!c.closed && p.Waits? ==> c.flights[p.id].stage in {Reading, Ready, Rejected})
  }

  ghost predicate Phased(c: Coordinator, phases: map<Request, Phase>) {
    && (forall r :: r in phases ==> PhaseOk(c, r, phases[r]))
    && forall k :: k in c.table && c.table[k] in c.flights && c.flights[c.table[k]].stage == Reading ==>
         var f := c.flights[c.table[k]];
         f.leader.Some? && f.leader.value in phases && phases[f.leader.value] == InReader(c.table[k])
  }

  function ReadCount(log: seq<ReadEvent>, id: FlightId): nat {
    if log == [] then 0
    else ReadCount(log[..|log| - 1], id) + (if log[|log| - 1].id == id then 1 else 0)
  }

  /** A value that its own flight's one reader returned, of the declared length. */
  ghost predicate OwnValue(c: Coordinator, log: seq<ReadEvent>, id: FlightId, v: Value) {
    && id in c.flights && v.bytes == c.flights[id].key.bytes
    && c.flights[id].leader.Some? && ReadEvent(id, c.flights[id].leader.value, Some(v)) in log
  }

  ghost predicate Recorded(s: System) {
    && (forall id :: ReadCount(s.log, id) <= 1)
    && (forall id :: id >= s.c.nextId ==> ReadCount(s.log, id) == 0)
    && (forall id :: id in s.c.flights && s.c.flights[id].stage == Registered ==> ReadCount(s.log, id) == 0)
    && (forall r :: r in s.phases && s.phases[r].InReader? ==> ReadCount(s.log, s.phases[r].id) == 0)
    && (forall id :: id in s.c.flights && s.c.flights[id].result.Some? ==>
          OwnValue(s.c, s.log, id, s.c.flights[id].result.value))
    && (forall e :: e in s.ends ==>
          e.outcome != ReleasedBeforeUse && (e.outcome.Obtained? ==> OwnValue(s.c, s.log, e.id, e.outcome.value)))
  }

  ghost predicate Inv(s: System) {
    Sound(s.c) && Phased(s.c, s.phases) && Recorded(s)
  }

  // ---- leaving keeps everything ----

  /** The one flight that leaving touches, before and after. */
  lemma FinishIs(c: Coordinator, r: Request)
    requires Inverse(c) && r in c.requests
    ensures c.requests[r] in c.table && c.table[c.requests[r]] in c.flights
    ensures var key := c.requests[r];
            var id := c.table[key];
            var f := c.flights[id];
            var rest := f.members - {r};
            && r in f.members && f.key == key
            && Finish(c, r) == if rest != {}
               then c.(requests := c.requests - {r},
                       flights := c.flights[id := f.(members := rest, cancelled := f.cancelled - {r})])
               else c.(requests := c.requests - {r}, table := c.table - {key},
                       flights := c.flights[id := f.(members := {}, cancelled := f.cancelled - {r}, result := None)])
  {
    assert RequestOk(c, r) && StoredOk(c, c.requests[r]);
  }

  lemma FinishRequest(c: Coordinator, r: Request, q: Request)
    requires Inverse(c) && r in c.requests && q in Finish(c, r).requests
    ensures RequestOk(Finish(c, r), q)
  {
    FinishIs(c, r);
    hide Finish;
    assert RequestOk(c, q);
    if c.requests[q] == c.requests[r] {
      assert q in c.flights[c.table[c.requests[r]]].members - {r};
    } else {
      assert StoredOk(c, c.requests[q]);
    }
  }

  lemma FinishStored(c: Coordinator, r: Request, k: Key)
    requires Inverse(c) && r in c.requests && k in Finish(c, r).table
    ensures StoredOk(Finish(c, r), k) && Peopled(Finish(c, r), k)
  {
    FinishIs(c, r);
    hide Finish;
    assert StoredOk(c, k) && Peopled(c, k);
  }

  lemma FinishIds(c: Coordinator, r: Request)
    requires Inverse(c)
    ensures Finish(c, r).flights.Keys == c.flights.Keys && Finish(c, r).nextId == c.nextId
  {
    if r in c.requests {
      FinishIs(c, r);
      hide Finish, Inverse;
    }
  }

  lemma FinishInverse(c: Coordinator, r: Request)
    requires Inverse(c)
    ensures Inverse(Finish(c, r))
  {
    if r in c.requests {
      FinishIds(c, r);
      var d := Finish(c, r);
      hide Finish, RequestOk, StoredOk, Peopled;
      forall q | q in d.requests
        ensures RequestOk(d, q)
      {
        FinishRequest(c, r, q);
      }
      forall k | k in d.table
        ensures StoredOk(d, k) && Peopled(d, k)
      {
        FinishStored(c, r, k);
      }
    }
  }

  lemma FinishTableIs(c: Coordinator, r: Request)
    requires Inverse(c)
    ensures Finish(c, r).bounds == c.bounds
    ensures || Finish(c, r).table == c.table
            || (r in c.requests && c.requests[r] in c.table && Finish(c, r).table == c.table - {c.requests[r]})
  {
    if r in c.requests {
      FinishIs(c, r);
      hide Finish, Inverse;
    }
  }

  lemma SmallerTable(c: Coordinator, d: Coordinator, key: Key)
    requires TableBounds(c) && key in c.table && d.table == c.table - {key} && d.bounds == c.bounds
    ensures TableBounds(d)
  {
    FewerKeys(c.table, key);
    DeclaredWith(c.table.Keys, key);
    hide Declared;
  }

  lemma SameTable(c: Coordinator, d: Coordinator)
    requires TableBounds(c) && d.table == c.table && d.bounds == c.bounds
    ensures TableBounds(d)
  {
    hide Declared;
  }

  lemma FinishTable(c: Coordinator, r: Request)
    requires Inverse(c) && TableBounds(c)
    ensures TableBounds(Finish(c, r))
  {
    hide *;
    FinishTableIs(c, r);
    if Finish(c, r).table == c.table {
      SameTable(c, Finish(c, r));
    } else {
      SmallerTable(c, Finish(c, r), c.requests[r]);
    }
  }

  lemma FinishMemberBounds(c: Coordinator, r: Request)
    requires Inverse(c) && MemberBounds(c)
    ensures MemberBounds(Finish(c, r))
  {
    if r in c.requests {
      FinishIs(c, r);
      FewerMembers(c.flights[c.table[c.requests[r]]].members, r);
      hide Finish, Inverse;
    }
  }

  lemma FinishBounds(c: Coordinator, r: Request)
    requires Inverse(c) && WithinBounds(c)
    ensures WithinBounds(Finish(c, r))
  {
    FinishTable(c, r);
    FinishMemberBounds(c, r);
  }

  lemma FewerKeys(table: map<Key, FlightId>, key: Key)
    requires key in table
    ensures |table - {key}| <= |table| && (table - {key}).Keys == table.Keys - {key}
  {
    assert (table - {key}).Keys == table.Keys - {key};
    assert |table| == |table.Keys| && |table - {key}| == |(table - {key}).Keys|;
  }

  lemma FewerMembers(members: set<Request>, r: Request)
    ensures |members - {r}| <= |members|
  {
    if r !in members {
      assert members - {r} == members;
    }
  }

  lemma FinishStaged(c: Coordinator, r: Request)
    requires Inverse(c) && Staged(c)
    ensures Staged(Finish(c, r))
  {
    if r in c.requests {
      FinishIs(c, r);
      hide Finish;
    }
  }

  lemma FinishReleased(c: Coordinator, r: Request)
    requires Inverse(c) && Released(c)
    ensures Released(Finish(c, r))
  {
    if r in c.requests {
      FinishIs(c, r);
      hide Finish, Inverse;
    }
  }

  lemma FinishSound(c: Coordinator, r: Request)
    requires Sound(c)
    ensures Sound(Finish(c, r))
  {
    FinishReleased(c, r);
    FinishInverse(c, r);
    FinishBounds(c, r);
    FinishStaged(c, r);
  }

  /** Nothing a flight is known by changes when somebody leaves. */
  ghost predicate SameFlight(f: Flight, g: Flight) {
    f.key == g.key && f.leader == g.leader && f.starts == g.starts && f.stage == g.stage
  }

  lemma FinishFrame(c: Coordinator, r: Request)
    requires Inverse(c)
    ensures var d := Finish(c, r);
            && d.closed == c.closed && d.nextId == c.nextId && d.bounds == c.bounds && d.flights.Keys == c.flights.Keys
            && (forall id :: id in c.flights ==>
                  && SameFlight(c.flights[id], d.flights[id])
                  && (d.flights[id].result.Some? ==> d.flights[id].result == c.flights[id].result))
            && (forall k :: k in d.table ==> k in c.table && d.table[k] == c.table[k])
  {
    if r in c.requests {
      FinishIs(c, r);
      hide Finish, Inverse;
    }
  }

  /** Everybody else stays a member of the flight they are in. */
  lemma FinishMembers(c: Coordinator, r: Request, q: Request, id: FlightId)
    requires Inverse(c) && q != r && Member(c, q, id)
    ensures Member(Finish(c, r), q, id)
  {
    if r in c.requests {
      FinishIs(c, r);
      hide Finish;
    }
  }

  lemma FinishPhased(c: Coordinator, r: Request, phases: map<Request, Phase>)
    requires Linked(c) && Phased(c, phases) && r !in phases
    ensures Phased(Finish(c, r), phases)
  {
    hide Inverse, Finish;
    FinishFrame(c, r);
    forall q | q in phases
      ensures PhaseOk(Finish(c, r), q, phases[q])
    {
      if Member(c, q, phases[q].id) {
        FinishMembers(c, r, q, phases[q].id);
      }
    }
  }

  lemma FinishRecorded(s: System, r: Request)
    requires Linked(s.c) && Recorded(s)
    ensures Recorded(s.(c := Finish(s.c, r)))
  {
    hide Linked, Finish;
    assert Inverse(s.c) by { LinkedInverse(s.c); }
    FinishFrame(s.c, r);
  }

  lemma LinkedInverse(c: Coordinator)
    requires Linked(c)
    ensures Inverse(c)
  {
  }

  lemma FinishInv(s: System, r: Request)
    requires Inv(s) && r !in s.phases
    ensures Inv(s.(c := Finish(s.c, r)))
  {
    hide Finish, Linked, WithinBounds, Staged, Recorded, Phased;
    FinishSound(s.c, r);
    FinishPhased(s.c, r, s.phases);
    FinishRecorded(s, r);
  }

  // ---- registering only adds ----

  ghost predicate Grows(c: Coordinator, d: Coordinator) {
    && d.closed == c.closed && d.nextId >= c.nextId && c.flights.Keys <= d.flights.Keys
    && (forall id :: id in c.flights ==> SameFlight(c.flights[id], d.flights[id]) && c.flights[id].result == d.flights[id].result)
    && (forall id :: id in d.flights && id !in c.flights ==>
          id >= c.nextId && d.flights[id].stage == Registered && d.flights[id].result == None)
    && (forall q, id :: Member(c, q, id) ==> Member(d, q, id))
    && (forall k :: k in d.table ==> (k in c.table && c.table[k] == d.table[k]) || d.table[k] !in c.flights)
  }

  lemma GrowsInv(s: System, d: Coordinator)
    requires Phased(s.c, s.phases) && Recorded(s) && Linked(s.c) && Grows(s.c, d) && Sound(d)
    ensures Inv(s.(c := d))
  {
    GrowsPhased(s.c, d, s.phases);
    GrowsRecorded(s, d);
  }

  lemma GrowsPhased(c: Coordinator, d: Coordinator, phases: map<Request, Phase>)
    requires Phased(c, phases) && Grows(c, d)
    ensures Phased(d, phases)
  {
    forall r | r in phases
      ensures PhaseOk(d, r, phases[r])
    {
      assert PhaseOk(c, r, phases[r]);
    }
    hide PhaseOk, Member;
  }

  lemma GrowsRecorded(s: System, d: Coordinator)
    requires Recorded(s) && Grows(s.c, d)
    ensures Recorded(s.(c := d))
  {
    hide Member;
  }

  lemma GrowsOn(a: Coordinator, b: Coordinator, c: Coordinator)
    requires Grows(a, b) && Grows(b, c)
    ensures Grows(a, c)
  {
  }

  /** A stored flight that may be joined. */
  ghost predicate Open(c: Coordinator, id: FlightId) {
    && id in c.flights && c.flights[id].key in c.table && c.table[c.flights[id].key] == id
    && Paired(c) && TableBounds(c) && MemberBounds(c) && Staged(c) && Released(c) && !c.closed
  }

  /** Joining changes one flight's members and nothing else. */
  ghost predicate JoinedTo(c: Coordinator, d: Coordinator, id: FlightId)
    requires id in c.flights
  {
    && d.closed == c.closed && d.bounds == c.bounds && d.table == c.table && d.nextId == c.nextId
    && d.flights.Keys == c.flights.Keys
    && (forall i :: i in c.flights && i != id ==> d.flights[i] == c.flights[i])
    && d.flights[id]
       == c.flights[id].(members := d.flights[id].members, participants := d.flights[id].participants)
    && c.flights[id].members <= d.flights[id].members
  }

  lemma JoinPaired(c: Coordinator, id: FlightId, r: Request)
    requires Paired(c) && id in c.flights && c.flights[id].key in c.table && c.table[c.flights[id].key] == id
    ensures Paired(Join(c, id, r))
  {
    if Joins(c, id, r) {
      var d := Join(c, id, r);
      forall q | q in d.requests
        ensures RequestOk(d, q)
      {
        if q != r {
          assert RequestOk(c, q);
        }
      }
      forall k | k in d.table
        ensures StoredOk(d, k)
      {
        assert StoredOk(c, k);
      }
    }
  }

  lemma JoinMembers(c: Coordinator, id: FlightId, r: Request)
    requires id in c.flights && MemberBounds(c)
    ensures MemberBounds(Join(c, id, r)) && JoinedTo(c, Join(c, id, r), id)
    ensures Joins(c, id, r) ==> r in Join(c, id, r).flights[id].members
  {
    OneMore(c.flights[id].members, r);
  }

  lemma OneMore(members: set<Request>, r: Request)
    ensures |members + {r}| <= |members| + 1
  {
  }

  lemma JoinedStaged(c: Coordinator, d: Coordinator, id: FlightId)
    requires id in c.flights && Staged(c) && TableBounds(c) && JoinedTo(c, d, id)
    ensures Staged(d) && TableBounds(d) && (Released(c) ==> Released(d))
  {
    hide Declared;
  }

  lemma JoinKeeps(c: Coordinator, id: FlightId, r: Request)
    requires Open(c, id)
    ensures Open(Join(c, id, r), id) && JoinedTo(c, Join(c, id, r), id)
    ensures Joins(c, id, r) ==> r in Join(c, id, r).flights[id].members
  {
    JoinPaired(c, id, r);
    JoinMembers(c, id, r);
    hide Paired, TableBounds, MemberBounds, Staged, Released, Join;
    JoinedStaged(c, Join(c, id, r), id);
  }

  lemma JoinedSelf(c: Coordinator, id: FlightId)
    requires id in c.flights
    ensures JoinedTo(c, c, id)
  {
  }

  lemma JoinAllNext(c: Coordinator, id: FlightId, front: seq<Request>, last: Request)
    requires id in c.flights
    ensures JoinAll(c, id, front + [last]) == Join(JoinAll(c, id, front), id, last)
    ensures Selected(c, id, front + [last])
            == Selected(c, id, front) + (if Joins(JoinAll(c, id, front), id, last) then [last] else [])
  {
    var rs := front + [last];
    assert rs[..|rs| - 1] == front;
    hide Join, Joins;
  }

  lemma NobodyJoins(c: Coordinator, id: FlightId, r: Request)
    requires id in c.flights && !Joins(c, id, r)
    ensures Join(c, id, r) == c
  {
    hide Joins;
  }

  lemma JoinedMembers(c: Coordinator, d: Coordinator, id: FlightId)
    requires id in c.flights && JoinedTo(c, d, id)
    ensures id in d.flights && c.flights[id].members <= d.flights[id].members
  {
  }

  lemma {:induction false} JoinAllKeeps(c: Coordinator, id: FlightId, rs: seq<Request>)
    requires Open(c, id)
    ensures Open(JoinAll(c, id, rs), id) && JoinedTo(c, JoinAll(c, id, rs), id)
    ensures if Selected(c, id, rs) == [] then JoinAll(c, id, rs) == c else JoinAll(c, id, rs).flights[id].members != {}
  {
    OpenParts(c, id);
    if rs == [] {
      hide Open, JoinedTo;
      JoinedSelf(c, id);
    } else {
      hide *;
      var front, last := rs[..|rs| - 1], rs[|rs| - 1];
      assert rs == front + [last];
      var before := JoinAll(c, id, front);
      JoinAllKeeps(c, id, front);
      JoinKeeps(before, id, last);
      JoinAllNext(c, id, front, last);
      JoinedOn(c, before, Join(before, id, last), id);
      JoinedMembers(before, Join(before, id, last), id);
      if !Joins(before, id, last) {
        NobodyJoins(before, id, last);
      }
    }
  }

  lemma JoinedOn(a: Coordinator, b: Coordinator, c: Coordinator, id: FlightId)
    requires id in a.flights && JoinedTo(a, b, id) && JoinedTo(b, c, id)
    ensures JoinedTo(a, c, id)
  {
  }

  /** Only who leads is written down. */
  lemma DesignateIs(c: Coordinator, id: FlightId, rs: seq<Request>)
    requires id in c.flights
    ensures var d := Designate(c, id, rs);
            && d == c.(flights := d.flights) && d.flights.Keys == c.flights.Keys
            && forall i :: i in c.flights ==> d.flights[i] == c.flights[i].(designated := d.flights[i].designated)
  {
  }

  lemma DesignateRequest(c: Coordinator, id: FlightId, rs: seq<Request>, r: Request)
    requires id in c.flights && r in c.requests && RequestOk(c, r)
    ensures r in Designate(c, id, rs).requests && RequestOk(Designate(c, id, rs), r)
  {
    DesignateIs(c, id, rs);
    hide Designate;
  }

  lemma DesignateStored(c: Coordinator, id: FlightId, rs: seq<Request>, k: Key)
    requires id in c.flights && k in c.table && StoredOk(c, k) && Peopled(c, k)
    ensures k in Designate(c, id, rs).table && StoredOk(Designate(c, id, rs), k) && Peopled(Designate(c, id, rs), k)
  {
    DesignateIs(c, id, rs);
    hide Designate;
  }

  lemma DesignatePaired(c: Coordinator, id: FlightId, rs: seq<Request>)
    requires id in c.flights && Paired(c) && forall k :: k in c.table ==> Peopled(c, k)
    ensures var d := Designate(c, id, rs);
            Paired(d) && forall k :: k in d.table ==> Peopled(d, k)
  {
    DesignateIs(c, id, rs);
    hide Designate, RequestOk, StoredOk, Peopled;
    var d := Designate(c, id, rs);
    forall r | r in d.requests
      ensures RequestOk(d, r)
    {
      DesignateRequest(c, id, rs, r);
    }
    forall k | k in d.table
      ensures StoredOk(d, k) && Peopled(d, k)
    {
      DesignateStored(c, id, rs, k);
    }
  }

  lemma OpenParts(c: Coordinator, id: FlightId)
    requires Open(c, id)
    ensures id in c.flights && Paired(c) && TableBounds(c) && MemberBounds(c) && Staged(c) && Released(c) && !c.closed
  {
    hide Paired, TableBounds, MemberBounds, Staged, Released;
  }

  lemma OpenIsSound(c: Coordinator)
    requires Paired(c) && TableBounds(c) && MemberBounds(c) && Staged(c) && Released(c) && !c.closed
    requires forall k :: k in c.table ==> Peopled(c, k)
    ensures Sound(c)
  {
    hide Paired, TableBounds, MemberBounds, Staged, Released, Peopled;
  }

  lemma DesignateSound(c: Coordinator, id: FlightId, rs: seq<Request>)
    requires Open(c, id) && forall k :: k in c.table ==> Peopled(c, k)
    ensures Sound(Designate(c, id, rs)) && Grows(c, Designate(c, id, rs))
  {
    hide *;
    OpenParts(c, id);
    DesignateIs(c, id, rs);
    DesignatePaired(c, id, rs);
    SameButDesignated(c, Designate(c, id, rs));
    OpenIsSound(Designate(c, id, rs));
  }

  lemma SameButDesignated(c: Coordinator, d: Coordinator)
    requires d == c.(flights := d.flights) && d.flights.Keys == c.flights.Keys
    requires forall i :: i in c.flights ==> d.flights[i] == c.flights[i].(designated := d.flights[i].designated)
    ensures TableBounds(c) ==> TableBounds(d)
    ensures MemberBounds(c) ==> MemberBounds(d)
    ensures Staged(c) ==> Staged(d)
    ensures Released(c) ==> Released(d)
    ensures Grows(c, d)
  {
  }

  lemma JoinedGrows(c: Coordinator, d: Coordinator, id: FlightId)
    requires id in c.flights && JoinedTo(c, d, id)
    ensures Grows(c, d)
  {
  }

  /** A cohort that selected somebody. */
  lemma EnrolledSound(c: Coordinator, id: FlightId, rs: seq<Request>)
    requires Open(c, id) && Selected(c, id, rs) != []
    requires forall k :: k in c.table && c.table[k] != id ==> Peopled(c, k)
    ensures var d := Designate(JoinAll(c, id, rs), id, rs);
            Sound(d) && Grows(c, d)
  {
    var joined := JoinAll(c, id, rs);
    JoinAllKeeps(c, id, rs);
    hide JoinAll, Selected, Open, Designate, Grows;
    forall k | k in joined.table
      ensures Peopled(joined, k)
    {
      if c.table[k] != id {
        assert Peopled(c, k);
      }
    }
    DesignateSound(joined, id, rs);
    JoinedGrows(c, joined, id);
    GrowsOn(c, joined, Designate(joined, id, rs));
  }

  lemma OpenedRequest(c: Coordinator, key: Key, r: Request)
    requires Paired(c) && key !in c.table && r in c.requests
    ensures RequestOk(Opened(c, key), r)
  {
    assert RequestOk(c, r);
  }

  lemma OpenedStored(c: Coordinator, key: Key, k: Key)
    requires Paired(c) && key !in c.table && k in Opened(c, key).table
    ensures StoredOk(Opened(c, key), k)
  {
    if k != key {
      assert StoredOk(c, k);
    }
  }

  lemma OpenedGrows(c: Coordinator, key: Key)
    requires (forall id :: id in c.flights ==> id < c.nextId) && Released(c) && key !in c.table
    ensures Grows(c, Opened(c, key)) && Released(Opened(c, key))
  {
  }

  lemma OpenedPaired(c: Coordinator, key: Key)
    requires Paired(c) && Released(c) && key !in c.table
    ensures Paired(Opened(c, key)) && Grows(c, Opened(c, key)) && Released(Opened(c, key))
  {
    hide RequestOk, StoredOk, Grows, Released;
    OpenedGrows(c, key);
    var o := Opened(c, key);
    forall r | r in o.requests
      ensures RequestOk(o, r)
    {
      OpenedRequest(c, key, r);
    }
    forall k | k in o.table
      ensures StoredOk(o, k)
    {
      OpenedStored(c, key, k);
    }
  }

  lemma OpenedTable(c: Coordinator, key: Key)
    requires TableBounds(c) && Admits(c, key) && key !in c.table
    ensures TableBounds(Opened(c, key))
  {
    var o := Opened(c, key);
    assert o.table.Keys == c.table.Keys + {key};
    DeclaredWith(o.table.Keys, key);
    assert o.table.Keys - {key} == c.table.Keys;
    assert |o.table| == |o.table.Keys| == |c.table.Keys| + 1;
  }

  lemma OpenedStaged(c: Coordinator, key: Key)
    requires MemberBounds(c) && BoundsValid(c.bounds) && Staged(c) && Paired(c)
    ensures MemberBounds(Opened(c, key)) && Staged(Opened(c, key))
  {
    var o := Opened(c, key);
    forall k | k in o.table && o.table[k] in o.flights
      ensures StageOk(o.flights[o.table[k]])
    {
      if k != key {
        assert StoredOk(c, k);
      }
    }
  }

  /** A new flight that nobody joined leaves the table as it was. */
  lemma AbandonedSound(c: Coordinator, key: Key)
    requires Sound(c) && key !in c.table && !c.closed
    ensures var o := Opened(c, key);
            var d := o.(table := o.table - {key});
            Sound(d) && Grows(c, d)
  {
    hide Inverse, TableBounds, MemberBounds, Staged, Released, Grows;
    var o := Opened(c, key);
    var d := o.(table := o.table - {key});
    assert d.table == c.table;
    AbandonedPaired(c, d, o.flights[c.nextId]);
    AbandonedStaged(c, d, o.flights[c.nextId]);
    SameTable(c, d);
  }

  lemma AbandonedStaged(c: Coordinator, d: Coordinator, f: Flight)
    requires MemberBounds(c) && TableBounds(c) && Staged(c) && Inverse(c) && f.members == {} && f.participants == 0
    requires f.starts == 0 && d == c.(flights := c.flights[c.nextId := f], nextId := c.nextId + 1)
    ensures MemberBounds(d) && Staged(d)
  {
    hide StageOk, Declared;
    forall k | k in d.table && d.table[k] in d.flights
      ensures StageOk(d.flights[d.table[k]])
    {
      assert StoredOk(c, k);
    }
  }

  lemma AbandonedPaired(c: Coordinator, d: Coordinator, f: Flight)
    requires Inverse(c) && Released(c) && f.stage == Registered && f.result == None
    requires d == c.(flights := c.flights[c.nextId := f], nextId := c.nextId + 1)
    ensures Inverse(d) && Grows(c, d) && Released(d)
  {
    forall r | r in d.requests
      ensures RequestOk(d, r)
    {
      assert RequestOk(c, r);
    }
    forall k | k in d.table
      ensures StoredOk(d, k) && Peopled(d, k)
    {
      assert StoredOk(c, k) && Peopled(c, k);
    }
    AbandonedGrows(c, d, f);
    hide RequestOk, StoredOk, Peopled, Grows, Released;
  }

  lemma AbandonedGrows(c: Coordinator, d: Coordinator, f: Flight)
    requires Paired(c) && Released(c) && f.stage == Registered && f.result == None
    requires d == c.(flights := c.flights[c.nextId := f], nextId := c.nextId + 1)
    ensures Grows(c, d) && Released(d)
  {
    hide RequestOk, StoredOk;
  }

  lemma RegisterSound(c: Coordinator, key: Key, ids: seq<Request>)
    requires Sound(c)
    ensures Sound(Register(c, key, ids).0) && Grows(c, Register(c, key, ids).0)
  {
    var rs := Dedupe(ids);
    hide Dedupe, JoinAll, Selected, Designate, Declared, WithinBounds, Staged;
    if !(rs == [] || "" in rs || c.closed) {
      if key in c.table {
        assert StoredOk(c, key);
        if c.flights[c.table[key]].stage != Rejected {
          var id := c.table[key];
          assert Open(c, id) by { SoundOpen(c, key); }
          JoinAllKeeps(c, id, rs);
          if Selected(c, id, rs) != [] {
            EnrolledSound(c, id, rs);
          }
        }
      } else if Admits(c, key) {
        NewFlight(c, key, rs);
      }
    }
  }

  lemma SoundOpen(c: Coordinator, key: Key)
    requires Sound(c) && key in c.table && !c.closed
    ensures Open(c, c.table[key])
  {
    assert StoredOk(c, key);
    hide Declared;
  }

  lemma NewFlight(c: Coordinator, key: Key, rs: seq<Request>)
    requires Sound(c) && key !in c.table && Admits(c, key) && !c.closed
    ensures var d := Enroll(Opened(c, key), c.nextId, rs, true, key).0;
            Sound(d) && Grows(c, d)
  {
    var o := Opened(c, key);
    OpenedPaired(c, key);
    OpenedTable(c, key);
    OpenedStaged(c, key);
    assert Open(o, c.nextId);
    hide Open, JoinAll, Selected, Designate, Grows, Declared;
    JoinAllKeeps(o, c.nextId, rs);
    if Selected(o, c.nextId, rs) == [] {
      AbandonedSound(c, key);
    } else {
      forall k | k in o.table && o.table[k] != c.nextId
        ensures Peopled(o, k)
      {
        assert Peopled(c, k) && StoredOk(c, k);
      }
      EnrolledSound(o, c.nextId, rs);
      GrowsOn(c, o, Designate(JoinAll(o, c.nextId, rs), c.nextId, rs));
    }
  }

  // ---- one flight changes in place ----

  ghost function Tuned(c: Coordinator, id: FlightId, g: Flight): Coordinator {
    c.(flights := c.flights[id := g])
  }

  lemma TunedSound(c: Coordinator, id: FlightId, g: Flight)
    requires Sound(c) && Stored(c, id)
    requires g.key == c.flights[id].key && g.members == c.flights[id].members
    requires g.participants == c.flights[id].participants && g.cancelled <= g.members && g.starts <= 1 && StageOk(g)
    ensures Sound(Tuned(c, id, g))
  {
    hide RequestOk, StoredOk, Peopled, Declared, StageOk, WithinBounds, Staged, Released;
    TunedInverse(c, id, g);
    TunedBounds(c, id, g);
    TunedReleased(c, id, g);
  }

  lemma TunedInverse(c: Coordinator, id: FlightId, g: Flight)
    requires Inverse(c) && id in c.flights && g.cancelled <= g.members
    requires g.key == c.flights[id].key && g.members == c.flights[id].members
    ensures Inverse(Tuned(c, id, g))
  {
    var d := Tuned(c, id, g);
    forall r | r in d.requests
      ensures RequestOk(d, r)
    {
      assert RequestOk(c, r);
    }
    forall k | k in d.table
      ensures StoredOk(d, k) && Peopled(d, k)
    {
      assert StoredOk(c, k) && Peopled(c, k);
    }
  }

  lemma TunedReleased(c: Coordinator, id: FlightId, g: Flight)
    requires Released(c) && Stored(c, id) && g.key == c.flights[id].key
    ensures Released(Tuned(c, id, g))
  {
  }

  lemma TunedBounds(c: Coordinator, id: FlightId, g: Flight)
    requires WithinBounds(c) && Staged(c) && id in c.flights
    requires g.members == c.flights[id].members && g.participants == c.flights[id].participants
    requires g.starts <= 1 && StageOk(g)
    ensures WithinBounds(Tuned(c, id, g)) && Staged(Tuned(c, id, g))
  {
    hide Declared, StageOk;
  }

  lemma MemberStored(c: Coordinator, r: Request, key: Key)
    requires Linked(c) && Admitted(c, r, key)
    ensures Stored(c, c.table[key]) && Member(c, r, c.table[key]) && c.flights[c.table[key]].key == key
  {
    assert StoredOk(c, key);
  }

  /** Threads in other flights, and idle ones, notice nothing. */
  ghost predicate TunesPhases(c: Coordinator, id: FlightId, g: Flight, before: map<Request, Phase>, after: map<Request, Phase>)
    requires id in c.flights
  {
    && (forall q :: q in after && after[q].id != id ==> q in before && before[q] == after[q])
    && (forall q :: q in before && before[q].id != id ==> q in after && after[q] == before[q])
    && (forall q :: q in after && after[q].id == id ==> PhaseOk(Tuned(c, id, g), q, after[q]))
    && (g.stage == Reading ==> g.leader.Some? && g.leader.value in after && after[g.leader.value] == InReader(id))
  }

  lemma TunedPhased(c: Coordinator, id: FlightId, g: Flight, before: map<Request, Phase>, after: map<Request, Phase>)
    requires Phased(c, before) && id in c.flights && TunesPhases(c, id, g, before, after)
    requires g.key == c.flights[id].key
    ensures Phased(Tuned(c, id, g), after)
  {
    forall q | q in after
      ensures PhaseOk(Tuned(c, id, g), q, after[q])
    {
      if after[q].id != id {
        assert PhaseOk(c, q, before[q]);
      }
    }
  }

  // ---- entering ----

  lemma StoredFacts(c: Coordinator, id: FlightId)
    requires Sound(c) && Stored(c, id)
    ensures StageOk(c.flights[id]) && c.flights[id].cancelled <= c.flights[id].members && id < c.nextId
  {
    assert StoredOk(c, c.flights[id].key);
    hide WithinBounds;
  }

  function Led(f: Flight, r: Request): Flight {
    f.(stage := Reading, leader := Some(r), starts := f.starts + 1)
  }

  lemma LeadSound(c: Coordinator, r: Request, id: FlightId)
    requires Sound(c) && Stored(c, id) && c.flights[id].stage == Registered
    ensures Sound(Tuned(c, id, Led(c.flights[id], r)))
  {
    StoredFacts(c, id);
    hide Sound;
    TunedSound(c, id, Led(c.flights[id], r));
  }

  lemma LeadPhased(c: Coordinator, phases: map<Request, Phase>, r: Request, id: FlightId)
    requires Phased(c, phases) && r !in phases && !c.closed && Member(c, r, id) && c.flights[id].stage == Registered
    ensures Phased(Tuned(c, id, Led(c.flights[id], r)), phases[r := InReader(id)])
  {
    forall q | q in phases
      ensures phases[q].id != id
    {
      assert PhaseOk(c, q, phases[q]);
    }
    TunedPhased(c, id, Led(c.flights[id], r), phases, phases[r := InReader(id)]);
  }

  lemma LeadInv(s: System, r: Request, id: FlightId)
    requires Inv(s) && r !in s.phases && !s.c.closed && Member(s.c, r, id) && s.c.flights[id].stage == Registered
    ensures Inv(s.(c := Tuned(s.c, id, Led(s.c.flights[id], r)), phases := s.phases[r := InReader(id)]))
  {
    StoredFacts(s.c, id);
    LeadSound(s.c, r, id);
    hide Sound;
    LeadPhased(s.c, s.phases, r, id);
    hide Phased;
    LeadRecorded(s, id, r, Led(s.c.flights[id], r));
  }

  lemma LeadRecorded(s: System, id: FlightId, r: Request, g: Flight)
    requires Recorded(s) && id in s.c.flights && s.c.flights[id].stage == Registered && g.stage == Reading
    requires s.c.flights[id].result == g.result == None && g.key == s.c.flights[id].key
    requires s.c.flights[id].leader == None
    ensures Recorded(s.(c := Tuned(s.c, id, g), phases := s.phases[r := InReader(id)]))
  {
  }

  lemma FollowPhased(c: Coordinator, phases: map<Request, Phase>, r: Request, id: FlightId)
    requires Phased(c, phases) && r !in phases && PhaseOk(c, r, Waits(id))
    ensures Phased(c, phases[r := Waits(id)])
  {
    hide PhaseOk;
  }

  lemma FollowRecorded(s: System, r: Request, id: FlightId)
    requires Recorded(s)
    ensures Recorded(s.(phases := s.phases[r := Waits(id)]))
  {
    hide ReadCount, OwnValue;
  }

  lemma FollowInv(s: System, r: Request, key: Key)
    requires Inv(s) && r !in s.phases && !s.c.closed && Admitted(s.c, r, key)
    requires s.c.flights[s.c.table[key]].stage != Registered
    ensures Inv(s.(phases := s.phases[r := Waits(s.c.table[key])]))
  {
    var id := s.c.table[key];
    hide Sound, Phased, Recorded, Linked;
    SoundLinked(s.c);
    MemberStored(s.c, r, key);
    StoredFacts(s.c, id);
    FollowPhased(s.c, s.phases, r, id);
    FollowRecorded(s, r, id);
  }

  lemma EnterCases(c: Coordinator, r: Request, key: Key)
    ensures var (d, e) := Enter(c, r, key);
            match e
            case Leads(id) =>
              !c.closed && Admitted(c, r, key) && id == c.table[key] && c.flights[id].stage == Registered
              && d == Tuned(c, id, Led(c.flights[id], r))
            case Follows(id) =>
              !c.closed && Admitted(c, r, key) && id == c.table[key] && c.flights[id].stage != Registered && d == c
            case _ => d == Finish(c, r)
  {
  }

  lemma EnterInv(s: System, r: Request, key: Key)
    requires Inv(s) && Enabled(s, DoEnter(r, key))
    ensures Inv(Step(s, DoEnter(r, key)))
  {
    var (d, e) := Enter(s.c, r, key);
    EnterCases(s.c, r, key);
    if e.Leads? {
      MemberStored(s.c, r, key);
      LeadInv(s, r, e.id);
    } else if e.Follows? {
      FollowInv(s, r, key);
    } else {
      FinishInv(s, r);
      hide Inv;
      assert Step(s, DoEnter(r, key)) == s.(c := Finish(s.c, r));
    }
  }

  // ---- publishing and waking ----

  lemma {:induction false} CountAppend(log: seq<ReadEvent>, e: ReadEvent, id: FlightId)
    ensures ReadCount(log + [e], id) == ReadCount(log, id) + (if e.id == id then 1 else 0)
  {
    assert (log + [e])[..|log|] == log;
  }

  /** The published flight before the leader leaves it. */
  function PublishedFlight(f: Flight, read: Option<Value>): Flight {
    if read.Some? && read.value.bytes > 0 && read.value.bytes == f.key.bytes then f.(result := read, stage := Ready)
    else f.(stage := Rejected)
  }

  lemma PublishedSound(c: Coordinator, r: Request, id: FlightId, read: Option<Value>)
    requires Sound(c) && Stored(c, id) && c.flights[id].stage == Reading
    ensures Sound(Tuned(c, id, PublishedFlight(c.flights[id], read)))
  {
    assert StageOk(c.flights[c.table[c.flights[id].key]]) && StoredOk(c, c.flights[id].key);
    hide WithinBounds, Linked;
    TunedSound(c, id, PublishedFlight(c.flights[id], read));
  }

  lemma PublishedPhased(c: Coordinator, phases: map<Request, Phase>, r: Request, id: FlightId, read: Option<Value>)
    requires Phased(c, phases) && r in phases && phases[r] == InReader(id) && !c.closed
    ensures PhaseOk(c, r, phases[r])
    ensures Phased(Tuned(c, id, PublishedFlight(c.flights[id], read)), phases - {r})
  {
    var g := PublishedFlight(c.flights[id], read);
    assert PhaseOk(c, r, phases[r]);
    forall q | q in phases - {r} && phases[q].id == id
      ensures PhaseOk(Tuned(c, id, g), q, phases[q])
    {
      assert PhaseOk(c, q, phases[q]);
    }
    forall k | k in c.table && c.table[k] in c.flights && c.flights[c.table[k]].stage == Reading && c.table[k] != id
      ensures c.flights[c.table[k]].leader.Some? && c.flights[c.table[k]].leader.value in phases - {r}
    {
    }
    PhasedWithout(c, phases, r, id, g);
  }

  lemma PhasedWithout(c: Coordinator, phases: map<Request, Phase>, r: Request, id: FlightId, g: Flight)
    requires Phased(c, phases) && id in c.flights && g.key == c.flights[id].key && g.stage != Reading
    requires r in phases && phases[r] == InReader(id)
    requires forall q :: q in phases - {r} && phases[q].id == id ==> PhaseOk(Tuned(c, id, g), q, phases[q])
    ensures Phased(Tuned(c, id, g), phases - {r})
  {
    forall q | q in phases - {r}
      ensures PhaseOk(Tuned(c, id, g), q, phases[q])
    {
      if phases[q].id != id {
        assert PhaseOk(c, q, phases[q]);
      }
    }
    hide PhaseOk;
  }

  /** The leader's last locked region, before it leaves. */
  lemma OwnValueKept(c: Coordinator, d: Coordinator, log: seq<ReadEvent>, more: seq<ReadEvent>, id: FlightId, v: Value)
    requires OwnValue(c, log, id, v) && id in d.flights && (forall e :: e in log ==> e in more)
    requires d.flights[id].key == c.flights[id].key && d.flights[id].leader == c.flights[id].leader
    ensures OwnValue(d, more, id, v)
  {
  }

  lemma PublishedRecorded(s: System, r: Request, id: FlightId, read: Option<Value>)
    requires Recorded(s) && r in s.phases && s.phases[r] == InReader(id) && PhaseOk(s.c, r, s.phases[r])
    requires forall q :: q in s.phases && q != r && s.phases[q].InReader? ==> s.phases[q].id != id
    requires s.c.flights[id].result == None && id < s.c.nextId && s.c.flights[id].stage != Registered
    ensures var c := Tuned(s.c, id, PublishedFlight(s.c.flights[id], read));
            Recorded(System(c, s.phases - {r}, s.log + [ReadEvent(id, r, read)], s.ends))
  {
    var log := s.log + [ReadEvent(id, r, read)];
    forall i
      ensures ReadCount(log, i) == ReadCount(s.log, i) + (if i == id then 1 else 0)
    {
      CountAppend(s.log, ReadEvent(id, r, read), i);
    }
    assert ReadEvent(id, r, read) in log && forall e :: e in s.log ==> e in log;
    var c := Tuned(s.c, id, PublishedFlight(s.c.flights[id], read));
    forall i | i in c.flights && c.flights[i].result.Some?
      ensures OwnValue(c, log, i, c.flights[i].result.value)
    {
      if i != id {
        OwnValueKept(s.c, c, s.log, log, i, c.flights[i].result.value);
      }
    }
    hide ReadCount, PhaseOk, OwnValue;
    forall e | e in s.ends && e.outcome.Obtained?
      ensures OwnValue(c, log, e.id, e.outcome.value)
    {
      OwnValueHas(s.c, s.log, e.id, e.outcome.value);
      OwnValueKept(s.c, c, s.log, log, e.id, e.outcome.value);
    }
  }

  lemma OwnValueHas(c: Coordinator, log: seq<ReadEvent>, id: FlightId, v: Value)
    requires OwnValue(c, log, id, v)
    ensures id in c.flights
  {
  }

  lemma SoleReader(c: Coordinator, phases: map<Request, Phase>, r: Request, q: Request)
    requires Phased(c, phases) && r in phases && q in phases && phases[r].InReader? && phases[q].InReader?
    requires phases[r].id == phases[q].id
    ensures r == q
  {
    assert PhaseOk(c, r, phases[r]) && PhaseOk(c, q, phases[q]);
  }

  lemma EndRecorded(s: System, e: EndEvent)
    requires Recorded(s) && e.outcome != ReleasedBeforeUse
    requires e.outcome.Obtained? ==> OwnValue(s.c, s.log, e.id, e.outcome.value)
    ensures Recorded(s.(ends := s.ends + [e]))
  {
    hide ReadCount, OwnValue;
  }

  lemma ReadOpenInv(s: System, r: Request, read: Option<Value>)
    requires Inv(s) && Enabled(s, DoRead(r, read)) && !s.c.closed
    ensures Inv(Step(s, DoRead(r, read)))
  {
    var id := s.phases[r].id;
    assert PhaseOk(s.c, r, s.phases[r]);
    StoredFacts(s.c, id);
    PublishedSound(s.c, r, id, read);
    PublishedPhased(s.c, s.phases, r, id, read);
    forall q | q in s.phases && q != r && s.phases[q].InReader?
      ensures s.phases[q].id != id
    {
      if s.phases[q].id == id {
        SoleReader(s.c, s.phases, r, q);
      }
    }
    PublishedRecorded(s, r, id, read);
    var g := PublishedFlight(s.c.flights[id], read);
    var t := System(Tuned(s.c, id, g), s.phases - {r}, s.log + [ReadEvent(id, r, read)], s.ends);
    hide Sound, Phased, Recorded, PhaseOk;
    FinishInv(t, r);
    ReadOpenOutcome(s.c, r, id, read);
    var e := EndEvent(id, r, Publish(s.c, r, id, read).1);
    var u := t.(c := Finish(t.c, r));
    assert Step(s, DoRead(r, read)) == u.(ends := u.ends + [e]);
    assert e.outcome.Obtained? ==> OwnValue(u.c, u.log, id, e.outcome.value) by {
      LinkedInverse(t.c);
      FinishFrame(t.c, r);
      assert ReadEvent(id, r, read) in t.log;
    }
    EndRecorded(u, e);
  }

  lemma ReadOpenOutcome(c: Coordinator, r: Request, id: FlightId, read: Option<Value>)
    requires Stored(c, id) && !c.closed && c.flights[id].result == None
    ensures var g := PublishedFlight(c.flights[id], read);
            var (d, outcome) := Publish(c, r, id, read);
            && d == Finish(Tuned(c, id, g), r) && outcome != ReleasedBeforeUse
            && (outcome.Obtained? ==> read == Some(outcome.value) && outcome.value.bytes == c.flights[id].key.bytes)
  {
  }

  lemma ClosedPublish(c: Coordinator, r: Request, id: FlightId, read: Option<Value>)
    requires Linked(c) && c.closed && id in c.flights
    ensures Publish(c, r, id, read) == (c, Cancelled)
  {
  }

  lemma ClosedPhased(c: Coordinator, phases: map<Request, Phase>, r: Request)
    requires Linked(c) && c.closed && Phased(c, phases)
    ensures Phased(c, phases - {r})
  {
    hide PhaseOk;
  }

  /** A reader that returns after the coordinator closed changes nothing. */
  lemma ReadClosedInv(s: System, r: Request, read: Option<Value>)
    requires Inv(s) && Enabled(s, DoRead(r, read)) && s.c.closed
    ensures Inv(Step(s, DoRead(r, read)))
  {
    var id := s.phases[r].id;
    assert PhaseOk(s.c, r, s.phases[r]) && id < s.c.nextId;
    ClosedPublish(s.c, r, id, read);
    ClosedPhased(s.c, s.phases, r);
    hide Sound;
    forall q | q in s.phases && q != r && s.phases[q].InReader?
      ensures s.phases[q].id != id
    {
      if s.phases[q].id == id {
        SoleReader(s.c, s.phases, r, q);
      }
    }
    hide Phased, Publish, Recorded;
    LoggedLate(s, r, id, read);
    EndRecorded(s.(phases := s.phases - {r}, log := s.log + [ReadEvent(id, r, read)]), EndEvent(id, r, Cancelled));
  }

  lemma LoggedLate(s: System, r: Request, id: FlightId, read: Option<Value>)
    requires Recorded(s) && r in s.phases && s.phases[r] == InReader(id) && id in s.c.flights
    requires forall q :: q in s.phases && q != r && s.phases[q].InReader? ==> s.phases[q].id != id
    requires id < s.c.nextId && s.c.flights[id].leader.Some? && s.c.flights[id].stage != Registered
    ensures Recorded(s.(phases := s.phases - {r}, log := s.log + [ReadEvent(id, r, read)]))
  {
    var log := s.log + [ReadEvent(id, r, read)];
    forall i
      ensures ReadCount(log, i) == ReadCount(s.log, i) + (if i == id then 1 else 0)
    {
      CountAppend(s.log, ReadEvent(id, r, read), i);
    }
    hide ReadCount;
    assert forall e :: e in s.log ==> e in log;
  }

  lemma WaiterGone(s: System, r: Request)
    requires Inv(s) && r in s.phases && s.phases[r].Waits?
    ensures Inv(s.(phases := s.phases - {r}))
  {
    hide Sound, PhaseOk, ReadCount, OwnValue;
  }

  function Counted(f: Flight): Flight {
    f.(acquisitions := f.acquisitions + 1)
  }

  lemma CountedInv(s: System, id: FlightId)
    requires Inv(s) && Stored(s.c, id)
    ensures Inv(s.(c := Tuned(s.c, id, Counted(s.c.flights[id]))))
  {
    StoredFacts(s.c, id);
    StartsBound(s.c, id);
    assert Linked(s.c);
    hide Sound, Phased, Recorded, Linked;
    TunedSound(s.c, id, Counted(s.c.flights[id]));
    TunedGrows(s.c, id, Counted(s.c.flights[id]));
    GrowsInv(s, Tuned(s.c, id, Counted(s.c.flights[id])));
  }

  lemma StartsBound(c: Coordinator, id: FlightId)
    requires Sound(c) && id in c.flights
    ensures c.flights[id].starts <= 1
  {
    hide Linked, WithinBounds;
  }

  /** A change that leaves members, identity and result alone. */
  lemma TunedGrows(c: Coordinator, id: FlightId, g: Flight)
    requires id in c.flights && SameFlight(c.flights[id], g) && c.flights[id].result == g.result
    requires c.flights[id].members == g.members
    ensures Grows(c, Tuned(c, id, g))
  {
  }

  lemma WakeCases(c: Coordinator, r: Request, id: FlightId)
    requires id in c.flights && Awake(c, r, id)
    ensures var (d, outcome) := Wake(c, r, id);
            if r in c.flights[id].cancelled || c.closed then d == Finish(c, r) && outcome == Cancelled
            else if c.flights[id].stage == Rejected then d == Finish(c, r) && outcome == Failed
            else
              d == Finish(Tuned(c, id, Counted(c.flights[id])), r)
              && outcome == (if c.flights[id].result.None? then ReleasedBeforeUse else Obtained(c.flights[id].result.value))
  {
  }

  lemma LeftInv(s: System, r: Request, e: EndEvent)
    requires Inv(s) && r !in s.phases && e.outcome != ReleasedBeforeUse
    requires e.outcome.Obtained? ==> OwnValue(s.c, s.log, e.id, e.outcome.value)
    ensures Inv(s.(c := Finish(s.c, r), ends := s.ends + [e]))
  {
    var t := s.(c := Finish(s.c, r));
    FinishInv(s, r);
    LinkedInverse(s.c);
    FinishFrame(s.c, r);
    hide Sound, Phased, Recorded, Finish;
    EndRecorded(t, e);
    assert t.(ends := t.ends + [e]) == s.(c := Finish(s.c, r), ends := s.ends + [e]);
  }

  /** A waiter that may take a value: its flight holds its own reader's. */
  lemma WaiterFinds(s: System, r: Request)
    requires Inv(s) && Enabled(s, DoWake(r)) && !s.c.closed
    requires var f := s.c.flights[s.phases[r].id]; r !in f.cancelled && f.stage != Rejected
    ensures var id := s.phases[r].id;
            && Stored(s.c, id) && s.c.flights[id].result.Some?
            && OwnValue(s.c, s.log, id, s.c.flights[id].result.value)
  {
    assert PhaseOk(s.c, r, s.phases[r]);
    StoredFacts(s.c, s.phases[r].id);
    hide Sound, ReadCount, OwnValue;
  }

  lemma OwnValueTuned(s: System, id: FlightId, v: Value)
    requires id in s.c.flights && OwnValue(s.c, s.log, id, v)
    ensures OwnValue(Tuned(s.c, id, Counted(s.c.flights[id])), s.log, id, v)
  {
  }

  lemma WakeInv(s: System, r: Request)
    requires Inv(s) && Enabled(s, DoWake(r))
    ensures Inv(Step(s, DoWake(r)))
  {
    hide Inv, Wake, Finish, Tuned, Counted, OwnValue;
    var id := s.phases[r].id;
    var t := s.(phases := s.phases - {r});
    var (d, outcome) := Wake(s.c, r, id);
    WaiterGone(s, r);
    WakeCases(s.c, r, id);
    if r in s.c.flights[id].cancelled || s.c.closed || s.c.flights[id].stage == Rejected {
      LeftInv(t, r, EndEvent(id, r, outcome));
    } else {
      WaiterFinds(s, r);
      CountedInv(t, id);
      OwnValueTuned(s, id, s.c.flights[id].result.value);
      LeftInv(t.(c := Tuned(s.c, id, Counted(s.c.flights[id]))), r, EndEvent(id, r, outcome));
    }
  }

  lemma CancelTunes(c: Coordinator, r: Request)
    requires Sound(c) && r in c.requests
    ensures c.requests[r] in c.table
    ensures var id := c.table[c.requests[r]];
            && Stored(c, id)
            && var f := c.flights[id];
               var g := f.(cancelled := f.cancelled + {r});
               && Cancel(c, r).0 == Tuned(c, id, g)
               && g.cancelled <= g.members && g.starts <= 1 && StageOk(g)
  {
    assert RequestOk(c, r) && StoredOk(c, c.requests[r]);
    hide WithinBounds, Released;
    StartsBound(c, c.table[c.requests[r]]);
  }

  lemma CancelInv(s: System, r: Request)
    requires Inv(s)
    ensures Inv(s.(c := Cancel(s.c, r).0))
  {
    if r in s.c.requests {
      CancelTunes(s.c, r);
      hide Sound, Phased, Recorded, Cancel, StageOk, Grows, Tuned;
      var id := s.c.table[s.c.requests[r]];
      var f := s.c.flights[id];
      var g := f.(cancelled := f.cancelled + {r});
      assert Linked(s.c) by { SoundLinked(s.c); }
      hide Linked;
      TunedSound(s.c, id, g);
      TunedGrows(s.c, id, g);
      GrowsInv(s, Tuned(s.c, id, g));
    }
  }

  lemma SoundLinked(c: Coordinator)
    requires Sound(c)
    ensures Linked(c) && Inverse(c)
  {
    hide WithinBounds, Staged, Released;
  }

  lemma RegisterInv(s: System, key: Key, ids: seq<Request>)
    requires Inv(s)
    ensures Inv(s.(c := Register(s.c, key, ids).0))
  {
    RegisterSound(s.c, key, ids);
    assert Linked(s.c);
    hide Sound, Phased, Recorded, Linked, Register;
    GrowsInv(s, Register(s.c, key, ids).0);
  }

  // ---- closing ----

  lemma {:induction false} FinishAllKeeps(c: Coordinator, rs: seq<Request>)
    requires Inverse(c) && WithinBounds(c) && Released(c)
    ensures Inverse(FinishAll(c, rs)) && WithinBounds(FinishAll(c, rs)) && Released(FinishAll(c, rs))
    ensures forall r :: r in FinishAll(c, rs).requests <==> r in c.requests && r !in rs
    ensures var d := FinishAll(c, rs);
            && d.closed == c.closed && d.nextId == c.nextId && d.flights.Keys == c.flights.Keys
            && forall id :: id in c.flights ==>
                 && SameFlight(c.flights[id], d.flights[id])
                 && (d.flights[id].result.Some? ==> d.flights[id].result == c.flights[id].result)
  {
    if rs != [] {
      var front, last := rs[..|rs| - 1], rs[|rs| - 1];
      var before := FinishAll(c, front);
      FinishAllKeeps(c, front);
      FinishInverse(before, last);
      FinishBounds(before, last);
      FinishReleased(before, last);
      FinishFrame(before, last);
      FinishRequests(before, last);
      assert forall r :: r in rs <==> r in front || r == last;
      hide Inverse, WithinBounds, Released, Finish;
    }
  }

  lemma FinishRequests(c: Coordinator, r: Request)
    requires Inverse(c)
    ensures forall q :: q in Finish(c, r).requests <==> q in c.requests && q != r
  {
  }

  lemma ShutShape(c: Coordinator)
    ensures var d := ShutAll(c);
            d.requests == c.requests && d.table == c.table && d.nextId == c.nextId && d.flights.Keys == c.flights.Keys
  {
  }

  lemma ShutRequest(c: Coordinator, r: Request)
    requires r in c.requests && RequestOk(c, r)
    ensures r in ShutAll(c).requests && RequestOk(ShutAll(c), r)
  {
  }

  lemma ShutStored(c: Coordinator, k: Key)
    requires k in c.table && StoredOk(c, k) && Peopled(c, k)
    ensures k in ShutAll(c).table && StoredOk(ShutAll(c), k) && Peopled(ShutAll(c), k)
  {
  }

  lemma ShutBounds(c: Coordinator)
    requires WithinBounds(c) && Released(c)
    ensures WithinBounds(ShutAll(c)) && Released(ShutAll(c))
  {
    hide Declared;
  }

  lemma ShutInverse(c: Coordinator)
    requires Sound(c)
    ensures Inverse(ShutAll(c)) && WithinBounds(ShutAll(c)) && Released(ShutAll(c))
  {
    hide RequestOk, StoredOk, Peopled, WithinBounds, Released, Staged, ShutAll;
    ShutShape(c);
    ShutBounds(c);
    var d := ShutAll(c);
    forall r | r in d.requests
      ensures RequestOk(d, r)
    {
      ShutRequest(c, r);
    }
    forall k | k in d.table
      ensures StoredOk(d, k) && Peopled(d, k)
    {
      ShutStored(c, k);
    }
  }

  lemma EmptyTable(c: Coordinator)
    requires Inverse(c)
    ensures c.requests == map[] ==> c.table == map[]
  {
    if c.table != map[] {
      var k :| k in c.table;
      assert StoredOk(c, k) && Peopled(c, k);
      var m :| m in c.flights[c.table[k]].members;
      assert m in c.requests;
    }
  }

  lemma NoRequests(c: Coordinator, d: Coordinator, order: seq<Request>)
    requires forall r :: r in order <==> r in c.requests
    requires forall r :: r in d.requests <==> r in c.requests && r !in order
    ensures d.requests == map[]
  {
    assert forall r :: r !in d.requests;
  }

  lemma ClosedSound(c: Coordinator)
    requires Inverse(c) && WithinBounds(c) && Released(c) && c.table == map[] && c.requests == map[]
    requires forall id :: id in c.flights ==> c.flights[id].starts <= 1
    ensures Sound(c)
  {
    hide WithinBounds;
  }

  /** What closing leaves of every flight. */
  ghost predicate ClosesTo(c: Coordinator, d: Coordinator) {
    && d.closed && d.nextId == c.nextId && d.flights.Keys == c.flights.Keys
    && forall id :: id in c.flights ==>
         && d.flights[id].key == c.flights[id].key && d.flights[id].leader == c.flights[id].leader
         && d.flights[id].starts <= 1
         && (d.flights[id].stage == Registered ==> c.flights[id].stage == Registered)
         && (d.flights[id].result.Some? ==> d.flights[id].result == c.flights[id].result)
  }

  lemma ShutThenLeft(c: Coordinator, order: seq<Request>)
    requires Sound(c)
    ensures ClosesTo(c, FinishAll(ShutAll(c), order))
  {
    ShutInverse(c);
    ShutFrame(c);
    hide Sound, ShutAll, FinishAll, Inverse, WithinBounds, Released;
    FinishAllKeeps(ShutAll(c), order);
  }

  lemma ClosedTable(c: Coordinator, order: seq<Request>)
    requires Sound(c) && forall r :: r in order <==> r in c.requests
    ensures var d := FinishAll(ShutAll(c), order);
            Inverse(d) && WithinBounds(d) && Released(d) && d.table == map[] && d.requests == map[]
  {
    hide *;
    ShutShape(c);
    ShutInverse(c);
    FinishAllKeeps(ShutAll(c), order);
    NoRequests(ShutAll(c), FinishAll(ShutAll(c), order), order);
    EmptyTable(FinishAll(ShutAll(c), order));
  }

  lemma CloseInv(s: System, order: seq<Request>)
    requires Inv(s) && Enabled(s, DoClose(order))
    ensures Inv(Step(s, DoClose(order)))
  {
    hide Sound, Phased, Recorded, ShutAll, FinishAll, Inverse, WithinBounds, Released;
    ShutThenLeft(s.c, order);
    ClosedTable(s.c, order);
    var d := FinishAll(ShutAll(s.c), order);
    ClosedSound(d);
    ClosedPhases(s.c, d, s.phases);
    ClosedRecorded(s, d);
  }

  lemma ShutFrame(c: Coordinator)
    requires Sound(c)
    ensures var d := ShutAll(c);
            && d.nextId == c.nextId && d.flights.Keys == c.flights.Keys && d.closed
            && forall id :: id in c.flights ==>
                 && d.flights[id].key == c.flights[id].key && d.flights[id].leader == c.flights[id].leader
                 && d.flights[id].starts == c.flights[id].starts <= 1 && d.flights[id].result == c.flights[id].result
                 && (d.flights[id].stage == Registered ==> c.flights[id].stage == Registered)
  {
    hide Linked, WithinBounds;
  }

  lemma ClosedPhases(c: Coordinator, d: Coordinator, phases: map<Request, Phase>)
    requires Phased(c, phases) && ClosesTo(c, d) && d.table == map[]
    ensures Phased(d, phases)
  {
    forall r | r in phases
      ensures PhaseOk(d, r, phases[r])
    {
      assert PhaseOk(c, r, phases[r]);
    }
    hide PhaseOk;
  }

  lemma ClosedRecorded(s: System, d: Coordinator)
    requires Recorded(s) && ClosesTo(s.c, d)
    ensures Recorded(s.(c := d))
  {
    hide ReadCount, OwnValue;
    forall id | id in d.flights && d.flights[id].result.Some?
      ensures OwnValue(d, s.log, id, d.flights[id].result.value)
    {
      OwnValueKept(s.c, d, s.log, s.log, id, d.flights[id].result.value);
    }
    forall e | e in s.ends && e.outcome.Obtained?
      ensures OwnValue(d, s.log, e.id, e.outcome.value)
    {
      OwnValueHas(s.c, s.log, e.id, e.outcome.value);
      OwnValueKept(s.c, d, s.log, s.log, e.id, e.outcome.value);
    }
  }

  // ---- every run ----

  lemma StartInv(b: Bounds)
    requires BoundsValid(b)
    ensures Inv(Start(b))
  {
  }

  lemma StepInv(s: System, a: Action)
    requires Inv(s) && Enabled(s, a)
    ensures Inv(Step(s, a))
  {
    hide Inv;
    match a
    case DoRegister(key, ids) => RegisterInv(s, key, ids);
    case DoEnter(r, key) => EnterInv(s, r, key);
    case DoRead(r, read) =>
      if s.c.closed {
        ReadClosedInv(s, r, read);
      } else {
        ReadOpenInv(s, r, read);
      }
    case DoWake(r) => WakeInv(s, r);
    case DoCancel(r) => CancelInv(s, r);
    case DoFinish(r) => FinishInv(s, r);
    case DoClose(order) => CloseInv(s, order);
  }

  lemma {:induction false} RunInv(s: System, actions: seq<Action>)
    requires Inv(s) && Runnable(s, actions)
    ensures Inv(Run(s, actions))
    decreases |actions|
  {
    if actions != [] {
      StepInv(s, actions[0]);
      hide Inv, Step, Enabled;
      RunInv(Step(s, actions[0]), actions[1..]);
    }
  }
}
