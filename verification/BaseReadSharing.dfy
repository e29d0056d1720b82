// That base reads are shared: exactly who joins a cohort, and that whoever has
// joined and stays gets what the one reader returned.
module BaseReadSharing {
  import opened Common
  import opened BaseReadModel
  import opened BaseReadProtocol
  import opened BaseReadTheorems

  // ---- who joins ----

  /** The requests that are not registered yet, in order. */
  function Free(rs: seq<Request>, requests: map<Request, Key>): seq<Request> {
    if rs == [] then []
    else
      Free(rs[..|rs| - 1], requests) + (if rs[|rs| - 1] in requests then [] else [rs[|rs| - 1]])
  }

  predicate Distinct(rs: seq<Request>) {
    forall i, j :: 0 <= i < j < |rs| ==> rs[i] != rs[j]
  }

  function Members(rs: seq<Request>): set<Request> {
    set r | r in rs
  }

  lemma {:induction false} DedupeIs(ids: seq<Request>)
    ensures Distinct(Dedupe(ids)) && Members(Dedupe(ids)) == Members(ids)
  {
    if ids != [] {
      DedupeIs(ids[..|ids| - 1]);
      assert ids == ids[..|ids| - 1] + [ids[|ids| - 1]];
      assert Members(ids) == Members(ids[..|ids| - 1]) + {ids[|ids| - 1]};
    }
  }

  lemma {:induction false} FreeAre(rs: seq<Request>, requests: map<Request, Key>)
    ensures Members(Free(rs, requests)) == Members(rs) - requests.Keys
    ensures Distinct(rs) ==> Distinct(Free(rs, requests))
  {
    if rs != [] {
      var front, last := rs[..|rs| - 1], rs[|rs| - 1];
      FreeAre(front, requests);
      assert rs == front + [last];
      assert Members(rs) == Members(front) + {last};
      var free := Free(front, requests);
      if last !in requests {
        assert Free(rs, requests) == free + [last];
        assert Members(free + [last]) == Members(free) + {last};
        if Distinct(rs) {
          assert Distinct(front) && last !in Members(front);
          assert last !in free;
        }
      }
    }
  }

  /** How many more the flight takes. */
  function Room(c: Coordinator, id: FlightId): nat
    requires id in c.flights
  {
    Max(0, c.bounds.members - c.flights[id].participants)
  }

  function Taken(c: Coordinator, id: FlightId, rs: seq<Request>): (n: nat)
    requires id in c.flights
    ensures n <= |Free(rs, c.requests)|
  {
    Min(|Free(rs, c.requests)|, Room(c, id))
  }

  /** `d` is `c` after exactly these have joined the flight. */
  ghost predicate WithMembers(c: Coordinator, d: Coordinator, id: FlightId, joined: seq<Request>)
    requires id in c.flights
  {
    var f := c.flights[id];
    && d.table == c.table && d.nextId == c.nextId && d.bounds == c.bounds && d.closed == c.closed
    && d.requests.Keys == c.requests.Keys + Members(joined)
    && (forall r :: r in d.requests ==> d.requests[r] == if r in c.requests then c.requests[r] else f.key)
    && d.flights == c.flights[id := f.(members := f.members + Members(joined),
                                       participants := f.participants + |joined|)]
  }

  lemma NobodyNew(c: Coordinator, id: FlightId)
    requires id in c.flights
    ensures WithMembers(c, c, id, [])
  {
    assert c.flights[id].members + Members([]) == c.flights[id].members;
    assert Members([]) == {};
  }

  lemma OneMoreMember(c: Coordinator, d: Coordinator, id: FlightId, joined: seq<Request>, r: Request)
    requires id in c.flights && WithMembers(c, d, id, joined)
    requires r !in d.requests && d.flights[id].participants < d.bounds.members
    ensures WithMembers(c, Join(d, id, r), id, joined + [r])
  {
    assert Members(joined + [r]) == Members(joined) + {r};
    var f := c.flights[id];
    assert f.members + Members(joined) + {r} == f.members + Members(joined + [r]);
    assert d.flights[id].key == f.key;
  }

  /** The first free requests join, up to the room there is. */
  lemma {:induction false} JoinAllExactly(c: Coordinator, id: FlightId, rs: seq<Request>)
    requires id in c.flights && Distinct(rs)
    ensures Selected(c, id, rs) == Free(rs, c.requests)[..Taken(c, id, rs)]
    ensures WithMembers(c, JoinAll(c, id, rs), id, Selected(c, id, rs))
  {
    if rs == [] {
      NobodyNew(c, id);
    } else {
      var front, last := rs[..|rs| - 1], rs[|rs| - 1];
      assert rs == front + [last] && Distinct(front) && last !in front;
      JoinAllExactly(c, id, front);
      var d, joined := JoinAll(c, id, front), Selected(c, id, front);
      FreeAre(front, c.requests);
      LastFree(c, id, front, last);
      JoinAllNext(c, id, front, last);
      hide JoinAll, Selected, WithMembers, Distinct;
      WithParts(c, d, id, joined);
      assert last in d.requests <==> last in c.requests by {
        assert Members(joined) <= Members(Free(front, c.requests));
        assert last !in Members(front);
      }
      if last !in c.requests && d.flights[id].participants < d.bounds.members {
        OneMoreMember(c, d, id, joined, last);
      } else {
        NobodyJoins(d, id, last);
      }
    }
  }

  lemma WithParts(c: Coordinator, d: Coordinator, id: FlightId, joined: seq<Request>)
    requires id in c.flights && WithMembers(c, d, id, joined)
    ensures d.requests.Keys == c.requests.Keys + Members(joined) && d.bounds == c.bounds
    ensures id in d.flights && d.flights[id].participants == c.flights[id].participants + |joined|
  {
  }

  lemma LastFree(c: Coordinator, id: FlightId, front: seq<Request>, last: Request)
    requires id in c.flights
    ensures var free, all := Free(front, c.requests), Free(front + [last], c.requests);
            && all == free + (if last in c.requests then [] else [last])
            && (last !in c.requests && |free| < Room(c, id) ==>
                  Taken(c, id, front) == |free| && all[..Taken(c, id, front + [last])] == free + [last])
            && (last in c.requests || |free| >= Room(c, id) ==>
                  all[..Taken(c, id, front + [last])] == free[..Taken(c, id, front)])
  {
    assert (front + [last])[..|front|] == front;
  }

  /** When a cohort can join or open a flight under this key at all. */
  ghost predicate Welcome(c: Coordinator, key: Key, ids: seq<Request>) {
    && ids != [] && "" !in ids && !c.closed
    && (exists r :: r in ids && r !in c.requests)
    && if key in c.table && c.table[key] in c.flights then
         var f := c.flights[c.table[key]];
         f.stage != Rejected && f.participants < c.bounds.members
       else
         && 0 < key.bytes <= c.bounds.perFlight && 2 * Declared(c.table.Keys) + 2 * key.bytes <= c.bounds.total
         && |c.table| < c.bounds.flights
  }

  /** A registration under a flight that stands already: the free ones join in
      order while there is room, and the flight goes on as it was. */
  ghost predicate JoinedFlight(c: Coordinator, d: Coordinator, id: FlightId, rs: seq<Request>, reg: Registration)
    requires id in c.flights
  {
    var f := c.flights[id];
    && d.table == c.table && d.nextId == c.nextId && !d.closed
    && reg.members == Free(rs, c.requests)[..Taken(c, id, rs)]
    && d.requests.Keys == c.requests.Keys + Members(reg.members)
    && (forall r :: r in d.requests ==> d.requests[r] == if r in c.requests then c.requests[r] else f.key)
    && d.flights == c.flights[id := f.(members := f.members + Members(reg.members),
                                       participants := f.participants + |reg.members|,
                                       designated := reg.leader)]
    && reg.stage == Some(f.stage)
    && if f.designated.Some? then reg.leader == f.designated
       else reg.leader == FirstMember(rs, f.members + Members(reg.members))
  }

  lemma EnrollIs(c: Coordinator, id: FlightId, rs: seq<Request>, isNew: bool, key: Key)
    requires id in c.flights && Selected(c, id, rs) != []
    ensures var joined := JoinAll(c, id, rs);
            var f := joined.flights[id];
            var leader := if f.designated.Some? then f.designated else FirstMember(rs, f.members);
            Enroll(c, id, rs, isNew, key)
            == (joined.(flights := joined.flights[id := f.(designated := leader)]),
                Registration(Selected(c, id, rs), leader, Some(f.stage)))
  {
    hide JoinAll, Selected, FirstMember;
    var joined := JoinAll(c, id, rs);
    assert joined.flights[id := joined.flights[id]] == joined.flights;
  }

  lemma JoinedParts(c: Coordinator, joined: Coordinator, id: FlightId, rs: seq<Request>, reg: Registration)
    requires id in c.flights && !c.closed && WithMembers(c, joined, id, reg.members)
    requires reg.members == Free(rs, c.requests)[..Taken(c, id, rs)]
    requires id in joined.flights && reg.stage == Some(joined.flights[id].stage)
    requires var f := joined.flights[id];
             reg.leader == if f.designated.Some? then f.designated else FirstMember(rs, f.members)
    ensures JoinedFlight(c, joined.(flights := joined.flights[id := joined.flights[id].(designated := reg.leader)]), id, rs, reg)
  {
    hide Free, FirstMember, Members, Taken;
    var f := c.flights[id];
    var g := f.(members := f.members + Members(reg.members), participants := f.participants + |reg.members|);
    assert joined.flights == c.flights[id := g];
    assert joined.flights[id := g.(designated := reg.leader)] == c.flights[id := g.(designated := reg.leader)];
  }

  lemma EnrolledExactly(c: Coordinator, id: FlightId, rs: seq<Request>, isNew: bool, key: Key)
    requires id in c.flights && Distinct(rs) && !c.closed
    requires Free(rs, c.requests) != [] && c.flights[id].participants < c.bounds.members
    ensures var (d, reg) := Enroll(c, id, rs, isNew, key);
            reg != REFUSED && reg.members != [] && JoinedFlight(c, d, id, rs, reg)
  {
    JoinAllExactly(c, id, rs);
    SomeTaken(c, id, rs);
    hide *;
    assert Selected(c, id, rs) != [];
    EnrollIs(c, id, rs, isNew, key);
    var (d, reg) := Enroll(c, id, rs, isNew, key);
    JoinedParts(c, JoinAll(c, id, rs), id, rs, reg);
  }

  lemma SomeTaken(c: Coordinator, id: FlightId, rs: seq<Request>)
    requires id in c.flights && Free(rs, c.requests) != [] && c.flights[id].participants < c.bounds.members
    ensures Taken(c, id, rs) > 0
  {
    hide Free;
  }

  lemma NobodyEnrolled(c: Coordinator, id: FlightId, rs: seq<Request>, isNew: bool, key: Key)
    requires id in c.flights && Distinct(rs)
    requires Free(rs, c.requests) == [] || c.flights[id].participants >= c.bounds.members
    ensures var (d, reg) := Enroll(c, id, rs, isNew, key);
            && reg == REFUSED && d.requests == c.requests && d.nextId == c.nextId && d.flights == c.flights
            && d.table == if isNew then c.table - {key} else c.table
  {
    JoinAllExactly(c, id, rs);
    assert Members([]) == {};
    assert c.flights[id].members + {} == c.flights[id].members;
    hide JoinAll, Selected, Free, FirstMember, Distinct;
  }

  lemma FreeSome(ids: seq<Request>, requests: map<Request, Key>)
    ensures Distinct(Dedupe(ids))
    ensures Free(Dedupe(ids), requests) != [] <==> exists r :: r in ids && r !in requests
    ensures Dedupe(ids) == [] <==> ids == []
    ensures "" in Dedupe(ids) <==> "" in ids
  {
    DedupeIs(ids);
    FreeAre(Dedupe(ids), requests);
    hide Dedupe, Free;
    var free := Free(Dedupe(ids), requests);
    assert "" in Dedupe(ids) <==> "" in Members(Dedupe(ids));
    assert "" in ids <==> "" in Members(ids);
    if free != [] {
      assert free[0] in Members(free);
      assert free[0] in Members(ids);
    }
    if r :| r in ids && r !in requests {
      assert r in Members(ids);
      assert r in Members(free);
    }
    if ids != [] {
      assert ids[0] in Members(ids);
      assert ids[0] in Members(Dedupe(ids));
    }
    if Dedupe(ids) != [] {
      assert Dedupe(ids)[0] in Members(Dedupe(ids));
    }
  }

  /** How a registration must have ended. */
  ghost predicate Answered(c: Coordinator, key: Key, ids: seq<Request>, d: Coordinator, reg: Registration) {
    && (reg == REFUSED <==> !Welcome(c, key, ids))
    && (reg == REFUSED ==>
          && d.table == c.table && d.requests == c.requests
          && forall id :: id in c.flights ==> id in d.flights && d.flights[id] == c.flights[id])
    && (reg != REFUSED ==>
          && reg.members != []
          && if key in c.table then c.table[key] in c.flights && JoinedFlight(c, d, c.table[key], Dedupe(ids), reg)
             else JoinedFlight(Opened(c, key), d, c.nextId, Dedupe(ids), reg) && reg.leader == Some(reg.members[0]))
  }

  lemma KnownCase(c: Coordinator, key: Key, ids: seq<Request>)
    requires key in c.table && c.table[key] in c.flights && c.flights[c.table[key]].stage != Rejected
    requires ids != [] && "" !in ids && !c.closed
    ensures var (d, reg) := Enroll(c, c.table[key], Dedupe(ids), false, key);
            Answered(c, key, ids, d, reg)
  {
    var rs, id := Dedupe(ids), c.table[key];
    FreeSome(ids, c.requests);
    hide Dedupe, Declared, Enroll, Free, JoinedFlight, Distinct;
    if Free(rs, c.requests) == [] || c.flights[id].participants >= c.bounds.members {
      NobodyEnrolled(c, id, rs, false, key);
    } else {
      EnrolledExactly(c, id, rs, false, key);
    }
  }

  lemma NewCase(c: Coordinator, key: Key, ids: seq<Request>)
    requires key !in c.table && Admits(c, key) && c.bounds.members > 0 && c.nextId !in c.flights
    requires ids != [] && "" !in ids && !c.closed
    ensures var (d, reg) := Enroll(Opened(c, key), c.nextId, Dedupe(ids), true, key);
            Answered(c, key, ids, d, reg)
  {
    var rs, o := Dedupe(ids), Opened(c, key);
    FreeSome(ids, c.requests);
    hide Dedupe, Declared, Enroll, Free, JoinedFlight, Distinct;
    var (d, reg) := Enroll(o, c.nextId, rs, true, key);
    if Free(rs, c.requests) == [] {
      NobodyEnrolled(o, c.nextId, rs, true, key);
      assert o.table - {key} == c.table;
    } else {
      EnrolledExactly(o, c.nextId, rs, true, key);
      FirstLeads(o, d, c.nextId, rs, reg);
    }
  }

  /** What a registration does, exactly. It is refused just when the cohort is not
      welcome, and then nobody is registered. Otherwise it joins the flight that
      stands under the key, or opens one whose designated leader is its first
      free member. */
  lemma RegisterExactly(c: Coordinator, key: Key, ids: seq<Request>)
    requires Sound(c)
    ensures Answered(c, key, ids, Register(c, key, ids).0, Register(c, key, ids).1)
  {
    FreeSome(ids, c.requests);
    if key in c.table {
      KnownKey(c, key);
    }
    NewBounds(c, key);
    hide Dedupe, Declared, Enroll, Free, JoinedFlight, Sound, Distinct;
    if ids != [] && "" !in ids && !c.closed {
      if key in c.table {
        if c.flights[c.table[key]].stage != Rejected {
          KnownCase(c, key, ids);
        }
      } else if Admits(c, key) {
        NewCase(c, key, ids);
      }
    }
  }

  lemma KnownKey(c: Coordinator, key: Key)
    requires Sound(c) && key in c.table
    ensures c.table[key] in c.flights && c.flights[c.table[key]].key == key
  {
    assert StoredOk(c, key);
    hide WithinBounds;
  }

  lemma NewBounds(c: Coordinator, key: Key)
    requires Sound(c)
    ensures c.bounds.members > 1 && c.nextId !in c.flights
  {
    hide Declared;
  }

  /** In a flight nobody is in, the first to join is the first of the list who may. */
  lemma FirstLeads(o: Coordinator, d: Coordinator, id: FlightId, rs: seq<Request>, reg: Registration)
    requires id in o.flights && JoinedFlight(o, d, id, rs, reg) && reg.members != [] && Distinct(rs)
    requires o.flights[id].members == {} && o.flights[id].designated == None
    ensures reg.leader == Some(reg.members[0])
  {
    hide Distinct;
    FirstFree(rs, o.requests, Taken(o, id, rs));
    assert {} + Members(reg.members) == Members(reg.members);
  }

  lemma {:induction false} FirstFree(rs: seq<Request>, requests: map<Request, Key>, n: nat)
    requires 0 < n <= |Free(rs, requests)|
    ensures FirstMember(rs, Members(Free(rs, requests)[..n])) == Some(Free(rs, requests)[0])
  {
    FreeFirst(rs, requests);
    var free := Free(rs, requests);
    assert free[0] in Members(free[..n]) by {
      assert free[..n][0] == free[0];
    }
    if rs[0] in requests {
      FreeAre(rs, requests);
      assert rs[0] !in Members(free);
      assert rs[0] !in Members(free[..n]);
      assert free == Free(rs[1..], requests);
      FirstFree(rs[1..], requests, n);
    }
  }

  lemma {:induction false} FreeFirst(rs: seq<Request>, requests: map<Request, Key>)
    ensures rs != [] ==>
              Free(rs, requests) == (if rs[0] in requests then [] else [rs[0]]) + Free(rs[1..], requests)
    ensures Free(rs, requests) != [] ==> rs != []
  {
    if |rs| > 1 {
      var front := rs[..|rs| - 1];
      FreeFirst(front, requests);
      assert rs[1..][..|rs| - 2] == front[1..];
    }
  }

  // ---- whoever stays gets what was read ----

  /** The reader returned a value of exactly the declared length. */
  predicate Good(key: Key, read: Option<Value>) {
    read.Some? && read.value.bytes > 0 && read.value.bytes == key.bytes
  }

  /** The stored flight shows what its reader returned. */
  ghost predicate Shows(c: Coordinator, e: ReadEvent) {
    e.id in c.flights
    && (Stored(c, e.id) ==>
          var f := c.flights[e.id];
          if Good(f.key, e.read) then f.stage == Ready && f.result == e.read else f.stage == Rejected)
  }

  ghost predicate Told(s: System) {
    !s.c.closed ==> forall e :: e in s.log ==> Shows(s.c, e)
  }

  /** What stays stored keeps what it shows. */
  ghost predicate KeepsShown(c: Coordinator, d: Coordinator) {
    && (c.closed ==> d.closed) && c.flights.Keys <= d.flights.Keys
    && forall id :: id in c.flights && Stored(d, id) ==>
         && Stored(c, id) && d.flights[id].key == c.flights[id].key && d.flights[id].stage == c.flights[id].stage
         && d.flights[id].result == c.flights[id].result
  }

  lemma ToldKept(s: System, d: Coordinator)
    requires Told(s) && KeepsShown(s.c, d)
    ensures Told(s.(c := d))
  {
    hide Good;
  }

  lemma GrowsShown(c: Coordinator, d: Coordinator)
    requires Grows(c, d)
    ensures KeepsShown(c, d)
  {
  }

  lemma FinishShown(c: Coordinator, r: Request)
    requires Inverse(c)
    ensures KeepsShown(c, Finish(c, r))
  {
    if r in c.requests {
      FinishIs(c, r);
      hide Finish, Inverse;
    }
  }

  lemma ShownOn(a: Coordinator, b: Coordinator, c: Coordinator)
    requires KeepsShown(a, b) && KeepsShown(b, c)
    ensures KeepsShown(a, c)
  {
  }

  lemma TunedShown(c: Coordinator, id: FlightId, g: Flight)
    requires id in c.flights && g.key == c.flights[id].key && g.stage == c.flights[id].stage
    requires g.result == c.flights[id].result
    ensures KeepsShown(c, Tuned(c, id, g))
  {
  }

  lemma CancelShown(c: Coordinator, r: Request)
    requires Sound(c)
    ensures KeepsShown(c, Cancel(c, r).0)
  {
    if r in c.requests {
      CancelTunes(c, r);
      var id := c.table[c.requests[r]];
      hide Cancel, Sound, StageOk, KeepsShown, Tuned;
      TunedShown(c, id, c.flights[id].(cancelled := c.flights[id].cancelled + {r}));
    }
  }

  lemma CountedShown(c: Coordinator, id: FlightId)
    requires id in c.flights
    ensures KeepsShown(c, Tuned(c, id, Counted(c.flights[id])))
  {
    TunedShown(c, id, Counted(c.flights[id]));
  }

  lemma WakeShown(c: Coordinator, r: Request, id: FlightId)
    requires Sound(c) && id in c.flights && Awake(c, r, id) && (!c.closed ==> Stored(c, id))
    ensures KeepsShown(c, Wake(c, r, id).0)
  {
    hide *;
    SoundLinked(c);
    WakeCases(c, r, id);
    FinishShown(c, r);
    if !(r in c.flights[id].cancelled || c.closed || c.flights[id].stage == Rejected) {
      var t := Tuned(c, id, Counted(c.flights[id]));
      TunedSoundCount(c, id);
      SoundLinked(t);
      FinishShown(t, r);
      CountedShown(c, id);
      ShownOn(c, t, Finish(t, r));
    }
  }

  lemma TunedSoundCount(c: Coordinator, id: FlightId)
    requires Sound(c) && Stored(c, id)
    ensures Sound(Tuned(c, id, Counted(c.flights[id])))
  {
    StoredFacts(c, id);
    StartsBound(c, id);
    hide Sound;
    TunedSound(c, id, Counted(c.flights[id]));
  }

  lemma {:induction false} SomeRead(log: seq<ReadEvent>, e: ReadEvent)
    requires e in log
    ensures ReadCount(log, e.id) >= 1
  {
    var i :| 0 <= i < |log| && log[i] == e;
    SomeEvent(log, i);
  }

  /** Taking the lead changes a flight nobody has read for. */
  lemma LeadTold(s: System, r: Request, id: FlightId)
    requires Inv(s) && Told(s) && Stored(s.c, id) && s.c.flights[id].stage == Registered
    ensures Told(s.(c := Tuned(s.c, id, Led(s.c.flights[id], r))))
  {
    forall e | e in s.log
      ensures e.id != id
    {
      SomeRead(s.log, e);
    }
    hide Sound, Phased, Recorded, Good;
  }

  lemma EnterTold(s: System, r: Request, key: Key)
    requires Inv(s) && Told(s) && Enabled(s, DoEnter(r, key))
    ensures Told(Step(s, DoEnter(r, key)))
  {
    EnterCases(s.c, r, key);
    var (d, e) := Enter(s.c, r, key);
    SoundLinked(s.c);
    if e.Leads? {
      MemberStored(s.c, r, key);
      LeadTold(s, r, e.id);
    } else {
      FinishShown(s.c, r);
      ToldKept(s, Finish(s.c, r));
    }
    hide Inv, Enter, Finish, KeepsShown;
  }

  /** The reader's return is what its flight shows from then on. */
  lemma PublishedTold(s: System, r: Request, id: FlightId, read: Option<Value>)
    requires Told(s) && id in s.c.flights && forall e :: e in s.log ==> e.id != id
    ensures var g := PublishedFlight(s.c.flights[id], read);
            Told(System(Tuned(s.c, id, g), s.phases, s.log + [ReadEvent(id, r, read)], s.ends))
  {
  }

  lemma InvSound(s: System)
    requires Inv(s)
    ensures Sound(s.c) && Recorded(s)
  {
  }

  lemma ReaderStored(s: System, r: Request, read: Option<Value>)
    requires Inv(s) && Enabled(s, DoRead(r, read)) && !s.c.closed
    ensures var id := s.phases[r].id;
            && id in s.c.flights && Stored(s.c, id) && s.c.flights[id].result == None
            && s.c.flights[id].stage == Reading
  {
    assert PhaseOk(s.c, r, s.phases[r]);
    StoredFacts(s.c, s.phases[r].id);
    hide Sound, Recorded;
  }

  lemma NotReadYet(s: System, r: Request)
    requires Recorded(s) && r in s.phases && s.phases[r].InReader?
    ensures forall e :: e in s.log ==> e.id != s.phases[r].id
  {
    forall e | e in s.log
      ensures e.id != s.phases[r].id
    {
      SomeRead(s.log, e);
    }
  }

  lemma ReadStep(s: System, r: Request, read: Option<Value>)
    requires Enabled(s, DoRead(r, read))
    ensures Step(s, DoRead(r, read)).c == Publish(s.c, r, s.phases[r].id, read).0
    ensures Step(s, DoRead(r, read)).log == s.log + [ReadEvent(s.phases[r].id, r, read)]
  {
    hide Publish;
  }

  lemma OpenReadTold(s: System, r: Request, read: Option<Value>)
    requires Inv(s) && Told(s) && Enabled(s, DoRead(r, read)) && !s.c.closed
    ensures Told(Step(s, DoRead(r, read)))
  {
    var id := s.phases[r].id;
    hide *;
    InvSound(s);
    ReaderStored(s, r, read);
    PublishedSound(s.c, r, id, read);
    NotReadYet(s, r);
    var t := Tuned(s.c, id, PublishedFlight(s.c.flights[id], read));
    SoundLinked(t);
    ReadOpenOutcome(s.c, r, id, read);
    FinishShown(t, r);
    PublishedTold(s, r, id, read);
    var log := s.log + [ReadEvent(id, r, read)];
    ToldKept(System(t, s.phases, log, s.ends), Finish(t, r));
    ReadStep(s, r, read);
    SameLog(System(Finish(t, r), s.phases, log, s.ends), Step(s, DoRead(r, read)));
  }

  lemma SameLog(s: System, t: System)
    requires Told(s) && t.c == s.c && t.log == s.log
    ensures Told(t)
  {
  }

  lemma ReadTold(s: System, r: Request, read: Option<Value>)
    requires Inv(s) && Told(s) && Enabled(s, DoRead(r, read))
    ensures Told(Step(s, DoRead(r, read)))
  {
    if s.c.closed {
      SoundLinked(s.c);
      ClosedPublish(s.c, r, s.phases[r].id, read);
      hide Inv, Publish;
    } else {
      OpenReadTold(s, r, read);
    }
  }

  lemma OtherTold(s: System, a: Action)
    requires Inv(s) && Told(s) && Enabled(s, a) && !a.DoEnter? && !a.DoRead?
    ensures Told(Step(s, a))
  {
    SoundLinked(s.c);
    match a
    case DoRegister(key, ids) =>
      RegisterSound(s.c, key, ids);
      hide Inv, Register;
      GrowsShown(s.c, Register(s.c, key, ids).0);
      ToldKept(s, Register(s.c, key, ids).0);
    case DoWake(r) =>
      assert PhaseOk(s.c, r, s.phases[r]);
      hide Inv, Wake;
      WakeShown(s.c, r, s.phases[r].id);
      ToldKept(s, Wake(s.c, r, s.phases[r].id).0);
    case DoCancel(r) =>
      hide Inv, Cancel;
      CancelShown(s.c, r);
      ToldKept(s, Cancel(s.c, r).0);
    case DoFinish(r) =>
      hide Inv, Finish;
      FinishShown(s.c, r);
      ToldKept(s, Finish(s.c, r));
    case DoClose(order) =>
      hide Inv, Finish;
      ClosedStays(ShutAll(s.c), order);
  }

  lemma {:induction false} ClosedStays(c: Coordinator, rs: seq<Request>)
    requires c.closed
    ensures FinishAll(c, rs).closed
  {
    if rs != [] {
      ClosedStays(c, rs[..|rs| - 1]);
    }
  }

  lemma StepTold(s: System, a: Action)
    requires Inv(s) && Told(s) && Enabled(s, a)
    ensures Told(Step(s, a))
  {
    hide Inv, Told, Step;
    match a
    case DoEnter(r, key) => EnterTold(s, r, key);
    case DoRead(r, read) => ReadTold(s, r, read);
    case _ => OtherTold(s, a);
  }

  lemma {:induction false} RunTold(s: System, actions: seq<Action>)
    requires Inv(s) && Told(s) && Runnable(s, actions)
    ensures Told(Run(s, actions)) && Inv(Run(s, actions))
    decreases |actions|
  {
    if actions != [] {
      hide Inv, Told, Step, Enabled;
      StepInv(s, actions[0]);
      StepTold(s, actions[0]);
      RunTold(Step(s, actions[0]), actions[1..]);
    }
  }

  lemma ReachedTold(b: Bounds, actions: seq<Action>)
    requires Reachable(b, actions)
    ensures Inv(Reached(b, actions)) && Told(Reached(b, actions))
  {
    StartInv(b);
    hide Inv;
    RunTold(Start(b), actions);
  }

  /** Sharing. In every interleaving, once a flight's reader has returned, each
      member that waits, has not been cancelled and is not cut off by closing can
      go on, and obtains exactly that value; it fails only if the reader did. */
  lemma WaitersObtain(b: Bounds, actions: seq<Action>, r: Request, e: ReadEvent)
    requires Reachable(b, actions) && e in Reached(b, actions).log
    requires var s := Reached(b, actions);
             && !s.c.closed && r in s.phases && s.phases[r] == Waits(e.id)
             && e.id in s.c.flights && r !in s.c.flights[e.id].cancelled
    ensures var s := Reached(b, actions);
            && Enabled(s, DoWake(r))
            && Step(s, DoWake(r)).ends
               == s.ends + [EndEvent(e.id, r, if Good(s.c.flights[e.id].key, e.read) then Obtained(e.read.value) else Failed)]
  {
    hide *;
    ReachedTold(b, actions);
    WaiterObtains(Reached(b, actions), r, e);
  }

  lemma WaiterObtains(s: System, r: Request, e: ReadEvent)
    requires Inv(s) && Told(s) && e in s.log && !s.c.closed && r in s.phases && s.phases[r] == Waits(e.id)
    requires e.id in s.c.flights && r !in s.c.flights[e.id].cancelled
    ensures Enabled(s, DoWake(r))
    ensures Step(s, DoWake(r)).ends
            == s.ends + [EndEvent(e.id, r, if Good(s.c.flights[e.id].key, e.read) then Obtained(e.read.value) else Failed)]
  {
    WaiterStored(s, r);
    assert Shows(s.c, e);
    hide *;
    ShownWakes(s.c, r, e);
    WakeStepEnds(s, r);
  }

  lemma WaiterStored(s: System, r: Request)
    requires Inv(s) && r in s.phases && s.phases[r].Waits? && !s.c.closed
    ensures Stored(s.c, s.phases[r].id)
  {
    assert PhaseOk(s.c, r, s.phases[r]);
    hide Sound, Recorded;
  }

  lemma WakeStepEnds(s: System, r: Request)
    requires r in s.phases && s.phases[r].Waits? && s.phases[r].id in s.c.flights && Awake(s.c, r, s.phases[r].id)
    ensures Enabled(s, DoWake(r))
    ensures Step(s, DoWake(r)).ends
            == s.ends + [EndEvent(s.phases[r].id, r, Wake(s.c, r, s.phases[r].id).1)]
  {
    hide Wake;
  }

  lemma ShownWakes(c: Coordinator, r: Request, e: ReadEvent)
    requires !c.closed && Shows(c, e) && Stored(c, e.id) && r !in c.flights[e.id].cancelled
    ensures Awake(c, r, e.id)
    ensures Wake(c, r, e.id).1 == if Good(c.flights[e.id].key, e.read) then Obtained(e.read.value) else Failed
  {
    hide Finish;
  }

  /** The reader itself obtains what it read, unless it was cancelled or the
      coordinator closed meanwhile, and fails only on a value of another length. */
  lemma ReaderObtains(b: Bounds, actions: seq<Action>, r: Request, read: Option<Value>)
    requires Reachable(b, actions)
    requires var s := Reached(b, actions); r in s.phases && s.phases[r].InReader? && s.phases[r].id in s.c.flights
    ensures var s := Reached(b, actions);
            var id := s.phases[r].id;
            var f := s.c.flights[id];
            Step(s, DoRead(r, read)).ends
            == s.ends + [EndEvent(id, r, if r in f.cancelled || s.c.closed then Cancelled
                                         else if Good(f.key, read) then Obtained(read.value) else Failed)]
  {
    hide *;
    ReachedTold(b, actions);
    var s := Reached(b, actions);
    ReadEnds(s, r, read);
  }

  lemma ReadEnds(s: System, r: Request, read: Option<Value>)
    requires Inv(s) && r in s.phases && s.phases[r].InReader? && s.phases[r].id in s.c.flights
    ensures Enabled(s, DoRead(r, read))
    ensures var id := s.phases[r].id;
            var f := s.c.flights[id];
            Step(s, DoRead(r, read)).ends
            == s.ends + [EndEvent(id, r, if r in f.cancelled || s.c.closed then Cancelled
                                         else if Good(f.key, read) then Obtained(read.value) else Failed)]
  {
    ReaderThere(s, r, read);
    hide *;
    if !s.c.closed {
      ReaderStored(s, r, read);
    }
    PublishOutcome(s.c, r, s.phases[r].id, read);
    ReadStepEnds(s, r, read);
  }

  lemma ReaderThere(s: System, r: Request, read: Option<Value>)
    requires r in s.phases && s.phases[r].InReader? && s.phases[r].id in s.c.flights
    ensures Enabled(s, DoRead(r, read))
  {
  }

  lemma PublishOutcome(c: Coordinator, r: Request, id: FlightId, read: Option<Value>)
    requires id in c.flights && (!c.closed ==> Stored(c, id))
    ensures Publish(c, r, id, read).1
            == if r in c.flights[id].cancelled || c.closed then Cancelled
               else if Good(c.flights[id].key, read) then Obtained(read.value) else Failed
  {
    hide Finish;
  }

  lemma ReadStepEnds(s: System, r: Request, read: Option<Value>)
    requires Enabled(s, DoRead(r, read))
    ensures Step(s, DoRead(r, read)).ends
            == s.ends + [EndEvent(s.phases[r].id, r, Publish(s.c, r, s.phases[r].id, read).1)]
  {
    hide Publish;
  }

  /** A registered request that resolves under its own key is let in: the first
      one in is the reader, everybody after it waits for that reader. */
  lemma RegisteredEnter(b: Bounds, actions: seq<Action>, r: Request, key: Key)
    requires Reachable(b, actions)
    requires var s := Reached(b, actions); r !in s.phases && r in s.c.requests && s.c.requests[r] == key
    ensures var s := Reached(b, actions);
            && key in s.c.table && s.c.table[key] in s.c.flights && r in s.c.flights[s.c.table[key]].members
            && var id := s.c.table[key];
               var f := s.c.flights[id];
               var t := Step(s, DoEnter(r, key));
               if r in f.cancelled then t.phases == s.phases && r !in t.c.requests
               else if f.stage == Registered then
                 && t.phases == s.phases[r := InReader(id)]
                 && id in t.c.flights && t.c.flights[id].leader == Some(r) && t.c.flights[id].starts == 1
               else t.phases == s.phases[r := Waits(id)] && t.c == s.c
  {
    hide *;
    ReachedTold(b, actions);
    var s := Reached(b, actions);
    InvSound(s);
    RegisteredStands(s.c, r);
    EnterOutcome(s, r, key);
  }

  lemma RegisteredStands(c: Coordinator, r: Request)
    requires Sound(c) && r in c.requests
    ensures c.requests[r] in c.table && !c.closed
    ensures var id := c.table[c.requests[r]];
            id in c.flights && r in c.flights[id].members && c.flights[id].key == c.requests[r] && StageOk(c.flights[id])
  {
    assert RequestOk(c, r);
    KnownKey(c, c.requests[r]);
    StoredFacts(c, c.table[c.requests[r]]);
    hide WithinBounds, Released;
  }

  lemma EnterOutcome(s: System, r: Request, key: Key)
    requires r !in s.phases && r in s.c.requests && s.c.requests[r] == key && !s.c.closed
    requires key in s.c.table && s.c.table[key] in s.c.flights && r in s.c.flights[s.c.table[key]].members
    requires StageOk(s.c.flights[s.c.table[key]])
    ensures var id := s.c.table[key];
            var f := s.c.flights[id];
            var t := Step(s, DoEnter(r, key));
            if r in f.cancelled then t.phases == s.phases && r !in t.c.requests
            else if f.stage == Registered then
              && t.phases == s.phases[r := InReader(id)]
              && id in t.c.flights && t.c.flights[id].leader == Some(r) && t.c.flights[id].starts == 1
            else t.phases == s.phases[r := Waits(id)] && t.c == s.c
  {
  }
}
