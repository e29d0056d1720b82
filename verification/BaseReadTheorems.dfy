// What the single-flight coordinator guarantees in every interleaving.
module BaseReadTheorems {
  import opened Common
  import opened BaseReadModel
  import opened BaseReadProtocol

  ghost predicate Reachable(b: Bounds, actions: seq<Action>) {
    BoundsValid(b) && Runnable(Start(b), actions)
  }

  ghost function Reached(b: Bounds, actions: seq<Action>): System
    requires Reachable(b, actions)
  {
    Run(Start(b), actions)
  }

  lemma ReachedInv(b: Bounds, actions: seq<Action>)
    requires Reachable(b, actions)
    ensures Inv(Reached(b, actions))
  {
    StartInv(b);
    RunInv(Start(b), actions);
  }

  lemma {:induction false} OneEvent(log: seq<ReadEvent>, i: nat, j: nat)
    requires i < |log| && j < |log| && log[i].id == log[j].id && ReadCount(log, log[i].id) <= 1
    ensures i == j
    decreases |log|
  {
    var n := |log| - 1;
    if i < n && j < n {
      OneEvent(log[..n], i, j);
    } else if i < n {
      SomeEvent(log[..n], i);
    } else if j < n {
      SomeEvent(log[..n], j);
    }
  }

  lemma {:induction false} SomeEvent(log: seq<ReadEvent>, i: nat)
    requires i < |log|
    ensures ReadCount(log, log[i].id) >= 1
    decreases |log|
  {
    if i < |log| - 1 {
      SomeEvent(log[..|log| - 1], i);
    }
  }

  /** Every flight starts its reader at most once, and its reader returns at most once. */
  lemma SingleFlight(b: Bounds, actions: seq<Action>)
    requires Reachable(b, actions)
    ensures var s := Reached(b, actions);
            && (forall id :: id in s.c.flights ==> s.c.flights[id].starts <= 1)
            && forall i, j :: 0 <= i < |s.log| && 0 <= j < |s.log| && s.log[i].id == s.log[j].id ==> i == j
  {
    ReachedInv(b, actions);
    var s := Reached(b, actions);
    forall i, j | 0 <= i < |s.log| && 0 <= j < |s.log| && s.log[i].id == s.log[j].id
      ensures i == j
    {
      OneEvent(s.log, i, j);
    }
  }

  /** Whoever obtains a value obtains what its own flight's leader read, with
      exactly the declared length; and nobody finds a result already released. */
  lemma ObtainedIsOwn(b: Bounds, actions: seq<Action>, e: EndEvent)
    requires Reachable(b, actions) && e in Reached(b, actions).ends
    ensures e.outcome != ReleasedBeforeUse
    ensures e.outcome.Obtained? ==>
              var s, v := Reached(b, actions), e.outcome.value;
              && e.id in s.c.flights && s.c.flights[e.id].leader.Some? && v.bytes == s.c.flights[e.id].key.bytes
              && ReadEvent(e.id, s.c.flights[e.id].leader.value, Some(v)) in s.log
              && forall other :: other in s.log && other.id == e.id ==> other.read == Some(v)
  {
    ReachedInv(b, actions);
    SingleFlight(b, actions);
    hide Reached, Reachable;
  }

  /** A waiting follower can always go on, or its leader is still reading. */
  lemma FollowersProgress(b: Bounds, actions: seq<Action>, r: Request)
    requires Reachable(b, actions)
    requires r in Reached(b, actions).phases && Reached(b, actions).phases[r].Waits?
    ensures var s := Reached(b, actions);
            var id := s.phases[r].id;
            && id in s.c.flights
            && (Awake(s.c, r, id)
                || (&& s.c.flights[id].leader.Some? && s.c.flights[id].leader.value in s.phases
                    && s.phases[s.c.flights[id].leader.value] == InReader(id)
                    && Enabled(s, DoRead(s.c.flights[id].leader.value, None))))
  {
    ReachedInv(b, actions);
    var s := Reached(b, actions);
    assert PhaseOk(s.c, r, s.phases[r]);
    hide Reached, Reachable, Recorded, Sound;
  }

  lemma {:induction false} JoinAllBounds(c: Coordinator, id: FlightId, rs: seq<Request>)
    requires id in c.flights
    ensures JoinAll(c, id, rs).bounds == c.bounds
  {
    if rs != [] {
      JoinAllBounds(c, id, rs[..|rs| - 1]);
    }
  }

  lemma {:induction false} FinishAllBounds(c: Coordinator, rs: seq<Request>)
    ensures FinishAll(c, rs).bounds == c.bounds
  {
    if rs != [] {
      FinishAllBounds(c, rs[..|rs| - 1]);
    }
  }

  lemma StepBounds(s: System, a: Action)
    requires Enabled(s, a)
    ensures Step(s, a).c.bounds == s.c.bounds
  {
    hide JoinAll, FinishAll, Declared, Dedupe, Selected;
    match a
    case DoRegister(key, ids) =>
      if key in s.c.table && s.c.table[key] in s.c.flights {
        JoinAllBounds(s.c, s.c.table[key], Dedupe(ids));
      }
      JoinAllBounds(Opened(s.c, key), s.c.nextId, Dedupe(ids));
    case DoClose(order) => FinishAllBounds(ShutAll(s.c), order);
    case _ =>
  }

  lemma {:induction false} RunBounds(s: System, actions: seq<Action>)
    requires Runnable(s, actions)
    ensures Run(s, actions).c.bounds == s.c.bounds
    decreases |actions|
  {
    if actions != [] {
      StepBounds(s, actions[0]);
      hide Step, Enabled;
      RunBounds(Step(s, actions[0]), actions[1..]);
    }
  }

  /** Bytes held by flights that carry a result, stored or not. */
  ghost function Retained(c: Coordinator): int {
    Declared(set id | id in c.flights && c.flights[id].result.Some? :: c.flights[id].key)
  }

  /** All the bounds, and both maps describing the same membership. */
  lemma BoundsHold(b: Bounds, actions: seq<Action>)
    requires Reachable(b, actions)
    ensures var c := Reached(b, actions).c;
            && |c.table| <= b.flights && 2 * Declared(c.table.Keys) <= b.total && 2 * Retained(c) <= b.total
            && (forall id :: id in c.flights ==> |c.flights[id].members| <= c.flights[id].participants <= b.members)
            && (forall k :: k in c.table ==> c.table[k] in c.flights && c.flights[c.table[k]].members != {})
            && (forall r, k :: r in c.requests && c.requests[r] == k <==>
                  k in c.table && c.table[k] in c.flights && r in c.flights[c.table[k]].members)
            && (c.requests == map[] ==> c.table == map[] && Retained(c) == 0)
  {
    ReachedInv(b, actions);
    var c := Reached(b, actions).c;
    RunBounds(Start(b), actions);
    assert c.bounds == b;
    hide Reached, Reachable, Recorded, Phased;
    assert forall r :: r in c.requests ==> RequestOk(c, r);
    assert forall k :: k in c.table ==> StoredOk(c, k) && Peopled(c, k);
    EmptyTable(c);
    RetainedBound(c);
  }

  lemma RetainedBound(c: Coordinator)
    requires Sound(c)
    ensures 2 * Retained(c) <= c.bounds.total && (c.table == map[] ==> Retained(c) == 0)
  {
    var held := set id | id in c.flights && c.flights[id].result.Some? :: c.flights[id].key;
    assert held <= c.table.Keys;
    DeclaredPart(held, c.table.Keys);
  }
}
