// The coordinator object. Each method is one region under its lock; `resolve`
// is cut where the lock is released, at the reader call and at the wait.
module BaseReadFlights {
  import opened Common
  import opened BaseReadModel
  import opened BaseReadProtocol

  class PageBaseReadFlights {
    const bounds: Bounds
    var table: map<Key, FlightId>
    /** Every flight object ever made; threads may still hold removed ones. */
    var flights: map<FlightId, Flight>
    var nextId: FlightId
    var requests: map<Request, Key>
    var closed: bool

    function View(): Coordinator
      reads this
    {
      Coordinator(bounds, table, flights, nextId, requests, closed)
    }

    constructor (bounds: Bounds)
      requires BoundsValid(bounds)
      ensures View() == Initial(bounds)
    {
      this.bounds := bounds;
      table, flights, nextId, requests, closed := map[], map[], 0, map[], false;
    }

    method FinishLocked(r: Request)
      modifies this
      ensures View() == Finish(old(View()), r)
    {
      if r !in requests {
        return;
      }
      var key := requests[r];
      requests := requests - {r};
      if key !in table || table[key] !in flights {
        return;
      }
      var id := table[key];
      var f := flights[id];
      var g := f.(members := f.members - {r}, cancelled := f.cancelled - {r});
      flights := flights[id := g];
      if g.members != {} {
        return;
      }
      table := table - {key};
      flights := flights[id := g.(result := None)];
    }

    method DeclaredTotal() returns (total: int)
      ensures total == Declared(table.Keys)
    {
      var left := table.Keys;
      total := 0;
      while left != {}
        invariant left <= table.Keys && total + Declared(left) == Declared(table.Keys)
        decreases left
      {
        var k :| k in left;
        DeclaredWith(left, k);
        total := total + k.bytes;
        left := left - {k};
      }
    }

    method RegisterCohort(key: Key, ids: seq<Request>) returns (r: Registration)
      modifies this
      ensures (View(), r) == Register(old(View()), key, ids)
    {
      hide Enroll, Dedupe, Declared;
      var rs := Ordered(ids);
      if rs == [] || "" in rs || closed {
        return REFUSED;
      }
      var known := key in table && table[key] in flights;
      if known && flights[table[key]].stage == Rejected {
        return REFUSED;
      }
      if !known {
        if key.bytes <= 0 || key.bytes > bounds.perFlight {
          return REFUSED;
        }
        var reserved := DeclaredTotal();
        if 2 * reserved + 2 * key.bytes > bounds.total || |table| >= bounds.flights {
          return REFUSED;
        }
        table := table[key := nextId];
        flights := flights[nextId := Flight(key, {}, Registered, None, None, None, {}, 0, 0, 0)];
        nextId := nextId + 1;
      }
      r := this.Enlist(table[key], rs, !known, key);
    }

    method Enlist(id: FlightId, rs: seq<Request>, isNew: bool, key: Key) returns (r: Registration)
      requires id in flights
      modifies this
      ensures (View(), r) == Enroll(old(View()), id, rs, isNew, key)
    {
      ghost var before := View();
      var selected: seq<Request> := [];
      for k := 0 to |rs|
        invariant id in before.flights && View() == JoinAll(before, id, rs[..k]) && selected == Selected(before, id, rs[..k])
      {
        assert rs[..k + 1][..k] == rs[..k];
        if rs[k] !in requests && flights[id].participants < bounds.members {
          requests := requests[rs[k] := flights[id].key];
          flights := flights[id := flights[id].(members := flights[id].members + {rs[k]},
                                                participants := flights[id].participants + 1)];
          selected := selected + [rs[k]];
        }
      }
      assert rs[..|rs|] == rs;
      if selected == [] {
        if isNew {
          table := table - {key};
        }
        return REFUSED;
      }
      if flights[id].designated.None? {
        var first := FirstMember(rs, flights[id].members);
        flights := flights[id := flights[id].(designated := first)];
      }
      r := Registration(selected, flights[id].designated, Some(flights[id].stage));
    }

    /** The first locked region of `resolve`. */
    method EnterResolve(r: Request, key: Key) returns (e: Entry)
      modifies this
      ensures (View(), e) == Enter(old(View()), r, key)
    {
      if closed {
        FinishLocked(r);
        return Refused;
      }
      if r !in requests || requests[r] != key || key !in table || table[key] !in flights
         || r !in flights[table[key]].members {
        if r in requests {
          FinishLocked(r);
        }
        return Unadmitted;
      }
      var id := table[key];
      if r in flights[id].cancelled {
        FinishLocked(r);
        return Refused;
      }
      if flights[id].stage == Registered {
        flights := flights[id := flights[id].(stage := Reading, leader := Some(r), starts := flights[id].starts + 1)];
        return Leads(id);
      }
      e := Follows(id);
    }

    /** The leader's locked region after its reader returned or raised. */
    method PublishRead(r: Request, id: FlightId, read: Option<Value>) returns (outcome: Outcome)
      requires id in flights
      modifies this
      ensures (View(), outcome) == Publish(old(View()), r, id, read)
    {
      var key := flights[id].key;
      var good := read.Some? && read.value.bytes > 0 && read.value.bytes == key.bytes;
      if key in table && table[key] == id {
        flights := flights[id := if good then flights[id].(result := read, stage := Ready)
                                 else flights[id].(stage := Rejected)];
      }
      var cancelled := r in flights[id].cancelled || closed;
      var shared := flights[id].result;
      FinishLocked(r);
      if cancelled {
        return Cancelled;
      }
      if !good {
        return Failed;
      }
      outcome := if shared.None? then ReleasedBeforeUse else Obtained(shared.value);
    }

    /** A follower's locked region once its wait is over. */
    method WakeFollower(r: Request, id: FlightId) returns (outcome: Outcome)
      requires id in flights && Awake(View(), r, id)
      modifies this
      ensures (View(), outcome) == Wake(old(View()), r, id)
    {
      if r in flights[id].cancelled || closed {
        FinishLocked(r);
        return Cancelled;
      }
      if flights[id].stage == Rejected {
        FinishLocked(r);
        return Failed;
      }
      var shared := flights[id].result;
      flights := flights[id := flights[id].(acquisitions := flights[id].acquisitions + 1)];
      FinishLocked(r);
      outcome := if shared.None? then ReleasedBeforeUse else Obtained(shared.value);
    }

    method CancelRequest(r: Request) returns (found: bool)
      modifies this
      ensures (View(), found) == Cancel(old(View()), r)
    {
      if r !in requests || requests[r] !in table || table[requests[r]] !in flights {
        return false;
      }
      var id := table[requests[r]];
      flights := flights[id := flights[id].(cancelled := flights[id].cancelled + {r})];
      found := true;
    }

    /** Closing is one of the closings of the model: the order in which requests
        are dropped is whatever order the loop takes. */
    method Close() returns (ghost order: seq<Request>)
      modifies this
      ensures forall r :: r in order <==> r in old(requests)
      ensures View() == FinishAll(ShutAll(old(View())), order)
    {
      closed := true;
      flights := map id | id in flights ::
        if flights[id].key in table && table[flights[id].key] == id then Shut(flights[id]) else flights[id];
      ghost var shut := View();
      var left := requests.Keys;
      order := [];
      while left != {}
        invariant View() == FinishAll(shut, order)
        invariant forall r :: r in old(requests) <==> r in order || r in left
        decreases left
      {
        var r :| r in left;
        FinishLocked(r);
        assert (order + [r])[..|order|] == order;
        order := order + [r];
        left := left - {r};
      }
    }
  }

  method Ordered(ids: seq<Request>) returns (rs: seq<Request>)
    ensures rs == Dedupe(ids)
  {
    rs := [];
    for k := 0 to |ids|
      invariant rs == Dedupe(ids[..k])
    {
      assert ids[..k + 1][..k] == ids[..k];
      if ids[k] !in rs {
        rs := rs + [ids[k]];
      }
    }
    assert ids[..|ids|] == ids;
  }
}
