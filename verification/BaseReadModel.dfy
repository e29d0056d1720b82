// Single-flight base reads: what each locked region of the coordinator does.
// Flights have identities, because a thread keeps its flight after the flight
// left the table and another flight may then stand under the same key.
module BaseReadModel {
  import opened Common

  type Request = string
  type FlightId = nat

  /** Process-local ownership and evidence; `bytes` is the declared base length. */
  datatype Key = Key(owner: nat, bytes: int)

  /** What a reader returned, with its byte charge. */
  datatype Value = Value(content: nat, bytes: int)

  datatype Stage = Registered | Reading | Ready | Rejected | Closed

  datatype Flight = Flight(
    key: Key, members: set<Request>, stage: Stage, leader: Option<Request>, designated: Option<Request>,
    result: Option<Value>, cancelled: set<Request>, participants: nat, acquisitions: nat, starts: nat)

  datatype Bounds = Bounds(flights: int, members: int, perFlight: int, total: int)

  datatype Coordinator = Coordinator(
    bounds: Bounds, table: map<Key, FlightId>, flights: map<FlightId, Flight>, nextId: FlightId,
    requests: map<Request, Key>, closed: bool)

  /** The constructor refuses anything else. */
  predicate BoundsValid(b: Bounds) {
    b.flights > 0 && b.members > 1 && b.perFlight > 0 && b.total >= b.perFlight
  }

  function Initial(b: Bounds): Coordinator {
    Coordinator(b, map[], map[], 0, map[], false)
  }

  // ---- sums over the table ----

  ghost function Declared(keys: set<Key>): int {
    if keys == {} then 0
    else
      var k :| k in keys;
      k.bytes + Declared(keys - {k})
  }

  lemma {:induction false} DeclaredWith(keys: set<Key>, k: Key)
    requires k in keys
    ensures Declared(keys) == k.bytes + Declared(keys - {k})
    decreases |keys|
  {
    var first :| first in keys && Declared(keys) == first.bytes + Declared(keys - {first});
    if first != k {
      DeclaredWith(keys - {first}, k);
      DeclaredWith(keys - {k}, first);
      assert keys - {first} - {k} == keys - {k} - {first};
    }
  }

  lemma {:induction false} DeclaredPart(part: set<Key>, keys: set<Key>)
    requires part <= keys && forall k :: k in keys ==> k.bytes >= 0
    ensures 0 <= Declared(part) <= Declared(keys)
    decreases |keys|
  {
    if keys != {} {
      var k :| k in keys;
      DeclaredWith(keys, k);
      if k in part {
        DeclaredWith(part, k);
      }
      DeclaredPart(part - {k}, keys - {k});
      if k !in part {
        assert part - {k} == part;
      }
    }
  }

  // ---- leaving ----

  function WithoutRequest(requests: map<Request, Key>, r: Request): map<Request, Key> {
    requests - {r}
  }

  /** Remove one member; the last one takes the flight with it. */
  function Finish(c: Coordinator, r: Request): Coordinator {
    if r !in c.requests then c
    else
      var key := c.requests[r];
      var left := c.(requests := WithoutRequest(c.requests, r));
      if key !in c.table || c.table[key] !in c.flights then left
      else
        var id := c.table[key];
        var f := c.flights[id];
        var g := f.(members := f.members - {r}, cancelled := f.cancelled - {r});
        if g.members != {} then left.(flights := c.flights[id := g])
        else left.(table := c.table - {key}, flights := c.flights[id := g.(result := None)])
  }

  function FinishAll(c: Coordinator, rs: seq<Request>): Coordinator {
    if rs == [] then c else Finish(FinishAll(c, rs[..|rs| - 1]), rs[|rs| - 1])
  }

  // ---- registering ----

  datatype Registration = Registration(members: seq<Request>, leader: Option<Request>, stage: Option<Stage>)

  const REFUSED := Registration([], None, None)

  /** Can a new flight for this key be opened? */
  ghost predicate Admits(c: Coordinator, key: Key) {
    && 0 < key.bytes <= c.bounds.perFlight
    && 2 * Declared(c.table.Keys) + 2 * key.bytes <= c.bounds.total
    && |c.table| < c.bounds.flights
  }

  function Opened(c: Coordinator, key: Key): Coordinator {
    c.(table := c.table[key := c.nextId],
       flights := c.flights[c.nextId := Flight(key, {}, Registered, None, None, None, {}, 0, 0, 0)],
       nextId := c.nextId + 1)
  }

  /** One member joins unless it is registered already or the flight is full. */
  predicate Joins(c: Coordinator, id: FlightId, r: Request)
    requires id in c.flights
  {
    r !in c.requests && c.flights[id].participants < c.bounds.members
  }

  function Join(c: Coordinator, id: FlightId, r: Request): Coordinator
    requires id in c.flights
  {
    if !Joins(c, id, r) then c
    else
      var f := c.flights[id];
      c.(requests := c.requests[r := f.key],
         flights := c.flights[id := f.(members := f.members + {r}, participants := f.participants + 1)])
  }

  function JoinAll(c: Coordinator, id: FlightId, rs: seq<Request>): (d: Coordinator)
    requires id in c.flights
    ensures id in d.flights && d.table == c.table
  {
    if rs == [] then c else Join(JoinAll(c, id, rs[..|rs| - 1]), id, rs[|rs| - 1])
  }

  function Selected(c: Coordinator, id: FlightId, rs: seq<Request>): seq<Request>
    requires id in c.flights
  {
    if rs == [] then []
    else
      var front := rs[..|rs| - 1];
      Selected(c, id, front)
      + (if Joins(JoinAll(c, id, front), id, rs[|rs| - 1]) then [rs[|rs| - 1]] else [])
  }

  function FirstMember(rs: seq<Request>, members: set<Request>): Option<Request> {
    if rs == [] then None else if rs[0] in members then Some(rs[0]) else FirstMember(rs[1..], members)
  }

  function Designate(c: Coordinator, id: FlightId, rs: seq<Request>): Coordinator
    requires id in c.flights
  {
    var f := c.flights[id];
    if f.designated.Some? then c
    else c.(flights := c.flights[id := f.(designated := FirstMember(rs, f.members))])
  }

  /** A registered cohort in an open flight. */
  function Enroll(c: Coordinator, id: FlightId, rs: seq<Request>, isNew: bool, key: Key)
    : (Coordinator, Registration)
    requires id in c.flights
  {
    var joined := JoinAll(c, id, rs);
    var selected := Selected(c, id, rs);
    if selected == [] then ((if isNew then joined.(table := joined.table - {key}) else joined), REFUSED)
    else
      var d := Designate(joined, id, rs);
      (d, Registration(selected, d.flights[id].designated, Some(d.flights[id].stage)))
  }

  ghost function Register(c: Coordinator, key: Key, ids: seq<Request>): (Coordinator, Registration) {
    var rs := Dedupe(ids);
    if rs == [] || "" in rs || c.closed then (c, REFUSED)
    else if key in c.table && c.table[key] in c.flights then
      if c.flights[c.table[key]].stage == Rejected then (c, REFUSED)
      else Enroll(c, c.table[key], rs, false, key)
    else if !Admits(c, key) then (c, REFUSED)
    else Enroll(Opened(c, key), c.nextId, rs, true, key)
  }

  // ---- resolving ----

  /** What entering `resolve` decided. */
  datatype Entry = Refused | Unadmitted | Leads(id: FlightId) | Follows(id: FlightId)

  predicate Admitted(c: Coordinator, r: Request, key: Key) {
    r in c.requests && c.requests[r] == key && key in c.table && c.table[key] in c.flights
    && r in c.flights[c.table[key]].members
  }

  function Enter(c: Coordinator, r: Request, key: Key): (Coordinator, Entry) {
    if c.closed then (Finish(c, r), Refused)
    else if !Admitted(c, r, key) then (Finish(c, r), Unadmitted)
    else
      var id := c.table[key];
      var f := c.flights[id];
      if r in f.cancelled then (Finish(c, r), Refused)
      else if f.stage == Registered then
        (c.(flights := c.flights[id := f.(stage := Reading, leader := Some(r), starts := f.starts + 1)]), Leads(id))
      else (c, Follows(id))
  }

  /** How a resolve ended. */
  datatype Outcome = Obtained(value: Value) | Cancelled | Failed | ReleasedBeforeUse

  /** The leader's reader returned a value of the declared length, or failed. */
  function Publish(c: Coordinator, r: Request, id: FlightId, read: Option<Value>): (Coordinator, Outcome)
    requires id in c.flights
  {
    var f := c.flights[id];
    var good := read.Some? && read.value.bytes > 0 && read.value.bytes == f.key.bytes;
    var published :=
      if f.key in c.table && c.table[f.key] == id then
        c.(flights := c.flights[id := if good then f.(result := read, stage := Ready) else f.(stage := Rejected)])
      else c;
    var g := published.flights[id];
    var outcome :=
      if r in g.cancelled || c.closed then Cancelled
      else if !good then Failed
      else if g.result.None? then ReleasedBeforeUse
      else Obtained(g.result.value);
    (Finish(published, r), outcome)
  }

  /** The predicate a follower waits for. */
  predicate Awake(c: Coordinator, r: Request, id: FlightId)
    requires id in c.flights
  {
    c.flights[id].stage in {Ready, Rejected} || r in c.flights[id].cancelled || c.closed
  }

  function Wake(c: Coordinator, r: Request, id: FlightId): (Coordinator, Outcome)
    requires id in c.flights && Awake(c, r, id)
  {
    var f := c.flights[id];
    if r in f.cancelled || c.closed then (Finish(c, r), Cancelled)
    else if f.stage == Rejected then (Finish(c, r), Failed)
    else
      var counted := c.(flights := c.flights[id := f.(acquisitions := f.acquisitions + 1)]);
      (Finish(counted, r), if f.result.None? then ReleasedBeforeUse else Obtained(f.result.value))
  }

  // ---- cancelling and closing ----

  function Cancel(c: Coordinator, r: Request): (Coordinator, bool) {
    if r !in c.requests || c.requests[r] !in c.table || c.table[c.requests[r]] !in c.flights then (c, false)
    else
      var id := c.table[c.requests[r]];
      var f := c.flights[id];
      (c.(flights := c.flights[id := f.(cancelled := f.cancelled + {r})]), true)
  }

  /** A flight still in the table when the coordinator closes. */
  function Shut(f: Flight): Flight {
    f.(cancelled := f.cancelled + f.members, stage := if f.stage == Rejected then Rejected else Closed)
  }

  function ShutAll(c: Coordinator): Coordinator {
    c.(closed := true,
       flights := map id | id in c.flights ::
         if c.flights[id].key in c.table && c.table[c.flights[id].key] == id then Shut(c.flights[id]) else c.flights[id])
  }
}
