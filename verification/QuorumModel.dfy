// The scheduler's side of the quorum protocol as a function of its state:
// what one report does to one rank and to the confirmation table.
module QuorumModel {
  import opened Common
  import opened QuorumTypes

  /** A validated delta; its lists are compared as sets once they are sorted. */
  datatype Change = Change(sequence: nat, baseSequence: nat, added: set<Digest>, removed: set<Digest>)

  datatype ActiveCheckpoint = ActiveCheckpoint(
    stateSequence: nat, cycle: int, count: nat, heldCount: nat, chunks: map<nat, seq<Digest>>)

  datatype RankState = RankState(
    generation: Option<string>,
    epoch: Option<nat>,
    retired: seq<string>,
    sequence: nat,
    held: set<Digest>,
    pending: map<nat, Change>,
    checkpoint: Option<ActiveCheckpoint>,
    desynchronized: bool,
    requiresCheckpoint: bool)

  /** Which ranks confirm each digest. */
  type Quorum = map<Digest, set<int>>

  /** One rank together with the table all ranks share. */
  datatype RankView = RankView(state: RankState, quorum: Quorum)

  datatype Sched = Sched(degree: nat, ranks: map<int, RankState>, quorum: Quorum)

  /** What the scheduler knows of a rank it has not heard from. */
  function UnheardRank(rank: int): RankState {
    RankState(None, None, [], 0, {}, map[], None, false, false)
  }

  function NewSched(degree: nat): Sched {
    Sched(degree, map r: int | 0 <= r < degree :: UnheardRank(r), map[])
  }

  function RankIn(s: Sched, rank: int): RankState {
    if rank in s.ranks then s.ranks[rank] else UnheardRank(rank)
  }

  // ---- the confirmation table ----

  function Confirmed(q: Quorum, d: Digest): set<int> {
    if d in q then q[d] else {}
  }

  /** Remove `rank` from the given digests; an entry left empty disappears. */
  function WithdrawFrom(q: Quorum, rank: int, ds: set<Digest>): Quorum {
    map d | d in q && (d in ds ==> q[d] - {rank} != {}) :: if d in ds then q[d] - {rank} else q[d]
  }

  function Withdraw(q: Quorum, rank: int): Quorum {
    WithdrawFrom(q, rank, q.Keys)
  }

  function Publish(q: Quorum, rank: int, ds: set<Digest>): Quorum {
    map d | d in q.Keys + ds :: Confirmed(q, d) + if d in ds then {rank} else {}
  }

  function DropDigest(q: Quorum, d: Digest): Quorum {
    q - {d}
  }

  predicate FullQuorum(s: Sched, d: Digest) {
    forall r :: 0 <= r < s.degree ==> r in Confirmed(s.quorum, d)
  }

  // ---- one rank ----

  function MarkDesynchronized(v: RankView, rank: int): RankView {
    if v.state.desynchronized then v
    else RankView(v.state.(desynchronized := true), Withdraw(v.quorum, rank))
  }

  function DemandCheckpoint(v: RankView, rank: int): RankView {
    MarkDesynchronized(v.(state := v.state.(requiresCheckpoint := true)), rank)
  }

  function ApplyChange(v: RankView, rank: int, c: Change): RankView {
    RankView(
      v.state.(held := v.state.held - c.removed + c.added),
      if v.state.desynchronized then v.quorum
      else Publish(WithdrawFrom(v.quorum, rank, c.removed), rank, c.added))
  }

  /** Apply pending changes while the next one in sequence is there. */
  function ApplyReady(v: RankView, rank: int): RankView
    decreases |v.state.pending|
  {
    var next := v.state.sequence + 1;
    if next in v.state.pending && v.state.pending[next].baseSequence == v.state.sequence then
      var c := v.state.pending[next];
      var rest := v.state.pending - {next};
      assert rest.Keys == v.state.pending.Keys - {next};
      var applied := ApplyChange(v.(state := v.state.(pending := rest)), rank, c);
      ApplyReady(applied.(state := applied.state.(sequence := next)), rank)
    else v
  }

  /** Leave or re-enter the confirmed ranks once nothing more can be applied. */
  function Settle(v: RankView, rank: int): RankView {
    if v.state.pending != map[] || v.state.requiresCheckpoint then MarkDesynchronized(v, rank)
    else if v.state.desynchronized then
      RankView(v.state.(desynchronized := false), Publish(v.quorum, rank, v.state.held))
    else v
  }

  function Drain(v: RankView, rank: int): RankView {
    Settle(ApplyReady(v, rank), rank)
  }

  ghost function MaxOf(s: set<nat>): (m: nat)
    requires s != {}
    ensures m in s && forall x :: x in s ==> x <= m
  {
    var x :| x in s;
    if s == {x} then x
    else
      var y := MaxOf(s - {x});
      assert forall z :: z in s ==> z == x || z in s - {x};
      if x < y then y else x
  }

  predicate WellFormedDelta(d: Delta) {
    && d.baseSequence >= 0
    && d.sequence == d.baseSequence + 1
    && |d.added| + |d.removed| <= REPORT_BATCH_SIZE
    && |Digests(d.added)| == |d.added|
    && |Digests(d.removed)| == |d.removed|
    && Digests(d.added) !! Digests(d.removed)
  }

  function Normalize(d: Delta): Change
    requires WellFormedDelta(d)
  {
    Change(d.sequence, d.baseSequence, Digests(d.added), Digests(d.removed))
  }

  function Admit(v: RankView, rank: int, c: Change): RankView {
    var w := v.(state := v.state.(pending := v.state.pending[c.sequence := c]));
    Drain(if c.baseSequence != v.state.sequence then MarkDesynchronized(w, rank) else w, rank)
  }

  ghost function AbsorbDelta(v: RankView, rank: int, d: Delta): RankView {
    if !WellFormedDelta(d) || d.sequence <= v.state.sequence then v
    else
      var c := Normalize(d);
      if c.sequence in v.state.pending then
        if v.state.pending[c.sequence] != c then DemandCheckpoint(v, rank) else v
      else if |v.state.pending| >= PENDING_DELTA_LIMIT then
        var w := DemandCheckpoint(v, rank);
        var last := MaxOf(v.state.pending.Keys);
        if c.sequence >= last then w
        else Admit(w.(state := w.state.(pending := w.state.pending - {last})), rank, c)
      else Admit(v, rank, c)
  }

  predicate WellFormedCheckpoint(c: Checkpoint) {
    && c.stateSequence >= 0 && c.cycle >= 1 && c.count >= 1
    && 0 <= c.index < c.count
    && c.heldCount >= 0
    && c.count == ChunkCount(c.heldCount)
    && |c.held| == Min(REPORT_BATCH_SIZE, Max(0, c.heldCount - c.index * REPORT_BATCH_SIZE))
    && (forall w :: w in c.held ==> w.Sha?)
    && |Digests(c.held)| == |c.held|
  }

  predicate KeyBelow(state0: int, cycle0: int, state1: int, cycle1: int) {
    state0 < state1 || (state0 == state1 && cycle0 < cycle1)
  }

  function Assembled(a: ActiveCheckpoint): set<Digest> {
    set k, d | k in a.chunks && d in a.chunks[k] :: d
  }

  /** Install a complete checkpoint and forget the changes it covers. */
  function Install(v: RankView, rank: int, held: set<Digest>, sequence: nat): RankView {
    var s := v.state;
    var kept := map k | k in s.pending && k > sequence :: s.pending[k];
    var t := s.(desynchronized := true, held := held, sequence := sequence, pending := kept,
                requiresCheckpoint := false, checkpoint := None);
    Drain(RankView(t, Withdraw(v.quorum, rank)), rank)
  }

  /** Record one chunk in an active checkpoint of the same key. */
  function AddChunk(v: RankView, rank: int, a: ActiveCheckpoint, index: nat, chunk: seq<Digest>): RankView {
    if index in a.chunks && a.chunks[index] != chunk then DemandCheckpoint(v, rank)
    else
      var b := a.(chunks := a.chunks[index := chunk]);
      var w := v.(state := v.state.(checkpoint := Some(b)));
      if |b.chunks| != a.count then w
      else if |Assembled(b)| != a.heldCount then DemandCheckpoint(w, rank)
      else Install(w, rank, Assembled(b), a.stateSequence)
  }

  function AbsorbCheckpoint(v: RankView, rank: int, c: Checkpoint): RankView {
    if !WellFormedCheckpoint(c) || c.stateSequence < v.state.sequence then v
    else if c.stateSequence == v.state.sequence && !v.state.desynchronized && !v.state.requiresCheckpoint then
      v.(state := v.state.(checkpoint := None))
    else
      var w := if c.stateSequence > v.state.sequence then MarkDesynchronized(v, rank) else v;
      OpenCheckpoint(w, rank, c)
  }

  function Begun(c: Checkpoint): ActiveCheckpoint
    requires WellFormedCheckpoint(c)
  {
    ActiveCheckpoint(c.stateSequence, c.cycle, c.count, c.heldCount, map[])
  }

  /** File a chunk under the newest checkpoint key seen so far. */
  function OpenCheckpoint(v: RankView, rank: int, c: Checkpoint): RankView
    requires WellFormedCheckpoint(c)
  {
    var anew := AddChunk(v.(state := v.state.(checkpoint := Some(Begun(c)))), rank, Begun(c), c.index, Unwire(c.held));
    match v.state.checkpoint
    case None => anew
    case Some(a) =>
      if KeyBelow(c.stateSequence, c.cycle, a.stateSequence, a.cycle) then v
      else if KeyBelow(a.stateSequence, a.cycle, c.stateSequence, c.cycle) then anew
      else if a.count != c.count || a.heldCount != c.heldCount then DemandCheckpoint(v, rank)
      else AddChunk(v, rank, a, c.index, Unwire(c.held))
  }

  // ---- process generations ----

  function LastRetired(gens: seq<string>): seq<string> {
    if |gens| > RETIRED_GENERATION_LIMIT then gens[|gens| - RETIRED_GENERATION_LIMIT..] else gens
  }

  function AcceptsGeneration(s: RankState, generation: string, epoch: Option<nat>): bool {
    if s.generation == Some(generation) then s.epoch == None || epoch == s.epoch
    else generation !in s.retired && !(generation == MISSING_GENERATION && s.generation.Some?)
  }

  function BeginGeneration(v: RankView, rank: int, generation: string, epoch: Option<nat>): RankView {
    RankView(
      v.state.(generation := Some(generation), epoch := epoch, sequence := 0, held := {}, pending := map[],
               checkpoint := None, desynchronized := false, requiresCheckpoint := false),
      Withdraw(v.quorum, rank))
  }

  function EnterGeneration(v: RankView, rank: int, generation: string, epoch: Option<nat>): RankView
    requires AcceptsGeneration(v.state, generation, epoch)
  {
    if v.state.generation == Some(generation) then v
    else
      var w := if v.state.generation.None? then v
               else v.(state := v.state.(retired := LastRetired(v.state.retired + [v.state.generation.value])));
      BeginGeneration(w, rank, generation, epoch)
  }

  // ---- whole reports ----

  predicate DeliverableReport(s: Sched, m: Report) {
    && 0 <= m.rank < s.degree && m.rank in s.ranks
    && m.generation != "" && m.generation != MISSING_GENERATION && m.epoch.Some?
    && AcceptsGeneration(s.ranks[m.rank], m.generation, m.epoch)
  }

  ghost function AbsorbBody(v: RankView, m: Report): RankView {
    var w := if m.delta.Some? then AbsorbDelta(v, m.rank, m.delta.value) else v;
    if m.checkpoint.Some? then AbsorbCheckpoint(w, m.rank, m.checkpoint.value) else w
  }

  ghost function AbsorbReport(s: Sched, m: Report): Sched {
    if !DeliverableReport(s, m) then s
    else
      var v := EnterGeneration(RankView(s.ranks[m.rank], s.quorum), m.rank, m.generation, m.epoch);
      var w := AbsorbBody(v, m);
      s.(ranks := s.ranks[m.rank := w.state], quorum := w.quorum)
  }

  ghost function AbsorbReports(s: Sched, ms: seq<Report>): Sched {
    if ms == [] then s else AbsorbReport(AbsorbReports(s, ms[..|ms| - 1]), ms[|ms| - 1])
  }
}
