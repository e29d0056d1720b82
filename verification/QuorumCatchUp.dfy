// Deltas alone bring a lagging rank up to date, in whatever order they arrive,
// and every delta a worker keeps is sent again within one turn of its history.
module QuorumCatchUp {
  import opened Common
  import opened QuorumTypes
  import opened QuorumModel
  import opened QuorumSafety
  import opened QuorumWorkerModel
  import opened QuorumHonesty
  import opened QuorumProtocol
  import opened QuorumTheorems
  import opened QuorumProgress
  import opened QuorumRecovery

  // ---- one report for a rank that lags ----

  /** The change to this state has been applied or waits for its turn. */
  predicate Covered(s: RankState, k: nat) {
    k <= s.sequence || k in s.pending
  }

  ghost predicate KeepsCovered(s: RankState, t: RankState) {
    forall k :: Covered(s, k) ==> Covered(t, k)
  }

  /** At most sixty-four states behind, and nothing has overflowed. */
  ghost predicate Lagging(states: States, s: RankState) {
    && s.sequence < |states| <= s.sequence + PENDING_DELTA_LIMIT + 1
    && !s.requiresCheckpoint && Drained(s)
    && (s.sequence == |states| - 1 ==> !s.desynchronized)
  }

  lemma {:induction false} RangeSize(s: set<nat>, low: nat, high: nat)
    requires low <= high && forall k :: k in s ==> low <= k < high
    ensures |s| <= high - low
    decreases high
  {
    if low == high {
      assert s == {};
    } else {
      RangeSize(s - {high - 1}, low, high - 1);
    }
  }

  lemma RoomLeft(states: States, s: RankState, keyState: int, keyCycle: int)
    requires Lagging(states, s) && PendingShape(s) && HonestRank(states, s, keyState, keyCycle)
    ensures |s.pending| < PENDING_DELTA_LIMIT
    ensures s.sequence == |states| - 1 ==> s.pending == map[]
  {
    HonestFacts(states, s, keyState, keyCycle);
    hide HonestRank;
    assert |s.pending| == |s.pending.Keys|;
    if s.sequence == |states| - 1 {
      NothingPending(states, s, s.sequence);
    } else {
      assert forall k :: k in s.pending.Keys ==> s.sequence + 2 <= k < |states|;
      RangeSize(s.pending.Keys, s.sequence + 2, |states|);
    }
  }

  lemma CaughtUpKeeps(states: States, s: RankState, changes: map<nat, Change>, t: RankState)
    requires CaughtUp(s, changes, t) && s.pending.Keys <= changes.Keys
    ensures KeepsCovered(s, t)
    ensures forall k :: k in changes ==> Covered(t, k)
  {
    hide Applied;
  }

  lemma DeltaCatchesUp(
    states: States, v: RankView, rank: int, d: Delta, keyState: int, keyCycle: int)
    requires HonestRank(states, v.state, keyState, keyCycle) && HonestDelta(states, d)
    requires Lagging(states, v.state) && PendingShape(v.state)
    ensures var t := AbsorbDelta(v, rank, d).state;
            Lagging(states, t) && KeepsCovered(v.state, t) && d.sequence >= 0 && Covered(t, d.sequence)
  {
    var s, t := v.state, AbsorbDelta(v, rank, d).state;
    HonestDeltaIsWellFormed(states, d);
    DeltaNumbers(d);
    RoomLeft(states, s, keyState, keyCycle);
    AbsorbDeltaStaysHonest(states, v, rank, d, keyState, keyCycle);
    HonestFacts(states, t, keyState, keyCycle);
    PendingIs(states, s, keyState, keyCycle, d.sequence);
    hide AbsorbDelta, WellFormedDelta, HonestDelta, HonestRank, Normalize, ChangeTo, PendingShape, CaughtUp;
    if d.sequence > s.sequence && d.sequence !in s.pending {
      var changes := s.pending[d.sequence := Waiting(d)];
      RoomExact(v, rank, d);
      CaughtUpKeeps(states, s, changes, t);
      CaughtUpDrained(s, changes, t);
      CaughtUpSynchronized(states, s, changes, t);
    } else {
      OtherDeltas(v, rank, d);
    }
  }

  lemma PendingIs(states: States, s: RankState, keyState: int, keyCycle: int, k: int)
    requires HonestRank(states, s, keyState, keyCycle)
    ensures k in s.pending ==> 1 <= k < |states| && s.pending[k] == ChangeTo(states, k)
    ensures s.sequence < |states|
  {
    hide HonestActive, KeyAtMost;
  }

  lemma CaughtUpSynchronized(states: States, s: RankState, changes: map<nat, Change>, t: RankState)
    requires CaughtUp(s, changes, t) && !t.requiresCheckpoint
    requires forall k :: k in t.pending ==> 1 <= k < |states|
    ensures t.sequence == |states| - 1 ==> !t.desynchronized
    ensures t.sequence >= s.sequence
  {
    hide Applied, Reaches;
    assert t.sequence >= s.sequence by {
      ReachesUp(changes, s.sequence, t.sequence);
    }
    if t.sequence == |states| - 1 {
      assert t.pending == map[];
    }
  }

  lemma ReachesUp(changes: map<nat, Change>, start: nat, stop: nat)
    requires Reaches(changes, start, stop)
    ensures start <= stop
  {
  }

  // ---- a chunk on the way ----

  /** The rank as an installed state leaves it, before anything is drained. */
  function Installed(s: RankState, held: set<Digest>, sequence: nat): RankState {
    s.(desynchronized := true, held := held, sequence := sequence, requiresCheckpoint := false, checkpoint := None,
       pending := map k | k in s.pending && k > sequence :: s.pending[k])
  }

  lemma InstallIs(v: RankView, rank: int, held: set<Digest>, sequence: nat)
    requires PendingShape(v.state)
    ensures var u := Installed(v.state, held, sequence);
            var t := Install(v, rank, held, sequence).state;
            CaughtUp(u, u.pending, t) && !t.requiresCheckpoint
  {
    var u := Installed(v.state, held, sequence);
    assert Ahead(u.pending, u.sequence);
    DrainExact(RankView(u, Withdraw(v.quorum, rank)), rank);
    hide Drain, CaughtUp, Withdraw, Ahead;
    assert Install(v, rank, held, sequence) == Drain(RankView(u, Withdraw(v.quorum, rank)), rank);
  }

  lemma InstalledKeeps(s: RankState, held: set<Digest>, sequence: nat)
    requires s.sequence <= sequence
    ensures KeepsCovered(s, Installed(s, held, sequence))
  {
  }

  lemma InstallCatchesUp(
    states: States, v: RankView, rank: int, sequence: nat, keyState: int, keyCycle: int)
    requires HonestRank(states, v.state, keyState, keyCycle) && v.state.sequence <= sequence < |states|
    requires Lagging(states, v.state) && PendingShape(v.state)
    ensures var t := Install(v, rank, states[sequence], sequence).state;
            Lagging(states, t) && KeepsCovered(v.state, t)
  {
    var u := Installed(v.state, states[sequence], sequence);
    var t := Install(v, rank, states[sequence], sequence).state;
    InstallIs(v, rank, states[sequence], sequence);
    InstallStaysHonest(states, v, rank, sequence, keyState, keyCycle);
    HonestFacts(states, t, keyState, keyCycle);
    HonestSequence(states, t, keyState, keyCycle);
    InstalledKeeps(v.state, states[sequence], sequence);
    hide HonestRank, Install, CaughtUp, PendingShape, Drained, Covered, SameProcess;
    CaughtUpDrained(u, u.pending, t);
    CaughtUpKeeps(states, u, u.pending, t);
    CaughtUpSynchronized(states, u, u.pending, t);
  }

  lemma AddChunkCatchesUp(
    states: States, v: RankView, rank: int, a: ActiveCheckpoint, index: nat, keyState: int, keyCycle: int)
    requires HonestRank(states, v.state, keyState, keyCycle) && v.state.checkpoint == Some(a)
    requires v.state.sequence <= a.stateSequence && index < a.count
    requires Lagging(states, v.state) && PendingShape(v.state)
    ensures var t := AddChunk(v, rank, a, index, Chunk(Sorted(states[a.stateSequence]), index)).state;
            Lagging(states, t) && KeepsCovered(v.state, t)
  {
    hide HonestRank, HonestActive, Chunk, Sorted, Assembled, Install, ChunkCount, DemandCheckpoint;
    HonestFacts(states, v.state, keyState, keyCycle);
    ChunkAdded(states, a, index);
    var b := a.(chunks := a.chunks[index := Chunk(Sorted(states[a.stateSequence]), index)]);
    var w := v.(state := v.state.(checkpoint := Some(b)));
    CheckpointStaysHonest(states, v.state, b, keyState, keyCycle);
    if |b.chunks| == a.count {
      AssembledIsState(states, b);
      assert |Assembled(b)| == a.heldCount;
      InstallCatchesUp(states, w, rank, b.stateSequence, keyState, keyCycle);
    }
  }

  lemma BegunHonest(states: States, s: RankState, c: Checkpoint, keyState: int, keyCycle: int)
    requires HonestRank(states, s, keyState, keyCycle) && HonestCheckpoint(states, c)
    requires KeyAtMost(c.stateSequence, c.cycle, keyState, keyCycle)
    ensures WellFormedCheckpoint(c)
    ensures HonestRank(states, s.(checkpoint := Some(Begun(c))), keyState, keyCycle)
    ensures Begun(c).stateSequence == c.stateSequence && Begun(c).count == c.count && c.index < c.count
  {
    HonestCheckpointIsWellFormed(states, c);
    hide ChangeTo, KeyAtMost, Chunk, Sorted, ChunkCount, Wire;
  }

  lemma SameLag(states: States, s: RankState, t: RankState)
    requires Lagging(states, s) && t.sequence == s.sequence && t.pending == s.pending
    requires t.requiresCheckpoint == s.requiresCheckpoint
    requires t.desynchronized == s.desynchronized || s.sequence < |states| - 1
    ensures Lagging(states, t) && KeepsCovered(s, t)
  {
  }

  lemma CheckpointCatchesUp(
    states: States, v: RankView, rank: int, c: Checkpoint, keyState: int, keyCycle: int)
    requires HonestRank(states, v.state, keyState, keyCycle) && HonestCheckpoint(states, c)
    requires KeyAtMost(c.stateSequence, c.cycle, keyState, keyCycle)
    requires Lagging(states, v.state) && PendingShape(v.state)
    ensures var t := AbsorbCheckpoint(v, rank, c).state;
            Lagging(states, t) && KeepsCovered(v.state, t)
  {
    HonestCheckpointIsWellFormed(states, c);
    assert c.stateSequence < |states|;
    if c.stateSequence < v.state.sequence {
      SameLag(states, v.state, v.state);
    } else if c.stateSequence == v.state.sequence && !v.state.desynchronized {
      assert !v.state.requiresCheckpoint;
      SameLag(states, v.state, v.state.(checkpoint := None));
    } else {
      var w := if c.stateSequence > v.state.sequence then MarkDesynchronized(v, rank) else v;
      hide Lagging, HonestRank, HonestCheckpoint, WellFormedCheckpoint, OpenCheckpoint, KeyAtMost;
      MarkedHonest(states, v, rank, keyState, keyCycle);
      LagBound(states, v.state, c.stateSequence);
      SameLag(states, v.state, w.state);
      SameNumbers(v.state, w.state);
      OpenCatchesUp(states, w, rank, c, keyState, keyCycle);
      assert AbsorbCheckpoint(v, rank, c) == OpenCheckpoint(w, rank, c) by {
        LagRequires(states, v.state);
      }
    }
  }

  lemma LagRequires(states: States, s: RankState)
    requires Lagging(states, s)
    ensures !s.requiresCheckpoint
  {
  }

  lemma LagBound(states: States, s: RankState, n: int)
    requires Lagging(states, s) && n < |states|
    ensures n > s.sequence ==> s.sequence < |states| - 1
  {
  }

  lemma OpenCatchesUp(
    states: States, v: RankView, rank: int, c: Checkpoint, keyState: int, keyCycle: int)
    requires HonestRank(states, v.state, keyState, keyCycle) && HonestCheckpoint(states, c)
    requires WellFormedCheckpoint(c) && v.state.sequence <= c.stateSequence
    requires KeyAtMost(c.stateSequence, c.cycle, keyState, keyCycle)
    requires Lagging(states, v.state) && PendingShape(v.state)
    ensures var t := OpenCheckpoint(v, rank, c).state;
            Lagging(states, t) && KeepsCovered(v.state, t)
  {
    HonestCheckpointIsWellFormed(states, c);
    BegunHonest(states, v.state, c, keyState, keyCycle);
    HonestFacts(states, v.state, keyState, keyCycle);
    var begun := v.state.(checkpoint := Some(Begun(c)));
    SameLag(states, v.state, begun);
    SameLag(states, v.state, v.state);
    SameNumbers(v.state, begun);
    CountsAgree(states, v.state, c);
    hide Lagging, HonestRank, HonestCheckpoint, WellFormedCheckpoint, KeyAtMost, AddChunk, HonestActive, PendingShape, Chunk;
    AddChunkCatchesUp(states, v.(state := begun), rank, Begun(c), c.index, keyState, keyCycle);
    if v.state.checkpoint.Some? {
      var a := v.state.checkpoint.value;
      if a.stateSequence == c.stateSequence && a.cycle == c.cycle {
        AddChunkCatchesUp(states, v, rank, a, c.index, keyState, keyCycle);
      }
    }
    hide KeepsCovered;
  }

  lemma CountsAgree(states: States, s: RankState, c: Checkpoint)
    requires HonestCheckpoint(states, c)
    requires s.checkpoint.Some? ==> HonestActive(states, s.checkpoint.value)
    ensures s.checkpoint.Some? && s.checkpoint.value.stateSequence == c.stateSequence ==>
              s.checkpoint.value.count == c.count && s.checkpoint.value.heldCount == c.heldCount
  {
    hide Chunk, Sorted, ChunkCount, Wire;
  }

  lemma BodyCatchesUp(states: States, v: RankView, m: Report, keyState: int, keyCycle: int, dropped: set<Digest>)
    requires HonestRank(states, v.state, keyState, keyCycle) && HonestParts(states, m)
    requires m.checkpoint.Some? ==>
               KeyAtMost(m.checkpoint.value.stateSequence, m.checkpoint.value.cycle, keyState, keyCycle)
    requires Lagging(states, v.state) && Sound(v, m.rank, dropped)
    ensures var t := AbsorbBody(v, m).state;
            && Lagging(states, t) && KeepsCovered(v.state, t)
            && (m.delta.Some? ==> m.delta.value.sequence >= 0 && Covered(t, m.delta.value.sequence))
  {
    var w := AfterDelta(v, m);
    hide AbsorbDelta, AbsorbCheckpoint, HonestRank, Lagging, TableAgrees, PendingShape, HonestDelta, HonestCheckpoint,
         KeyAtMost, Covered;
    if m.delta.Some? {
      DeltaCatchesUp(states, v, m.rank, m.delta.value, keyState, keyCycle);
      AbsorbDeltaStaysHonest(states, v, m.rank, m.delta.value, keyState, keyCycle);
      AbsorbDeltaKeeps(v, m.rank, m.delta.value, dropped);
    }
    if m.checkpoint.Some? {
      CheckpointCatchesUp(states, w, m.rank, m.checkpoint.value, keyState, keyCycle);
    }
  }

  // ---- whole runs ----

  /** The rank follows this process, which has fixed exactly these states, and
      lags behind by no more than can wait. */
  ghost predicate Lags(sys: System, generation: string, states: States) {
    && Inv(sys) && generation in sys.procs && sys.procs[generation].states == states
    && var r := sys.procs[generation].worker.rank;
       && 0 <= r < sys.sched.degree && r in sys.sched.ranks && sys.sched.ranks[r].generation == Some(generation)
       && Lagging(states, sys.sched.ranks[r])
  }

  /** The process fixes no further state, and only its own reports reach its rank. */
  ghost predicate Calm(
    degree: nat, actions: seq<Action>, generation: string, states: States, k: nat)
    requires k < |actions|
  {
    var sys, next, a := Run(degree, actions[..k]), Run(degree, actions[..k + 1]), actions[k];
    && generation in sys.procs && generation in next.procs && next.procs[generation].states == states
    && (a.Deliver? && a.report in sys.sent && a.report.rank == sys.procs[generation].worker.rank ==>
          a.report.generation == generation)
  }

  /** This action of the run delivers the process's change to state `n`. */
  ghost predicate Brought(degree: nat, actions: seq<Action>, generation: string, k: nat, n: nat)
    requires k < |actions|
  {
    && Hears(Run(degree, actions[..k]), generation, actions[k])
    && actions[k].report.delta.Some? && actions[k].report.delta.value.sequence == n
  }

  /** Some action from this point on delivers the change to state `n`. */
  ghost predicate Arrives(degree: nat, actions: seq<Action>, since: nat, generation: string, n: nat) {
    exists k :: since <= k < |actions| && Brought(degree, actions, generation, k, n)
  }

  ghost function RankNow(sys: System, generation: string): RankState
    requires generation in sys.procs
  {
    RankIn(sys.sched, sys.procs[generation].worker.rank)
  }

  lemma OwnFacts(sys: System, generation: string, m: Report)
    requires Inv(sys) && m in sys.sent && m.generation == generation && generation in sys.procs
    requires m.rank in sys.sched.ranks && sys.sched.ranks[m.rank].generation == Some(generation)
    ensures var p := sys.procs[generation];
            && HonestRank(p.states, sys.sched.ranks[m.rank], p.worker.checkpointSequence, p.worker.cycle)
            && (m.checkpoint.Some? ==>
                  KeyAtMost(m.checkpoint.value.stateSequence, m.checkpoint.value.cycle,
                            p.worker.checkpointSequence, p.worker.cycle))
            && Sound(RankView(sys.sched.ranks[m.rank], sys.sched.quorum), m.rank, sys.dropped)
  {
    hide HonestDelta, HonestCheckpoint, HonestRank, KeyAtMost, Sound, ProcInv;
    assert HonestReport(sys.procs, m);
    assert FollowsProc(sys.procs, m.rank, sys.sched.ranks[m.rank]);
  }

  lemma StepCatchesUp(sys: System, generation: string, states: States, a: Action)
    requires Lags(sys, generation, states)
    requires generation in Step(sys, a).procs && Step(sys, a).procs[generation].states == states
    requires a.Deliver? && a.report in sys.sent && a.report.rank == sys.procs[generation].worker.rank ==>
               a.report.generation == generation
    ensures Lags(Step(sys, a), generation, states)
    ensures KeepsCovered(RankNow(sys, generation), RankNow(Step(sys, a), generation))
    ensures Hears(sys, generation, a) && a.report.delta.Some? ==>
              a.report.delta.value.sequence >= 0
              && Covered(RankNow(Step(sys, a), generation), a.report.delta.value.sequence)
  {
    hide Inv, HonestRank, AbsorbReport, AbsorbBody, Lagging, Covered, Sound, KeyAtMost;
    var r := sys.procs[generation].worker.rank;
    StepKeeps(sys, a);
    StepRank(sys, generation, a);
    if a.Deliver? && a.report in sys.sent {
      var m := a.report;
      if m.generation == generation {
        OwnReport(sys, generation, m);
        OwnFacts(sys, generation, m);
        var v := RankView(sys.sched.ranks[r], sys.sched.quorum);
        var p := sys.procs[generation];
        BodyCatchesUp(states, v, m, p.worker.checkpointSequence, p.worker.cycle, sys.dropped);
        BodyKeeps(v, m);
      } else {
        OtherRank(sys.sched, m, r);
      }
    }
  }

  lemma {:induction false} RunCatchesUp(
    degree: nat, actions: seq<Action>, since: nat, upto: nat, generation: string, states: States)
    requires since <= upto <= |actions|
    requires Lags(Run(degree, actions[..since]), generation, states)
    requires forall k :: since <= k < upto ==> Calm(degree, actions, generation, states, k)
    ensures Lags(Run(degree, actions[..upto]), generation, states)
    ensures KeepsCovered(RankNow(Run(degree, actions[..since]), generation), RankNow(Run(degree, actions[..upto]), generation))
    ensures forall k, n :: since <= k < upto && Brought(degree, actions, generation, k, n) ==>
              Covered(RankNow(Run(degree, actions[..upto]), generation), n)
    decreases upto
  {
    hide Lags, Step, Covered, Run, Hears, RankNow;
    if upto > since {
      RunCatchesUp(degree, actions, since, upto - 1, generation, states);
      assert Calm(degree, actions, generation, states, upto - 1);
      var front := actions[..upto];
      RunStep(degree, front);
      assert front[..|front| - 1] == actions[..upto - 1] && front[|front| - 1] == actions[upto - 1];
      StepCatchesUp(Run(degree, actions[..upto - 1]), generation, states, actions[upto - 1]);
    }
  }

  lemma NextNotCovered(s: RankState)
    requires Drained(s)
    ensures !Covered(s, s.sequence + 1)
  {
  }

  lemma CoveredHolds(sys: System, generation: string, states: States)
    requires Lags(sys, generation, states) && states != []
    requires Covered(RankNow(sys, generation), |states| - 1)
    requires forall n :: RankNow(sys, generation).sequence < n < |states| ==> Covered(RankNow(sys, generation), n)
    ensures HoldsNewest(sys, generation, states)
  {
    hide HonestActive, ChangeTo, KeyAtMost, HonestReport, ProcInv, Confirmed;
    var r := sys.procs[generation].worker.rank;
    var s := sys.sched.ranks[r];
    NextNotCovered(s);
    assert FollowsProc(sys.procs, r, s);
    assert Sound(RankView(s, sys.sched.quorum), r, sys.dropped);
  }

  /** Deltas are enough, in any order. Take any run and a point of it where the
      rank follows the process, at most sixty-four states behind and without an
      overflow. If the process fixes no further state and every change the rank
      lacks arrives at least once, whatever the order, the repetitions and the
      checkpoint chunks beside them, the rank ends on the newest state. */
  lemma DeltasRecover(degree: nat, actions: seq<Action>, since: nat, generation: string, states: States)
    requires since <= |actions| && states != [] && Lags(Run(degree, actions[..since]), generation, states)
    requires forall k :: since <= k < |actions| ==> Calm(degree, actions, generation, states, k)
    requires forall n: nat :: RankNow(Run(degree, actions[..since]), generation).sequence < n < |states| ==>
               Arrives(degree, actions, since, generation, n)
    ensures HoldsNewest(Run(degree, actions), generation, states)
  {
    LagsThere(Run(degree, actions[..since]), generation, states);
    hide Lags, Run, Calm, Brought, RankNow, Covered, KeepsCovered, HoldsNewest;
    RunCatchesUp(degree, actions, since, |actions|, generation, states);
    assert actions[..|actions|] == actions;
    LagsThere(Run(degree, actions), generation, states);
    var s, t := RankNow(Run(degree, actions[..since]), generation), RankNow(Run(degree, actions), generation);
    forall n: nat | n < |states|
      ensures Covered(t, n)
    {
      if n <= s.sequence {
        EarlierCovered(s, t, n);
      } else {
        assert Arrives(degree, actions, since, generation, n);
        var k :| since <= k < |actions| && Brought(degree, actions, generation, k, n);
      }
    }
    CoveredHolds(Run(degree, actions), generation, states);
  }

  lemma LagsThere(sys: System, generation: string, states: States)
    requires Lags(sys, generation, states)
    ensures generation in sys.procs
  {
  }

  lemma EarlierCovered(s: RankState, t: RankState, n: nat)
    requires KeepsCovered(s, t) && n <= s.sequence
    ensures Covered(t, n)
  {
    assert Covered(s, n);
  }

  /** One new state. A synchronized rank that is one state behind takes the next
      delta at once: it ends at least there, and exactly there unless the same
      report already carries a chunk of a later state. */
  lemma NextStateTaken(degree: nat, actions: seq<Action>, m: Report)
    requires var sys := Run(degree, actions);
             && m in sys.sent && 0 <= m.rank < degree
             && var s := RankIn(sys.sched, m.rank);
                && s.generation == Some(m.generation) && !s.desynchronized
                && m.delta.Some? && m.delta.value.sequence == s.sequence + 1
    ensures var sys := Run(degree, actions);
            var s, t := RankIn(sys.sched, m.rank), RankIn(Step(sys, Deliver(m)).sched, m.rank);
            && m.generation in sys.procs && t.sequence >= s.sequence + 1
            && t.sequence < |sys.procs[m.generation].states| && t.held == sys.procs[m.generation].states[t.sequence]
            && (m.checkpoint.Some? && m.checkpoint.value.stateSequence <= s.sequence + 1 ==>
                  && t.sequence == s.sequence + 1 && t.pending == map[] && !t.desynchronized && !t.requiresCheckpoint)
  {
    hide *;
    var sys := Run(degree, actions);
    RunKeeps(degree, actions);
    ReportOfRank(sys, m);
    RankThere(sys, m.rank);
    OwnReport(sys, m.generation, m);
    OwnFacts(sys, m.generation, m);
    var v := RankView(sys.sched.ranks[m.rank], sys.sched.quorum);
    var p := sys.procs[m.generation];
    NextBodyTaken(p.states, v, m, p.worker.checkpointSequence, p.worker.cycle, sys.dropped);
    DeliveredIs(sys, m);
  }

  lemma ReportOfRank(sys: System, m: Report)
    requires Inv(sys) && m in sys.sent && 0 <= m.rank < sys.sched.degree
    ensures m.generation in sys.procs && sys.procs[m.generation].worker.rank == m.rank && m.rank in sys.sched.ranks
  {
    hide HonestDelta, HonestCheckpoint, HonestRank, Sound, ProcInv, FollowsProc;
    assert HonestReport(sys.procs, m);
  }

  lemma DeliveredIs(sys: System, m: Report)
    requires m in sys.sent && m.rank in AbsorbReport(sys.sched, m).ranks
    ensures RankIn(Step(sys, Deliver(m)).sched, m.rank) == AbsorbReport(sys.sched, m).ranks[m.rank]
  {
    hide AbsorbReport;
  }

  lemma NextBodyTaken(
    states: States, v: RankView, m: Report, keyState: int, keyCycle: int, dropped: set<Digest>)
    requires HonestRank(states, v.state, keyState, keyCycle) && HonestParts(states, m)
    requires m.checkpoint.Some? ==>
               KeyAtMost(m.checkpoint.value.stateSequence, m.checkpoint.value.cycle, keyState, keyCycle)
    requires Sound(v, m.rank, dropped) && !v.state.desynchronized
    requires m.delta.Some? && m.delta.value.sequence == v.state.sequence + 1
    ensures var s, t := v.state, AbsorbBody(v, m).state;
            && s.sequence + 1 <= t.sequence < |states| && t.held == states[t.sequence]
            && (m.checkpoint.Some? && m.checkpoint.value.stateSequence <= s.sequence + 1 ==>
                  && t.sequence == s.sequence + 1 && t.pending == map[] && !t.desynchronized && !t.requiresCheckpoint)
  {
    var d := m.delta.value;
    var w := AbsorbDelta(v, m.rank, d);
    NothingWaits(v, m.rank, dropped);
    HonestDeltaIsWellFormed(states, d);
    DeltaNumbers(d);
    AbsorbDeltaStaysHonest(states, v, m.rank, d, keyState, keyCycle);
    SoundShape(v, m.rank, dropped);
    hide AbsorbDelta, WellFormedDelta, HonestRank, Sound, HonestDelta, Normalize, KeyAtMost, ChangeTo, Waiting;
    NextDeltaApplies(v, m.rank, d);
    var t := AbsorbBody(v, m).state;
    if m.checkpoint.Some? {
      AbsorbCheckpointStaysHonest(states, w, m.rank, m.checkpoint.value, keyState, keyCycle);
      if m.checkpoint.value.stateSequence <= w.state.sequence {
        OldChunk(w, m.rank, m.checkpoint.value);
      }
    }
    HonestHeld(states, t, keyState, keyCycle);
    hide AbsorbCheckpoint;
  }

  lemma NothingWaits(v: RankView, rank: int, dropped: set<Digest>)
    requires Sound(v, rank, dropped) && !v.state.desynchronized
    ensures v.state.pending == map[] && !v.state.requiresCheckpoint
  {
  }

  lemma SoundShape(v: RankView, rank: int, dropped: set<Digest>)
    requires Sound(v, rank, dropped)
    ensures PendingShape(v.state)
  {
  }

  lemma OldChunk(v: RankView, rank: int, c: Checkpoint)
    requires c.stateSequence <= v.state.sequence && !v.state.desynchronized && !v.state.requiresCheckpoint
    ensures var t := AbsorbCheckpoint(v, rank, c).state;
            && t.sequence == v.state.sequence && t.pending == v.state.pending && t.held == v.state.held
            && !t.desynchronized && !t.requiresCheckpoint
  {
    hide WellFormedCheckpoint;
  }

  lemma HonestHeld(states: States, s: RankState, keyState: int, keyCycle: int)
    requires HonestRank(states, s, keyState, keyCycle)
    ensures s.sequence < |states| && s.held == states[s.sequence]
  {
  }
}
