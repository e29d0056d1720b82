// One full checkpoint cycle is enough, whatever else arrives in between, as long
// as no other report makes the scheduler forget the chunks it has collected.
module QuorumRecovery {
  import opened Common
  import opened QuorumTypes
  import opened QuorumModel
  import opened QuorumSafety
  import opened QuorumWorkerModel
  import opened QuorumHonesty
  import opened QuorumProtocol
  import opened QuorumTheorems

  /** A chunk of the very state a synchronized rank is at, while newer states
      exist: it closes the checkpoint that was being collected. */
  predicate Forgets(states: States, s: RankState, c: Checkpoint) {
    c.stateSequence == s.sequence < |states| - 1 && !s.desynchronized && !s.requiresCheckpoint
  }

  /** The first `n` chunks of the newest state's cycle are collected, or it is reached. */
  ghost predicate Gathering(states: States, s: RankState, cycle: int, n: nat)
    requires states != []
  {
    || Newest(states, s)
    || n == 0
    || (n < ChunkCount(|states[|states| - 1]|) && Collected(states, s, cycle, n))
  }

  lemma CollectedMore(states: States, s: RankState, t: RankState, cycle: int, n: nat)
    requires Collected(states, s, cycle, n) && t.checkpoint.Some?
    requires t.checkpoint.value.stateSequence == s.checkpoint.value.stateSequence
    requires t.checkpoint.value.cycle == s.checkpoint.value.cycle
    requires s.checkpoint.value.chunks.Keys <= t.checkpoint.value.chunks.Keys
    ensures Collected(states, t, cycle, n)
  {
  }

  /** One more chunk of the cycle being collected loses none of the others. */
  lemma AddedChunkKept(
    states: States, v: RankView, rank: int, c: Checkpoint, cycle: int, n: nat)
    requires states != [] && HonestRank(states, v.state, |states| - 1, cycle) && HonestCheckpoint(states, c)
    requires Collected(states, v.state, cycle, n) && c.stateSequence == |states| - 1 && c.cycle == cycle
    requires v.state.sequence <= c.stateSequence
    ensures var t := AddChunk(v, rank, v.state.checkpoint.value, c.index,
                              Chunk(Sorted(states[c.stateSequence]), c.index)).state;
            Newest(states, t) || Collected(states, t, cycle, n)
  {
    var a := v.state.checkpoint.value;
    HonestFacts(states, v.state, |states| - 1, cycle);
    assert HonestActive(states, a);
    assert c.index < a.count;
    hide AddChunk, Chunk, Sorted, HonestRank, HonestActive, Newest, HonestCheckpoint, ChunkCount;
    AddChunkStaysHonest(states, v, rank, a, c.index, |states| - 1, cycle);
    var t := AddChunk(v, rank, a, c.index, Chunk(Sorted(states[c.stateSequence]), c.index)).state;
    if |a.chunks.Keys + {c.index}| != a.count {
      CollectedMore(states, v.state, t, cycle, n);
    }
  }

  /** A chunk of another cycle than the one being collected changes nothing. */
  lemma OtherChunkKept(states: States, v: RankView, rank: int, c: Checkpoint, cycle: int, n: nat)
    requires states != [] && HonestRank(states, v.state, |states| - 1, cycle) && HonestCheckpoint(states, c)
    requires KeyAtMost(c.stateSequence, c.cycle, |states| - 1, cycle)
    requires !(c.stateSequence == |states| - 1 && c.cycle == cycle)
    requires Collected(states, v.state, cycle, n) && !Forgets(states, v.state, c) && !Newest(states, v.state)
    ensures Collected(states, AbsorbCheckpoint(v, rank, c).state, cycle, n)
  {
    HonestCheckpointIsWellFormed(states, c);
    hide AddChunk, HonestCheckpoint, HonestActive, WellFormedCheckpoint, ChunkCount;
  }

  lemma NextChunkKept(states: States, v: RankView, rank: int, c: Checkpoint, cycle: int, n: nat)
    requires states != [] && HonestRank(states, v.state, |states| - 1, cycle) && HonestCheckpoint(states, c)
    requires c.stateSequence == |states| - 1 && c.cycle == cycle
    requires Collected(states, v.state, cycle, n) && !Newest(states, v.state)
    ensures var t := AbsorbCheckpoint(v, rank, c).state;
            Newest(states, t) || Collected(states, t, cycle, n)
  {
    HonestCheckpointIsWellFormed(states, c);
    MarkedHonest(states, v, rank, |states| - 1, cycle);
    var w := if c.stateSequence > v.state.sequence then MarkDesynchronized(v, rank) else v;
    AddedChunkKept(states, w, rank, c, cycle, n);
    hide AddChunk, HonestActive, WellFormedCheckpoint, ChunkCount;
  }

  /** Exactly which chunks of honest reports, none of a later cycle, leave a
      collection in progress: all but those of the state the rank is at. */
  lemma ChunkKeptExactly(states: States, v: RankView, rank: int, c: Checkpoint, cycle: int, n: nat)
    requires states != [] && HonestRank(states, v.state, |states| - 1, cycle) && HonestCheckpoint(states, c)
    requires KeyAtMost(c.stateSequence, c.cycle, |states| - 1, cycle)
    requires Collected(states, v.state, cycle, n) && !Newest(states, v.state)
    ensures var t := AbsorbCheckpoint(v, rank, c).state;
            Newest(states, t) || Collected(states, t, cycle, n) <==> !Forgets(states, v.state, c)
  {
    HonestCheckpointIsWellFormed(states, c);
    hide AddChunk, HonestCheckpoint, HonestActive, HonestRank, WellFormedCheckpoint, ChunkCount, AbsorbCheckpoint;
    if Forgets(states, v.state, c) {
      ForgottenChunk(v, rank, c);
    } else if c.stateSequence == |states| - 1 && c.cycle == cycle {
      NextChunkKept(states, v, rank, c, cycle, n);
    } else {
      OtherChunkKept(states, v, rank, c, cycle, n);
    }
  }

  lemma ForgottenChunk(v: RankView, rank: int, c: Checkpoint)
    requires WellFormedCheckpoint(c) && c.stateSequence == v.state.sequence
    requires !v.state.desynchronized && !v.state.requiresCheckpoint
    ensures AbsorbCheckpoint(v, rank, c).state == v.state.(checkpoint := None)
  {
    hide WellFormedCheckpoint;
  }

  lemma MarkedHonest(states: States, v: RankView, rank: int, keyState: int, keyCycle: int)
    requires HonestRank(states, v.state, keyState, keyCycle)
    ensures HonestRank(states, MarkDesynchronized(v, rank).state, keyState, keyCycle)
  {
    hide HonestActive, ChangeTo, KeyAtMost;
  }

  // ---- one report ----

  /** The report brings chunk `n` of the newest state's cycle. */
  predicate Brings(states: States, m: Report, cycle: int, n: nat) {
    m.checkpoint.Some? && m.checkpoint.value.stateSequence == |states| - 1 && m.checkpoint.value.cycle == cycle
    && m.checkpoint.value.index == n
  }

  /** What a rank is left with by the report's delta. */
  ghost function AfterDelta(v: RankView, m: Report): RankView {
    if m.delta.Some? then AbsorbDelta(v, m.rank, m.delta.value) else v
  }

  /** A report of this generation that leaves the collection alone: none of a
      later cycle, none of the state that its own delta leaves the rank at. */
  ghost predicate Harmless(states: States, v: RankView, m: Report, cycle: int) {
    m.checkpoint.Some? ==>
      && KeyAtMost(m.checkpoint.value.stateSequence, m.checkpoint.value.cycle, |states| - 1, cycle)
      && !Forgets(states, AfterDelta(v, m).state, m.checkpoint.value)
  }

  ghost predicate HonestParts(states: States, m: Report) {
    (m.delta.Some? ==> HonestDelta(states, m.delta.value))
    && (m.checkpoint.Some? ==> HonestCheckpoint(states, m.checkpoint.value))
  }

  lemma DeltaKept(states: States, v: RankView, m: Report, cycle: int, n: nat)
    requires states != [] && HonestRank(states, v.state, |states| - 1, cycle) && HonestParts(states, m)
    requires Gathering(states, v.state, cycle, n)
    ensures HonestRank(states, AfterDelta(v, m).state, |states| - 1, cycle)
    ensures Gathering(states, AfterDelta(v, m).state, cycle, n)
    ensures Newest(states, v.state) ==> Newest(states, AfterDelta(v, m).state)
  {
    if m.delta.Some? {
      AbsorbDeltaStaysHonest(states, v, m.rank, m.delta.value, |states| - 1, cycle);
      if Newest(states, v.state) {
        assert m.delta.value.sequence <= v.state.sequence;
      } else {
        hide AbsorbDelta, HonestRank, HonestDelta, HonestCheckpoint, ChunkCount;
      }
    }
  }

  /** One honest report: progress is kept, and the chunk that comes next is added to it. */
  lemma ReportKept(states: States, v: RankView, m: Report, cycle: int, n: nat)
    requires states != [] && HonestRank(states, v.state, |states| - 1, cycle) && HonestParts(states, m)
    requires Harmless(states, v, m, cycle) && Gathering(states, v.state, cycle, n)
    ensures var t := AbsorbBody(v, m).state;
            && HonestRank(states, t, |states| - 1, cycle)
            && Gathering(states, t, cycle, if Brings(states, m, cycle, n) then n + 1 else n)
  {
    DeltaKept(states, v, m, cycle, n);
    var w := AfterDelta(v, m);
    if m.checkpoint.Some? {
      var c := m.checkpoint.value;
      AbsorbCheckpointStaysHonest(states, w, m.rank, c, |states| - 1, cycle);
      if !Brings(states, m, cycle, n) && !Newest(states, w.state) && n > 0 {
        ChunkKeptExactly(states, w, m.rank, c, cycle, n);
      }
      ChunkCounts(states, c);
    }
    hide HonestRank, AbsorbDelta, AbsorbCheckpoint, Newest, Collected, HonestDelta, HonestCheckpoint, ChunkCount, Harmless;
  }

  lemma ChunkCounts(states: States, c: Checkpoint)
    requires states != [] && HonestCheckpoint(states, c)
    ensures c.stateSequence == |states| - 1 ==> c.count == ChunkCount(|states[|states| - 1]|)
    ensures c.index >= 0
  {
    hide ChunkCount, Chunk, Sorted, Wire;
  }

  // ---- whole runs ----

  /** The rank follows this process, which has fixed exactly these states, and
      is `n` chunks into the cycle. */
  ghost predicate StandsAt(sys: System, generation: string, states: States, cycle: int, n: nat) {
    && Inv(sys) && generation in sys.procs && states != [] && sys.procs[generation].states == states
    && var r := sys.procs[generation].worker.rank;
       && 0 <= r < sys.sched.degree && r in sys.sched.ranks && sys.sched.ranks[r].generation == Some(generation)
       && HonestRank(states, sys.sched.ranks[r], |states| - 1, cycle)
       && Gathering(states, sys.sched.ranks[r], cycle, n)
  }

  /** The action delivers a report of this process. */
  predicate Hears(sys: System, generation: string, a: Action) {
    a.Deliver? && a.report in sys.sent && a.report.generation == generation
  }

  /** Nothing but harmless reports of this process reaches its rank. */
  ghost predicate Undisturbed(sys: System, generation: string, cycle: int, a: Action)
    requires generation in sys.procs
  {
    var p := sys.procs[generation];
    a.Deliver? && a.report in sys.sent && a.report.rank == p.worker.rank && p.worker.rank in sys.sched.ranks ==>
      && a.report.generation == generation
      && Harmless(p.states, RankView(sys.sched.ranks[p.worker.rank], sys.sched.quorum), a.report, cycle)
  }

  /** How many chunks of the cycle have come after the action. */
  function Taken(sys: System, generation: string, cycle: int, a: Action, n: nat): nat {
    if generation in sys.procs && Hears(sys, generation, a)
       && Brings(sys.procs[generation].states, a.report, cycle, n)
    then n + 1 else n
  }

  lemma StepRank(sys: System, generation: string, a: Action)
    requires generation in sys.procs
    ensures generation in Step(sys, a).procs
    ensures Step(sys, a).procs[generation].worker.rank == sys.procs[generation].worker.rank
    ensures Step(sys, a).sched.degree == sys.sched.degree
    ensures !a.Deliver? ==> Step(sys, a).sched.ranks == sys.sched.ranks
  {
    hide AbsorbBody, DeltaOf, CheckpointOf;
    if a.SendReport? && a.generation in sys.procs {
      ObserveKeepsIdentity(sys.procs[a.generation].worker);
    }
    if a.Deliver? {
      AbsorbDegree(sys.sched, a.report);
    }
  }

  lemma AbsorbDegree(s: Sched, m: Report)
    ensures AbsorbReport(s, m).degree == s.degree
  {
    hide AbsorbBody;
  }

  /** A report for another rank, or one nobody accepts, leaves this rank alone. */
  lemma OtherRank(s: Sched, m: Report, r: int)
    requires r in s.ranks && m.rank != r
    ensures r in AbsorbReport(s, m).ranks && AbsorbReport(s, m).ranks[r] == s.ranks[r]
  {
    hide AbsorbBody;
  }

  /** A report of the generation the rank follows goes straight to its state. */
  lemma OwnReport(sys: System, generation: string, m: Report)
    requires Inv(sys) && m in sys.sent && m.generation == generation && generation in sys.procs
    requires var r := sys.procs[generation].worker.rank;
             0 <= r < sys.sched.degree && r in sys.sched.ranks && sys.sched.ranks[r].generation == Some(generation)
    ensures m.rank == sys.procs[generation].worker.rank && HonestParts(sys.procs[generation].states, m)
    ensures var r := m.rank;
            && r in AbsorbReport(sys.sched, m).ranks
            && AbsorbReport(sys.sched, m).ranks[r]
               == AbsorbBody(RankView(sys.sched.ranks[r], sys.sched.quorum), m).state
  {
    hide AbsorbBody, HonestDelta, HonestCheckpoint, HonestRank;
    assert HonestReport(sys.procs, m);
    assert ProcInv(generation, sys.procs[generation]);
    assert FollowsProc(sys.procs, m.rank, sys.sched.ranks[m.rank]);
  }

  lemma BodyKeeps(v: RankView, m: Report)
    ensures AbsorbBody(v, m).state.generation == v.state.generation
  {
    BodyKeepsProcess(v, m);
  }

  lemma StepGathers(sys: System, generation: string, states: States, cycle: int, n: nat, a: Action)
    requires StandsAt(sys, generation, states, cycle, n) && Undisturbed(sys, generation, cycle, a)
    requires generation in Step(sys, a).procs && Step(sys, a).procs[generation].states == states
    ensures StandsAt(Step(sys, a), generation, states, cycle, Taken(sys, generation, cycle, a, n))
  {
    hide Inv, HonestRank, Gathering, AbsorbReport, AbsorbBody, Harmless, Brings;
    var r := sys.procs[generation].worker.rank;
    StepKeeps(sys, a);
    StepRank(sys, generation, a);
    if a.Deliver? && a.report in sys.sent {
      var m := a.report;
      if m.generation == generation {
        OwnReport(sys, generation, m);
        ReportKept(states, RankView(sys.sched.ranks[r], sys.sched.quorum), m, cycle, n);
        BodyKeeps(RankView(sys.sched.ranks[r], sys.sched.quorum), m);
      } else {
        OtherRank(sys.sched, m, r);
      }
    }
  }

  /** Chunks of the cycle that come in order between two points of a run. */
  ghost function TakenBetween(
    degree: nat, actions: seq<Action>, since: nat, upto: nat, generation: string, cycle: int): nat
    requires since <= upto <= |actions|
    decreases upto
  {
    if upto == since then 0
    else
      Taken(Run(degree, actions[..upto - 1]), generation, cycle, actions[upto - 1],
            TakenBetween(degree, actions, since, upto - 1, generation, cycle))
  }

  /** From here on the process fixes no further state, and only harmless reports
      of it reach its rank. */
  ghost predicate Quiet(
    degree: nat, actions: seq<Action>, generation: string, states: States, cycle: int, k: nat)
    requires k < |actions|
  {
    var sys, next := Run(degree, actions[..k]), Run(degree, actions[..k + 1]);
    && generation in sys.procs && Undisturbed(sys, generation, cycle, actions[k])
    && generation in next.procs && next.procs[generation].states == states
  }

  lemma {:induction false} RunGathers(
    degree: nat, actions: seq<Action>, since: nat, upto: nat, generation: string, states: States, cycle: int)
    requires since <= upto <= |actions|
    requires StandsAt(Run(degree, actions[..since]), generation, states, cycle, 0)
    requires forall k :: since <= k < upto ==> Quiet(degree, actions, generation, states, cycle, k)
    ensures StandsAt(Run(degree, actions[..upto]), generation, states, cycle,
                     TakenBetween(degree, actions, since, upto, generation, cycle))
    decreases upto
  {
    hide StandsAt, Undisturbed, Taken, Step;
    if since < upto {
      RunGathers(degree, actions, since, upto - 1, generation, states, cycle);
      assert Quiet(degree, actions, generation, states, cycle, upto - 1);
      var front := actions[..upto];
      assert front[..|front| - 1] == actions[..upto - 1];
      StepGathers(Run(degree, actions[..upto - 1]), generation, states, cycle,
                  TakenBetween(degree, actions, since, upto - 1, generation, cycle), actions[upto - 1]);
    }
  }

  /** Where the rank is when a run reaches this point: it follows the process,
      and no chunk of a later cycle has been seen. */
  ghost predicate Ready(sys: System, generation: string, cycle: int) {
    && generation in sys.procs
    && var p := sys.procs[generation];
       var s := RankIn(sys.sched, p.worker.rank);
       && 0 <= p.worker.rank < sys.sched.degree && s.generation == Some(generation)
       && (s.checkpoint.Some? ==>
             KeyAtMost(s.checkpoint.value.stateSequence, s.checkpoint.value.cycle, |p.states| - 1, cycle))
  }

  lemma Rekeyed(states: States, s: RankState, keyState: int, keyCycle: int, cycle: int)
    requires HonestRank(states, s, keyState, keyCycle)
    requires s.checkpoint.Some? ==>
               KeyAtMost(s.checkpoint.value.stateSequence, s.checkpoint.value.cycle, |states| - 1, cycle)
    ensures HonestRank(states, s, |states| - 1, cycle)
  {
    hide HonestActive, ChangeTo, KeyAtMost;
  }

  lemma ReadyRank(sys: System, generation: string, cycle: int)
    requires Inv(sys) && Ready(sys, generation, cycle)
    ensures var p := sys.procs[generation];
            && p.states != [] && p.worker.rank in sys.sched.ranks
            && FollowsProc(sys.procs, p.worker.rank, sys.sched.ranks[p.worker.rank])
  {
    hide FollowsProc, HonestReport, HonestRank, KeyAtMost, SchedSound;
    var p := sys.procs[generation];
    assert ProcInv(generation, p);
    assert p.worker.rank in sys.sched.ranks;
  }

  lemma ReadyStands(sys: System, generation: string, cycle: int)
    requires Inv(sys) && Ready(sys, generation, cycle)
    ensures generation in sys.procs && StandsAt(sys, generation, sys.procs[generation].states, cycle, 0)
  {
    hide Inv, HonestRank, KeyAtMost, Newest, Collected, ChunkCount;
    var p := sys.procs[generation];
    ReadyRank(sys, generation, cycle);
    Rekeyed(p.states, sys.sched.ranks[p.worker.rank], p.worker.checkpointSequence, p.worker.cycle, cycle);
  }

  /** The rank holds exactly the newest of these states, is synchronized, and
      confirms all of it but what load failures removed. */
  ghost predicate HoldsNewest(sys: System, generation: string, states: States)
    requires states != []
  {
    && generation in sys.procs && sys.procs[generation].states == states
    && var r := sys.procs[generation].worker.rank;
       var s := RankIn(sys.sched, r);
       && s.held == states[|states| - 1] && !s.desynchronized && !s.requiresCheckpoint && s.pending == map[]
       && forall d :: d !in sys.dropped ==> (r in Confirmed(sys.sched.quorum, d) <==> d in s.held)
  }

  lemma StandsHoldsNewest(sys: System, generation: string, states: States, cycle: int, n: nat)
    requires StandsAt(sys, generation, states, cycle, n) && n >= ChunkCount(|states[|states| - 1]|)
    ensures HoldsNewest(sys, generation, states)
  {
    hide HonestActive, ChangeTo, KeyAtMost, HonestReport, ProcInv, FollowsProc, Confirmed;
    var r := sys.procs[generation].worker.rank;
    assert Sound(RankView(sys.sched.ranks[r], sys.sched.quorum), r, sys.dropped);
  }

  /** One cycle is enough. Take any reachable state in which the rank follows the
      process and has seen no chunk of a later cycle, however many reports were
      lost and whatever overflowed. If the process fixes no further state and the
      chunks of one cycle of its newest state arrive in order, among whatever
      other harmless reports, then the rank holds exactly that state, is
      synchronized, and confirms all of it but what load failures removed. */
  lemma OneCycleRecovers(degree: nat, actions: seq<Action>, since: nat, generation: string, cycle: int)
    requires since <= |actions| && Ready(Run(degree, actions[..since]), generation, cycle)
    requires var states := Run(degree, actions[..since]).procs[generation].states;
             && states != []
             && (forall k :: since <= k < |actions| ==> Quiet(degree, actions, generation, states, cycle, k))
             && TakenBetween(degree, actions, since, |actions|, generation, cycle)
                >= ChunkCount(|states[|states| - 1]|)
    ensures HoldsNewest(Run(degree, actions), generation, Run(degree, actions[..since]).procs[generation].states)
  {
    hide *;
    RunKeeps(degree, actions[..since]);
    var start := Run(degree, actions[..since]);
    ReadyStands(start, generation, cycle);
    var states := start.procs[generation].states;
    RunGathers(degree, actions, since, |actions|, generation, states, cycle);
    assert actions[..|actions|] == actions;
    StandsHoldsNewest(Run(degree, actions), generation, states, cycle,
                      TakenBetween(degree, actions, since, |actions|, generation, cycle));
  }
}
