// What the protocol guarantees in every run.
module QuorumTheorems {
  import opened Common
  import opened QuorumTypes
  import opened QuorumModel
  import opened QuorumSafety
  import opened QuorumWorkerModel
  import opened QuorumHonesty
  import opened QuorumProtocol

  /** Through loss, repetition, reordering, gaps, overflow and restarts, the
      scheduler's copy of a rank is exactly the state its sequence names. */
  lemma HeldIsTheNamedState(degree: nat, actions: seq<Action>, rank: int)
    requires 0 <= rank < degree
    requires RankIn(Run(degree, actions).sched, rank).generation.Some?
    ensures var sys := Run(degree, actions);
            var s := RankIn(sys.sched, rank);
            && s.generation.value in sys.procs
            && s.sequence < |sys.procs[s.generation.value].states|
            && s.held == sys.procs[s.generation.value].states[s.sequence]
  {
    RunKeeps(degree, actions);
    var sys := Run(degree, actions);
    assert FollowsProc(sys.procs, rank, sys.sched.ranks[rank]);
  }

  /** A full quorum means every rank is synchronized and its process did fix an
      inventory with the digest, at the sequence the scheduler is at. */
  lemma FullQuorumIsReal(degree: nat, actions: seq<Action>, d: Digest, rank: int)
    requires 0 <= rank < degree && FullQuorum(Run(degree, actions).sched, d)
    ensures var sys := Run(degree, actions);
            var s := RankIn(sys.sched, rank);
            && d in s.held && !s.desynchronized && !s.requiresCheckpoint && s.pending == map[]
            && s.generation.Some? && s.generation.value in sys.procs
            && s.sequence < |sys.procs[s.generation.value].states|
            && d in sys.procs[s.generation.value].states[s.sequence]
  {
    RunKeeps(degree, actions);
    var sys := Run(degree, actions);
    assert Sound(RankView(sys.sched.ranks[rank], sys.sched.quorum), rank, sys.dropped);
    assert FollowsProc(sys.procs, rank, sys.sched.ranks[rank]);
  }

  /** The table is exact except for digests a load failure removed, and the
      memory kept for a rank's gaps is bounded. */
  lemma TableIsExact(degree: nat, actions: seq<Action>, rank: int, d: Digest)
    requires 0 <= rank < degree
    ensures var sys := Run(degree, actions);
            var s := RankIn(sys.sched, rank);
            && (rank in Confirmed(sys.sched.quorum, d) ==> !s.desynchronized && d in s.held)
            && (d !in sys.dropped ==>
                  (rank in Confirmed(sys.sched.quorum, d) <==> !s.desynchronized && d in s.held))
            && (s.pending != map[] || s.requiresCheckpoint ==> s.desynchronized)
            && |s.pending| <= PENDING_DELTA_LIMIT
  {
    RunKeeps(degree, actions);
    var sys := Run(degree, actions);
    assert Sound(RankView(sys.sched.ranks[rank], sys.sched.quorum), rank, sys.dropped);
  }

  /** Comparing an object and its revision never hides a change: the state a
      report names is the inventory at the moment the report is built. */
  lemma ReportNamesTheInventory(degree: nat, actions: seq<Action>, generation: string)
    requires generation in Run(degree, actions).procs
    ensures var p := Run(degree, actions).procs[generation];
            var (q, m) := SendFrom(p);
            && m.checkpoint.Some? && 0 <= m.checkpoint.value.stateSequence == |q.states| - 1
            && q.states[m.checkpoint.value.stateSequence] == p.worker.values
  {
    RunKeeps(degree, actions);
    var p := Run(degree, actions).procs[generation];
    assert ProcInv(generation, p);
    ObserveKeeps(generation, p);
  }

  // ---- retired generations ----

  /** Every generation the rank has given up for another, oldest first. */
  ghost function Replaced(degree: nat, actions: seq<Action>, rank: int): seq<string> {
    if actions == [] then []
    else
      var before := Run(degree, actions[..|actions| - 1]).sched;
      var after := Run(degree, actions).sched;
      var earlier := Replaced(degree, actions[..|actions| - 1], rank);
      if rank in before.ranks && rank in after.ranks && before.ranks[rank].generation.Some?
         && before.ranks[rank].generation != after.ranks[rank].generation
      then earlier + [before.ranks[rank].generation.value]
      else earlier
  }

  lemma LastRetiredTwice(gens: seq<string>, g: string)
    ensures LastRetired(LastRetired(gens) + [g]) == LastRetired(gens + [g])
  {
    if |gens| > RETIRED_GENERATION_LIMIT {
      var kept := gens[|gens| - RETIRED_GENERATION_LIMIT..];
      assert kept + [g] == (gens + [g])[|gens| - RETIRED_GENERATION_LIMIT..];
    }
  }

  /** Only a delivered report changes which generation a rank follows. */
  lemma AbsorbedGeneration(s: Sched, m: Report, rank: int)
    requires rank in s.ranks
    ensures var t := AbsorbReport(s, m);
            && rank in t.ranks
            && (t.ranks[rank].generation == s.ranks[rank].generation ==> t.ranks[rank].retired == s.ranks[rank].retired)
            && (t.ranks[rank].generation != s.ranks[rank].generation ==>
                  && t.ranks[rank].generation.Some? && t.ranks[rank].generation.value !in s.ranks[rank].retired
                  && t.ranks[rank].retired ==
                       if s.ranks[rank].generation.None? then s.ranks[rank].retired
                       else LastRetired(s.ranks[rank].retired + [s.ranks[rank].generation.value]))
  {
    if DeliverableReport(s, m) && m.rank == rank {
      var v := EnterGeneration(RankView(s.ranks[rank], s.quorum), rank, m.generation, m.epoch);
      BodyKeepsProcess(v, m);
    }
  }

  lemma BodyKeepsProcess(v: RankView, m: Report)
    ensures SameProcess(v.state, AbsorbBody(v, m).state)
  {
    var w := if m.delta.Some? then AbsorbDelta(v, m.rank, m.delta.value) else v;
    if m.delta.Some? {
      DeltaKeepsProcess(v, m.rank, m.delta.value);
    }
    if m.checkpoint.Some? {
      CheckpointKeepsProcess(w, m.rank, m.checkpoint.value);
    }
  }

  lemma {:induction false} ReadyKeepsProcess(v: RankView, rank: int)
    ensures SameProcess(v.state, ApplyReady(v, rank).state)
    decreases |v.state.pending|
  {
    var next := v.state.sequence + 1;
    if next in v.state.pending && v.state.pending[next].baseSequence == v.state.sequence {
      var rest := v.state.pending - {next};
      assert rest.Keys == v.state.pending.Keys - {next};
      var applied := ApplyChange(v.(state := v.state.(pending := rest)), rank, v.state.pending[next]);
      ReadyKeepsProcess(applied.(state := applied.state.(sequence := next)), rank);
    }
  }

  lemma DrainKeepsProcess(v: RankView, rank: int)
    ensures SameProcess(v.state, Drain(v, rank).state)
  {
    ReadyKeepsProcess(v, rank);
  }

  lemma AdmitKeepsProcess(v: RankView, rank: int, c: Change)
    ensures SameProcess(v.state, Admit(v, rank, c).state)
  {
    var w := v.(state := v.state.(pending := v.state.pending[c.sequence := c]));
    DrainKeepsProcess(if c.baseSequence != v.state.sequence then MarkDesynchronized(w, rank) else w, rank);
  }

  lemma DeltaKeepsProcess(v: RankView, rank: int, d: Delta)
    ensures SameProcess(v.state, AbsorbDelta(v, rank, d).state)
  {
    hide Admit, WellFormedDelta;
    if WellFormedDelta(d) && d.sequence > v.state.sequence {
      AdmitKeepsProcess(v, rank, Normalize(d));
      if v.state.pending != map[] {
        var w := DemandCheckpoint(v, rank);
        var last := MaxOf(v.state.pending.Keys);
        AdmitKeepsProcess(w.(state := w.state.(pending := w.state.pending - {last})), rank, Normalize(d));
      }
    }
  }

  lemma AddChunkKeepsProcess(v: RankView, rank: int, a: ActiveCheckpoint, index: nat, chunk: seq<Digest>)
    ensures SameProcess(v.state, AddChunk(v, rank, a, index, chunk).state)
  {
    var b := a.(chunks := a.chunks[index := chunk]);
    var w := v.(state := v.state.(checkpoint := Some(b)));
    var s := w.state;
    var kept := map k | k in s.pending && k > a.stateSequence :: s.pending[k];
    var t := s.(desynchronized := true, held := Assembled(b), sequence := a.stateSequence, pending := kept,
                requiresCheckpoint := false, checkpoint := None);
    DrainKeepsProcess(RankView(t, Withdraw(v.quorum, rank)), rank);
  }

  lemma CheckpointKeepsProcess(v: RankView, rank: int, c: Checkpoint)
    ensures SameProcess(v.state, AbsorbCheckpoint(v, rank, c).state)
  {
    hide AddChunk;
    if WellFormedCheckpoint(c) {
      var w := if c.stateSequence > v.state.sequence then MarkDesynchronized(v, rank) else v;
      AddChunkKeepsProcess(
        w.(state := w.state.(checkpoint := Some(Begun(c)))), rank, Begun(c), c.index, Unwire(c.held));
      if w.state.checkpoint.Some? {
        AddChunkKeepsProcess(w, rank, w.state.checkpoint.value, c.index, Unwire(c.held));
      }
    }
  }

  /** The scheduler remembers exactly the newest replaced generations. */
  lemma {:induction false} RetiredAreTheNewestReplaced(degree: nat, actions: seq<Action>, rank: int)
    requires 0 <= rank < degree
    ensures var sched := Run(degree, actions).sched;
            && rank in sched.ranks
            && sched.ranks[rank].retired == LastRetired(Replaced(degree, actions, rank))
            && (sched.ranks[rank].generation.Some? ==>
                  sched.ranks[rank].generation.value !in sched.ranks[rank].retired)
  {
    if actions == [] {
      assert NewSched(degree).ranks[rank] == UnheardRank(rank);
    } else {
      var earlier := actions[..|actions| - 1];
      RetiredAreTheNewestReplaced(degree, earlier, rank);
      var sys := Run(degree, earlier);
      var a := actions[|actions| - 1];
      if a.Deliver? && a.report in sys.sent {
        AbsorbedGeneration(sys.sched, a.report, rank);
        if sys.sched.ranks[rank].generation.Some? {
          LastRetiredTwice(Replaced(degree, earlier, rank), sys.sched.ranks[rank].generation.value);
        }
      } else {
        assert Step(sys, a).sched.ranks == sys.sched.ranks;
      }
    }
  }

  /** A replaced generation among the newest sixty-four never speaks for its rank again. */
  lemma RetiredReportsAreInert(degree: nat, actions: seq<Action>, m: Report)
    requires 0 <= m.rank < degree
    requires m.generation in LastRetired(Replaced(degree, actions, m.rank))
    ensures AbsorbReport(Run(degree, actions).sched, m) == Run(degree, actions).sched
  {
    RetiredAreTheNewestReplaced(degree, actions, m.rank);
  }

  // ---- recovery ----

  /** The worker reports and the report arrives at once. */
  ghost function Exchange(sys: System, generation: string): System
    requires generation in sys.procs
  {
    Step(Step(sys, SendReport(generation)), Deliver(SendFrom(sys.procs[generation]).1))
  }

  ghost function Exchanges(sys: System, generation: string, n: nat): System {
    if n == 0 then sys
    else
      var t := Exchanges(sys, generation, n - 1);
      if generation in t.procs then Exchange(t, generation) else t
  }

  /** The scheduler will listen to this process. */
  ghost predicate Heard(sys: System, generation: string) {
    && Inv(sys)
    && generation in sys.procs
    && var w := sys.procs[generation].worker;
       && w.rank in sys.sched.ranks
       && AcceptsGeneration(sys.sched.ranks[w.rank], generation, Some(w.epoch))
  }

  ghost predicate Following(sys: System, generation: string) {
    && Heard(sys, generation)
    && sys.sched.ranks[sys.procs[generation].worker.rank].generation == Some(generation)
  }

  /** Nothing is waiting to be observed. */
  predicate Observed(w: WorkerState) {
    w.sameObject && w.observedRevision == w.revision
  }

  ghost function RankOf(sys: System, generation: string): RankState
    requires Heard(sys, generation)
  {
    sys.sched.ranks[sys.procs[generation].worker.rank]
  }

  /** Sending changes only the process and the reports in flight. */
  lemma SendPart(sys: System, generation: string)
    requires Heard(sys, generation)
    ensures var mid := Step(sys, SendReport(generation));
            var o := ObserveProc(sys.procs[generation]);
            && Heard(mid, generation) && mid.sched == sys.sched && mid.dropped == sys.dropped
            && mid.procs[generation] == Proc(AdvanceDelta(AdvanceCheckpoint(o.worker)), o.states)
            && ReportOf(o.worker) in mid.sent
  {
    hide Observe, HonestRank, SchedSound;
    SendStepKeeps(sys, generation);
    assert Inv(Step(sys, SendReport(generation)));
    ObserveKeepsIdentity(sys.procs[generation].worker);
  }

  lemma HeardIsDeliverable(sys: System, generation: string)
    requires Heard(sys, generation)
    ensures DeliverableReport(sys.sched, ReportOf(ObserveProc(sys.procs[generation]).worker))
    ensures sys.procs[generation].worker.generation == generation
  {
    hide HonestRank, HonestReport;
    var p := sys.procs[generation];
    assert ProcInv(generation, p);
    ObserveKeepsIdentity(p.worker);
  }

  lemma ObserveKeepsIdentity(w: WorkerState)
    ensures Observe(w).rank == w.rank && Observe(w).epoch == w.epoch && Observe(w).generation == w.generation
  {
  }

  /** One exchange: the process is observed and the next chunk is absorbed. */
  lemma ExchangeStep(sys: System, generation: string) returns (v: RankView)
    requires Heard(sys, generation)
    ensures Following(Exchange(sys, generation), generation)
    ensures var o := ObserveProc(sys.procs[generation]);
            var t := Exchange(sys, generation);
            && t.procs[generation] == Proc(AdvanceDelta(AdvanceCheckpoint(o.worker)), o.states)
            && t.dropped == sys.dropped
            && (Following(sys, generation) ==> v.state == RankOf(sys, generation))
            && HonestRank(o.states, v.state, o.worker.checkpointSequence, o.worker.cycle)
            && RankOf(t, generation) == AbsorbBody(v, ReportOf(o.worker)).state
  {
    hide Observe, HonestRank, SchedSound, ProcInv, HonestReport, AbsorbBody;
    var p := sys.procs[generation];
    var m := ReportOf(ObserveProc(p).worker);
    SendPart(sys, generation);
    ObserveKeepsIdentity(p.worker);
    HeardIsDeliverable(sys, generation);
    var mid := Step(sys, SendReport(generation));
    DeliverKeeps(mid, m);
    DeliveredRank(mid, m);
    var t := Exchange(sys, generation);
    assert t == mid.(sched := AbsorbReport(mid.sched, m));
    var r := p.worker.rank;
    v := EnterGeneration(RankView(sys.sched.ranks[r], sys.sched.quorum), r, generation, Some(p.worker.epoch));
    assert t.sched.ranks[r] == AbsorbBody(v, m).state;
    assert FollowsProc(t.procs, r, t.sched.ranks[r]);
    EnteredHonest(sys, generation);
  }

  lemma EnteredHonest(sys: System, generation: string)
    requires Heard(sys, generation)
    ensures var p := sys.procs[generation];
            var o := ObserveProc(p);
            var r := p.worker.rank;
            var v := EnterGeneration(RankView(sys.sched.ranks[r], sys.sched.quorum), r, generation, Some(p.worker.epoch));
            HonestRank(o.states, v.state, o.worker.checkpointSequence, o.worker.cycle)
  {
    var p := sys.procs[generation];
    assert ProcInv(generation, p);
    ObserveKeeps(generation, p);
    assert FollowsProc(sys.procs, p.worker.rank, sys.sched.ranks[p.worker.rank]);
    if sys.sched.ranks[p.worker.rank].generation == Some(generation) {
      RankExtends(p, ObserveProc(p), sys.sched.ranks[p.worker.rank]);
    }
  }

  // ---- the cycle fills up ----

  /** The rank has what it needs to finish the cycle the worker is in. */
  ghost predicate OnTrack(sys: System, generation: string)
    requires Heard(sys, generation)
  {
    var p := sys.procs[generation];
    || Newest(p.states, RankOf(sys, generation))
    || p.worker.index == 0
    || Collected(p.states, RankOf(sys, generation), p.worker.cycle, p.worker.index)
  }

  lemma ProgressStep(sys: System, generation: string)
    requires Following(sys, generation) && Observed(sys.procs[generation].worker)
    ensures Following(Exchange(sys, generation), generation)
    ensures var t := Exchange(sys, generation);
            var p, q := sys.procs[generation], t.procs[generation];
            && Observed(q.worker) && q.states == p.states && t.dropped == sys.dropped
            && q.worker.values == p.worker.values && q.worker.items == p.worker.items && q.worker.rank == p.worker.rank
            && q.worker.index == (if p.worker.index + 1 < ChunkCount(|p.worker.items|) then p.worker.index + 1 else 0)
            && (OnTrack(sys, generation) ==> OnTrack(t, generation))
            && (OnTrack(sys, generation) && q.worker.index == 0 ==> Newest(q.states, RankOf(t, generation)))
            && (Newest(p.states, RankOf(sys, generation)) ==> Newest(q.states, RankOf(t, generation)))
  {
    assert Heard(sys, generation);
    hide *;
    var p := sys.procs[generation];
    HeardProc(sys, generation);
    ObservedIsFixed(p);
    var v := ExchangeStep(sys, generation);
    FollowingIsHeard(Exchange(sys, generation), generation);
    AbsorbObserved(p, generation, v);
    AdvanceObserved(p.worker);
    TrackKept(sys, generation, Exchange(sys, generation), v);
  }

  lemma FollowingIsHeard(sys: System, generation: string)
    requires Following(sys, generation)
    ensures Heard(sys, generation)
  {
  }

  lemma TrackKept(sys: System, generation: string, t: System, v: RankView)
    requires Heard(sys, generation) && Heard(t, generation)
    requires v.state == RankOf(sys, generation)
    requires var w, u := sys.procs[generation].worker, t.procs[generation].worker;
             var s, s' := RankOf(sys, generation), RankOf(t, generation);
             var states := sys.procs[generation].states;
             && t.procs[generation].states == states
             && u.index == (if w.index + 1 < ChunkCount(|w.items|) then w.index + 1 else 0)
             && (u.index != 0 ==> u.cycle == w.cycle)
             && (Newest(states, s) || w.index == 0 || Collected(states, s, w.cycle, w.index) ==>
                   Newest(states, s')
                   || (w.index + 1 < ChunkCount(|w.items|) && Collected(states, s', w.cycle, w.index + 1)))
    ensures OnTrack(sys, generation) ==> OnTrack(t, generation)
    ensures OnTrack(sys, generation) && t.procs[generation].worker.index == 0 ==>
              Newest(t.procs[generation].states, RankOf(t, generation))
  {
    hide Inv, AcceptsGeneration, RankOf, ChunkCount, Newest, Collected;
    assert sys.procs[generation].worker.index >= 0;
  }

  lemma HeardProc(sys: System, generation: string)
    requires Heard(sys, generation)
    ensures ProcInv(generation, sys.procs[generation])
    ensures sys.procs[generation].worker.index < ChunkCount(|sys.procs[generation].worker.items|)
  {
  }

  lemma ObservedIsFixed(p: Proc)
    requires Observed(p.worker)
    ensures ObserveProc(p) == p
  {
  }

  lemma AdvanceObserved(w: WorkerState)
    ensures var u := AdvanceDelta(AdvanceCheckpoint(w));
            && (Observed(w) ==> Observed(u)) && u.values == w.values && u.items == w.items && u.rank == w.rank
            && u.index == (if w.index + 1 < ChunkCount(|w.items|) then w.index + 1 else 0)
            && (u.index != 0 ==> u.cycle == w.cycle)
  {
    hide ChunkCount;
  }

  lemma AbsorbObserved(p: Proc, generation: string, v: RankView)
    requires ProcInv(generation, p)
    requires HonestRank(p.states, v.state, p.worker.checkpointSequence, p.worker.cycle)
    ensures var t := AbsorbBody(v, ReportOf(p.worker)).state;
            var w := p.worker;
            && (Newest(p.states, v.state) || w.index == 0 || Collected(p.states, v.state, w.cycle, w.index) ==>
                  || Newest(p.states, t)
                  || (w.index + 1 < ChunkCount(|w.items|) && Collected(p.states, t, w.cycle, w.index + 1)))
            && (Newest(p.states, v.state) ==> Newest(p.states, t))
  {
    var w := p.worker;
    var m := ReportOf(w);
    var key, cycle := w.checkpointSequence, w.cycle;
    SendObservedKeeps(generation, p);
    if m.delta.Some? {
      AbsorbDeltaStaysHonest(p.states, v, w.rank, m.delta.value, key, cycle);
    }
    var u := if m.delta.Some? then AbsorbDelta(v, w.rank, m.delta.value) else v;
    assert Newest(p.states, v.state) ==> u == v;
    AbsorbCheckpointStaysHonest(p.states, u, w.rank, m.checkpoint.value, key, cycle);
  }

  /** Once there, the rank stays at the newest state. */
  lemma {:induction false} StaysNewest(sys: System, generation: string, n: nat)
    requires Following(sys, generation) && Observed(sys.procs[generation].worker)
    requires Newest(sys.procs[generation].states, RankOf(sys, generation))
    ensures var t := Exchanges(sys, generation, n);
            && Following(t, generation) && Observed(t.procs[generation].worker)
            && t.procs[generation].states == sys.procs[generation].states
            && Newest(t.procs[generation].states, RankOf(t, generation))
            && t.procs[generation].worker.values == sys.procs[generation].worker.values
            && t.procs[generation].worker.rank == sys.procs[generation].worker.rank
            && t.dropped == sys.dropped
  {
    hide Inv, AcceptsGeneration, Exchange;
    if n > 0 {
      StaysNewest(sys, generation, n - 1);
      ProgressStep(Exchanges(sys, generation, n - 1), generation);
    }
  }

  lemma {:induction false} ExchangesCompose(sys: System, generation: string, m: nat, n: nat)
    ensures Exchanges(Exchanges(sys, generation, m), generation, n) == Exchanges(sys, generation, m + n)
  {
    hide Exchange;
    if n > 0 {
      ExchangesCompose(sys, generation, m, n - 1);
    }
  }

  /** From wherever the worker is in its cycle, at most one more whole cycle is needed. */
  lemma {:induction false} CycleCompletes(sys: System, generation: string, n: nat)
    requires Following(sys, generation) && Observed(sys.procs[generation].worker)
    requires var w := sys.procs[generation].worker;
             var count := ChunkCount(|w.items|);
             n >= (if OnTrack(sys, generation) then count - w.index else 2 * count - w.index)
    ensures var t := Exchanges(sys, generation, n);
            && Following(t, generation) && Observed(t.procs[generation].worker)
            && t.procs[generation].states == sys.procs[generation].states
            && Newest(t.procs[generation].states, RankOf(t, generation))
            && t.procs[generation].worker.values == sys.procs[generation].worker.values
            && t.procs[generation].worker.rank == sys.procs[generation].worker.rank
            && t.dropped == sys.dropped
    decreases n
  {
    hide AcceptsGeneration, Exchange, Inv, Newest, Collected, ProcInv, ChunkCount, Observed;
    HeardProc(sys, generation);
    var t := Exchange(sys, generation);
    ProgressStep(sys, generation);
    OneExchange(sys, generation);
    ExchangesCompose(sys, generation, 1, n - 1);
    if Newest(t.procs[generation].states, RankOf(t, generation)) {
      StaysNewest(t, generation, n - 1);
    } else {
      CycleCompletes(t, generation, n - 1);
    }
  }

  lemma OneExchange(sys: System, generation: string)
    requires generation in sys.procs
    ensures Exchanges(sys, generation, 1) == Exchange(sys, generation)
  {
    hide Exchange;
    assert Exchanges(sys, generation, 0) == sys;
  }

  lemma FirstExchange(generation: string, p: Proc)
    requires ProcInv(generation, p)
    ensures var w := AdvanceDelta(AdvanceCheckpoint(ObserveProc(p).worker));
            && Observed(w) && |w.items| == |p.worker.values| && w.values == p.worker.values && w.rank == p.worker.rank
            && w.index < ChunkCount(|w.items|)
            && (w.index <= 1 || w.index == p.worker.index + 1)
  {
    ObserveKeeps(generation, p);
    var o := ObserveProc(p).worker;
    assert o.items == Sorted(o.observedHeld);
    ObserveKeepsIdentity(p.worker);
    AdvanceObserved(o);
  }

  lemma RecoveredTable(t: System, generation: string)
    requires Following(t, generation) && Observed(t.procs[generation].worker)
    requires Newest(t.procs[generation].states, RankOf(t, generation))
    ensures var w := t.procs[generation].worker;
            var s := RankOf(t, generation);
            && s.held == w.values && s.pending == map[]
            && forall d :: d !in t.dropped ==> (w.rank in Confirmed(t.sched.quorum, d) <==> d in w.values)
  {
    hide HonestReport, AcceptsGeneration, HonestRank, Sound, ProcInv;
    var p := t.procs[generation];
    var s := RankOf(t, generation);
    assert ProcInv(generation, p);
    assert FollowsProc(t.procs, p.worker.rank, s);
    assert Sound(RankView(s, t.sched.quorum), p.worker.rank, t.dropped);
    NewestTable(generation, p, RankView(s, t.sched.quorum), t.dropped);
  }

  lemma NewestTable(generation: string, p: Proc, v: RankView, dropped: set<Digest>)
    requires ProcInv(generation, p) && Observed(p.worker) && Newest(p.states, v.state)
    requires HonestRank(p.states, v.state, p.worker.checkpointSequence, p.worker.cycle)
    requires Sound(v, p.worker.rank, dropped)
    ensures v.state.held == p.worker.values && v.state.pending == map[]
    ensures forall d :: d !in dropped ==> (p.worker.rank in Confirmed(v.quorum, d) <==> d in p.worker.values)
  {
  }

  /** Recovery. From any reachable state, however many reports were lost and
      whatever overflowed, two checkpoint cycles of reports delivered as they
      are sent leave the rank synchronized with the worker's inventory, and
      confirming all of it but what load failures removed. */
  lemma Recovery(degree: nat, actions: seq<Action>, generation: string, n: nat)
    requires generation in Run(degree, actions).procs
    requires var sys := Run(degree, actions);
             var w := sys.procs[generation].worker;
             && 0 <= w.rank < degree
             && AcceptsGeneration(RankIn(sys.sched, w.rank), generation, Some(w.epoch))
             && n >= 2 * ChunkCount(|w.values|)
    ensures var sys := Run(degree, actions);
            var w := sys.procs[generation].worker;
            var t := Exchanges(sys, generation, n);
            var s := RankIn(t.sched, w.rank);
            && s.generation == Some(generation) && s.held == w.values
            && !s.desynchronized && !s.requiresCheckpoint && s.pending == map[]
            && forall d :: d !in sys.dropped ==> (w.rank in Confirmed(t.sched.quorum, d) <==> d in w.values)
  {
    hide Exchange, Inv, Run, AcceptsGeneration, ProcInv, ChunkCount, Observed, ObserveProc,
         AdvanceDelta, AdvanceCheckpoint, AbsorbBody, HonestRank, Confirmed;
    RunKeeps(degree, actions);
    var sys := Run(degree, actions);
    var p := sys.procs[generation];
    ReachableHeard(sys, generation);
    FirstExchange(generation, p);
    var _ := ExchangeStep(sys, generation);
    OneExchange(sys, generation);
    ExchangesCompose(sys, generation, 1, n - 1);
    CycleCompletes(Exchange(sys, generation), generation, n - 1);
    RecoveredTable(Exchanges(sys, generation, n), generation);
  }

  lemma ReachableHeard(sys: System, generation: string)
    requires Inv(sys) && generation in sys.procs
    requires var w := sys.procs[generation].worker;
             0 <= w.rank < sys.sched.degree && AcceptsGeneration(RankIn(sys.sched, w.rank), generation, Some(w.epoch))
    ensures Heard(sys, generation) && ProcInv(generation, sys.procs[generation])
  {
  }
}
