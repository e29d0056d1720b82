// Workers, the reports in flight and the scheduler as one system. A report may
// be delivered any number of times, in any order, or never.
module QuorumProtocol {
  import opened Common
  import opened QuorumTypes
  import opened QuorumModel
  import opened QuorumSafety
  import opened QuorumWorkerModel
  import opened QuorumHonesty

  /** A worker process and the inventories it has fixed so far, oldest first. */
  datatype Proc = Proc(worker: WorkerState, states: States)

  datatype System = System(
    procs: map<string, Proc>, sent: set<Report>, sched: Sched, dropped: set<Digest>)

  datatype Action =
    | StartProcess(rank: int, generation: string, epoch: nat, values: set<Digest>)
    | ChangeInventory(generation: string, values: set<Digest>)
    | ReplaceInventory(generation: string, values: set<Digest>)
    | SendReport(generation: string)
    | Deliver(report: Report)
    | LoadFailure(digest: Digest)

  function NewSystem(degree: nat): System {
    System(map[], {}, NewSched(degree), {})
  }

  function ObserveProc(p: Proc): Proc {
    var u := Observe(p.worker);
    Proc(u, if u.sequence > p.worker.sequence then p.states + [u.observedHeld] else p.states)
  }

  function SendFrom(p: Proc): (Proc, Report) {
    var o := ObserveProc(p);
    (Proc(BuildReport(p.worker).0, o.states), BuildReport(p.worker).1)
  }

  ghost function Step(sys: System, a: Action): System {
    match a
    case StartProcess(rank, generation, epoch, values) =>
      if generation in sys.procs || generation == "" || generation == MISSING_GENERATION then sys
      else sys.(procs := sys.procs[generation := Proc(NewWorker(rank, generation, epoch, values), [{}])])
    case ChangeInventory(generation, values) =>
      if generation !in sys.procs then sys
      else
        var p := sys.procs[generation];
        sys.(procs := sys.procs[generation := p.(worker := Mutate(p.worker, values))])
    case ReplaceInventory(generation, values) =>
      if generation !in sys.procs then sys
      else
        var p := sys.procs[generation];
        sys.(procs := sys.procs[generation := p.(worker := Replace(p.worker, values))])
    case SendReport(generation) =>
      if generation !in sys.procs then sys
      else
        var (p, m) := SendFrom(sys.procs[generation]);
        sys.(procs := sys.procs[generation := p], sent := sys.sent + {m})
    case Deliver(m) =>
      if m !in sys.sent then sys else sys.(sched := AbsorbReport(sys.sched, m))
    case LoadFailure(d) =>
      sys.(sched := sys.sched.(quorum := DropDigest(sys.sched.quorum, d)), dropped := sys.dropped + {d})
  }

  ghost function Run(degree: nat, actions: seq<Action>): System {
    if actions == [] then NewSystem(degree)
    else Step(Run(degree, actions[..|actions| - 1]), actions[|actions| - 1])
  }

  // ---- what a worker process keeps ----

  ghost predicate ProcInv(generation: string, p: Proc) {
    var w := p.worker;
    && w.generation == generation && generation != "" && generation != MISSING_GENERATION
    && |p.states| == w.sequence + 1
    && p.states[0] == {}
    && p.states[w.sequence] == w.observedHeld
    && w.items == Sorted(w.observedHeld)
    && w.checkpointSequence == w.sequence
    && w.cycle >= 1
    && w.index < ChunkCount(|w.items|)
    && |w.history| <= DELTA_HISTORY_SIZE
    && (forall d :: d in w.history ==> HonestDelta(p.states, d))
    // The revision shortcut: an unmoved revision of the same object means unmoved contents.
    && (w.sameObject ==> w.observedRevision <= w.revision)
    && (w.sameObject && w.observedRevision == w.revision ==> w.values == w.observedHeld)
  }

  /** A sent report describes states its process had already fixed. */
  ghost predicate HonestReport(procs: map<string, Proc>, m: Report) {
    && m.generation in procs
    && var p := procs[m.generation];
       && m.rank == p.worker.rank && m.epoch == Some(p.worker.epoch)
       && (m.delta.Some? ==> HonestDelta(p.states, m.delta.value))
       && m.checkpoint.Some? && HonestCheckpoint(p.states, m.checkpoint.value)
       && KeyAtMost(m.checkpoint.value.stateSequence, m.checkpoint.value.cycle,
                    p.worker.checkpointSequence, p.worker.cycle)
  }

  ghost predicate FollowsProc(procs: map<string, Proc>, rank: int, s: RankState) {
    if s.generation.None? then s.held == {}
    else
      && s.generation.value in procs
      && var p := procs[s.generation.value];
         && p.worker.rank == rank && s.epoch == Some(p.worker.epoch)
         && HonestRank(p.states, s, p.worker.checkpointSequence, p.worker.cycle)
  }

  ghost predicate Inv(sys: System) {
    && (forall g :: g in sys.procs ==> ProcInv(g, sys.procs[g]))
    && (forall m :: m in sys.sent ==> HonestReport(sys.procs, m))
    && SchedSound(sys.sched, sys.dropped)
    && (forall r :: r in sys.sched.ranks ==> FollowsProc(sys.procs, r, sys.sched.ranks[r]))
  }

  /** `p` may become `q`: states are only ever appended and keys only grow. */
  ghost predicate Extends(p: Proc, q: Proc) {
    && p.states <= q.states
    && p.worker.rank == q.worker.rank && p.worker.epoch == q.worker.epoch
    && KeyAtMost(p.worker.checkpointSequence, p.worker.cycle, q.worker.checkpointSequence, q.worker.cycle)
  }

  lemma HonestyExtends(p: Proc, q: Proc, m: Report, procs: map<string, Proc>)
    requires HonestReport(procs, m) && procs[m.generation] == p && Extends(p, q)
    ensures HonestReport(procs[m.generation := q], m)
  {
  }

  lemma RankExtends(p: Proc, q: Proc, s: RankState)
    requires Extends(p, q)
    requires HonestRank(p.states, s, p.worker.checkpointSequence, p.worker.cycle)
    ensures HonestRank(q.states, s, q.worker.checkpointSequence, q.worker.cycle)
  {
    forall k | k in s.pending
      ensures 1 <= k < |q.states| && s.pending[k] == ChangeTo(q.states, k)
    {
      assert s.pending[k] == ChangeTo(p.states, k);
    }
  }

  lemma HonestElsewhere(procs: map<string, Proc>, m: Report, generation: string, q: Proc)
    requires HonestReport(procs, m) && m.generation != generation
    ensures HonestReport(procs[generation := q], m)
  {
    hide HonestDelta, HonestCheckpoint, KeyAtMost;
  }

  lemma FollowsExtends(procs: map<string, Proc>, rank: int, s: RankState, generation: string, q: Proc)
    requires FollowsProc(procs, rank, s) && generation in procs && Extends(procs[generation], q)
    ensures FollowsProc(procs[generation := q], rank, s)
  {
    hide HonestRank;
    if s.generation == Some(generation) {
      RankExtends(procs[generation], q, s);
    }
  }

  lemma UpdateProc(sys: System, generation: string, q: Proc)
    requires Inv(sys) && generation in sys.procs && Extends(sys.procs[generation], q) && ProcInv(generation, q)
    ensures Inv(sys.(procs := sys.procs[generation := q]))
  {
    hide ProcInv, HonestReport, FollowsProc, SchedSound, Extends;
    var procs := sys.procs[generation := q];
    forall m | m in sys.sent
      ensures HonestReport(procs, m)
    {
      if m.generation == generation {
        HonestyExtends(sys.procs[generation], q, m, sys.procs);
      } else {
        HonestElsewhere(sys.procs, m, generation, q);
      }
    }
    forall r | r in sys.sched.ranks
      ensures FollowsProc(procs, r, sys.sched.ranks[r])
    {
      FollowsExtends(sys.procs, r, sys.sched.ranks[r], generation, q);
    }
  }

  lemma RecordedHonest(p: Proc, states: States, d: Delta)
    requires p.states <= states && HonestDelta(states, d)
    requires |p.worker.history| <= DELTA_HISTORY_SIZE
    requires forall e :: e in p.worker.history ==> HonestDelta(p.states, e)
    ensures forall e :: e in RecordDelta(p.worker, d).history ==> HonestDelta(states, e)
    ensures |RecordDelta(p.worker, d).history| <= DELTA_HISTORY_SIZE
  {
    forall e | e in p.worker.history
      ensures HonestDelta(states, e)
    {
      assert HonestDelta(p.states, e);
    }
  }

  /** The revision shortcut makes observing twice the same as observing once. */
  lemma ObserveTwice(w: WorkerState)
    ensures Observe(Observe(w)) == Observe(w)
  {
    hide FixState;
    FixedRevision(w);
  }

  lemma FixedRevision(w: WorkerState)
    ensures FixState(w).revision == w.revision && FixState(w).sequence == w.sequence + 1
    ensures FixState(w).values == w.values == FixState(w).observedHeld
  {
    hide DeltaBetween, Sorted;
  }

  lemma ObserveKeeps(generation: string, p: Proc)
    requires ProcInv(generation, p)
    ensures ProcInv(generation, ObserveProc(p)) && Extends(p, ObserveProc(p))
    ensures ObserveProc(p).worker.observedHeld == p.worker.values
    ensures ObserveProc(ObserveProc(p)) == ObserveProc(p)
  {
    hide Sorted, Wire, ChunkCount, HonestDelta, RecordDelta, DeltaBetween;
    ObserveTwice(p.worker);
    FixedRevision(p.worker);
    var w := p.worker;
    if !(w.sameObject && w.observedRevision == w.revision) && w.values != w.observedHeld {
      FixStateKeeps(generation, p);
    }
  }

  /** Fixing a new state keeps every recorded delta true of the longer list of states. */
  lemma FixStateKeeps(generation: string, p: Proc)
    requires ProcInv(generation, p) && p.worker.values != p.worker.observedHeld
    ensures var states := p.states + [p.worker.values];
            var w := RecordDelta(p.worker, DeltaBetween(p.worker.sequence, p.worker.observedHeld, p.worker.values));
            && (forall e :: e in w.history ==> HonestDelta(states, e))
            && |w.history| <= DELTA_HISTORY_SIZE
            && w == p.worker.(history := w.history, cursor := w.cursor)
  {
    hide Sorted, Wire;
    var w := p.worker;
    var d := DeltaBetween(w.sequence, w.observedHeld, w.values);
    var states := p.states + [w.values];
    if |d.added| + |d.removed| <= REPORT_BATCH_SIZE {
      RecordedHonest(p, states, d);
    } else {
      forall e | e in w.history
        ensures HonestDelta(states, e)
      {
        assert HonestDelta(p.states, e);
      }
    }
  }

  lemma SendKeeps(generation: string, p: Proc)
    requires ProcInv(generation, p)
    ensures var (q, m) := SendFrom(p);
            && ProcInv(generation, q) && Extends(p, q) && Extends(ObserveProc(p), q)
            && HonestReport(map[generation := q], m) && m.generation == generation
  {
    ObserveKeeps(generation, p);
    SendObservedKeeps(generation, ObserveProc(p));
  }

  lemma SendObservedKeeps(generation: string, o: Proc)
    requires ProcInv(generation, o)
    ensures var q := Proc(AdvanceDelta(AdvanceCheckpoint(o.worker)), o.states);
            var m := ReportOf(o.worker);
            && ProcInv(generation, q) && Extends(o, q)
            && HonestReport(map[generation := q], m) && m.generation == generation
  {
    hide Sorted, Wire, Chunk, ChunkCount;
    if o.worker.history != [] {
      assert o.worker.history[o.worker.cursor % |o.worker.history|] in o.worker.history;
    }
  }

  lemma DeliverKeeps(sys: System, m: Report)
    requires Inv(sys) && m in sys.sent
    ensures Inv(sys.(sched := AbsorbReport(sys.sched, m)))
  {
    AbsorbReportKeeps(sys.sched, m, sys.dropped);
    if DeliverableReport(sys.sched, m) {
      DeliveredRank(sys, m);
    }
  }

  /** One delivered report moves its rank to another honest position of its process. */
  lemma DeliveredRank(sys: System, m: Report)
    requires Inv(sys) && m in sys.sent && DeliverableReport(sys.sched, m)
    ensures var t := AbsorbReport(sys.sched, m).ranks[m.rank];
            t.generation == Some(m.generation) && FollowsProc(sys.procs, m.rank, t)
  {
    var p := sys.procs[m.generation];
    var key, cycle := p.worker.checkpointSequence, p.worker.cycle;
    var v := EnterGeneration(RankView(sys.sched.ranks[m.rank], sys.sched.quorum), m.rank, m.generation, m.epoch);
    assert ProcInv(m.generation, p);
    assert HonestRank(p.states, v.state, key, cycle);
    if m.delta.Some? {
      AbsorbDeltaStaysHonest(p.states, v, m.rank, m.delta.value, key, cycle);
    }
    var w := if m.delta.Some? then AbsorbDelta(v, m.rank, m.delta.value) else v;
    AbsorbCheckpointStaysHonest(p.states, w, m.rank, m.checkpoint.value, key, cycle);
  }

  lemma SingleStart(rank: int, generation: string, epoch: nat, values: set<Digest>)
    requires generation != "" && generation != MISSING_GENERATION
    ensures ProcInv(generation, Proc(NewWorker(rank, generation, epoch, values), [{}]))
  {
    assert Sorted({}) == [];
  }

  lemma StartKeeps(sys: System, rank: int, generation: string, epoch: nat, values: set<Digest>)
    requires Inv(sys) && generation !in sys.procs && generation != "" && generation != MISSING_GENERATION
    ensures Inv(Step(sys, StartProcess(rank, generation, epoch, values)))
  {
    hide SchedSound, HonestRank, HonestDelta, HonestCheckpoint;
    var p := Proc(NewWorker(rank, generation, epoch, values), [{}]);
    SingleStart(rank, generation, epoch, values);
    var t := Step(sys, StartProcess(rank, generation, epoch, values));
    forall m | m in t.sent
      ensures HonestReport(t.procs, m)
    {
      assert HonestReport(sys.procs, m);
    }
    forall r | r in t.sched.ranks
      ensures FollowsProc(t.procs, r, t.sched.ranks[r])
    {
      assert FollowsProc(sys.procs, r, sys.sched.ranks[r]);
    }
  }

  lemma StepKeeps(sys: System, a: Action)
    requires Inv(sys)
    ensures Inv(Step(sys, a))
  {
    match a
    case StartProcess(rank, generation, epoch, values) =>
      if generation !in sys.procs && generation != "" && generation != MISSING_GENERATION {
        StartKeeps(sys, rank, generation, epoch, values);
      }
    case ChangeInventory(generation, values) =>
      if generation in sys.procs {
        ChangeKeeps(sys, generation, sys.procs[generation].(worker := Mutate(sys.procs[generation].worker, values)));
      }
    case ReplaceInventory(generation, values) =>
      if generation in sys.procs {
        ChangeKeeps(sys, generation, sys.procs[generation].(worker := Replace(sys.procs[generation].worker, values)));
      }
    case SendReport(generation) =>
      if generation in sys.procs {
        SendStepKeeps(sys, generation);
      }
    case Deliver(m) =>
      if m in sys.sent {
        DeliverKeeps(sys, m);
      }
    case LoadFailure(d) =>
      hide SchedSound;
      DropKeeps(sys.sched, d, sys.dropped);
  }

  lemma ChangeKeeps(sys: System, generation: string, q: Proc)
    requires Inv(sys) && generation in sys.procs
    requires exists values ::
      || q == sys.procs[generation].(worker := Mutate(sys.procs[generation].worker, values))
      || q == sys.procs[generation].(worker := Replace(sys.procs[generation].worker, values))
    ensures Inv(sys.(procs := sys.procs[generation := q]))
  {
    hide SchedSound, HonestDelta, Sorted, ChunkCount;
    assert ProcInv(generation, sys.procs[generation]);
    UpdateProc(sys, generation, q);
  }

  lemma SendStepKeeps(sys: System, generation: string)
    requires Inv(sys) && generation in sys.procs
    ensures Inv(Step(sys, SendReport(generation)))
  {
    hide SchedSound, ProcInv, FollowsProc, SendFrom, Extends;
    assert ProcInv(generation, sys.procs[generation]);
    SendKeeps(generation, sys.procs[generation]);
    var (q, m) := SendFrom(sys.procs[generation]);
    UpdateProc(sys, generation, q);
    SentHonest(sys.procs, generation, q, m);
  }

  lemma SentHonest(procs: map<string, Proc>, generation: string, q: Proc, m: Report)
    requires HonestReport(map[generation := q], m) && m.generation == generation
    ensures HonestReport(procs[generation := q], m)
  {
  }

  lemma {:induction false} RunKeeps(degree: nat, actions: seq<Action>)
    ensures Inv(Run(degree, actions))
    ensures Run(degree, actions).sched.degree == degree
  {
    hide SchedSound, HonestReport, ProcInv;
    if actions == [] {
      NewSchedSound(degree);
      var sys := NewSystem(degree);
      forall r | r in sys.sched.ranks
        ensures FollowsProc(sys.procs, r, sys.sched.ranks[r])
      {
        assert sys.sched.ranks[r] == UnheardRank(r);
      }
    } else {
      RunKeeps(degree, actions[..|actions| - 1]);
      StepKeeps(Run(degree, actions[..|actions| - 1]), actions[|actions| - 1]);
    }
  }
}
