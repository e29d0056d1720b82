// What a worker sends again: the newest small changes, one after another.
module QuorumHistory {
  import opened Common
  import opened QuorumTypes
  import opened QuorumModel
  import opened QuorumWorkerModel
  import opened QuorumHonesty
  import opened QuorumProtocol
  import opened QuorumTheorems
  import opened QuorumProgress

  /** Every change between neighbouring states that fits one report, oldest first. */
  function SmallChanges(states: States): seq<Delta> {
    if |states| <= 1 then []
    else
      var n := |states| - 1;
      var d := DeltaBetween(n - 1, states[n - 1], states[n]);
      SmallChanges(states[..n])
      + (if |states[n] - states[n - 1]| + |states[n - 1] - states[n]| <= REPORT_BATCH_SIZE then [d] else [])
  }

  lemma LastTwice(ds: seq<Delta>, d: Delta)
    ensures LastDeltas(LastDeltas(ds) + [d]) == LastDeltas(ds + [d])
  {
    if |ds| > DELTA_HISTORY_SIZE {
      var kept := ds[|ds| - DELTA_HISTORY_SIZE..];
      assert kept + [d] == (ds + [d])[|ds| - DELTA_HISTORY_SIZE..];
    }
  }

  lemma DeltaSize(sequence: nat, before: set<Digest>, after: set<Digest>)
    ensures var d := DeltaBetween(sequence, before, after);
            |d.added| + |d.removed| == |after - before| + |before - after|
  {
    WireSorted(after - before);
    WireSorted(before - after);
  }

  ghost predicate Recent(p: Proc) {
    p.worker.history == LastDeltas(SmallChanges(p.states))
  }

  /** Fixing a state appends its change to the history if it fits a report. */
  lemma FixedHistory(w: WorkerState)
    ensures var d := DeltaBetween(w.sequence, w.observedHeld, w.values);
            FixState(w).history == if |d.added| + |d.removed| > REPORT_BATCH_SIZE then w.history
                                   else LastDeltas(w.history + [d])
    ensures FixState(w).sequence == w.sequence + 1
  {
    hide DeltaBetween, Sorted, LastDeltas;
  }

  lemma FixRecent(p: Proc)
    requires Recent(p) && |p.states| == p.worker.sequence + 1
    requires p.states[p.worker.sequence] == p.worker.observedHeld
    ensures FixState(p.worker).history == LastDeltas(SmallChanges(p.states + [p.worker.values]))
  {
    hide DeltaBetween, LastDeltas, FixState, SmallChanges;
    var w := p.worker;
    var states := p.states + [w.values];
    assert states[..|states| - 1] == p.states && |states| - 2 == w.sequence;
    assert states[|states| - 2] == w.observedHeld && states[|states| - 1] == w.values;
    DeltaSize(w.sequence, w.observedHeld, w.values);
    FixedHistory(w);
    LastTwice(SmallChanges(p.states), DeltaBetween(w.sequence, w.observedHeld, w.values));
    OneMoreChange(states);
    assert SmallChanges(p.states) + [] == SmallChanges(p.states);
  }

  lemma OneMoreChange(states: States)
    requires |states| > 1
    ensures var n := |states| - 1;
            SmallChanges(states)
            == SmallChanges(states[..n])
               + (if |states[n] - states[n - 1]| + |states[n - 1] - states[n]| <= REPORT_BATCH_SIZE
                  then [DeltaBetween(n - 1, states[n - 1], states[n])] else [])
  {
    hide DeltaBetween;
  }

  lemma ObserveRecent(generation: string, p: Proc)
    requires ProcInv(generation, p) && Recent(p)
    ensures Recent(ObserveProc(p))
  {
    FixRecent(p);
    FixedHistory(p.worker);
    FixedRevision(p.worker);
    hide DeltaBetween, Sorted, HonestDelta, LastDeltas, ChunkCount, SmallChanges, FixState;
  }

  lemma SendRecent(generation: string, p: Proc)
    requires ProcInv(generation, p) && Recent(p)
    ensures Recent(SendFrom(p).0)
  {
    ObserveRecent(generation, p);
    hide Observe, SmallChanges, LastDeltas, ReportOf, ChunkCount;
  }

  ghost predicate AllRecent(procs: map<string, Proc>) {
    forall g :: g in procs ==> Recent(procs[g])
  }

  lemma OneMoreRecent(procs: map<string, Proc>, generation: string, p: Proc)
    requires AllRecent(procs) && Recent(p)
    ensures AllRecent(procs[generation := p])
  {
    hide Recent;
  }

  /** Starting a process and touching its inventory leave the rest as it is. */
  lemma TouchRecent(sys: System, a: Action)
    requires AllRecent(sys.procs) && !a.SendReport?
    ensures AllRecent(Step(sys, a).procs)
  {
    NoChanges();
    hide AbsorbReport, SmallChanges;
  }

  lemma StepRecent(sys: System, a: Action)
    requires Inv(sys) && AllRecent(sys.procs)
    ensures AllRecent(Step(sys, a).procs)
  {
    if a.SendReport? && a.generation in sys.procs {
      assert ProcInv(a.generation, sys.procs[a.generation]);
      hide AllRecent, Recent, ProcInv, Inv, SendFrom;
      OneMoreRecent(sys.procs, a.generation, SendFrom(sys.procs[a.generation]).0) by {
        OneRecent(sys.procs, a.generation);
        SendRecent(a.generation, sys.procs[a.generation]);
      }
    } else if !a.SendReport? {
      TouchRecent(sys, a);
    }
  }

  lemma OneRecent(procs: map<string, Proc>, generation: string)
    requires AllRecent(procs) && generation in procs
    ensures Recent(procs[generation])
  {
  }

  lemma NoChanges()
    ensures SmallChanges([{}]) == []
  {
  }

  /** In every run a worker keeps exactly the last sixty-four changes that fit a
      report, oldest first. */
  lemma {:induction false} HistoryIsRecent(degree: nat, actions: seq<Action>)
    ensures AllRecent(Run(degree, actions).procs)
  {
    if actions != [] {
      var earlier := actions[..|actions| - 1];
      HistoryIsRecent(degree, earlier);
      RunKeeps(degree, earlier);
      hide *;
      StepRecent(Run(degree, earlier), actions[|actions| - 1]);
      RunStep(degree, actions);
    }
  }

  // ---- sending in turn ----

  /** The process after `n` more reports. */
  function AfterReports(p: Proc, n: nat): Proc {
    if n == 0 then p else SendFrom(AfterReports(p, n - 1)).0
  }

  /** `n` places behind `start`, in a list of `size` read round and round. */
  function Turned(start: nat, n: nat, size: nat): nat
    requires start < size && n < size
  {
    if start + n < size then start + n else start + n - size
  }

  /** Where a cursor points in a list of `size`. */
  function Place(cursor: nat, size: nat): (i: nat)
    requires size > 0
    ensures i < size
  {
    cursor % size
  }

  lemma PlaceNext(place: nat, size: nat)
    requires place < size
    ensures Place((place + 1) % size, size) == if place + 1 < size then place + 1 else 0
  {
  }

  lemma TurnedNext(start: nat, n: nat, size: nat)
    requires start < size && 0 < n < size
    ensures var before := Turned(start, n - 1, size);
            Turned(start, n, size) == if before + 1 < size then before + 1 else 0
  {
  }

  lemma TurnedEnds(start: nat, i: nat, size: nat) returns (n: nat)
    requires start < size && i < size
    ensures n < size && Turned(start, n, size) == i
  {
    n := if i >= start then i - start else i + size - start;
  }

  lemma FirstReport(p: Proc)
    ensures AfterReports(p, 0) == p
    ensures forall start: nat, size: nat :: start < size ==> Turned(start, 0, size) == start
  {
  }

  lemma NextReport(p: Proc, n: nat)
    requires n > 0
    ensures AfterReports(p, n) == SendFrom(AfterReports(p, n - 1)).0
  {
    hide SendFrom;
  }

  lemma {:induction false} ReportsTurn(p: Proc, n: nat)
    requires Observed(p.worker) && n < |p.worker.history|
    ensures var q := AfterReports(p, n);
            && Observed(q.worker) && q.worker.history == p.worker.history
            && Place(q.worker.cursor, |p.worker.history|)
               == Turned(Place(p.worker.cursor, |p.worker.history|), n, |p.worker.history|)
  {
    hide *;
    FirstReport(p);
    if n > 0 {
      ReportsTurn(p, n - 1);
      NextReport(p, n);
      SendTurns(AfterReports(p, n - 1));
      TurnedNext(Place(p.worker.cursor, |p.worker.history|), n, |p.worker.history|);
    }
  }

  lemma SendTurns(q: Proc)
    requires Observed(q.worker) && q.worker.history != []
    ensures var u, size := SendFrom(q).0.worker, |q.worker.history|;
            var place := Place(q.worker.cursor, size);
            && Observed(u) && u.history == q.worker.history
            && Place(u.cursor, size) == if place + 1 < size then place + 1 else 0
    ensures SendFrom(q).1.delta == Some(q.worker.history[Place(q.worker.cursor, |q.worker.history|)])
  {
    var size := |q.worker.history|;
    SendIs(q);
    hide SendFrom, Observed;
    PlaceNext(Place(q.worker.cursor, size), size);
  }

  lemma SendIs(q: Proc)
    requires Observed(q.worker) && q.worker.history != []
    ensures var u, size := SendFrom(q).0.worker, |q.worker.history|;
            && Observed(u) && u.history == q.worker.history
            && u.cursor == (Place(q.worker.cursor, size) + 1) % size
    ensures SendFrom(q).1.delta == Some(q.worker.history[Place(q.worker.cursor, |q.worker.history|)])
  {
    hide ChunkCount, CheckpointOf;
  }

  /** Every change a worker keeps is sent again within one turn of its history. */
  lemma EveryChangeIsResent(p: Proc, i: nat) returns (n: nat)
    requires Observed(p.worker) && i < |p.worker.history|
    ensures n < |p.worker.history|
    ensures SendFrom(AfterReports(p, n)).1.delta == Some(p.worker.history[i])
  {
    hide *;
    n := TurnedEnds(Place(p.worker.cursor, |p.worker.history|), i, |p.worker.history|);
    ReportsTurn(p, n);
    SendTurns(AfterReports(p, n));
  }
}
