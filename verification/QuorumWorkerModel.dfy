// The worker's side of the quorum protocol as a function of its state.
module QuorumWorkerModel {
  import opened Common
  import opened QuorumTypes
  import opened HeldInventory

  /** `sameObject`: the inventory last observed is the object now in use. */
  datatype WorkerState = WorkerState(
    rank: int,
    generation: string,
    epoch: nat,
    values: set<Digest>,
    revision: nat,
    sameObject: bool,
    observedRevision: int,
    observedHeld: set<Digest>,
    sequence: nat,
    history: seq<Delta>,
    cursor: nat,
    items: seq<Digest>,
    checkpointSequence: nat,
    cycle: nat,
    index: nat)

  function NewWorker(rank: int, generation: string, epoch: nat, values: set<Digest>): WorkerState {
    WorkerState(rank, generation, epoch, values, 0, false, -1, {}, 0, [], 0, [], 0, 1, 0)
  }

  /** Any in-place change of the inventory. */
  function Mutate(w: WorkerState, values: set<Digest>): WorkerState {
    w.(values := values, revision := NextRevision(w.revision, w.values, values))
  }

  /** Another inventory object takes the place of the current one. */
  function Replace(w: WorkerState, values: set<Digest>): WorkerState {
    w.(values := values, revision := 0, sameObject := false)
  }

  function LastDeltas(ds: seq<Delta>): seq<Delta> {
    if |ds| > DELTA_HISTORY_SIZE then ds[|ds| - DELTA_HISTORY_SIZE..] else ds
  }

  function DeltaBetween(sequence: nat, before: set<Digest>, after: set<Digest>): Delta {
    Delta(sequence + 1, sequence, Wire(Sorted(after - before)), Wire(Sorted(before - after)))
  }

  function RecordDelta(w: WorkerState, d: Delta): WorkerState {
    if |d.added| + |d.removed| > REPORT_BATCH_SIZE then w
    else
      var history := LastDeltas(w.history + [d]);
      w.(history := history, cursor := w.cursor % |history|)
  }

  /** The inventory's present contents become the next numbered state. */
  function FixState(w: WorkerState): WorkerState {
    RecordDelta(w, DeltaBetween(w.sequence, w.observedHeld, w.values)).(
      sequence := w.sequence + 1,
      observedHeld := w.values,
      items := Sorted(w.values),
      checkpointSequence := w.sequence + 1,
      cycle := w.cycle + 1,
      index := 0)
  }

  /** Fix a state if the inventory's contents have changed since the last one. */
  function Observe(w: WorkerState): WorkerState {
    if w.sameObject && w.observedRevision == w.revision then w
    else (if w.values == w.observedHeld then w else FixState(w)).(sameObject := true, observedRevision := w.revision)
  }

  function CheckpointOf(w: WorkerState): Checkpoint {
    Checkpoint(w.checkpointSequence, w.cycle, w.index, ChunkCount(|w.items|), |w.items|, Wire(Chunk(w.items, w.index)))
  }

  function AdvanceCheckpoint(w: WorkerState): WorkerState {
    if w.index + 1 >= ChunkCount(|w.items|) then w.(index := 0, cycle := w.cycle + 1)
    else w.(index := w.index + 1)
  }

  function DeltaOf(w: WorkerState): Option<Delta> {
    if w.history == [] then None else Some(w.history[w.cursor % |w.history|])
  }

  function AdvanceDelta(w: WorkerState): WorkerState {
    if w.history == [] then w else w.(cursor := (w.cursor % |w.history| + 1) % |w.history|)
  }

  function ReportOf(w: WorkerState): Report {
    Report(w.rank, w.generation, Some(w.epoch), DeltaOf(w), Some(CheckpointOf(w)))
  }

  /** The report a worker builds, and the state it leaves behind. */
  function BuildReport(w: WorkerState): (WorkerState, Report) {
    var u := Observe(w);
    (AdvanceDelta(AdvanceCheckpoint(u)), ReportOf(u))
  }
}
