// The worker's report builder as it is kept: fields updated in place around
// an inventory object that others mutate between reports.
module QuorumWorker {
  import opened Common
  import opened QuorumTypes
  import opened HeldInventory
  import opened QuorumWorkerModel

  class Worker {
    const rank: int
    const generation: string
    const epoch: nat
    var inventory: Inventory
    var observedInventory: Inventory?
    var observedRevision: int
    var observedHeld: set<Digest>
    var sequence: nat
    var deltaHistory: seq<Delta>
    var deltaCursor: nat
    var checkpointItems: seq<Digest>
    var checkpointSequence: nat
    var checkpointCycle: nat
    var checkpointIndex: nat

    constructor (rank: int, generation: string, epoch: nat, values: set<Digest>)
      ensures View() == NewWorker(rank, generation, epoch, values)
      ensures fresh(inventory)
    {
      this.rank, this.generation, this.epoch := rank, generation, epoch;
      inventory := new Inventory(values);
      observedInventory, observedRevision, observedHeld := null, -1, {};
      sequence, deltaHistory, deltaCursor := 0, [], 0;
      checkpointItems, checkpointSequence, checkpointCycle, checkpointIndex := [], 0, 1, 0;
    }

    ghost function View(): WorkerState
      reads this, inventory
    {
      WorkerState(
        rank, generation, epoch, inventory.values, inventory.revision, observedInventory == inventory,
        observedRevision, observedHeld, sequence, deltaHistory, deltaCursor, checkpointItems,
        checkpointSequence, checkpointCycle, checkpointIndex)
    }

    /** Another set takes the place of the inventory, under a new object. */
    method SetHeld(values: set<Digest>)
      modifies this`inventory
      ensures View() == Replace(old(View()), values)
      ensures fresh(inventory)
    {
      inventory := new Inventory(values);
    }

    method AppendDelta(delta: Delta)
      modifies this`deltaHistory, this`deltaCursor
      ensures View() == RecordDelta(old(View()), delta)
    {
      if |delta.added| + |delta.removed| <= REPORT_BATCH_SIZE {
        deltaHistory := deltaHistory + [delta];
        if |deltaHistory| > DELTA_HISTORY_SIZE {
          deltaHistory := deltaHistory[|deltaHistory| - DELTA_HISTORY_SIZE..];
        }
        deltaCursor := deltaCursor % |deltaHistory|;
      }
    }

    method FixNextState(held: set<Digest>)
      requires held == inventory.values
      modifies this`deltaHistory, this`deltaCursor, this`sequence, this`observedHeld, this`checkpointItems,
               this`checkpointSequence, this`checkpointCycle, this`checkpointIndex
      ensures View() == FixState(old(View()))
    {
      hide Sorted, Wire, RecordDelta;
      var added := held - observedHeld;
      var removed := observedHeld - held;
      AppendDelta(Delta(sequence + 1, sequence, Wire(Sorted(added)), Wire(Sorted(removed))));
      sequence := sequence + 1;
      observedHeld := held;
      checkpointItems := Sorted(held);
      checkpointSequence := sequence;
      checkpointCycle := checkpointCycle + 1;
      checkpointIndex := 0;
    }

    method ObserveInventory()
      modifies this
      ensures inventory == old(inventory)
      ensures View() == Observe(old(View()))
    {
      hide FixState;
      if observedInventory == inventory && observedRevision == inventory.revision {
        return;
      }
      var held := inventory.Copy();
      if held != observedHeld {
        FixNextState(held);
      }
      observedInventory := inventory;
      observedRevision := inventory.revision;
    }

    method BuildQuorumReport() returns (report: Report)
      modifies this
      ensures View() == BuildReport(old(View())).0 && report == BuildReport(old(View())).1
      ensures inventory == old(inventory)
    {
      hide Observe;
      ObserveInventory();
      var count := ChunkCount(|checkpointItems|);
      var checkpoint := Checkpoint(
        checkpointSequence, checkpointCycle, checkpointIndex, count, |checkpointItems|,
        Wire(Chunk(checkpointItems, checkpointIndex)));
      checkpointIndex := checkpointIndex + 1;
      if checkpointIndex >= count {
        checkpointIndex := 0;
        checkpointCycle := checkpointCycle + 1;
      }
      var delta: Option<Delta> := None;
      if deltaHistory != [] {
        var index := deltaCursor % |deltaHistory|;
        delta := Some(deltaHistory[index]);
        deltaCursor := (index + 1) % |deltaHistory|;
      }
      report := Report(rank, generation, Some(epoch), delta, Some(checkpoint));
    }
  }
}
