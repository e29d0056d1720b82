// One rank fed by honest reports of one process generation. `states` is the
// list of inventories that process has fixed; its number n is `states[n]`.
module QuorumHonesty {
  import opened Common
  import opened QuorumTypes
  import opened QuorumModel
  import opened QuorumWorkerModel

  type States = seq<set<Digest>>

  ghost predicate HonestDelta(states: States, d: Delta) {
    && 1 <= d.sequence < |states|
    && d == DeltaBetween(d.sequence - 1, states[d.sequence - 1], states[d.sequence])
    && |d.added| + |d.removed| <= REPORT_BATCH_SIZE
  }

  ghost predicate HonestCheckpoint(states: States, c: Checkpoint) {
    && 0 <= c.stateSequence < |states|
    && c.cycle >= 1
    && c.heldCount == |states[c.stateSequence]|
    && c.count == ChunkCount(c.heldCount)
    && 0 <= c.index < c.count
    && c.held == Wire(Chunk(Sorted(states[c.stateSequence]), c.index))
  }

  predicate KeyAtMost(state0: int, cycle0: int, state1: int, cycle1: int) {
    !KeyBelow(state1, cycle1, state0, cycle0)
  }

  function ChangeTo(states: States, k: nat): Change
    requires 1 <= k < |states|
  {
    Change(k, k - 1, states[k] - states[k - 1], states[k - 1] - states[k])
  }

  ghost predicate HonestActive(states: States, a: ActiveCheckpoint) {
    && a.stateSequence < |states|
    && a.heldCount == |states[a.stateSequence]|
    && a.count == ChunkCount(a.heldCount)
    && forall i :: i in a.chunks ==> i < a.count && a.chunks[i] == Chunk(Sorted(states[a.stateSequence]), i)
  }

  /** What the scheduler holds for the rank is one of the states, exactly. */
  ghost predicate HonestRank(states: States, s: RankState, keyState: int, keyCycle: int) {
    && s.sequence < |states|
    && s.held == states[s.sequence]
    && (forall k :: k in s.pending ==> 1 <= k < |states| && s.pending[k] == ChangeTo(states, k))
    && (s.checkpoint.Some? ==>
          && HonestActive(states, s.checkpoint.value)
          && KeyAtMost(s.checkpoint.value.stateSequence, s.checkpoint.value.cycle, keyState, keyCycle))
  }

  lemma HonestDeltaIsWellFormed(states: States, d: Delta)
    requires HonestDelta(states, d)
    ensures WellFormedDelta(d) && Normalize(d) == ChangeTo(states, d.sequence)
  {
    hide Sorted, Wire, Digests;
    var before, after := states[d.sequence - 1], states[d.sequence];
    WireSorted(after - before);
    WireSorted(before - after);
    assert d.added == Wire(Sorted(after - before)) && d.removed == Wire(Sorted(before - after));
    assert Digests(d.added) == after - before && Digests(d.removed) == before - after;
  }

  lemma HonestCheckpointIsWellFormed(states: States, c: Checkpoint)
    requires HonestCheckpoint(states, c)
    ensures WellFormedCheckpoint(c)
    ensures Unwire(c.held) == Chunk(Sorted(states[c.stateSequence]), c.index)
  {
    var chunk := Chunk(Sorted(states[c.stateSequence]), c.index);
    WireDigests(chunk);
    DistinctCount(chunk);
  }

  // ---- deltas ----

  lemma {:induction false} ApplyReadyStaysHonest(states: States, v: RankView, rank: int, keyState: int, keyCycle: int)
    requires HonestRank(states, v.state, keyState, keyCycle)
    ensures HonestRank(states, ApplyReady(v, rank).state, keyState, keyCycle)
    ensures ApplyReady(v, rank).state.checkpoint == v.state.checkpoint
    ensures ApplyReady(v, rank).state.sequence >= v.state.sequence
    ensures ApplyReady(v, rank).state.pending.Keys <= v.state.pending.Keys
    ensures ApplyReady(v, rank).state.requiresCheckpoint == v.state.requiresCheckpoint
    ensures ApplyReady(v, rank).state.generation == v.state.generation
    ensures ApplyReady(v, rank).state.epoch == v.state.epoch
    ensures ApplyReady(v, rank).state.retired == v.state.retired
    decreases |v.state.pending|
  {
    var next := v.state.sequence + 1;
    if next in v.state.pending && v.state.pending[next].baseSequence == v.state.sequence {
      var c := v.state.pending[next];
      var rest := v.state.pending - {next};
      assert rest.Keys == v.state.pending.Keys - {next};
      assert c == ChangeTo(states, next);
      assert states[next - 1] - c.removed + c.added == states[next];
      var applied := ApplyChange(v.(state := v.state.(pending := rest)), rank, c);
      ApplyReadyStaysHonest(states, applied.(state := applied.state.(sequence := next)), rank, keyState, keyCycle);
    }
  }

  /** What a step leaves alone: the process it belongs to and its checkpoint. */
  ghost predicate SameProcess(s: RankState, t: RankState) {
    s.generation == t.generation && s.epoch == t.epoch && s.retired == t.retired
  }

  lemma DrainStaysHonest(states: States, v: RankView, rank: int, keyState: int, keyCycle: int)
    requires HonestRank(states, v.state, keyState, keyCycle)
    ensures var t := Drain(v, rank).state;
            && HonestRank(states, t, keyState, keyCycle) && SameProcess(v.state, t)
            && t.checkpoint == v.state.checkpoint && t.sequence >= v.state.sequence
            && t.pending.Keys <= v.state.pending.Keys
            && (t.desynchronized <==> t.pending != map[] || t.requiresCheckpoint)
            && t.requiresCheckpoint == v.state.requiresCheckpoint
  {
    ApplyReadyStaysHonest(states, v, rank, keyState, keyCycle);
  }

  lemma DemandStaysHonest(states: States, v: RankView, rank: int, keyState: int, keyCycle: int)
    requires HonestRank(states, v.state, keyState, keyCycle)
    ensures var t := DemandCheckpoint(v, rank).state;
            && HonestRank(states, t, keyState, keyCycle) && SameProcess(v.state, t)
            && t.checkpoint == v.state.checkpoint && t.sequence == v.state.sequence && t.pending == v.state.pending
  {
    hide HonestActive, ChangeTo, KeyAtMost;
  }

  lemma ForgetStaysHonest(states: States, s: RankState, last: nat, keyState: int, keyCycle: int)
    requires HonestRank(states, s, keyState, keyCycle)
    ensures HonestRank(states, s.(pending := s.pending - {last}), keyState, keyCycle)
  {
    hide HonestActive, ChangeTo, KeyAtMost;
  }

  lemma AbsorbDeltaStaysHonest(
    states: States, v: RankView, rank: int, d: Delta, keyState: int, keyCycle: int)
    requires HonestRank(states, v.state, keyState, keyCycle) && HonestDelta(states, d)
    ensures var t := AbsorbDelta(v, rank, d).state;
            && HonestRank(states, t, keyState, keyCycle) && SameProcess(v.state, t)
            && t.checkpoint == v.state.checkpoint && t.sequence >= v.state.sequence
  {
    HonestDeltaIsWellFormed(states, d);
    assert 1 <= d.sequence < |states| && Normalize(d).sequence == d.sequence;
    hide HonestDelta, HonestRank, WellFormedDelta, Normalize, Admit, DemandCheckpoint, ChangeTo;
    DemandStaysHonest(states, v, rank, keyState, keyCycle);
    if d.sequence > v.state.sequence && d.sequence !in v.state.pending {
      var c := Normalize(d);
      if |v.state.pending| >= PENDING_DELTA_LIMIT {
        var w := DemandCheckpoint(v, rank);
        var last := MaxOf(v.state.pending.Keys);
        if c.sequence < last {
          ForgetStaysHonest(states, w.state, last, keyState, keyCycle);
          AdmitStaysHonest(states, w.(state := w.state.(pending := w.state.pending - {last})), rank, c, keyState, keyCycle);
        }
      } else {
        AdmitStaysHonest(states, v, rank, c, keyState, keyCycle);
      }
    }
  }

  lemma AdmitStaysHonest(states: States, v: RankView, rank: int, c: Change, keyState: int, keyCycle: int)
    requires HonestRank(states, v.state, keyState, keyCycle)
    requires 1 <= c.sequence < |states| && c == ChangeTo(states, c.sequence)
    ensures var t := Admit(v, rank, c).state;
            && HonestRank(states, t, keyState, keyCycle) && SameProcess(v.state, t)
            && t.checkpoint == v.state.checkpoint && t.sequence >= v.state.sequence
  {
    var w := v.(state := v.state.(pending := v.state.pending[c.sequence := c]));
    var x := if c.baseSequence != v.state.sequence then MarkDesynchronized(w, rank) else w;
    DrainStaysHonest(states, x, rank, keyState, keyCycle);
  }

  // ---- checkpoints ----

  /** A set of `n` numbers below `n` is all of them. */
  lemma {:induction false} AllBelow(s: set<nat>, n: nat)
    requires |s| == n && forall i :: i in s ==> i < n
    ensures forall i :: 0 <= i < n ==> i in s
  {
    if n > 0 {
      if n - 1 !in s {
        BelowSize(s, n - 1);
      } else {
        AllBelow(s - {n - 1}, n - 1);
      }
    }
  }

  lemma {:induction false} BelowSize(s: set<nat>, n: nat)
    requires forall i :: i in s ==> i < n
    ensures |s| <= n
  {
    if n == 0 {
      assert s == {};
    } else {
      BelowSize(s - {n - 1}, n - 1);
    }
  }

  /** Once every chunk is there, the chunks spell exactly the state they were cut from. */
  lemma AssembledIsState(states: States, a: ActiveCheckpoint)
    requires HonestActive(states, a) && |a.chunks| == a.count
    ensures Assembled(a) == states[a.stateSequence]
  {
    var items := Sorted(states[a.stateSequence]);
    assert |a.chunks.Keys| == a.count;
    AllBelow(a.chunks.Keys, a.count);
    assert Elements(items) == states[a.stateSequence];
    forall d | d in states[a.stateSequence]
      ensures d in Assembled(a)
    {
      assert d in Elements(items);
      CollectedItem(a, items, d);
    }
    forall d | d in Assembled(a)
      ensures d in states[a.stateSequence]
    {
      var k :| k in a.chunks && d in a.chunks[k];
      ChunkItem(items, k, d);
      assert d in Elements(items);
    }
  }

  lemma ChunkItem(items: seq<Digest>, k: nat, d: Digest)
    requires d in Chunk(items, k)
    ensures d in items
  {
  }

  lemma CollectedItem(a: ActiveCheckpoint, items: seq<Digest>, d: Digest)
    requires forall k :: 0 <= k < ChunkCount(|items|) ==> k in a.chunks && a.chunks[k] == Chunk(items, k)
    requires d in items
    ensures d in Assembled(a)
  {
    var i :| 0 <= i < |items| && items[i] == d;
    ChunksCover(items, i);
    var k := i / REPORT_BATCH_SIZE;
    assert k in a.chunks && d in a.chunks[k];
  }

  /** Installing a whole state leaves the rank exactly there or further on. */
  lemma InstallStaysHonest(states: States, v: RankView, rank: int, sequence: nat, keyState: int, keyCycle: int)
    requires HonestRank(states, v.state, keyState, keyCycle) && v.state.sequence <= sequence < |states|
    ensures var t := Install(v, rank, states[sequence], sequence).state;
            && HonestRank(states, t, keyState, keyCycle) && SameProcess(v.state, t)
            && t.sequence >= sequence && !t.requiresCheckpoint && t.checkpoint.None?
            && (t.desynchronized <==> t.pending != map[])
            && (forall k :: k in t.pending ==> k in v.state.pending && k > sequence)
  {
    var s := v.state;
    var kept := map k | k in s.pending && k > sequence :: s.pending[k];
    var t := s.(desynchronized := true, held := states[sequence], sequence := sequence, pending := kept,
                requiresCheckpoint := false, checkpoint := None);
    DrainStaysHonest(states, RankView(t, Withdraw(v.quorum, rank)), rank, keyState, keyCycle);
  }

  ghost predicate Newest(states: States, s: RankState) {
    s.sequence == |states| - 1 && !s.desynchronized && !s.requiresCheckpoint
  }

  /** The chunks below `n` of the newest state's checkpoint cycle are collected. */
  ghost predicate Collected(states: States, s: RankState, cycle: int, n: nat) {
    && s.checkpoint.Some?
    && s.checkpoint.value.stateSequence == |states| - 1
    && s.checkpoint.value.cycle == cycle
    && forall j :: 0 <= j < n ==> j in s.checkpoint.value.chunks
  }

  /** One more chunk of the state the checkpoint is cut from. */
  lemma ChunkAdded(states: States, a: ActiveCheckpoint, index: nat)
    requires HonestActive(states, a) && index < a.count
    ensures var chunk := Chunk(Sorted(states[a.stateSequence]), index);
            var b := a.(chunks := a.chunks[index := chunk]);
            && HonestActive(states, b) && |b.chunks| == |a.chunks.Keys + {index}|
            && a.heldCount == |states[a.stateSequence]| && (index in a.chunks ==> a.chunks[index] == chunk)
  {
    hide Chunk, Sorted, ChunkCount;
    OneMoreChunk(a.chunks, index, Chunk(Sorted(states[a.stateSequence]), index));
  }

  lemma OneMoreChunk(chunks: map<nat, seq<Digest>>, index: nat, chunk: seq<Digest>)
    ensures |chunks[index := chunk]| == |chunks.Keys + {index}|
  {
    var more := chunks[index := chunk];
    assert more.Keys == chunks.Keys + {index};
    assert |more| == |more.Keys|;
  }

  lemma CheckpointStaysHonest(states: States, s: RankState, b: ActiveCheckpoint, keyState: int, keyCycle: int)
    requires HonestRank(states, s, keyState, keyCycle) && s.checkpoint.Some? && HonestActive(states, b)
    requires b.stateSequence == s.checkpoint.value.stateSequence && b.cycle == s.checkpoint.value.cycle
    ensures HonestRank(states, s.(checkpoint := Some(b)), keyState, keyCycle)
  {
    hide HonestActive, ChangeTo, KeyAtMost;
  }

  lemma HonestFacts(states: States, s: RankState, keyState: int, keyCycle: int)
    requires HonestRank(states, s, keyState, keyCycle)
    ensures forall k :: k in s.pending ==> 1 <= k < |states|
    ensures s.checkpoint.Some? ==>
              HonestActive(states, s.checkpoint.value) && s.checkpoint.value.stateSequence < |states|
  {
    hide ChangeTo, KeyAtMost, Chunk, Sorted, ChunkCount;
  }

  /** The last chunk is in: the whole state is installed. */
  lemma CompletedStaysHonest(
    states: States, v: RankView, rank: int, b: ActiveCheckpoint, keyState: int, keyCycle: int)
    requires HonestRank(states, v.state, keyState, keyCycle) && HonestActive(states, b)
    requires v.state.sequence <= b.stateSequence < |states| && |b.chunks| == b.count
    ensures Assembled(b) == states[b.stateSequence]
    ensures var t := Install(v, rank, states[b.stateSequence], b.stateSequence).state;
            && HonestRank(states, t, keyState, keyCycle) && SameProcess(v.state, t) && t.sequence >= v.state.sequence
            && (b.stateSequence == |states| - 1 ==> Newest(states, t))
  {
    hide HonestActive, Assembled, HonestRank, Install, ChunkCount, ChangeTo, KeyAtMost, SameProcess;
    AssembledIsState(states, b);
    InstallStaysHonest(states, v, rank, b.stateSequence, keyState, keyCycle);
    var t := Install(v, rank, states[b.stateSequence], b.stateSequence).state;
    HonestFacts(states, t, keyState, keyCycle);
    if b.stateSequence == |states| - 1 {
      NothingPending(states, t, b.stateSequence);
      HonestSequence(states, t, keyState, keyCycle);
    }
  }

  lemma HonestSequence(states: States, s: RankState, keyState: int, keyCycle: int)
    requires HonestRank(states, s, keyState, keyCycle)
    ensures s.sequence < |states|
  {
  }

  lemma AddChunkStaysHonest(
    states: States, v: RankView, rank: int, a: ActiveCheckpoint, index: nat, keyState: int, keyCycle: int)
    requires HonestRank(states, v.state, keyState, keyCycle) && v.state.checkpoint == Some(a)
    requires v.state.sequence <= a.stateSequence && index < a.count
    ensures var t := AddChunk(v, rank, a, index, Chunk(Sorted(states[a.stateSequence]), index)).state;
            && HonestRank(states, t, keyState, keyCycle) && SameProcess(v.state, t) && t.sequence >= v.state.sequence
            && (a.stateSequence == |states| - 1 ==>
                  if |a.chunks.Keys + {index}| == a.count then Newest(states, t)
                  else t.checkpoint == Some(a.(chunks := a.chunks[index := Chunk(Sorted(states[a.stateSequence]), index)])))
  {
    hide HonestRank, HonestActive, Chunk, Sorted, Assembled, Install, ChunkCount, Newest, DemandCheckpoint;
    HonestFacts(states, v.state, keyState, keyCycle);
    ChunkAdded(states, a, index);
    var b := a.(chunks := a.chunks[index := Chunk(Sorted(states[a.stateSequence]), index)]);
    var w := v.(state := v.state.(checkpoint := Some(b)));
    CheckpointStaysHonest(states, v.state, b, keyState, keyCycle);
    if |b.chunks| == a.count {
      CompletedStaysHonest(states, w, rank, b, keyState, keyCycle);
    }
  }

  lemma NothingPending(states: States, s: RankState, sequence: nat)
    requires forall k :: k in s.pending ==> 1 <= k < |states| && k > sequence
    requires sequence == |states| - 1
    ensures s.pending == map[]
  {
    assert forall k :: k !in s.pending;
  }

  lemma OpenCheckpointStaysHonest(
    states: States, v: RankView, rank: int, c: Checkpoint, keyState: int, keyCycle: int)
    requires HonestRank(states, v.state, keyState, keyCycle) && HonestCheckpoint(states, c)
    requires WellFormedCheckpoint(c) && v.state.sequence <= c.stateSequence
    requires KeyAtMost(c.stateSequence, c.cycle, keyState, keyCycle)
    ensures var t := OpenCheckpoint(v, rank, c).state;
            && HonestRank(states, t, keyState, keyCycle) && SameProcess(v.state, t) && t.sequence >= v.state.sequence
            && (c.stateSequence == |states| - 1 && c.stateSequence == keyState && c.cycle == keyCycle
                && (c.index == 0 || Collected(states, v.state, c.cycle, c.index)) ==>
                  || Newest(states, t)
                  || (c.index + 1 < c.count && Collected(states, t, c.cycle, c.index + 1)))
  {
    HonestCheckpointIsWellFormed(states, c);
    if v.state.checkpoint.Some? && !KeyBelow(
         v.state.checkpoint.value.stateSequence, v.state.checkpoint.value.cycle, c.stateSequence, c.cycle) {
      var a := v.state.checkpoint.value;
      if a.stateSequence == c.stateSequence && a.cycle == c.cycle {
        JoinCheckpointStaysHonest(states, v, rank, c, keyState, keyCycle);
      }
    } else {
      StartCheckpointStaysHonest(states, v, rank, c, keyState, keyCycle);
    }
  }

  lemma JoinCheckpointStaysHonest(
    states: States, v: RankView, rank: int, c: Checkpoint, keyState: int, keyCycle: int)
    requires HonestRank(states, v.state, keyState, keyCycle) && HonestCheckpoint(states, c)
    requires v.state.sequence <= c.stateSequence && v.state.checkpoint.Some?
    requires v.state.checkpoint.value.stateSequence == c.stateSequence && v.state.checkpoint.value.cycle == c.cycle
    ensures var t := AddChunk(v, rank, v.state.checkpoint.value, c.index,
                              Chunk(Sorted(states[c.stateSequence]), c.index)).state;
            && HonestRank(states, t, keyState, keyCycle) && SameProcess(v.state, t) && t.sequence >= v.state.sequence
            && (c.stateSequence == |states| - 1 && (c.index == 0 || Collected(states, v.state, c.cycle, c.index)) ==>
                  || Newest(states, t)
                  || (c.index + 1 < c.count && Collected(states, t, c.cycle, c.index + 1)))
  {
    hide AddChunk, Chunk, Sorted;
    var a := v.state.checkpoint.value;
    AddChunkStaysHonest(states, v, rank, a, c.index, keyState, keyCycle);
    if c.stateSequence == |states| - 1 && (c.index == 0 || Collected(states, v.state, c.cycle, c.index)) {
      CollectOne(states, v.state, c);
    }
  }

  /** Collecting the last chunk in order completes the cycle. */
  lemma CollectOne(states: States, s: RankState, c: Checkpoint)
    requires s.checkpoint.Some? && HonestActive(states, s.checkpoint.value)
    requires HonestCheckpoint(states, c) && c.stateSequence == s.checkpoint.value.stateSequence
    requires c.index == 0 || Collected(states, s, c.cycle, c.index)
    ensures c.index + 1 == c.count ==> |s.checkpoint.value.chunks.Keys + {c.index}| == c.count
  {
    hide Chunk, Sorted, ChunkCount, Wire;
    if c.index + 1 == c.count {
      var keys := s.checkpoint.value.chunks.Keys;
      assert forall i :: i in keys ==> i < c.count;
      assert forall j :: 0 <= j < c.index ==> j in keys;
      hide HonestActive, HonestCheckpoint, Collected;
      AllCollected(keys + {c.index}, c.count);
    }
  }

  /** A checkpoint opened for an honest chunk starts empty and honest. */
  lemma BegunStaysHonest(states: States, s: RankState, c: Checkpoint, keyState: int, keyCycle: int)
    requires HonestRank(states, s, keyState, keyCycle) && HonestCheckpoint(states, c) && WellFormedCheckpoint(c)
    requires KeyAtMost(c.stateSequence, c.cycle, keyState, keyCycle)
    ensures HonestRank(states, s.(checkpoint := Some(Begun(c))), keyState, keyCycle)
  {
    hide Chunk, Sorted, ChunkCount, Wire, ChangeTo, KeyAtMost;
  }

  lemma FirstChunk(a: ActiveCheckpoint, index: nat)
    requires a.chunks == map[]
    ensures a.chunks.Keys + {index} == {index} && |a.chunks.Keys + {index}| == 1
  {
    assert a.chunks.Keys + {index} == {index};
  }

  lemma StartCheckpointStaysHonest(
    states: States, v: RankView, rank: int, c: Checkpoint, keyState: int, keyCycle: int)
    requires HonestRank(states, v.state, keyState, keyCycle) && HonestCheckpoint(states, c) && WellFormedCheckpoint(c)
    requires v.state.sequence <= c.stateSequence && KeyAtMost(c.stateSequence, c.cycle, keyState, keyCycle)
    ensures var t := AddChunk(v.(state := v.state.(checkpoint := Some(Begun(c)))), rank, Begun(c), c.index,
                              Chunk(Sorted(states[c.stateSequence]), c.index)).state;
            && HonestRank(states, t, keyState, keyCycle) && SameProcess(v.state, t) && t.sequence >= v.state.sequence
            && (c.stateSequence == |states| - 1 && c.index == 0 ==>
                  || Newest(states, t)
                  || (c.index + 1 < c.count && Collected(states, t, c.cycle, c.index + 1)))
  {
    hide AddChunk, Chunk, Sorted, ChunkCount, HonestRank, HonestActive, KeyAtMost, Newest;
    BegunStaysHonest(states, v.state, c, keyState, keyCycle);
    AddChunkStaysHonest(
      states, v.(state := v.state.(checkpoint := Some(Begun(c)))), rank, Begun(c), c.index, keyState, keyCycle);
    FirstChunk(Begun(c), c.index);
  }

  lemma AllCollected(s: set<nat>, n: nat)
    requires forall i :: i in s <==> 0 <= i < n
    ensures |s| == n
    decreases n
  {
    if n == 0 {
      assert s == {};
    } else {
      AllCollected(s - {n - 1}, n - 1);
    }
  }

  lemma AbsorbCheckpointStaysHonest(
    states: States, v: RankView, rank: int, c: Checkpoint, keyState: int, keyCycle: int)
    requires HonestRank(states, v.state, keyState, keyCycle) && HonestCheckpoint(states, c)
    requires KeyAtMost(c.stateSequence, c.cycle, keyState, keyCycle)
    ensures var t := AbsorbCheckpoint(v, rank, c).state;
            && HonestRank(states, t, keyState, keyCycle) && SameProcess(v.state, t) && t.sequence >= v.state.sequence
            && (c.stateSequence == |states| - 1 && c.stateSequence == keyState && c.cycle == keyCycle
                && (Newest(states, v.state) || c.index == 0 || Collected(states, v.state, c.cycle, c.index)) ==>
                  || Newest(states, t)
                  || (c.index + 1 < c.count && Collected(states, t, c.cycle, c.index + 1)))
            && (Newest(states, v.state) ==> Newest(states, t))
  {
    HonestCheckpointIsWellFormed(states, c);
    if c.stateSequence < v.state.sequence {
    } else if c.stateSequence == v.state.sequence && !v.state.desynchronized && !v.state.requiresCheckpoint {
    } else {
      var w := if c.stateSequence > v.state.sequence then MarkDesynchronized(v, rank) else v;
      OpenCheckpointStaysHonest(states, w, rank, c, keyState, keyCycle);
    }
  }
}
