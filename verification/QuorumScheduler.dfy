// The scheduler's quorum bookkeeping as it is kept: dictionaries updated in
// place, each method proved against the step it stands for. The dictionaries
// the connector keys by rank are one dictionary of per-rank records here.
module QuorumScheduler {
  import opened Common
  import opened QuorumTypes
  import opened QuorumModel

  class Scheduler {
    const degree: nat
    var ranks: map<int, RankState>
    var quorum: Quorum

    constructor (degree: nat)
      ensures this.degree == degree
      ensures View() == NewSched(degree)
    {
      this.degree := degree;
      ranks := map r: int | 0 <= r < degree :: UnheardRank(r);
      quorum := map[];
    }

    ghost function View(): Sched
      reads this
    {
      Sched(degree, ranks, quorum)
    }

    ghost function ViewOf(rank: int): RankView
      requires rank in ranks
      reads this
    {
      RankView(ranks[rank], quorum)
    }

    method WithdrawDigests(rank: int, digests: set<Digest>)
      modifies this`quorum
      ensures quorum == WithdrawFrom(old(quorum), rank, digests)
    {
      hide WithdrawFrom;
      var todo := digests;
      ghost var done: set<Digest> := {};
      WithdrawNone(quorum, rank);
      while todo != {}
        invariant done + todo == digests && done !! todo
        invariant quorum == WithdrawFrom(old(quorum), rank, done)
        decreases |todo|
      {
        var digest :| digest in todo;
        WithdrawOneMore(old(quorum), rank, done, digest);
        if digest in quorum {
          var confirming := quorum[digest] - {rank};
          quorum := if confirming == {} then quorum - {digest} else quorum[digest := confirming];
        }
        todo := todo - {digest};
        done := done + {digest};
      }
      assert done == digests;
    }

    method WithdrawWorkerQuorum(rank: int)
      modifies this`quorum
      ensures quorum == Withdraw(old(quorum), rank)
    {
      WithdrawDigests(rank, quorum.Keys);
    }

    method PublishDigests(rank: int, digests: set<Digest>)
      modifies this`quorum
      ensures quorum == Publish(old(quorum), rank, digests)
    {
      hide Publish;
      var todo := digests;
      ghost var done: set<Digest> := {};
      PublishNone(quorum, rank);
      while todo != {}
        invariant done + todo == digests && done !! todo
        invariant quorum == Publish(old(quorum), rank, done)
        decreases |todo|
      {
        var digest :| digest in todo;
        var confirming := if digest in quorum then quorum[digest] else {};
        PublishOneMore(old(quorum), rank, done, digest);
        quorum := quorum[digest := confirming + {rank}];
        todo := todo - {digest};
        done := done + {digest};
      }
      assert done == digests;
    }

    method MarkWorkerDesynchronized(rank: int)
      requires rank in ranks
      modifies this
      ensures ranks.Keys == old(ranks).Keys && ranks == old(ranks)[rank := ranks[rank]]
      ensures ViewOf(rank) == MarkDesynchronized(old(ViewOf(rank)), rank)
    {
      if !ranks[rank].desynchronized {
        WithdrawWorkerQuorum(rank);
        ranks := ranks[rank := ranks[rank].(desynchronized := true)];
      }
    }

    method RequireCheckpoint(rank: int)
      requires rank in ranks
      modifies this
      ensures ranks.Keys == old(ranks).Keys && ranks == old(ranks)[rank := ranks[rank]]
      ensures ViewOf(rank) == DemandCheckpoint(old(ViewOf(rank)), rank)
    {
      ranks := ranks[rank := ranks[rank].(requiresCheckpoint := true)];
      MarkWorkerDesynchronized(rank);
    }

    method BeginWorkerGeneration(rank: int, generation: string, epoch: Option<nat>)
      requires rank in ranks
      modifies this
      ensures ranks.Keys == old(ranks).Keys && ranks == old(ranks)[rank := ranks[rank]]
      ensures ViewOf(rank) == BeginGeneration(old(ViewOf(rank)), rank, generation, epoch)
    {
      WithdrawWorkerQuorum(rank);
      var state := ranks[rank];
      state := state.(generation := Some(generation), epoch := epoch);
      state := state.(sequence := 0, held := {}, pending := map[], checkpoint := None);
      state := state.(desynchronized := false, requiresCheckpoint := false);
      ranks := ranks[rank := state];
    }

    method AcceptWorkerGeneration(rank: int, generation: string, epoch: Option<nat>) returns (accepted: bool)
      requires rank in ranks
      modifies this
      ensures ranks.Keys == old(ranks).Keys && ranks == old(ranks)[rank := ranks[rank]]
      ensures accepted == AcceptsGeneration(old(ranks[rank]), generation, epoch)
      ensures ViewOf(rank) == if accepted then EnterGeneration(old(ViewOf(rank)), rank, generation, epoch)
                              else old(ViewOf(rank))
    {
      var state := ranks[rank];
      if state.generation == Some(generation) {
        return state.epoch == None || epoch == state.epoch;
      }
      if generation in state.retired {
        return false;
      }
      if generation == MISSING_GENERATION && state.generation.Some? {
        return false;
      }
      if state.generation.Some? {
        var retired := state.retired + [state.generation.value];
        if |retired| > RETIRED_GENERATION_LIMIT {
          retired := retired[|retired| - RETIRED_GENERATION_LIMIT..];
        }
        ranks := ranks[rank := state.(retired := retired)];
      }
      BeginWorkerGeneration(rank, generation, epoch);
      accepted := true;
    }

    method ApplyWorkerDelta(rank: int, change: Change)
      requires rank in ranks
      modifies this
      ensures ranks.Keys == old(ranks).Keys && ranks == old(ranks)[rank := ranks[rank]]
      ensures ViewOf(rank) == ApplyChange(old(ViewOf(rank)), rank, change)
    {
      var state := ranks[rank];
      ranks := ranks[rank := state.(held := state.held - change.removed + change.added)];
      if state.desynchronized {
        return;
      }
      WithdrawDigests(rank, change.removed);
      PublishDigests(rank, change.added);
    }

    method DrainWorkerDeltas(rank: int)
      requires rank in ranks
      modifies this
      ensures ranks.Keys == old(ranks).Keys && ranks == old(ranks)[rank := ranks[rank]]
      ensures ViewOf(rank) == Drain(old(ViewOf(rank)), rank)
    {
      hide ApplyChange, MarkDesynchronized, Publish;
      var sequence := ranks[rank].sequence;
      while sequence + 1 in ranks[rank].pending && ranks[rank].pending[sequence + 1].baseSequence == sequence
        invariant ranks.Keys == old(ranks).Keys && ranks == old(ranks)[rank := ranks[rank]]
        invariant ranks[rank].sequence == sequence
        invariant ApplyReady(ViewOf(rank), rank) == ApplyReady(old(ViewOf(rank)), rank)
        decreases |ranks[rank].pending|
      {
        var state := ranks[rank];
        var change := state.pending[sequence + 1];
        assert (state.pending - {sequence + 1}).Keys == state.pending.Keys - {sequence + 1};
        ranks := ranks[rank := state.(pending := state.pending - {sequence + 1})];
        ChangeTouchesHeldOnly(ViewOf(rank), rank, change);
        ApplyWorkerDelta(rank, change);
        sequence := sequence + 1;
        ranks := ranks[rank := ranks[rank].(sequence := sequence)];
      }
      if ranks[rank].pending != map[] {
        MarkWorkerDesynchronized(rank);
        return;
      }
      if ranks[rank].requiresCheckpoint {
        MarkWorkerDesynchronized(rank);
        return;
      }
      if ranks[rank].desynchronized {
        ranks := ranks[rank := ranks[rank].(desynchronized := false)];
        PublishDigests(rank, ranks[rank].held);
      }
    }

    method AbsorbWorkerDelta(rank: int, delta: Delta)
      requires rank in ranks
      modifies this
      ensures ranks.Keys == old(ranks).Keys && ranks == old(ranks)[rank := ranks[rank]]
      ensures ViewOf(rank) == AbsorbDelta(old(ViewOf(rank)), rank, delta)
    {
      hide Drain, MarkDesynchronized, WellFormedDelta;
      var accepted := ranks[rank].sequence;
      if !WellFormedDelta(delta) || delta.sequence <= accepted {
        return;
      }
      var change := Normalize(delta);
      if change.sequence in ranks[rank].pending {
        if ranks[rank].pending[change.sequence] != change {
          RequireCheckpoint(rank);
        }
        return;
      }
      if |ranks[rank].pending| >= PENDING_DELTA_LIMIT {
        var last := LargestKey(ranks[rank].pending);
        RequireCheckpoint(rank);
        DemandKeepsPending(old(ViewOf(rank)), rank);
        if change.sequence >= last {
          return;
        }
        ranks := ranks[rank := ranks[rank].(pending := ranks[rank].pending - {last})];
      }
      ranks := ranks[rank := ranks[rank].(pending := ranks[rank].pending[change.sequence := change])];
      if change.baseSequence != accepted {
        MarkWorkerDesynchronized(rank);
      }
      DrainWorkerDeltas(rank);
    }

    method AbsorbWorkerCheckpoint(rank: int, checkpoint: Checkpoint)
      requires rank in ranks
      modifies this
      ensures ranks.Keys == old(ranks).Keys && ranks == old(ranks)[rank := ranks[rank]]
      ensures ViewOf(rank) == AbsorbCheckpoint(old(ViewOf(rank)), rank, checkpoint)
    {
      hide OpenCheckpoint;
      var state := ranks[rank];
      if !WellFormedCheckpoint(checkpoint) || checkpoint.stateSequence < state.sequence {
        return;
      }
      if checkpoint.stateSequence == state.sequence && !state.desynchronized && !state.requiresCheckpoint {
        ranks := ranks[rank := state.(checkpoint := None)];
        return;
      }
      if checkpoint.stateSequence > state.sequence {
        MarkWorkerDesynchronized(rank);
      }
      FileChunk(rank, checkpoint);
    }

    method FileChunk(rank: int, checkpoint: Checkpoint)
      requires rank in ranks && WellFormedCheckpoint(checkpoint)
      modifies this
      ensures ranks.Keys == old(ranks).Keys && ranks == old(ranks)[rank := ranks[rank]]
      ensures ViewOf(rank) == OpenCheckpoint(old(ViewOf(rank)), rank, checkpoint)
    {
      hide AddChunk, DemandCheckpoint, ChunkCount;
      var active := ranks[rank].checkpoint;
      if active.Some? {
        var a := active.value;
        if KeyBelow(checkpoint.stateSequence, checkpoint.cycle, a.stateSequence, a.cycle) {
          return;
        }
        if KeyBelow(a.stateSequence, a.cycle, checkpoint.stateSequence, checkpoint.cycle) {
          active := None;
        }
      }
      if active.None? {
        active := Some(Begun(checkpoint));
        ranks := ranks[rank := ranks[rank].(checkpoint := active)];
      } else if active.value.count != checkpoint.count || active.value.heldCount != checkpoint.heldCount {
        RequireCheckpoint(rank);
        return;
      }
      CollectChunk(rank, active.value, checkpoint.index, Unwire(checkpoint.held));
    }

    method CollectChunk(rank: int, active: ActiveCheckpoint, index: nat, chunk: seq<Digest>)
      requires rank in ranks
      modifies this
      ensures ranks.Keys == old(ranks).Keys && ranks == old(ranks)[rank := ranks[rank]]
      ensures ViewOf(rank) == AddChunk(old(ViewOf(rank)), rank, active, index, chunk)
    {
      hide Drain, DemandCheckpoint, Assembled, WithdrawFrom;
      if index in active.chunks && active.chunks[index] != chunk {
        RequireCheckpoint(rank);
        return;
      }
      var filled := active.(chunks := active.chunks[index := chunk]);
      ranks := ranks[rank := ranks[rank].(checkpoint := Some(filled))];
      if |filled.chunks| != active.count {
        return;
      }
      var reconstructed := Assembled(filled);
      if |reconstructed| != active.heldCount {
        RequireCheckpoint(rank);
        return;
      }
      WithdrawWorkerQuorum(rank);
      var state := ranks[rank].(desynchronized := true, held := reconstructed, sequence := active.stateSequence);
      var kept := map k | k in state.pending && k > active.stateSequence :: state.pending[k];
      state := state.(pending := kept, requiresCheckpoint := false, checkpoint := None);
      ranks := ranks[rank := state];
      DrainWorkerDeltas(rank);
    }

    method AbsorbOne(report: Report)
      requires forall r :: 0 <= r < degree ==> r in ranks
      modifies this
      ensures ranks.Keys == old(ranks).Keys
      ensures View() == AbsorbReport(old(View()), report)
    {
      hide AbsorbDelta, AbsorbCheckpoint, EnterGeneration, AcceptsGeneration;
      if !(0 <= report.rank < degree) {
        return;
      }
      if report.generation == "" || report.generation == MISSING_GENERATION || report.epoch.None? {
        return;
      }
      var accepted := AcceptWorkerGeneration(report.rank, report.generation, report.epoch);
      if !accepted {
        assert ranks == old(ranks);
        return;
      }
      if report.delta.Some? {
        AbsorbWorkerDelta(report.rank, report.delta.value);
      }
      if report.checkpoint.Some? {
        AbsorbWorkerCheckpoint(report.rank, report.checkpoint.value);
      }
    }

    method AbsorbQuorum(reports: seq<Report>)
      requires forall r :: 0 <= r < degree ==> r in ranks
      modifies this
      ensures View() == AbsorbReports(old(View()), reports)
    {
      hide AbsorbReport;
      for i := 0 to |reports|
        invariant ranks.Keys == old(ranks).Keys
        invariant View() == AbsorbReports(old(View()), reports[..i])
      {
        AbsorbOne(reports[i]);
        assert reports[..i + 1][..i] == reports[..i];
      }
      assert reports[..|reports|] == reports;
    }

    method DropQuorum(digest: Digest)
      modifies this`quorum
      ensures View() == old(View()).(quorum := DropDigest(old(quorum), digest))
    {
      quorum := quorum - {digest};
    }

    method HasFullQuorum(digest: Digest) returns (full: bool)
      ensures full == FullQuorum(View(), digest)
    {
      var confirmed := if digest in quorum then quorum[digest] else {};
      assert confirmed == Confirmed(View().quorum, digest);
      for rank := 0 to degree
        invariant forall r :: 0 <= r < rank ==> r in confirmed
      {
        if rank !in confirmed {
          return false;
        }
      }
      full := true;
    }
  }

  lemma WithdrawNone(q: Quorum, rank: int)
    ensures WithdrawFrom(q, rank, {}) == q
  {
  }

  lemma WithdrawOneMore(q: Quorum, rank: int, ds: set<Digest>, d: Digest)
    requires d !in ds
    ensures var r := WithdrawFrom(q, rank, ds);
            WithdrawFrom(q, rank, ds + {d}) ==
              if d !in r then r else if r[d] - {rank} == {} then r - {d} else r[d := r[d] - {rank}]
  {
  }

  lemma PublishNone(q: Quorum, rank: int)
    ensures Publish(q, rank, {}) == q
  {
    assert Publish(q, rank, {}).Keys == q.Keys;
    forall d | d in q
      ensures Publish(q, rank, {})[d] == q[d]
    {
      assert q[d] + {} == q[d];
    }
  }

  lemma PublishOneMore(q: Quorum, rank: int, ds: set<Digest>, d: Digest)
    requires d !in ds
    ensures var r := Publish(q, rank, ds);
            Publish(q, rank, ds + {d}) == r[d := Confirmed(r, d) + {rank}]
  {
    var r := Publish(q, rank, ds);
    var t := Publish(q, rank, ds + {d});
    assert t.Keys == r.Keys + {d};
    forall e | e in t.Keys
      ensures t[e] == r[d := Confirmed(r, d) + {rank}][e]
    {
      assert Confirmed(q, e) + {} == Confirmed(q, e);
    }
  }

  lemma ChangeTouchesHeldOnly(v: RankView, rank: int, c: Change)
    ensures var s := ApplyChange(v, rank, c).state;
            s == v.state.(held := s.held)
  {
  }

  lemma DemandKeepsPending(v: RankView, rank: int)
    ensures DemandCheckpoint(v, rank).state.pending == v.state.pending
    ensures DemandCheckpoint(v, rank).state.sequence == v.state.sequence
  {
  }

  method LargestKey(pending: map<nat, Change>) returns (last: nat)
    requires pending != map[]
    ensures last == MaxOf(pending.Keys)
  {
    assert pending.Keys != {};
    last :| last in pending.Keys;
    var todo := pending.Keys - {last};
    while todo != {}
      invariant last in pending.Keys && todo <= pending.Keys
      invariant forall k :: k in pending.Keys && k !in todo ==> k <= last
      decreases |todo|
    {
      var k :| k in todo;
      if last < k {
        last := k;
      }
      todo := todo - {k};
    }
  }
}
