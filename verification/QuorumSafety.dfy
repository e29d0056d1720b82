// What every step of the scheduler keeps, whatever reports arrive: the
// confirmation table names only synchronized ranks that hold the digest, and
// nothing but an explicit drop keeps such a rank out of it.
module QuorumSafety {
  import opened Common
  import opened QuorumTypes
  import opened QuorumModel

  /** `dropped` are the digests whose table entry a load failure has removed. */
  ghost predicate TableAgrees(v: RankView, rank: int, dropped: set<Digest>) {
    && (forall d :: rank in Confirmed(v.quorum, d) ==> !v.state.desynchronized && d in v.state.held)
    && (forall d :: d in v.state.held && !v.state.desynchronized && d !in dropped ==> rank in Confirmed(v.quorum, d))
  }

  ghost predicate PendingShape(s: RankState) {
    && |s.pending| <= PENDING_DELTA_LIMIT
    && forall k :: k in s.pending ==>
         k > s.sequence && s.pending[k].sequence == k && s.pending[k].baseSequence == k - 1
  }

  ghost predicate Settled(s: RankState) {
    s.pending != map[] || s.requiresCheckpoint ==> s.desynchronized
  }

  ghost predicate Sound(v: RankView, rank: int, dropped: set<Digest>) {
    TableAgrees(v, rank, dropped) && PendingShape(v.state) && Settled(v.state)
  }

  /** A step for one rank leaves every other rank's confirmations alone. */
  ghost predicate OthersKept(q: Quorum, q': Quorum, rank: int) {
    forall r, d :: r != rank ==> (r in Confirmed(q, d) <==> r in Confirmed(q', d))
  }

  lemma ConfirmedAfterWithdrawFrom(q: Quorum, rank: int, ds: set<Digest>)
    ensures forall d :: Confirmed(WithdrawFrom(q, rank, ds), d) == Confirmed(q, d) - if d in ds then {rank} else {}
  {
  }

  lemma ConfirmedAfterWithdraw(q: Quorum, rank: int)
    ensures forall d :: Confirmed(Withdraw(q, rank), d) == Confirmed(q, d) - {rank}
  {
    ConfirmedAfterWithdrawFrom(q, rank, q.Keys);
  }

  lemma ConfirmedAfterPublish(q: Quorum, rank: int, ds: set<Digest>)
    ensures forall d :: Confirmed(Publish(q, rank, ds), d) == Confirmed(q, d) + if d in ds then {rank} else {}
  {
  }

  lemma MarkKeeps(v: RankView, rank: int, dropped: set<Digest>)
    requires TableAgrees(v, rank, dropped)
    ensures TableAgrees(MarkDesynchronized(v, rank), rank, dropped)
    ensures OthersKept(v.quorum, MarkDesynchronized(v, rank).quorum, rank)
  {
    ConfirmedAfterWithdraw(v.quorum, rank);
  }

  lemma DemandKeeps(v: RankView, rank: int, dropped: set<Digest>)
    requires TableAgrees(v, rank, dropped) && PendingShape(v.state)
    ensures Sound(DemandCheckpoint(v, rank), rank, dropped)
    ensures OthersKept(v.quorum, DemandCheckpoint(v, rank).quorum, rank)
  {
    MarkKeeps(v.(state := v.state.(requiresCheckpoint := true)), rank, dropped);
  }

  lemma ApplyChangeKeeps(v: RankView, rank: int, c: Change, dropped: set<Digest>)
    requires TableAgrees(v, rank, dropped)
    ensures TableAgrees(ApplyChange(v, rank, c), rank, dropped)
    ensures OthersKept(v.quorum, ApplyChange(v, rank, c).quorum, rank)
  {
    ConfirmedAfterWithdrawFrom(v.quorum, rank, c.removed);
    ConfirmedAfterPublish(WithdrawFrom(v.quorum, rank, c.removed), rank, c.added);
  }

  lemma {:induction false} ApplyReadyKeeps(v: RankView, rank: int, dropped: set<Digest>)
    requires TableAgrees(v, rank, dropped) && PendingShape(v.state)
    ensures var w := ApplyReady(v, rank);
            TableAgrees(w, rank, dropped) && PendingShape(w.state) && OthersKept(v.quorum, w.quorum, rank)
    decreases |v.state.pending|
  {
    var next := v.state.sequence + 1;
    if next in v.state.pending && v.state.pending[next].baseSequence == v.state.sequence {
      var rest := v.state.pending - {next};
      assert rest.Keys == v.state.pending.Keys - {next};
      var u := v.(state := v.state.(pending := rest));
      ApplyChangeKeeps(u, rank, v.state.pending[next], dropped);
      var applied := ApplyChange(u, rank, v.state.pending[next]);
      ApplyReadyKeeps(applied.(state := applied.state.(sequence := next)), rank, dropped);
    }
  }

  lemma DrainKeeps(v: RankView, rank: int, dropped: set<Digest>)
    requires TableAgrees(v, rank, dropped) && PendingShape(v.state)
    ensures Sound(Drain(v, rank), rank, dropped)
    ensures OthersKept(v.quorum, Drain(v, rank).quorum, rank)
  {
    ApplyReadyKeeps(v, rank, dropped);
    var w := ApplyReady(v, rank);
    MarkKeeps(w, rank, dropped);
    ConfirmedAfterPublish(w.quorum, rank, w.state.held);
  }

  lemma AdmitKeeps(v: RankView, rank: int, c: Change, dropped: set<Digest>)
    requires TableAgrees(v, rank, dropped) && PendingShape(v.state)
    requires |v.state.pending| < PENDING_DELTA_LIMIT
    requires c.sequence > v.state.sequence && c.baseSequence == c.sequence - 1
    ensures Sound(Admit(v, rank, c), rank, dropped)
    ensures OthersKept(v.quorum, Admit(v, rank, c).quorum, rank)
  {
    var w := v.(state := v.state.(pending := v.state.pending[c.sequence := c]));
    assert w.state.pending.Keys == v.state.pending.Keys + {c.sequence};
    MarkKeeps(w, rank, dropped);
    DrainKeeps(if c.baseSequence != v.state.sequence then MarkDesynchronized(w, rank) else w, rank, dropped);
  }

  lemma AbsorbDeltaKeeps(v: RankView, rank: int, d: Delta, dropped: set<Digest>)
    requires Sound(v, rank, dropped)
    ensures Sound(AbsorbDelta(v, rank, d), rank, dropped)
    ensures OthersKept(v.quorum, AbsorbDelta(v, rank, d).quorum, rank)
  {
    if WellFormedDelta(d) && d.sequence > v.state.sequence {
      var c := Normalize(d);
      DemandKeeps(v, rank, dropped);
      if c.sequence in v.state.pending {
      } else if |v.state.pending| >= PENDING_DELTA_LIMIT {
        var w := DemandCheckpoint(v, rank);
        var last := MaxOf(v.state.pending.Keys);
        if c.sequence < last {
          var u := w.(state := w.state.(pending := w.state.pending - {last}));
          assert u.state.pending.Keys == w.state.pending.Keys - {last};
          AdmitKeeps(u, rank, c, dropped);
        }
      } else {
        AdmitKeeps(v, rank, c, dropped);
      }
    }
  }

  lemma InstallKeeps(v: RankView, rank: int, held: set<Digest>, sequence: nat, dropped: set<Digest>)
    requires TableAgrees(v, rank, dropped) && PendingShape(v.state)
    ensures Sound(Install(v, rank, held, sequence), rank, dropped)
    ensures OthersKept(v.quorum, Install(v, rank, held, sequence).quorum, rank)
  {
    var s := v.state;
    var kept := map k | k in s.pending && k > sequence :: s.pending[k];
    assert kept.Keys <= s.pending.Keys;
    SubsetSize(kept.Keys, s.pending.Keys);
    assert |kept| == |kept.Keys| && |s.pending| == |s.pending.Keys|;
    ConfirmedAfterWithdraw(v.quorum, rank);
    var t := s.(desynchronized := true, held := held, sequence := sequence, pending := kept,
                requiresCheckpoint := false, checkpoint := None);
    DrainKeeps(RankView(t, Withdraw(v.quorum, rank)), rank, dropped);
  }

  lemma SubsetSize<T>(a: set<T>, b: set<T>)
    requires a <= b
    ensures |a| <= |b|
  {
    assert b == a + (b - a);
  }

  lemma AddChunkKeeps(
    v: RankView, rank: int, a: ActiveCheckpoint, index: nat, chunk: seq<Digest>, dropped: set<Digest>)
    requires Sound(v, rank, dropped)
    ensures Sound(AddChunk(v, rank, a, index, chunk), rank, dropped)
    ensures OthersKept(v.quorum, AddChunk(v, rank, a, index, chunk).quorum, rank)
  {
    if index in a.chunks && a.chunks[index] != chunk {
      DemandKeeps(v, rank, dropped);
    } else {
      var b := a.(chunks := a.chunks[index := chunk]);
      var w := v.(state := v.state.(checkpoint := Some(b)));
      if |b.chunks| != a.count {
        assert AddChunk(v, rank, a, index, chunk) == w;
      } else if |Assembled(b)| != a.heldCount {
        DemandKeeps(w, rank, dropped);
      } else {
        InstallKeeps(w, rank, Assembled(b), a.stateSequence, dropped);
      }
    }
  }

  lemma AbsorbCheckpointKeeps(v: RankView, rank: int, c: Checkpoint, dropped: set<Digest>)
    requires Sound(v, rank, dropped)
    ensures Sound(AbsorbCheckpoint(v, rank, c), rank, dropped)
    ensures OthersKept(v.quorum, AbsorbCheckpoint(v, rank, c).quorum, rank)
  {
    if !WellFormedCheckpoint(c) || c.stateSequence < v.state.sequence {
    } else if c.stateSequence == v.state.sequence && !v.state.desynchronized && !v.state.requiresCheckpoint {
    } else {
      MarkKeeps(v, rank, dropped);
      var w := if c.stateSequence > v.state.sequence then MarkDesynchronized(v, rank) else v;
      OpenCheckpointKeeps(w, rank, c, dropped);
    }
  }

  lemma OpenCheckpointKeeps(w: RankView, rank: int, c: Checkpoint, dropped: set<Digest>)
    requires Sound(w, rank, dropped) && WellFormedCheckpoint(c)
    ensures Sound(OpenCheckpoint(w, rank, c), rank, dropped)
    ensures OthersKept(w.quorum, OpenCheckpoint(w, rank, c).quorum, rank)
  {
    var begun := Begun(c);
    AddChunkKeeps(w.(state := w.state.(checkpoint := Some(begun))), rank, begun, c.index, Unwire(c.held), dropped);
    DemandKeeps(w, rank, dropped);
    if w.state.checkpoint.Some? {
      AddChunkKeeps(w, rank, w.state.checkpoint.value, c.index, Unwire(c.held), dropped);
    }
  }

  lemma AbsorbBodyKeeps(v: RankView, m: Report, dropped: set<Digest>)
    requires Sound(v, m.rank, dropped)
    ensures Sound(AbsorbBody(v, m), m.rank, dropped)
    ensures OthersKept(v.quorum, AbsorbBody(v, m).quorum, m.rank)
  {
    if m.delta.Some? {
      AbsorbDeltaKeeps(v, m.rank, m.delta.value, dropped);
    }
    var w := if m.delta.Some? then AbsorbDelta(v, m.rank, m.delta.value) else v;
    if m.checkpoint.Some? {
      AbsorbCheckpointKeeps(w, m.rank, m.checkpoint.value, dropped);
    }
  }

  lemma EnterGenerationKeeps(v: RankView, rank: int, generation: string, epoch: Option<nat>, dropped: set<Digest>)
    requires Sound(v, rank, dropped) && AcceptsGeneration(v.state, generation, epoch)
    ensures Sound(EnterGeneration(v, rank, generation, epoch), rank, dropped)
    ensures OthersKept(v.quorum, EnterGeneration(v, rank, generation, epoch).quorum, rank)
  {
    ConfirmedAfterWithdraw(v.quorum, rank);
  }

  // ---- the whole scheduler ----

  ghost predicate SchedSound(s: Sched, dropped: set<Digest>) {
    && (forall r :: r in s.ranks <==> 0 <= r < s.degree)
    && (forall r :: r in s.ranks ==> Sound(RankView(s.ranks[r], s.quorum), r, dropped))
  }

  lemma NewSchedSound(degree: nat)
    ensures SchedSound(NewSched(degree), {})
  {
    var s := NewSched(degree);
    forall r | r in s.ranks
      ensures Sound(RankView(s.ranks[r], s.quorum), r, {})
    {
      assert s.ranks[r] == UnheardRank(r);
    }
  }

  lemma AbsorbReportKeeps(s: Sched, m: Report, dropped: set<Digest>)
    requires SchedSound(s, dropped)
    ensures SchedSound(AbsorbReport(s, m), dropped)
  {
    if DeliverableReport(s, m) {
      var u := RankView(s.ranks[m.rank], s.quorum);
      EnterGenerationKeeps(u, m.rank, m.generation, m.epoch, dropped);
      var v := EnterGeneration(u, m.rank, m.generation, m.epoch);
      AbsorbBodyKeeps(v, m, dropped);
      var t := AbsorbReport(s, m);
      forall r | r in t.ranks
        ensures Sound(RankView(t.ranks[r], t.quorum), r, dropped)
      {
        if r != m.rank {
          assert Sound(RankView(s.ranks[r], s.quorum), r, dropped);
          assert forall d :: r in Confirmed(s.quorum, d) <==> r in Confirmed(t.quorum, d);
        }
      }
    }
  }

  lemma ConfirmedAfterDrop(q: Quorum, d: Digest)
    ensures forall e :: Confirmed(DropDigest(q, d), e) == if e == d then {} else Confirmed(q, e)
  {
  }

  lemma DropKeepsRank(v: RankView, rank: int, d: Digest, dropped: set<Digest>)
    requires Sound(v, rank, dropped)
    ensures Sound(v.(quorum := DropDigest(v.quorum, d)), rank, dropped + {d})
  {
    hide Confirmed, DropDigest, PendingShape, Settled;
    ConfirmedAfterDrop(v.quorum, d);
  }

  lemma DropKeeps(s: Sched, d: Digest, dropped: set<Digest>)
    requires SchedSound(s, dropped)
    ensures SchedSound(s.(quorum := DropDigest(s.quorum, d)), dropped + {d})
  {
    hide Sound, DropDigest;
    var t := s.(quorum := DropDigest(s.quorum, d));
    forall r | r in t.ranks
      ensures Sound(RankView(t.ranks[r], t.quorum), r, dropped + {d})
    {
      DropKeepsRank(RankView(s.ranks[r], s.quorum), r, d, dropped);
    }
  }
}
