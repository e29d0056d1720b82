// That the scheduler moves on: what one delta does to a rank, exactly, that
// deltas are made up for in whatever order they arrive, and that a restarted
// process is heard.
module QuorumProgress {
  import opened Common
  import opened QuorumTypes
  import opened QuorumModel
  import opened QuorumSafety
  import opened QuorumWorkerModel
  import opened QuorumHonesty
  import opened QuorumProtocol
  import opened QuorumTheorems

  // ---- one delta ----

  /** The digests after the changes numbered `start + 1` to `stop`, in that order. */
  function Applied(held: set<Digest>, changes: map<nat, Change>, start: nat, stop: nat): set<Digest>
    requires start <= stop && forall k :: start < k <= stop ==> k in changes
    decreases stop
  {
    if stop == start then held
    else Applied(held, changes, start, stop - 1) - changes[stop].removed + changes[stop].added
  }

  /** `stop` is as far as the changes reach from `start` without a gap. */
  ghost predicate Reaches(changes: map<nat, Change>, start: nat, stop: nat) {
    start <= stop && stop + 1 !in changes && forall k :: start < k <= stop ==> k in changes
  }

  function Above(changes: map<nat, Change>, n: nat): map<nat, Change> {
    map k | k in changes && k > n :: changes[k]
  }

  /** From `s` with these changes at hand, `t` is as far as they go: what lies
      behind a gap waits, and only that or a required checkpoint keeps the rank
      out of the confirmed ones. */
  ghost predicate CaughtUp(s: RankState, changes: map<nat, Change>, t: RankState) {
    && Reaches(changes, s.sequence, t.sequence)
    && t.held == Applied(s.held, changes, s.sequence, t.sequence)
    && t.pending == Above(changes, t.sequence)
    && (t.desynchronized <==> t.pending != map[] || t.requiresCheckpoint)
    && t.checkpoint == s.checkpoint && SameProcess(s, t)
  }

  /** The changes lie ahead and each follows its own number's predecessor. */
  predicate Ahead(changes: map<nat, Change>, sequence: nat) {
    forall k :: k in changes ==> k > sequence && changes[k].baseSequence == k - 1
  }

  lemma {:induction false} AppliedFirst(held: set<Digest>, changes: map<nat, Change>, start: nat, stop: nat)
    requires start < stop && forall k :: start < k <= stop ==> k in changes
    ensures Applied(held, changes, start, stop)
            == Applied(held - changes[start + 1].removed + changes[start + 1].added, changes, start + 1, stop)
    decreases stop
  {
    if start + 1 < stop {
      AppliedFirst(held, changes, start, stop - 1);
    } else {
      assert Applied(held, changes, start, start) == held;
    }
  }

  lemma {:induction false} AppliedSame(
    held: set<Digest>, a: map<nat, Change>, b: map<nat, Change>, start: nat, stop: nat)
    requires start <= stop && forall k :: start < k <= stop ==> k in a && k in b && a[k] == b[k]
    ensures Applied(held, a, start, stop) == Applied(held, b, start, stop)
    decreases stop
  {
    if start < stop {
      AppliedSame(held, a, b, start, stop - 1);
    }
  }

  ghost predicate Rolled(s: RankState, t: RankState) {
    && Reaches(s.pending, s.sequence, t.sequence)
    && t.held == Applied(s.held, s.pending, s.sequence, t.sequence)
    && t.pending == Above(s.pending, t.sequence)
    && t.checkpoint == s.checkpoint && SameProcess(s, t)
    && t.requiresCheckpoint == s.requiresCheckpoint && t.desynchronized == s.desynchronized
  }

  /** `s` after its next change. */
  function Advanced(s: RankState): RankState
    requires s.sequence + 1 in s.pending
  {
    var c := s.pending[s.sequence + 1];
    s.(pending := s.pending - {s.sequence + 1}, held := s.held - c.removed + c.added, sequence := s.sequence + 1)
  }

  lemma RolledNext(s: RankState, t: RankState)
    requires s.sequence + 1 in s.pending && Ahead(s.pending, s.sequence) && Rolled(Advanced(s), t)
    ensures Rolled(s, t)
  {
    var u := Advanced(s);
    forall k | s.sequence < k <= t.sequence
      ensures k in s.pending && (k > s.sequence + 1 ==> k in u.pending && u.pending[k] == s.pending[k])
    {
      assert k == s.sequence + 1 || k in u.pending;
    }
    assert t.sequence + 1 !in s.pending;
    assert Above(s.pending, t.sequence) == Above(u.pending, t.sequence);
    hide Ahead, Above;
    AppliedFirst(s.held, s.pending, s.sequence, t.sequence);
    AppliedSame(u.held, s.pending, u.pending, u.sequence, t.sequence);
  }

  lemma RolledAlready(s: RankState)
    requires s.sequence + 1 !in s.pending && Ahead(s.pending, s.sequence)
    ensures Rolled(s, s)
  {
    assert Above(s.pending, s.sequence) == s.pending;
  }

  function NextView(v: RankView, rank: int): RankView
    requires v.state.sequence + 1 in v.state.pending
  {
    var next := v.state.sequence + 1;
    var rest := v.state.pending - {next};
    var applied := ApplyChange(v.(state := v.state.(pending := rest)), rank, v.state.pending[next]);
    applied.(state := applied.state.(sequence := next))
  }

  lemma ReadyOnce(v: RankView, rank: int)
    requires v.state.sequence + 1 in v.state.pending
    requires v.state.pending[v.state.sequence + 1].baseSequence == v.state.sequence
    ensures ApplyReady(v, rank) == ApplyReady(NextView(v, rank), rank)
  {
    hide ApplyChange;
  }

  lemma NextViewIs(v: RankView, rank: int)
    requires v.state.sequence + 1 in v.state.pending && Ahead(v.state.pending, v.state.sequence)
    ensures var w := NextView(v, rank).state;
            w == Advanced(v.state) && |w.pending| < |v.state.pending| && Ahead(w.pending, w.sequence)
  {
    hide Publish, WithdrawFrom;
    var s, next := v.state, v.state.sequence + 1;
    var rest := s.pending - {next};
    assert rest.Keys == s.pending.Keys - {next};
    assert |rest| == |rest.Keys| && |s.pending| == |s.pending.Keys|;
  }

  lemma NextBase(s: RankState)
    requires s.sequence + 1 in s.pending && Ahead(s.pending, s.sequence)
    ensures s.pending[s.sequence + 1].baseSequence == s.sequence
  {
  }

  lemma NotReady(v: RankView, rank: int)
    requires v.state.sequence + 1 !in v.state.pending
    ensures ApplyReady(v, rank) == v
  {
  }

  lemma {:induction false} ReadyExact(v: RankView, rank: int)
    requires Ahead(v.state.pending, v.state.sequence)
    ensures Rolled(v.state, ApplyReady(v, rank).state)
    decreases |v.state.pending|
  {
    hide *;
    if v.state.sequence + 1 in v.state.pending {
      var w := NextView(v, rank);
      NextBase(v.state);
      ReadyOnce(v, rank);
      NextViewIs(v, rank);
      ReadyExact(w, rank);
      RolledNext(v.state, ApplyReady(w, rank).state);
    } else {
      NotReady(v, rank);
      RolledAlready(v.state);
    }
  }

  lemma DrainExact(v: RankView, rank: int)
    requires Ahead(v.state.pending, v.state.sequence)
    ensures CaughtUp(v.state, v.state.pending, Drain(v, rank).state)
    ensures Drain(v, rank).state.requiresCheckpoint == v.state.requiresCheckpoint
  {
    ReadyExact(v, rank);
    hide Reaches, Applied, ApplyReady;
  }

  lemma AdmitExact(v: RankView, rank: int, c: Change)
    requires Ahead(v.state.pending, v.state.sequence)
    requires c.sequence > v.state.sequence && c.baseSequence == c.sequence - 1
    ensures CaughtUp(v.state, v.state.pending[c.sequence := c], Admit(v, rank, c).state)
    ensures Admit(v, rank, c).state.requiresCheckpoint == v.state.requiresCheckpoint
  {
    var w := v.(state := v.state.(pending := v.state.pending[c.sequence := c]));
    DrainExact(if c.baseSequence != v.state.sequence then MarkDesynchronized(w, rank) else w, rank);
    hide Reaches, Applied, Drain;
  }

  /** The delta as it waits. */
  function Waiting(d: Delta): Change
    requires d.sequence >= 0 && d.baseSequence >= 0
  {
    Change(d.sequence, d.baseSequence, Digests(d.added), Digests(d.removed))
  }

  lemma DeltaNumbers(d: Delta)
    requires WellFormedDelta(d)
    ensures d.baseSequence >= 0 && d.sequence == d.baseSequence + 1 && Normalize(d) == Waiting(d)
  {
  }

  lemma ShapeAhead(s: RankState)
    requires PendingShape(s)
    ensures Ahead(s.pending, s.sequence)
    ensures forall last :: Ahead(s.pending - {last}, s.sequence)
  {
  }

  lemma RoomExact(v: RankView, rank: int, d: Delta)
    requires PendingShape(v.state) && WellFormedDelta(d)
    requires d.sequence > v.state.sequence && d.sequence !in v.state.pending
    requires |v.state.pending| < PENDING_DELTA_LIMIT
    ensures CaughtUp(v.state, v.state.pending[d.sequence := Waiting(d)], AbsorbDelta(v, rank, d).state)
    ensures AbsorbDelta(v, rank, d).state.requiresCheckpoint == v.state.requiresCheckpoint
  {
    DeltaNumbers(d);
    ShapeAhead(v.state);
    hide WellFormedDelta, CaughtUp, Admit, Digests, Normalize, PendingShape, Ahead;
    AdmitExact(v, rank, Waiting(d));
  }

  /** The waiting delta that is furthest ahead. */
  ghost predicate Last(pending: map<nat, Change>, last: nat) {
    last in pending && forall k :: k in pending ==> k <= last
  }

  lemma FullExact(v: RankView, rank: int, d: Delta) returns (last: nat)
    requires PendingShape(v.state) && WellFormedDelta(d)
    requires d.sequence > v.state.sequence && d.sequence !in v.state.pending
    requires |v.state.pending| >= PENDING_DELTA_LIMIT
    ensures Last(v.state.pending, last)
    ensures var s, t := v.state, AbsorbDelta(v, rank, d).state;
            && t.requiresCheckpoint && t.desynchronized
            && if d.sequence > last then t == s.(requiresCheckpoint := true, desynchronized := true)
               else CaughtUp(s, (s.pending - {last})[d.sequence := Waiting(d)], t)
  {
    var s := v.state;
    last := MaxOf(s.pending.Keys);
    DeltaNumbers(d);
    ShapeAhead(s);
    var w := DemandCheckpoint(v, rank);
    assert w.state == s.(requiresCheckpoint := true, desynchronized := true);
    hide WellFormedDelta, CaughtUp, Admit, Digests, Normalize, PendingShape, Ahead, DemandCheckpoint;
    if d.sequence < last {
      var u := w.(state := w.state.(pending := s.pending - {last}));
      AdmitExact(u, rank, Waiting(d));
      SameStart(s, u.state, u.state.pending[d.sequence := Waiting(d)], Admit(u, rank, Waiting(d)).state);
    }
  }

  /** What a new delta does, exactly. It joins those waiting, and everything that
      is now in sequence is applied. Beyond sixty-four waiting ones a checkpoint
      is required, and the delta furthest ahead is given up. */
  lemma AbsorbDeltaExact(v: RankView, rank: int, d: Delta)
    requires PendingShape(v.state) && WellFormedDelta(d)
    requires d.sequence > v.state.sequence && d.sequence !in v.state.pending
    ensures var s, t := v.state, AbsorbDelta(v, rank, d).state;
            if |s.pending| < PENDING_DELTA_LIMIT then
              CaughtUp(s, s.pending[d.sequence := Waiting(d)], t) && t.requiresCheckpoint == s.requiresCheckpoint
            else
              && t.requiresCheckpoint && t.desynchronized
              && exists last: nat :: Last(s.pending, last)
                   && if d.sequence > last then t == s.(requiresCheckpoint := true, desynchronized := true)
                      else CaughtUp(s, (s.pending - {last})[d.sequence := Waiting(d)], t)
  {
    hide *;
    if |v.state.pending| < PENDING_DELTA_LIMIT {
      RoomExact(v, rank, d);
    } else {
      var last := FullExact(v, rank, d);
    }
  }

  lemma SameStart(s: RankState, u: RankState, changes: map<nat, Change>, t: RankState)
    requires CaughtUp(u, changes, t) && u.sequence == s.sequence && u.held == s.held
    requires u.checkpoint == s.checkpoint && SameProcess(s, u)
    ensures CaughtUp(s, changes, t)
    ensures t.requiresCheckpoint ==> t.desynchronized
  {
    hide Reaches, Applied;
  }

  /** The other deltas: malformed, old and repeated ones change nothing, and one
      that contradicts a waiting delta demands a checkpoint and moves nothing. */
  lemma OtherDeltas(v: RankView, rank: int, d: Delta)
    requires !WellFormedDelta(d) || d.sequence <= v.state.sequence || d.sequence in v.state.pending
    ensures var t := AbsorbDelta(v, rank, d).state;
            if WellFormedDelta(d) && d.sequence > v.state.sequence
               && v.state.pending[d.sequence] != Waiting(d)
            then t == v.state.(requiresCheckpoint := true, desynchronized := true)
            else AbsorbDelta(v, rank, d) == v
  {
    hide WellFormedDelta;
  }

  /** The delta next in sequence is applied. */
  lemma NextDeltaApplies(v: RankView, rank: int, d: Delta)
    requires PendingShape(v.state) && WellFormedDelta(d)
    requires d.baseSequence == v.state.sequence && d.sequence !in v.state.pending
    requires |v.state.pending| < PENDING_DELTA_LIMIT
    ensures var s, t := v.state, AbsorbDelta(v, rank, d).state;
            && t.sequence >= d.sequence
            && (s.pending == map[] ==>
                  && t.sequence == d.sequence && t.pending == map[]
                  && t.held == s.held - Digests(d.removed) + Digests(d.added)
                  && t.requiresCheckpoint == s.requiresCheckpoint && (t.desynchronized <==> s.requiresCheckpoint))
  {
    DeltaNumbers(d);
    var s, t := v.state, AbsorbDelta(v, rank, d).state;
    var changes := s.pending[d.sequence := Waiting(d)];
    RoomExact(v, rank, d);
    hide *;
    NextCaughtUp(s, changes, t);
    if s.pending == map[] {
      OneCaughtUp(s, Waiting(d), t);
    }
    WaitingParts(d);
  }

  lemma WaitingParts(d: Delta)
    requires d.sequence >= 0 && d.baseSequence >= 0
    ensures Waiting(d).sequence == d.sequence && Waiting(d).baseSequence == d.baseSequence
    ensures Waiting(d).added == Digests(d.added) && Waiting(d).removed == Digests(d.removed)
  {
  }

  lemma NextCaughtUp(s: RankState, changes: map<nat, Change>, t: RankState)
    requires CaughtUp(s, changes, t) && s.sequence + 1 in changes
    ensures t.sequence >= s.sequence + 1
  {
    hide Applied, Above;
  }

  lemma OneCaughtUp(s: RankState, c: Change, t: RankState)
    requires CaughtUp(s, map[s.sequence + 1 := c], t)
    ensures t.sequence == s.sequence + 1 && t.held == s.held - c.removed + c.added && t.pending == map[]
    ensures t.desynchronized <==> t.requiresCheckpoint
  {
    var changes := map[s.sequence + 1 := c];
    assert t.sequence == s.sequence + 1 by {
      hide Applied, Above;
    }
    assert Applied(s.held, changes, s.sequence, s.sequence) == s.held;
  }

  /** A delta behind a gap waits, and the rank confirms nothing meanwhile. */
  lemma EarlyDeltaWaits(v: RankView, rank: int, d: Delta)
    requires PendingShape(v.state) && WellFormedDelta(d) && v.state.sequence + 1 !in v.state.pending
    requires d.baseSequence > v.state.sequence && d.sequence !in v.state.pending
    requires |v.state.pending| < PENDING_DELTA_LIMIT
    ensures var s, t := v.state, AbsorbDelta(v, rank, d).state;
            && t.sequence == s.sequence && t.held == s.held && t.desynchronized
            && t.pending.Keys == s.pending.Keys + {d.sequence}
  {
    RoomExact(v, rank, d);
    DeltaNumbers(d);
    var s, t := v.state, AbsorbDelta(v, rank, d).state;
    var changes := s.pending[d.sequence := Waiting(d)];
    hide AbsorbDelta, WellFormedDelta, Digests;
    assert Reaches(changes, s.sequence, t.sequence) && s.sequence + 1 !in changes;
    assert t.sequence == s.sequence;
    assert d.sequence in t.pending;
  }

  // ---- which deltas are well formed ----

  /** A list of distinct digests, with nothing else in it. */
  predicate DistinctDigests(ws: seq<WireValue>) {
    && (forall i :: 0 <= i < |ws| ==> ws[i].Sha?)
    && forall i, j :: 0 <= i < j < |ws| ==> ws[i] != ws[j]
  }

  lemma {:induction false} DigestsCount(ws: seq<WireValue>)
    ensures |Digests(ws)| <= |ws|
    ensures |Digests(ws)| == |ws| <==> DistinctDigests(ws)
  {
    if ws == [] {
      assert Digests(ws) == {};
    } else {
      var front, last := ws[..|ws| - 1], ws[|ws| - 1];
      DigestsCount(front);
      assert ws == front + [last];
      if last.Sha? {
        assert Digests(ws) == Digests(front) + {last.digest};
        assert last.digest in Digests(front) <==> last in front;
      } else {
        assert Digests(ws) == Digests(front);
      }
      DistinctFront(front, last);
    }
  }

  lemma DistinctFront(front: seq<WireValue>, last: WireValue)
    ensures DistinctDigests(front + [last]) <==> DistinctDigests(front) && last.Sha? && last !in front
  {
    var ws := front + [last];
    if DistinctDigests(ws) {
      assert ws[|front|] == last;
      forall i | 0 <= i < |front|
        ensures front[i].Sha? && front[i] != last
      {
        assert ws[i] == front[i];
      }
      forall i, j | 0 <= i < j < |front|
        ensures front[i] != front[j]
      {
        assert ws[i] == front[i] && ws[j] == front[j];
      }
    }
  }

  /** A delta is well formed exactly when it leads from one number to the next,
      names at most sixty-four digests, and names each of them once. */
  lemma WellFormedExactly(d: Delta)
    ensures WellFormedDelta(d) <==>
              && d.baseSequence >= 0 && d.sequence == d.baseSequence + 1
              && |d.added| + |d.removed| <= REPORT_BATCH_SIZE
              && DistinctDigests(d.added + d.removed)
  {
    var all := d.added + d.removed;
    var a, r := Digests(d.added), Digests(d.removed);
    assert Digests(all) == a + r;
    hide Digests, DistinctDigests;
    DigestsCount(d.added);
    DigestsCount(d.removed);
    DigestsCount(all);
    DisjointCount(a, r);
  }

  lemma DisjointCount(a: set<Digest>, r: set<Digest>)
    ensures |a + r| <= |a| + |r|
    ensures |a + r| == |a| + |r| <==> a !! r
  {
    assert a + r == a + (r - a);
    assert r == (r - a) + a * r;
    assert a * r == {} <==> a !! r;
  }

  // ---- nothing that could be applied waits ----

  predicate Drained(s: RankState) {
    s.sequence + 1 !in s.pending
  }

  lemma CaughtUpDrained(s: RankState, changes: map<nat, Change>, t: RankState)
    requires CaughtUp(s, changes, t)
    ensures Drained(t)
  {
    hide Applied;
  }

  lemma DeltaDrained(v: RankView, rank: int, d: Delta)
    requires PendingShape(v.state) && Drained(v.state)
    ensures Drained(AbsorbDelta(v, rank, d).state)
  {
    if WellFormedDelta(d) && d.sequence > v.state.sequence && d.sequence !in v.state.pending {
      DeltaNumbers(d);
      var s, t := v.state, AbsorbDelta(v, rank, d).state;
      hide AbsorbDelta, WellFormedDelta, CaughtUp, PendingShape;
      if |s.pending| < PENDING_DELTA_LIMIT {
        RoomExact(v, rank, d);
        CaughtUpDrained(s, s.pending[d.sequence := Waiting(d)], t);
      } else {
        var last := FullExact(v, rank, d);
        if d.sequence <= last {
          CaughtUpDrained(s, (s.pending - {last})[d.sequence := Waiting(d)], t);
        }
      }
    } else {
      OtherDeltas(v, rank, d);
    }
  }

  lemma InstallDrained(v: RankView, rank: int, held: set<Digest>, sequence: nat)
    requires PendingShape(v.state)
    ensures Drained(Install(v, rank, held, sequence).state)
  {
    var s := v.state;
    var kept := map k | k in s.pending && k > sequence :: s.pending[k];
    var t := s.(desynchronized := true, held := held, sequence := sequence, pending := kept,
                requiresCheckpoint := false, checkpoint := None);
    DrainExact(RankView(t, Withdraw(v.quorum, rank)), rank);
    hide Drain, CaughtUp;
    CaughtUpDrained(t, kept, Drain(RankView(t, Withdraw(v.quorum, rank)), rank).state);
  }

  lemma AddChunkDrained(v: RankView, rank: int, a: ActiveCheckpoint, index: nat, chunk: seq<Digest>)
    requires PendingShape(v.state) && Drained(v.state)
    ensures Drained(AddChunk(v, rank, a, index, chunk).state)
  {
    hide Install, Assembled;
    var b := a.(chunks := a.chunks[index := chunk]);
    InstallDrained(v.(state := v.state.(checkpoint := Some(b))), rank, Assembled(b), a.stateSequence);
  }

  lemma CheckpointDrained(v: RankView, rank: int, c: Checkpoint)
    requires PendingShape(v.state) && Drained(v.state)
    ensures Drained(AbsorbCheckpoint(v, rank, c).state)
  {
    hide AddChunk, PendingShape, Drained;
    if WellFormedCheckpoint(c) {
      var w := if c.stateSequence > v.state.sequence then MarkDesynchronized(v, rank) else v;
      SameNumbers(v.state, w.state);
      SameNumbers(v.state, w.state.(checkpoint := Some(Begun(c))));
      SameNumbers(v.state, DemandCheckpoint(w, rank).state);
      SameNumbers(v.state, v.state.(checkpoint := None));
      AddChunkDrained(w.(state := w.state.(checkpoint := Some(Begun(c)))), rank, Begun(c), c.index, Unwire(c.held));
      if w.state.checkpoint.Some? {
        AddChunkDrained(w, rank, w.state.checkpoint.value, c.index, Unwire(c.held));
      }
    }
  }

  lemma SameNumbers(s: RankState, t: RankState)
    requires t.sequence == s.sequence && t.pending == s.pending
    ensures PendingShape(s) <==> PendingShape(t)
    ensures Drained(s) <==> Drained(t)
  {
  }

  lemma BodyDrained(v: RankView, m: Report, dropped: set<Digest>)
    requires Sound(v, m.rank, dropped) && Drained(v.state)
    ensures Drained(AbsorbBody(v, m).state)
  {
    var w := if m.delta.Some? then AbsorbDelta(v, m.rank, m.delta.value) else v;
    hide AbsorbDelta, AbsorbCheckpoint, TableAgrees, Drained, PendingShape;
    if m.delta.Some? {
      DeltaDrained(v, m.rank, m.delta.value);
      AbsorbDeltaKeeps(v, m.rank, m.delta.value, dropped);
    }
    if m.checkpoint.Some? {
      CheckpointDrained(w, m.rank, m.checkpoint.value);
    }
  }

  ghost predicate AllDrained(s: Sched) {
    forall r :: r in s.ranks ==> Drained(s.ranks[r])
  }

  lemma ReportDrained(s: Sched, m: Report, dropped: set<Digest>)
    requires SchedSound(s, dropped) && AllDrained(s)
    ensures AllDrained(AbsorbReport(s, m))
  {
    if DeliverableReport(s, m) {
      var u := RankView(s.ranks[m.rank], s.quorum);
      var v := EnterGeneration(u, m.rank, m.generation, m.epoch);
      assert Sound(u, m.rank, dropped);
      assert Drained(u.state);
      assert Drained(v.state);
      EnterGenerationKeeps(u, m.rank, m.generation, m.epoch, dropped);
      hide Sound, AbsorbBody, EnterGeneration, Drained;
      BodyDrained(v, m, dropped);
    }
  }

  /** In every run no rank has a delta waiting that could be applied now. */
  lemma {:induction false} NothingDue(degree: nat, actions: seq<Action>)
    ensures AllDrained(Run(degree, actions).sched)
  {
    if actions == [] {
      assert forall r :: r in NewSched(degree).ranks ==> NewSched(degree).ranks[r] == UnheardRank(r);
    } else {
      var earlier := actions[..|actions| - 1];
      NothingDue(degree, earlier);
      RunKeeps(degree, earlier);
      hide *;
      StepDrained(Run(degree, earlier), actions[|actions| - 1]);
      RunStep(degree, actions);
    }
  }

  lemma RunStep(degree: nat, actions: seq<Action>)
    requires actions != []
    ensures Run(degree, actions) == Step(Run(degree, actions[..|actions| - 1]), actions[|actions| - 1])
  {
    hide Step;
  }

  lemma StepDrained(sys: System, a: Action)
    requires Inv(sys) && AllDrained(sys.sched)
    ensures AllDrained(Step(sys, a).sched)
  {
    hide SchedSound, Drained, AbsorbReport, ProcInv, HonestReport, FollowsProc;
    if a.Deliver? {
      ReportDrained(sys.sched, a.report, sys.dropped);
    }
  }

  // ---- restarted processes are heard ----

  /** Which process a rank follows after a well-formed report: the one it
      followed, or a new one unless it is among the last retired. A new one
      starts from nothing, and the old one is retired and confirms nothing. */
  lemma NewGenerationHeard(s: Sched, m: Report)
    requires 0 <= m.rank < s.degree && m.rank in s.ranks
    requires m.generation != "" && m.generation != MISSING_GENERATION && m.epoch.Some?
    requires s.ranks[m.rank].generation != Some(m.generation)
    ensures var prior := s.ranks[m.rank];
            var retired := if prior.generation.Some? then LastRetired(prior.retired + [prior.generation.value]) else prior.retired;
            var anew := RankState(Some(m.generation), m.epoch, retired, 0, {}, map[], None, false, false);
            if m.generation in prior.retired then AbsorbReport(s, m) == s
            else exists q ::
                   && (forall d :: Confirmed(q, d) == Confirmed(s.quorum, d) - {m.rank})
                   && AbsorbReport(s, m).ranks == s.ranks[m.rank := AbsorbBody(RankView(anew, q), m).state]
                   && AbsorbReport(s, m).quorum == AbsorbBody(RankView(anew, q), m).quorum
  {
    hide AbsorbBody, LastRetired;
    if m.generation !in s.ranks[m.rank].retired {
      ConfirmedAfterWithdraw(s.quorum, m.rank);
      var v := EnterGeneration(RankView(s.ranks[m.rank], s.quorum), m.rank, m.generation, m.epoch);
      hide Confirmed, Withdraw;
      assert forall d :: Confirmed(v.quorum, d) == Confirmed(s.quorum, d) - {m.rank};
    }
  }

  /** In every run, delivering a report makes its rank follow its process, unless
      that is one of the last sixty-four the rank has given up for another. */
  lemma RestartIsHeard(degree: nat, actions: seq<Action>, m: Report)
    requires m in Run(degree, actions).sent && 0 <= m.rank < degree
    ensures RankIn(Step(Run(degree, actions), Deliver(m)).sched, m.rank).generation == Some(m.generation)
            <==> m.generation !in LastRetired(Replaced(degree, actions, m.rank))
  {
    hide *;
    RunKeeps(degree, actions);
    RetiredAreTheNewestReplaced(degree, actions, m.rank);
    RankThere(Run(degree, actions), m.rank);
    HeardFacts(Run(degree, actions), m);
    Followed(Run(degree, actions), m);
  }

  lemma RankThere(sys: System, rank: int)
    requires rank in sys.sched.ranks && Inv(sys)
    ensures 0 <= rank < sys.sched.degree
    ensures RankIn(sys.sched, rank) == sys.sched.ranks[rank]
  {
    hide Sound, HonestReport, ProcInv, FollowsProc;
  }

  lemma Followed(sys: System, m: Report)
    requires m in sys.sent && 0 <= m.rank < sys.sched.degree && m.rank in sys.sched.ranks
    requires m.generation != "" && m.generation != MISSING_GENERATION && m.epoch.Some?
    requires var s := sys.sched.ranks[m.rank];
             && (s.generation == Some(m.generation) ==> s.epoch == m.epoch)
             && (s.generation.Some? ==> s.generation.value !in s.retired)
    ensures RankIn(Step(sys, Deliver(m)).sched, m.rank).generation == Some(m.generation)
            <==> m.generation !in sys.sched.ranks[m.rank].retired
  {
    hide AbsorbBody, LastRetired;
    if DeliverableReport(sys.sched, m) {
      BodyKeepsProcess(
        EnterGeneration(RankView(sys.sched.ranks[m.rank], sys.sched.quorum), m.rank, m.generation, m.epoch), m);
    }
  }

  lemma HeardFacts(sys: System, m: Report)
    requires Inv(sys) && m in sys.sent && m.rank in sys.sched.ranks
    ensures m.generation != "" && m.generation != MISSING_GENERATION && m.epoch.Some?
    ensures sys.sched.ranks[m.rank].generation == Some(m.generation) ==> sys.sched.ranks[m.rank].epoch == m.epoch
  {
    hide HonestRank, HonestDelta, HonestCheckpoint, SchedSound;
    assert HonestReport(sys.procs, m);
    assert ProcInv(m.generation, sys.procs[m.generation]);
    assert FollowsProc(sys.procs, m.rank, sys.sched.ranks[m.rank]);
  }
}
