// Rebuilding a page history in place: mutable layer buffers, a complete digest
// proof at every boundary, and no way back from a rejected stage.
module PageReconstruction {
  import opened Common
  import opened Pages
  import opened PageDelta
  import opened PageHistoryTheorems

  /** What a reconstruction holds: a proved snapshot, or nothing usable. */
  datatype History = Proved(current: Verified, counts: seq<int>, boundary: int) | Broken

  function StepHistory(lib: Library, layout: PageLayout, h: History, stage: Stage): Result<History, PageError>
    requires ValidLayout(layout)
  {
    if h.Broken? then Err(UnverifiedStage)
    else if stage.bounds.baseCounts != h.counts || stage.bounds.baseBoundary != h.boundary then Err(BoundaryDiffers)
    else
      var next :- ApplyDelta(lib, layout, h.current, stage.delta, stage.bounds);
      Ok(Proved(next, stage.bounds.resultCounts, stage.bounds.resultBoundary))
  }

  function OrBroken(r: Result<History, PageError>): History {
    if r.Ok? then r.value else Broken
  }

  /** The first `n` stages fed to one reconstruction. */
  function RunHistory(lib: Library, layout: PageLayout, h: History, stages: seq<Stage>, n: nat): History
    requires ValidLayout(layout) && n <= |stages|
  {
    if n == 0 then h else OrBroken(StepHistory(lib, layout, RunHistory(lib, layout, h, stages, n - 1), stages[n - 1]))
  }

  /** Stage `s` starts where the one before it ended. */
  predicate MeetsAt(counts: seq<int>, boundary: int, stages: seq<Stage>, s: nat)
    requires s < |stages|
  {
    && stages[s].bounds.baseCounts == (if s == 0 then counts else stages[s - 1].bounds.resultCounts)
    && stages[s].bounds.baseBoundary == (if s == 0 then boundary else stages[s - 1].bounds.resultBoundary)
  }

  predicate BoundariesMeet(counts: seq<int>, boundary: int, stages: seq<Stage>, n: nat)
    requires n <= |stages|
  {
    forall s :: 0 <= s < n ==> MeetsAt(counts, boundary, stages, s)
  }

  /** In place is exactly stage by stage: a run ends proved if and only if every
      stage is accepted in turn and the boundaries meet, and then it holds the
      same verified bytes. */
  lemma {:induction false} InPlaceIsSteps(
    lib: Library, layout: PageLayout, base: Verified, counts: seq<int>, boundary: int, stages: seq<Stage>, n: nat)
    requires ValidLayout(layout) && n <= |stages|
    ensures RunHistory(lib, layout, Proved(base, counts, boundary), stages, n)
            == if Steps(lib, layout, base, stages, n).Ok? && BoundariesMeet(counts, boundary, stages, n)
               then Proved(Steps(lib, layout, base, stages, n).value,
                           if n == 0 then counts else stages[n - 1].bounds.resultCounts,
                           if n == 0 then boundary else stages[n - 1].bounds.resultBoundary)
               else Broken
  {
    hide RunHistory, Steps, BoundariesMeet, ApplyDelta;
    if n == 0 {
      Untouched(lib, layout, base, counts, boundary, stages);
    } else {
      InPlaceIsSteps(lib, layout, base, counts, boundary, stages, n - 1);
      RunNext(lib, layout, Proved(base, counts, boundary), stages, n - 1);
      StepsNext(lib, layout, base, stages, n - 1);
      BoundariesMeetNext(counts, boundary, stages, n - 1);
    }
  }

  lemma Untouched(
    lib: Library, layout: PageLayout, base: Verified, counts: seq<int>, boundary: int, stages: seq<Stage>)
    requires ValidLayout(layout)
    ensures RunHistory(lib, layout, Proved(base, counts, boundary), stages, 0) == Proved(base, counts, boundary)
    ensures Steps(lib, layout, base, stages, 0) == Ok(base) && BoundariesMeet(counts, boundary, stages, 0)
  {
  }

  lemma RunNext(lib: Library, layout: PageLayout, h: History, stages: seq<Stage>, n: nat)
    requires ValidLayout(layout) && n < |stages|
    ensures RunHistory(lib, layout, h, stages, n + 1)
            == OrBroken(StepHistory(lib, layout, RunHistory(lib, layout, h, stages, n), stages[n]))
  {
    hide StepHistory, OrBroken;
  }

  lemma BoundariesMeetNext(counts: seq<int>, boundary: int, stages: seq<Stage>, n: nat)
    requires n < |stages|
    ensures BoundariesMeet(counts, boundary, stages, n + 1)
       <==> BoundariesMeet(counts, boundary, stages, n) && MeetsAt(counts, boundary, stages, n)
  {
    hide MeetsAt;
  }

  /** After a rejected stage nothing is ever proved again. */
  lemma {:induction false} BrokenForever(lib: Library, layout: PageLayout, h: History, stages: seq<Stage>, m: nat, n: nat)
    requires ValidLayout(layout) && m <= n <= |stages|
    requires RunHistory(lib, layout, h, stages, m).Broken?
    ensures RunHistory(lib, layout, h, stages, n).Broken?
    decreases n
  {
    hide ApplyDelta;
    if m < n {
      BrokenForever(lib, layout, h, stages, m, n - 1);
    }
  }

  lemma OpenedSnapshot(lib: Library, layout: PageLayout, snapshot: Bytes, counts: seq<int>)
    requires ValidLayout(layout)
    ensures var plan := PlanSnapshot(lib, layout, snapshot, counts, |snapshot|);
            plan.Ok? ==>
              && plan.value.headerBytes <= |snapshot|
              && var layers := Layers(layout, counts, snapshot, plan.value.headerBytes);
                 LayersFit(layout, counts, layers) && snapshot[..plan.value.headerBytes] + Join(layers) == snapshot
  {
    hide Layers, LayerOffset, LayersFit;
    var plan := PlanSnapshot(lib, layout, snapshot, counts, |snapshot|);
    if plan.Ok? {
      FoundLayersFit(layout, counts, snapshot, plan.value.headerBytes);
      JoinOfLayers(layout, counts, snapshot, plan.value.headerBytes);
    }
  }

  class PageHistoryReconstruction {
    const lib: Library
    const layout: PageLayout
    var layers: seq<Bytes>
    var header: Bytes
    var counts: seq<int>
    var boundary: int
    var sha: Hash
    var valid: bool

    /** While proved, header and buffers read back as one snapshot. */
    ghost predicate Valid()
      reads this
    {
      && Faithful(lib) && ValidLayout(layout)
      && (valid ==>
            && LayersFit(layout, counts, layers)
            && var payload := header + Join(layers);
               var plan := PlanSnapshot(lib, layout, payload, counts, |payload|);
               plan.Ok? && plan.value.headerBytes == |header|)
    }

    ghost function View(): History
      reads this
    {
      if valid then Proved(Verified(header + Join(layers), sha), counts, boundary) else Broken
    }

    /** `Err` stands for a constructor that raises; then nothing is proved. */
    constructor (lib: Library, layout: PageLayout, snapshot: Bytes, counts: seq<int>, boundary: int)
      requires Faithful(lib) && ValidLayout(layout)
      ensures Valid() && this.lib == lib && this.layout == layout
      ensures View() == if PlanSnapshot(lib, layout, snapshot, counts, |snapshot|).Ok?
                        then Proved(Verify(lib, snapshot), counts, boundary) else Broken
    {
      hide PlanSnapshot, Faithful, LayersFit, Join, Layers;
      OpenedSnapshot(lib, layout, snapshot, counts);
      var plan := PlanSnapshot(lib, layout, snapshot, counts, |snapshot|);
      this.lib, this.layout, this.counts, this.boundary := lib, layout, counts, boundary;
      this.sha := lib.sha(snapshot);
      this.valid := plan.Ok?;
      this.header := if plan.Ok? then snapshot[..plan.value.headerBytes] else [];
      this.layers := if plan.Ok? then Layers(layout, counts, snapshot, plan.value.headerBytes) else [];
    }

    method Finish() returns (r: Result<Bytes, PageError>)
      requires Valid()
      ensures r == if View().Proved? then Ok(View().current.payload) else Err(UnverifiedStage)
    {
      if !valid {
        return Err(UnverifiedStage);
      }
      var joined := JoinWith(header, layers);
      r := Ok(joined);
    }

    /** One stage: its effect on the proved history is exactly `StepHistory`,
        and any refusal leaves the reconstruction unusable. */
    method Apply(delta: Bytes, b: StageBounds) returns (error: Option<PageError>)
      requires Valid()
      modifies this
      ensures Valid()
      ensures View() == OrBroken(StepHistory(lib, layout, old(View()), Stage(delta, b)))
      ensures error == Failure(StepHistory(lib, layout, old(View()), Stage(delta, b)))
    {
      hide PlanSnapshot, PlanDelta, Faithful, LayersFit, Join, ApplyDelta, NextLayers, TailsAuthentic, PlanFits;
      if !valid {
        return Some(UnverifiedStage);
      }
      ghost var before := layers;
      valid := false;
      if b.baseCounts != counts || b.baseBoundary != boundary {
        return Some(BoundaryDiffers);
      }
      ApplyUnfolds(lib, layout, header, layers, counts, sha, delta, b);
      var planned := PlanPageDelta(lib, layout, delta, b, |delta|);
      if planned.Err? {
        return Some(planned.error);
      }
      var plan := planned.value;
      if plan.baseSha != sha {
        return Some(IdentityDiffers);
      }
      FitTails(layout, plan, b);
      var authentic := CheckTails(lib, plan, delta);
      if !authentic {
        return Some(TailChecksum);
      }
      Overwrite(plan, delta, b);
      var newHeader := lib.snapshotHeader(layout, plan.resultCounts);
      var result := JoinWith(newHeader, layers);
      var resultSha := lib.sha(result);
      if resultSha != plan.resultSha {
        return Some(ResultChecksum);
      }
      ResultFits(lib, layout, b, plan, before, delta);
      header, counts, boundary, sha := newHeader, plan.resultCounts, b.resultBoundary, resultSha;
      valid := true;
      error := None;
    }

    /** Each buffer keeps its prefix, is overwritten up to its old length, and
        then grows: together, the next layers. */
    method Overwrite(plan: DeltaPlan, delta: Bytes, b: StageBounds)
      requires PlanFits(layout, b, plan) && plan.totalBytes <= |delta| && LayersFit(layout, b.baseCounts, layers)
      modifies this`layers
      ensures layers == NextLayers(layout, b, plan, old(layers), delta)
    {
      hide LayerSize, PlanFits, BoundsValid, ReuseFits, TailCounts;
      ghost var next := NextLayers(layout, b, plan, layers, delta);
      assert |plan.tails| == |layers| by { FitTails(layout, plan, b); }
      for i := 0 to |layers|
        invariant |layers| == |next| == |old(layers)| == |plan.tails|
        invariant forall k :: 0 <= k < i ==> layers[k] == next[k]
        invariant forall k :: i <= k < |layers| ==> layers[k] == old(layers)[k]
      {
        var tail := plan.tails[i];
        BufferGrows(layout, plan, b, old(layers), delta, i);
        var existing := |layers[i]| - tail.destinationOffset;
        var middle := tail.sourceStart + existing;
        layers := layers[i := layers[i][..tail.destinationOffset] + delta[tail.sourceStart..middle]];
        layers := layers[i := layers[i] + delta[middle..tail.sourceEnd]];
      }
    }
  }

  function Failure(r: Result<History, PageError>): Option<PageError> {
    if r.Ok? then None else Some(r.error)
  }

  lemma FitTails(layout: PageLayout, plan: DeltaPlan, b: StageBounds)
    requires PlanFits(layout, b, plan)
    ensures |plan.tails| == |layout.layers| && b.resultCounts == plan.resultCounts
    ensures forall i :: 0 <= i < |plan.tails| ==>
              plan.tails[i].sourceStart <= plan.tails[i].sourceEnd <= plan.totalBytes
  {
  }

  /** Overwriting and then growing is keeping the prefix and adding the tail. */
  lemma BufferGrows(layout: PageLayout, plan: DeltaPlan, b: StageBounds, layers: seq<Bytes>, delta: Bytes, i: nat)
    requires PlanFits(layout, b, plan) && plan.totalBytes <= |delta| && LayersFit(layout, b.baseCounts, layers)
    requires i < |layers|
    ensures |plan.tails| == |layers|
    ensures var tail := plan.tails[i];
            && 0 <= tail.destinationOffset <= |layers[i]|
            && var middle := tail.sourceStart + |layers[i]| - tail.destinationOffset;
               && tail.sourceStart <= middle <= tail.sourceEnd <= |delta|
               && layers[i][..tail.destinationOffset] + delta[tail.sourceStart..middle] + delta[middle..tail.sourceEnd]
                  == NextLayers(layout, b, plan, layers, delta)[i]
  {
    hide LayerSize, TailCounts;
    ReusePlusTail(layout, b, plan.reused, i);
    var tail := plan.tails[i];
    SplitSlice(delta, tail.sourceStart, tail.sourceStart + |layers[i]| - tail.destinationOffset, tail.sourceEnd,
               layers[i][..tail.destinationOffset]);
  }

  lemma SplitSlice(bytes: Bytes, lo: nat, mid: nat, hi: nat, front: Bytes)
    requires lo <= mid <= hi <= |bytes|
    ensures front + bytes[lo..mid] + bytes[mid..hi] == front + bytes[lo..hi]
  {
    assert bytes[lo..mid] + bytes[mid..hi] == bytes[lo..hi];
  }

  /** One stage over held layers. */
  function ApplyToLayers(lib: Library, layout: PageLayout, layers: seq<Bytes>, sha: Hash, delta: Bytes, b: StageBounds)
    : Result<Verified, PageError>
    requires ValidLayout(layout) && LayersFit(layout, b.baseCounts, layers)
  {
    var plan :- PlanDelta(lib, layout, delta, b, |delta|);
    if plan.baseSha != sha then Err(IdentityDiffers)
    else if !TailsAuthentic(lib, plan, delta, |plan.tails|) then Err(TailChecksum)
    else
      var result := Snapshot(lib, layout, b.resultCounts, NextLayers(layout, b, plan, layers, delta));
      if lib.sha(result) != plan.resultSha then Err(ResultChecksum) else Ok(Verified(result, lib.sha(result)))
  }

  /** Applying a stage to held bytes is applying it to the held layers. */
  lemma ApplyUnfolds(
    lib: Library, layout: PageLayout, header: Bytes, layers: seq<Bytes>, counts: seq<int>, sha: Hash, delta: Bytes,
    b: StageBounds)
    requires ValidLayout(layout) && LayersFit(layout, counts, layers) && b.baseCounts == counts
    requires var payload := header + Join(layers);
             var plan := PlanSnapshot(lib, layout, payload, counts, |payload|);
             plan.Ok? && plan.value.headerBytes == |header|
    ensures ApplyDelta(lib, layout, Verified(header + Join(layers), sha), delta, b)
            == ApplyToLayers(lib, layout, layers, sha, delta, b)
  {
    hide PlanDelta, PlanSnapshot, LayersFit, Join, NextLayers, TailsAuthentic, PlanFits, Layers;
    LayersOfJoin(layout, counts, header, layers);
  }

  lemma ResultFits(lib: Library, layout: PageLayout, b: StageBounds, plan: DeltaPlan, layers: seq<Bytes>, delta: Bytes)
    requires Faithful(lib) && PlanFits(layout, b, plan) && plan.totalBytes <= |delta|
    requires LayersFit(layout, b.baseCounts, layers)
    ensures plan.resultCounts == b.resultCounts
    ensures var next := NextLayers(layout, b, plan, layers, delta);
            var result := lib.snapshotHeader(layout, b.resultCounts) + Join(next);
            var r := PlanSnapshot(lib, layout, result, b.resultCounts, |result|);
            LayersFit(layout, b.resultCounts, next) && r.Ok? && r.value.headerBytes == |lib.snapshotHeader(layout, b.resultCounts)|
  {
    hide NextLayers, PlanSnapshot, Faithful, Join, LayersFit;
    CanonicalPlan(lib, layout, b.resultCounts, NextLayers(layout, b, plan, layers, delta));
  }

  method CheckTails(lib: Library, plan: DeltaPlan, delta: Bytes) returns (ok: bool)
    requires forall i :: 0 <= i < |plan.tails| ==> plan.tails[i].sourceStart <= plan.tails[i].sourceEnd <= |delta|
    ensures ok == TailsAuthentic(lib, plan, delta, |plan.tails|)
  {
    for i := 0 to |plan.tails|
      invariant TailsAuthentic(lib, plan, delta, i)
    {
      if lib.sha(delta[plan.tails[i].sourceStart..plan.tails[i].sourceEnd]) != plan.tails[i].sha {
        return false;
      }
    }
    ok := true;
  }

  method JoinWith(header: Bytes, layers: seq<Bytes>) returns (joined: Bytes)
    ensures joined == header + Join(layers)
  {
    joined := header;
    for i := 0 to |layers|
      invariant joined == header + Join(layers[..i])
    {
      JoinNext(layers, i);
      joined := joined + layers[i];
    }
    assert layers[..|layers|] == layers;
  }
}
