// The two fast forms of a page history against the slow one: applying every
// stage in turn, each time materialising and hashing the whole snapshot.
module PageHistoryTheorems {
  import opened Common
  import opened Pages
  import opened LayerRanges
  import opened PageDelta
  import opened PageHistory

  datatype Stage = Stage(delta: Bytes, bounds: StageBounds)

  /** Apply the first `n` stages one after another. */
  function Steps(lib: Library, layout: PageLayout, base: Verified, stages: seq<Stage>, n: nat)
    : Result<Verified, PageError>
    requires ValidLayout(layout) && n <= |stages|
  {
    if n == 0 then Ok(base)
    else
      var before :- Steps(lib, layout, base, stages, n - 1);
      ApplyDelta(lib, layout, before, stages[n - 1].delta, stages[n - 1].bounds)
  }

  function PlanOf(lib: Library, layout: PageLayout, stage: Stage): Result<DeltaPlan, PageError>
    requires ValidLayout(layout)
  {
    PlanDelta(lib, layout, stage.delta, stage.bounds, |stage.delta|)
  }

  predicate AllPlan(lib: Library, layout: PageLayout, stages: seq<Stage>, n: nat)
    requires ValidLayout(layout) && n <= |stages|
  {
    forall s :: 0 <= s < n ==> PlanOf(lib, layout, stages[s]).Ok?
  }

  function PlansOf(lib: Library, layout: PageLayout, stages: seq<Stage>): (plans: seq<DeltaPlan>)
    requires ValidLayout(layout) && AllPlan(lib, layout, stages, |stages|)
    ensures |plans| == |stages|
    ensures forall s :: 0 <= s < |stages| ==> plans[s] == PlanOf(lib, layout, stages[s]).value
  {
    seq(|stages|, s requires 0 <= s < |stages| => PlanOf(lib, layout, stages[s]).value)
  }

  lemma PlansArePlanned(lib: Library, layout: PageLayout, stages: seq<Stage>)
    requires ValidLayout(layout) && AllPlan(lib, layout, stages, |stages|)
    ensures Planned(layout, PlansOf(lib, layout, stages))
    ensures forall i :: 0 <= i < |layout.layers| ==> HasLayer(PlansOf(lib, layout, stages), i)
  {
    var plans := PlansOf(lib, layout, stages);
    forall s | 0 <= s < |plans|
      ensures PlanFits(layout, BoundsOf(plans[s]), plans[s])
    {
      PlanIsFit(lib, layout, stages[s]);
    }
    PlannedLayers(layout, plans);
  }

  lemma PlanIsFit(lib: Library, layout: PageLayout, stage: Stage)
    requires ValidLayout(layout) && PlanOf(lib, layout, stage).Ok?
    ensures var plan := PlanOf(lib, layout, stage).value;
            && BoundsOf(plan) == stage.bounds && PlanFits(layout, stage.bounds, plan)
            && plan.totalBytes == |stage.delta|
  {
    hide PlanDelta;
  }

  /** Reading a tail out of the stage file that carries it. */
  function StageReader(stages: seq<Stage>): TailReader {
    (s: nat, tail: DeltaTail) =>
      if s < |stages| && tail.sourceStart <= tail.sourceEnd <= |stages[s].delta|
      then stages[s].delta[tail.sourceStart..tail.sourceEnd] else []
  }

  // ---- only survivors matter ----

  lemma {:induction false} SameMeaning(rs: seq<Range>, base: Bytes, a: seq<Bytes>, b: seq<Bytes>)
    requires Dense(rs, base, a) && Dense(rs, base, b) && |a| == |b|
    requires forall j :: 0 <= j < |rs| && rs[j].owner != BASE ==> 0 <= rs[j].owner < |a| && a[rs[j].owner] == b[rs[j].owner]
    ensures Meaning(rs, base, a) == Meaning(rs, base, b)
  {
    if rs != [] {
      DensePrefix(rs, base, a, |rs| - 1);
      DensePrefix(rs, base, b, |rs| - 1);
      SameMeaning(rs[..|rs| - 1], base, a, b);
      assert rs[|rs| - 1].owner != BASE ==> a[rs[|rs| - 1].owner] == b[rs[|rs| - 1].owner];
    }
  }

  ghost predicate CutoffsFit(layer: Bytes, cutoffs: seq<nat>, tails: seq<Bytes>)
    requires |cutoffs| == |tails|
  {
    forall s :: 0 <= s < |cutoffs| ==> cutoffs[s] <= |Stack(layer, cutoffs, tails, s)|
  }

  /** The ranges of a layer are the same for any tails of the same lengths. */
  lemma {:induction false} OwnedBoth(
    layer: Bytes, cutoffs: seq<nat>, lengths: seq<nat>, a: seq<Bytes>, b: seq<Bytes>, n: nat) returns (rs: seq<Range>)
    requires layer != [] && n <= |cutoffs| == |lengths| == |a| == |b|
    requires forall s :: 0 <= s < |a| ==> |a[s]| == |b[s]| == lengths[s]
    requires CutoffsFit(layer, cutoffs, a) && CutoffsFit(layer, cutoffs, b)
    ensures Owned(rs, layer, layer, cutoffs, lengths, a, n) && Owned(rs, layer, layer, cutoffs, lengths, b, n)
  {
    hide Owned, Overlay, Stack;
    if n == 0 {
      OwnedAtFirst(layer, 0, |layer|, cutoffs, lengths, a);
      OwnedAtFirst(layer, 0, |layer|, cutoffs, lengths, b);
      assert layer[0..|layer|] == layer;
      rs := [Range(0, |layer| - 0, BASE, 0)];
    } else {
      var before := OwnedBoth(layer, cutoffs, lengths, a, b, n - 1);
      OwnedNext(before, layer, layer, cutoffs, lengths, a, n - 1);
      OwnedNext(before, layer, layer, cutoffs, lengths, b, n - 1);
      rs := Overlay(before, cutoffs[n - 1], lengths[n - 1], n - 1).value;
    }
  }

  /** Superseded tails leave no trace: tails that agree on the survivors stack
      to the same layer. */
  lemma SurvivorsDecide(layer: Bytes, cutoffs: seq<nat>, lengths: seq<nat>, a: seq<Bytes>, b: seq<Bytes>)
    requires layer != [] && |cutoffs| == |lengths| == |a| == |b|
    requires forall s :: 0 <= s < |a| ==> |a[s]| == |b[s]| == lengths[s]
    requires CutoffsFit(layer, cutoffs, a) && CutoffsFit(layer, cutoffs, b)
    requires forall s :: 0 <= s < |a| && Survives(cutoffs, lengths, s) ==> a[s] == b[s]
    ensures Stack(layer, cutoffs, a, |a|) == Stack(layer, cutoffs, b, |b|)
  {
    hide Stack, Meaning, Dense, Survives;
    var rs := OwnedBoth(layer, cutoffs, lengths, a, b, |a|);
    assert cutoffs[..|a|] == cutoffs && lengths[..|a|] == lengths;
    SameMeaning(rs, layer, a, b);
  }

  // ---- stage by stage ----

  /** What an accepted stage establishes. */
  lemma ApplyFacts(lib: Library, layout: PageLayout, base: Verified, stage: Stage)
    requires ValidLayout(layout) && ApplyDelta(lib, layout, base, stage.delta, stage.bounds).Ok?
    ensures PlanOf(lib, layout, stage).Ok?
    ensures PlanSnapshot(lib, layout, base.payload, stage.bounds.baseCounts, |base.payload|).Ok?
    ensures var b, plan := stage.bounds, PlanOf(lib, layout, stage).value;
            var basePlan := PlanSnapshot(lib, layout, base.payload, b.baseCounts, |base.payload|).value;
            var layers := Layers(layout, b.baseCounts, base.payload, basePlan.headerBytes);
            && plan.baseSha == base.sha && TailsAuthentic(lib, plan, stage.delta, |plan.tails|)
            && PlanFits(layout, b, plan) && plan.totalBytes == |stage.delta| && LayersFit(layout, b.baseCounts, layers)
            && var result := Snapshot(lib, layout, b.resultCounts, NextLayers(layout, b, plan, layers, stage.delta));
               && ApplyDelta(lib, layout, base, stage.delta, b) == Ok(Verified(result, plan.resultSha))
               && lib.sha(result) == plan.resultSha
  {
    hide PlanDelta, PlanSnapshot, NextLayers, LayersFit, TailsAuthentic, PlanFits;
    var b := stage.bounds;
    var basePlan := PlanSnapshot(lib, layout, base.payload, b.baseCounts, |base.payload|).value;
    FoundLayersFit(layout, b.baseCounts, base.payload, basePlan.headerBytes);
  }

  lemma SameCounts(lib: Library, layout: PageLayout, payload: Bytes, a: seq<int>, b: seq<int>)
    requires ValidLayout(layout)
    requires PlanSnapshot(lib, layout, payload, a, |payload|).Ok? && PlanSnapshot(lib, layout, payload, b, |payload|).Ok?
    ensures a == b
  {
  }

  /** The state after `n` accepted stages, in terms of the stack. */
  ghost predicate Reached(
    lib: Library, layout: PageLayout, base: Verified, counts: seq<int>, stages: seq<Stage>, layers: seq<Bytes>,
    n: nat, v: Verified)
    requires ValidLayout(layout) && AllPlan(lib, layout, stages, |stages|) && n <= |stages|
    requires forall i :: 0 <= i < |layers| ==> HasLayer(PlansOf(lib, layout, stages), i)
  {
    var plans := PlansOf(lib, layout, stages);
    var now := CountsAfter(counts, plans, n);
    var stacked := Stacked(layers, plans, StageReader(stages), n);
    && v.sha == ShaAfter(base.sha, plans, n) && Linked(counts, base.sha, plans, n)
    && PlanSnapshot(lib, layout, v.payload, now, |v.payload|).Ok?
    && Layers(layout, now, v.payload, PlanSnapshot(lib, layout, v.payload, now, |v.payload|).value.headerBytes) == stacked
    && (n > 0 ==> v.payload == Snapshot(lib, layout, now, stacked) && lib.sha(v.payload) == v.sha)
    && forall s :: 0 <= s < n ==> TailsAuthentic(lib, plans[s], stages[s].delta, |plans[s].tails|)
  }

  lemma StackNext(
    lib: Library, layout: PageLayout, stages: seq<Stage>, layers: seq<Bytes>, n: nat)
    requires ValidLayout(layout) && AllPlan(lib, layout, stages, |stages|) && n < |stages|
    requires forall i :: 0 <= i < |layers| ==> HasLayer(PlansOf(lib, layout, stages), i)
    requires LayersFit(layout, stages[n].bounds.baseCounts,
                       Stacked(layers, PlansOf(lib, layout, stages), StageReader(stages), n))
    ensures var plan := PlanOf(lib, layout, stages[n]).value;
            PlanFits(layout, stages[n].bounds, plan) && plan.totalBytes <= |stages[n].delta|
    ensures var plans, read := PlansOf(lib, layout, stages), StageReader(stages);
            NextLayers(layout, stages[n].bounds, plans[n], Stacked(layers, plans, read, n), stages[n].delta)
            == Stacked(layers, plans, read, n + 1)
  {
    hide PlanDelta, LayerSize, TailsFor, Cutoffs, HasLayer;
    var plans, read := PlansOf(lib, layout, stages), StageReader(stages);
    PlanIsFit(lib, layout, stages[n]);
    var before := Stacked(layers, plans, read, n);
    var next := NextLayers(layout, stages[n].bounds, plans[n], before, stages[n].delta);
    forall i | 0 <= i < |layers|
      ensures next[i] == Stacked(layers, plans, read, n + 1)[i]
    {
      PlanSizes(layout, plans[n], i);
      assert plans[n].tails[i].sourceEnd <= |stages[n].delta|;
      assert TailsFor(plans, read, i)[n] == TailBytes(plans[n], stages[n].delta, i);
    }
  }

  lemma ReachedNext(
    lib: Library, layout: PageLayout, base: Verified, counts: seq<int>, stages: seq<Stage>, layers: seq<Bytes>,
    n: nat, v: Verified)
    requires Faithful(lib) && ValidLayout(layout) && AllPlan(lib, layout, stages, |stages|) && n < |stages|
    requires forall i :: 0 <= i < |layers| ==> HasLayer(PlansOf(lib, layout, stages), i)
    requires Reached(lib, layout, base, counts, stages, layers, n, v)
    requires ApplyDelta(lib, layout, v, stages[n].delta, stages[n].bounds).Ok?
    ensures Reached(lib, layout, base, counts, stages, layers, n + 1,
                    ApplyDelta(lib, layout, v, stages[n].delta, stages[n].bounds).value)
  {
    hide PlanDelta, PlanSnapshot, NextLayers, LayersFit, TailsAuthentic, PlanFits, Stacked, Layers, HasLayer,
         ApplyDelta, Faithful, Join, PlanOf, Snapshot, PlansOf, StageReader, AllPlan, Linked, CountsAfter, ShaAfter;
    var plans, read := PlansOf(lib, layout, stages), StageReader(stages);
    LinkedNext(counts, base.sha, plans, n);
    ApplyFacts(lib, layout, v, stages[n]);
    PlanIsFit(lib, layout, stages[n]);
    SameCounts(lib, layout, v.payload, CountsAfter(counts, plans, n), stages[n].bounds.baseCounts);
    StackNext(lib, layout, stages, layers, n);
    ResultPlans(lib, layout, stages[n].bounds, plans[n], Stacked(layers, plans, read, n), stages[n].delta);
  }

  lemma ResultPlans(lib: Library, layout: PageLayout, b: StageBounds, plan: DeltaPlan, layers: seq<Bytes>, delta: Bytes)
    requires Faithful(lib) && PlanFits(layout, b, plan) && plan.totalBytes <= |delta|
    requires LayersFit(layout, b.baseCounts, layers)
    ensures var next := NextLayers(layout, b, plan, layers, delta);
            var result := Snapshot(lib, layout, b.resultCounts, next);
            var r := PlanSnapshot(lib, layout, result, b.resultCounts, |result|);
            r.Ok? && Layers(layout, b.resultCounts, result, r.value.headerBytes) == next
  {
    hide NextLayers, PlanSnapshot, Layers, Faithful, Join, LayersFit;
    var next := NextLayers(layout, b, plan, layers, delta);
    CanonicalPlan(lib, layout, b.resultCounts, next);
    LayersOfJoin(layout, b.resultCounts, lib.snapshotHeader(layout, b.resultCounts), next);
  }

  /** One more stage is applied to what the stages before it made. */
  lemma StepsNext(lib: Library, layout: PageLayout, base: Verified, stages: seq<Stage>, n: nat)
    requires ValidLayout(layout) && n < |stages|
    ensures Steps(lib, layout, base, stages, 0) == Ok(base)
    ensures var before := Steps(lib, layout, base, stages, n);
            Steps(lib, layout, base, stages, n + 1)
            == if before.Err? then before
               else ApplyDelta(lib, layout, before.value, stages[n].delta, stages[n].bounds)
  {
    hide ApplyDelta;
  }

  lemma StepBefore(lib: Library, layout: PageLayout, base: Verified, stages: seq<Stage>, n: nat)
    requires ValidLayout(layout) && n < |stages| && Steps(lib, layout, base, stages, n + 1).Ok?
    ensures Steps(lib, layout, base, stages, n).Ok?
    ensures Steps(lib, layout, base, stages, n + 1)
            == ApplyDelta(lib, layout, Steps(lib, layout, base, stages, n).value, stages[n].delta, stages[n].bounds)
  {
    hide *;
    StepsNext(lib, layout, base, stages, n);
  }

  lemma AllPlanFirst(lib: Library, layout: PageLayout, stages: seq<Stage>)
    requires ValidLayout(layout)
    ensures AllPlan(lib, layout, stages, 0)
  {
  }

  lemma AllPlanNext(lib: Library, layout: PageLayout, stages: seq<Stage>, n: nat)
    requires ValidLayout(layout) && n < |stages|
    requires AllPlan(lib, layout, stages, n) && PlanOf(lib, layout, stages[n]).Ok?
    ensures AllPlan(lib, layout, stages, n + 1)
  {
    hide PlanOf;
  }

  lemma {:induction false} StepsPlan(lib: Library, layout: PageLayout, base: Verified, stages: seq<Stage>, n: nat)
    requires ValidLayout(layout) && n <= |stages| && Steps(lib, layout, base, stages, n).Ok?
    ensures AllPlan(lib, layout, stages, n)
  {
    hide *;
    if n == 0 {
      AllPlanFirst(lib, layout, stages);
    } else {
      StepBefore(lib, layout, base, stages, n - 1);
      StepsPlan(lib, layout, base, stages, n - 1);
      ApplyFacts(lib, layout, Steps(lib, layout, base, stages, n - 1).value, stages[n - 1]);
      AllPlanNext(lib, layout, stages, n - 1);
    }
  }

  lemma {:induction false} StepsFirst(lib: Library, layout: PageLayout, base: Verified, stages: seq<Stage>, n: nat)
    requires ValidLayout(layout) && 0 < n <= |stages| && Steps(lib, layout, base, stages, n).Ok?
    ensures PlanSnapshot(lib, layout, base.payload, stages[0].bounds.baseCounts, |base.payload|).Ok?
  {
    hide PlanDelta, ApplyDelta, PlanSnapshot;
    if n > 1 {
      StepsFirst(lib, layout, base, stages, n - 1);
    } else {
      ApplyFacts(lib, layout, base, stages[0]);
    }
  }

  lemma {:induction false} StepsReach(
    lib: Library, layout: PageLayout, base: Verified, stages: seq<Stage>, layers: seq<Bytes>, n: nat)
    requires Faithful(lib) && ValidLayout(layout) && stages != [] && n <= |stages|
    requires AllPlan(lib, layout, stages, |stages|)
    requires forall i :: 0 <= i < |layers| ==> HasLayer(PlansOf(lib, layout, stages), i)
    requires PlanSnapshot(lib, layout, base.payload, stages[0].bounds.baseCounts, |base.payload|).Ok?
    requires var counts := stages[0].bounds.baseCounts;
             layers == Layers(layout, counts, base.payload,
                              PlanSnapshot(lib, layout, base.payload, counts, |base.payload|).value.headerBytes)
    requires Steps(lib, layout, base, stages, n).Ok?
    ensures Reached(lib, layout, base, stages[0].bounds.baseCounts, stages, layers, n,
                    Steps(lib, layout, base, stages, n).value)
  {
    hide PlanDelta, ApplyDelta, PlanSnapshot, Layers, Faithful, HasLayer, AllPlan;
    if n == 0 {
      assert Stacked(layers, PlansOf(lib, layout, stages), StageReader(stages), 0) == layers;
    } else {
      hide Reached;
      StepsReach(lib, layout, base, stages, layers, n - 1);
      ReachedNext(lib, layout, base, stages[0].bounds.baseCounts, stages, layers, n - 1,
                  Steps(lib, layout, base, stages, n - 1).value);
    }
  }

  // ---- composing is stepping ----

  /** The reader returns a stage's own bytes wherever they still matter. */
  ghost predicate ReadsSurvivors(plans: seq<DeltaPlan>, stages: seq<Stage>, read: TailReader, n: nat)
    requires |plans| == |stages| && forall i :: 0 <= i < n ==> HasLayer(plans, i)
  {
    forall i, s :: 0 <= i < n && 0 <= s < |plans| && LayerSurvives(plans, i, s) ==>
      read(s, plans[s].tails[i]) == StageReader(stages)(s, plans[s].tails[i])
  }

  lemma LinkedCutoffsFit(
    layout: PageLayout, counts: seq<int>, sha: Hash, plans: seq<DeltaPlan>, read: TailReader, layer: Bytes, i: nat)
    requires ValidLayout(layout) && Planned(layout, plans) && i < |layout.layers| && HasLayer(plans, i)
    requires Linked(counts, sha, plans, |plans|)
    requires |counts| == layout.groups && |layer| == LayerSize(layout, counts, i)
    ensures CutoffsFit(layer, Cutoffs(plans, i), TailsFor(plans, read, i))
  {
    hide LayerSize, HasLayer, TailsFor, Cutoffs, Stack, Planned;
    forall s | 0 <= s < |plans|
      ensures Cutoffs(plans, i)[s] <= |Stack(layer, Cutoffs(plans, i), TailsFor(plans, read, i), s)|
    {
      StackSize(layout, counts, sha, plans, read, layer, i, s);
    }
  }

  lemma SameStack(
    layout: PageLayout, counts: seq<int>, sha: Hash, plans: seq<DeltaPlan>, stages: seq<Stage>, read: TailReader,
    layers: seq<Bytes>)
    requires ValidLayout(layout) && Planned(layout, plans) && |plans| == |stages|
    requires forall i :: 0 <= i < |layers| ==> HasLayer(plans, i)
    requires Linked(counts, sha, plans, |plans|) && LayersFit(layout, counts, layers) && CountsPositive(counts)
    requires ReadsSurvivors(plans, stages, read, |layers|)
    ensures Stacked(layers, plans, read, |plans|) == Stacked(layers, plans, StageReader(stages), |plans|)
  {
    hide HasLayer, TailsFor, Cutoffs, Lengths, Stack, Planned, Linked, Survives, CutoffsFit;
    forall i | 0 <= i < |layers|
      ensures Stacked(layers, plans, read, |plans|)[i] == Stacked(layers, plans, StageReader(stages), |plans|)[i]
    {
      MultiplyUp(1, counts[layout.layers[i].group], layout.layers[i].bytesPerPage);
      hide LayerSize;
      LinkedCutoffsFit(layout, counts, sha, plans, read, layers[i], i);
      LinkedCutoffsFit(layout, counts, sha, plans, StageReader(stages), layers[i], i);
      forall s | 0 <= s < |plans| && Survives(Cutoffs(plans, i), Lengths(plans, i), s)
        ensures TailsFor(plans, read, i)[s] == TailsFor(plans, StageReader(stages), i)[s]
      {
        assert LayerSurvives(plans, i, s);
      }
      SurvivorsDecide(layers[i], Cutoffs(plans, i), Lengths(plans, i), TailsFor(plans, read, i),
                      TailsFor(plans, StageReader(stages), i));
    }
  }

  lemma StepsAuthentic(lib: Library, plans: seq<DeltaPlan>, stages: seq<Stage>, read: TailReader, n: nat)
    requires |plans| == |stages| && (forall i :: 0 <= i < n ==> HasLayer(plans, i))
    requires ReadsSurvivors(plans, stages, read, n)
    requires forall s :: 0 <= s < |plans| ==> n <= |plans[s].tails| && TailsAuthentic(lib, plans[s], stages[s].delta, |plans[s].tails|)
    ensures SurvivorsAuthentic(lib, plans, read, n)
  {
    hide Survives, HasLayer;
    forall i, s | 0 <= i < n && 0 <= s < |plans| && LayerSurvives(plans, i, s)
      ensures Authentic(lib, plans[s].tails[i], read(s, plans[s].tails[i]))
    {
      assert read(s, plans[s].tails[i]) == TailBytes(plans[s], stages[s].delta, i);
    }
  }

  /** Composition refines stepping. For every base and every non-empty chain of
      stages that are accepted one after another, composing their plans gives
      the very same verified snapshot, whatever the reader would return for
      tails that later stages supersede. No property of the hash is used. */
  lemma ComposeRefinesSteps(lib: Library, layout: PageLayout, base: Verified, stages: seq<Stage>, read: TailReader)
    requires Faithful(lib) && ValidLayout(layout) && stages != []
    requires Steps(lib, layout, base, stages, |stages|).Ok?
    ensures AllPlan(lib, layout, stages, |stages|)
    ensures var plans := PlansOf(lib, layout, stages);
            && Planned(layout, plans) && (forall i :: 0 <= i < |layout.layers| ==> HasLayer(plans, i))
            && (ReadsSurvivors(plans, stages, read, |layout.layers|) ==>
                  Composed(lib, layout, base, stages[0].bounds.baseCounts, plans, read)
                  == Steps(lib, layout, base, stages, |stages|))
  {
    StepsPlan(lib, layout, base, stages, |stages|);
    PlansArePlanned(lib, layout, stages);
    if ReadsSurvivors(PlansOf(lib, layout, stages), stages, read, |layout.layers|) {
      ComposeOverSteps(lib, layout, base, stages, read);
    }
  }

  lemma ComposeOverSteps(lib: Library, layout: PageLayout, base: Verified, stages: seq<Stage>, read: TailReader)
    requires Faithful(lib) && ValidLayout(layout) && stages != []
    requires Steps(lib, layout, base, stages, |stages|).Ok?
    requires AllPlan(lib, layout, stages, |stages|) && Planned(layout, PlansOf(lib, layout, stages))
    requires forall i :: 0 <= i < |layout.layers| ==> HasLayer(PlansOf(lib, layout, stages), i)
    requires ReadsSurvivors(PlansOf(lib, layout, stages), stages, read, |layout.layers|)
    ensures Composed(lib, layout, base, stages[0].bounds.baseCounts, PlansOf(lib, layout, stages), read)
            == Steps(lib, layout, base, stages, |stages|)
  {
    hide PlanDelta, PlanSnapshot, LayersFit, TailsAuthentic, PlanFits, Stacked, Layers, HasLayer, AllPlan,
         Faithful, Join, PlanOf, Snapshot, PlansOf, Steps, ReadsSurvivors, SurvivorsAuthentic, LayerOffset;
    var plans, counts := PlansOf(lib, layout, stages), stages[0].bounds.baseCounts;
    StepsFirst(lib, layout, base, stages, |stages|);
    var basePlan := PlanSnapshot(lib, layout, base.payload, counts, |base.payload|).value;
    var layers := Layers(layout, counts, base.payload, basePlan.headerBytes);
    FoundLayersFit(layout, counts, base.payload, basePlan.headerBytes);
    assert |layers| == |layout.layers|;
    StepsReach(lib, layout, base, stages, layers, |stages|);
    forall s | 0 <= s < |plans|
      ensures |layout.layers| == |plans[s].tails|
    {
      PlannedTails(layout, plans, s);
    }
    StepsAuthentic(lib, plans, stages, read, |layout.layers|);
    SameStack(layout, counts, base.sha, plans, stages, read, layers);
  }

  lemma PlannedTails(layout: PageLayout, plans: seq<DeltaPlan>, s: nat)
    requires Planned(layout, plans) && s < |plans|
    ensures |plans[s].tails| == |layout.layers|
  {
    assert PlanFits(layout, BoundsOf(plans[s]), plans[s]);
  }
}
