// The placement planner as a whole, against composing the same history.
module CudaRestore {
  import opened Common
  import opened Pages
  import opened PageDelta
  import opened PageHistory
  import opened PageHistoryTheorems
  import opened CudaSources
  import opened CudaPlan
  import opened CudaSpans

  /** The published base snapshot: its digest, boundary and tiled objects. */
  datatype Root = Root(sha: Hash, boundary: int, total: nat, objects: seq<Source>)

  function BaseRanges(spans: seq<PageSpan>, objects: seq<Source>): (ranges: seq<seq<LogicalRange>>)
    requires forall i :: 0 <= i < |spans| ==> spans[i].sourceStart <= spans[i].sourceEnd
    ensures |ranges| == |spans|
  {
    seq(|spans|, i requires 0 <= i < |spans| =>
      [LogicalRange(0, spans[i].sourceEnd - spans[i].sourceStart, spans[i].sourceStart, objects)])
  }

  lemma BaseHeld(
    store: Store, layout: PageLayout, counts: seq<int>, plan: SnapshotPlan, objects: seq<Source>, total: nat, bound: nat,
    plans: seq<DeltaPlan>, read: TailReader)
    requires Tiles(objects, total, bound) && Stored(store, objects) && CountsFit(layout, counts)
    requires plan.headerBytes + PayloadBytes(layout, counts) == total
    requires plan.spans == SpansOf(layout, counts, plan.headerBytes, |layout.layers|)
    requires forall i :: 0 <= i < |layout.layers| ==> HasLayer(plans, i)
    ensures |Encoded(store, objects)| == total
    ensures forall i :: 0 <= i < |plan.spans| ==> plan.spans[i].sourceStart <= plan.spans[i].sourceEnd
    ensures var payload := Encoded(store, objects);
            AllHeld(store, BaseRanges(plan.spans, objects), seq(|plan.spans|, _ => [payload]),
                    Layers(layout, counts, payload, plan.headerBytes), plans, read, 0, bound)
  {
    hide *;
    var payload := Encoded(store, objects);
    TilesAllCarry(store, objects, total, bound);
    SpanCount(layout, counts, plan);
    forall i | 0 <= i < |plan.spans|
      ensures plan.spans[i].sourceStart <= plan.spans[i].sourceEnd
      ensures BaseHolds(store, layout, counts, plan, objects, payload, plans, read, i, bound)
    {
      LayersFound(layout, counts, payload, plan.headerBytes, i);
      SpanPlace(layout, counts, plan, i);
      BaseLayerHeld(store, objects, payload, plan.spans[i].sourceStart, plan.spans[i].sourceEnd, total, bound, plans, read, i);
      BaseLayerIs(store, layout, counts, plan, objects, payload, plans, read, i, bound);
    }
    BaseTogether(store, layout, counts, plan, objects, payload, plans, read, bound);
  }

  lemma TilesAllCarry(store: Store, objects: seq<Source>, total: nat, bound: nat)
    requires Tiles(objects, total, bound) && Stored(store, objects)
    ensures |Encoded(store, objects)| == total
    ensures forall k :: 0 <= k < |objects| ==> Carries(store, objects[k], Encoded(store, objects))
  {
    EncodedLength(store, objects);
    hide Carries, Encoded, SourceOk;
    forall k | 0 <= k < |objects|
      ensures Carries(store, objects[k], Encoded(store, objects))
    {
      TileCarries(store, objects, k);
    }
  }

  lemma SpanCount(layout: PageLayout, counts: seq<int>, plan: SnapshotPlan)
    requires CountsFit(layout, counts)
    requires plan.spans == SpansOf(layout, counts, plan.headerBytes, |layout.layers|)
    ensures |plan.spans| == |layout.layers|
  {
  }

  lemma SpanPlace(layout: PageLayout, counts: seq<int>, plan: SnapshotPlan, i: nat)
    requires CountsFit(layout, counts) && i < |layout.layers|
    requires plan.spans == SpansOf(layout, counts, plan.headerBytes, |layout.layers|)
    ensures plan.spans[i].sourceStart == plan.headerBytes + LayerOffset(layout, counts, i)
    ensures plan.spans[i].sourceEnd == plan.headerBytes + LayerOffset(layout, counts, i + 1)
  {
    hide LayerOffset;
  }

  /** Layer `i` starts as one range over the base objects. */
  ghost predicate BaseHolds(
    store: Store, layout: PageLayout, counts: seq<int>, plan: SnapshotPlan, objects: seq<Source>, payload: Bytes,
    plans: seq<DeltaPlan>, read: TailReader, i: nat, bound: nat)
  {
    && CountsFit(layout, counts) && plan.headerBytes + PayloadBytes(layout, counts) <= |payload|
    && i < |plan.spans| && i < |layout.layers| && plan.spans[i].sourceStart <= plan.spans[i].sourceEnd
    && HasLayer(plans, i)
    && LayerHeld(store, [LogicalRange(0, plan.spans[i].sourceEnd - plan.spans[i].sourceStart,
                                      plan.spans[i].sourceStart, objects)],
                 [payload], Layers(layout, counts, payload, plan.headerBytes)[i], plans, read, i, 0, bound)
  }

  lemma BaseLayerIs(
    store: Store, layout: PageLayout, counts: seq<int>, plan: SnapshotPlan, objects: seq<Source>, payload: Bytes,
    plans: seq<DeltaPlan>, read: TailReader, i: nat, bound: nat)
    requires CountsFit(layout, counts) && plan.headerBytes + PayloadBytes(layout, counts) <= |payload|
    requires i < |plan.spans| && i < |layout.layers| && plan.spans[i].sourceStart <= plan.spans[i].sourceEnd <= |payload|
    requires HasLayer(plans, i)
    requires Layers(layout, counts, payload, plan.headerBytes)[i]
             == payload[plan.spans[i].sourceStart..plan.spans[i].sourceEnd]
    requires LayerHeld(store, [LogicalRange(0, plan.spans[i].sourceEnd - plan.spans[i].sourceStart,
                                            plan.spans[i].sourceStart, objects)],
                       [payload], payload[plan.spans[i].sourceStart..plan.spans[i].sourceEnd], plans, read, i, 0, bound)
    ensures BaseHolds(store, layout, counts, plan, objects, payload, plans, read, i, bound)
  {
    hide LayerHeld, Layers, HasLayer, LayerOffset;
  }

  lemma BaseTogether(
    store: Store, layout: PageLayout, counts: seq<int>, plan: SnapshotPlan, objects: seq<Source>, payload: Bytes,
    plans: seq<DeltaPlan>, read: TailReader, bound: nat)
    requires CountsFit(layout, counts) && plan.headerBytes + PayloadBytes(layout, counts) <= |payload|
    requires |plan.spans| == |layout.layers|
    requires forall i :: 0 <= i < |plan.spans| ==> plan.spans[i].sourceStart <= plan.spans[i].sourceEnd
    requires forall i :: 0 <= i < |plan.spans| ==>
               BaseHolds(store, layout, counts, plan, objects, payload, plans, read, i, bound)
    ensures AllHeld(store, BaseRanges(plan.spans, objects), seq(|plan.spans|, _ => [payload]),
                    Layers(layout, counts, payload, plan.headerBytes), plans, read, 0, bound)
  {
    hide LayerHeld, HasLayer, LayerOffset;
    var ranges, payloads := BaseRanges(plan.spans, objects), seq(|plan.spans|, _ => [payload]);
    var layers := Layers(layout, counts, payload, plan.headerBytes);
    forall i | 0 <= i < |layers|
      ensures HasLayer(plans, i) && LayerHeld(store, ranges[i], payloads[i], layers[i], plans, read, i, 0, bound)
    {
      assert BaseHolds(store, layout, counts, plan, objects, payload, plans, read, i, bound);
    }
  }

  lemma BaseLayerHeld(
    store: Store, objects: seq<Source>, payload: Bytes, start: nat, end: nat, total: nat, bound: nat,
    plans: seq<DeltaPlan>, read: TailReader, i: nat)
    requires Tiles(objects, total, bound) && |payload| == total && start <= end <= total && HasLayer(plans, i)
    requires forall k :: 0 <= k < |objects| ==> Carries(store, objects[k], payload)
    ensures LayerHeld(store, [LogicalRange(0, end - start, start, objects)], [payload], payload[start..end],
                      plans, read, i, 0, bound)
  {
    hide Carries, HasLayer, Cutoffs, TailsFor, Bounded;
    var none: seq<Bytes> := [];
    var r := LogicalRange(0, end - start, start, objects);
    StartsAtZero(objects);
    assert Backed(store, r, payload);
    hide Backed;
    HoldsFirst(store, r, payload, [], none);
    assert [r] + [] == [r] && [payload] + none == [payload];
  }

  lemma StartsAtZero(objects: seq<Source>)
    requires objects != [] && TiledFrom(objects, 0)
    ensures objects[0].start == 0
  {
  }

  ghost predicate HistoryReady(
    layout: PageLayout, stages: seq<CudaStage>, bound: nat, store: Store, layers: seq<Bytes>, counts: seq<int>,
    plans: seq<DeltaPlan>, read: TailReader)
  {
    && StagesFit(layout, stages, bound, store) && LayersFit(layout, counts, layers)
    && plans == CudaPlans(stages) && read == StageReader(StagesOf(store, stages))
  }

  lemma SamePlans(
    layout: PageLayout, stages: seq<CudaStage>, bound: nat, store: Store, layers: seq<Bytes>, counts: seq<int>,
    plans: seq<DeltaPlan>, read: TailReader)
    requires HistoryReady(layout, stages, bound, store, layers, counts, plans, read)
    ensures |plans| == |stages| && forall s :: 0 <= s < |stages| ==> plans[s] == stages[s].plan
  {
  }

  lemma InsideFile(layout: PageLayout, stage: CudaStage, bound: nat)
    requires PlanFits(layout, BoundsOf(stage.plan), stage.plan) && Tiles(stage.objects, stage.plan.totalBytes, bound)
    ensures TailsInside(stage, bound)
  {
    hide TiledFrom, TiledTo, Bounded;
    StageShape(layout, stage.plan);
  }

  method LayLinkedStage(
    layout: PageLayout, stages: seq<CudaStage>, n: nat, ranges: seq<seq<LogicalRange>>, bound: nat,
    ghost store: Store, ghost payloads: seq<seq<Bytes>>, ghost layers: seq<Bytes>, ghost counts: seq<int>,
    ghost sha: Hash, ghost plans: seq<DeltaPlan>, ghost read: TailReader, ghost names: set<Source>)
    returns (laid: seq<seq<LogicalRange>>, ghost next: seq<seq<Bytes>>)
    requires HistoryReady(layout, stages, bound, store, layers, counts, plans, read) && n < |stages| == |plans|
    requires Linked(counts, sha, plans, n) && plans[n].baseCounts == CountsAfter(counts, plans, n)
    requires AllHeld(store, ranges, payloads, layers, plans, read, n, bound) && AllDraw(ranges, names)
    ensures AllHeld(store, laid, next, layers, plans, read, n + 1, bound)
    ensures AllDraw(laid, names + StageNames(stages[n], bound))
  {
    PlannedOne(layout, plans, n);
    InsideFile(layout, stages[n], bound);
    hide AllHeld, LayersFit, Tiles, Planned, StageReader, PlanFits, Linked, SourcesForAll, AllDraw, StageNames, LaidTo;
    var sources := StageSources(layout, stages[n], bound);
    laid, next := LayStage(layout, stages, n, ranges, sources.value, bound, store, payloads, layers, counts, sha,
                           plans, read);
    AllLaidDraw(stages[n], bound, ranges, sources.value, laid, names);
  }

  method LayHistory(
    layout: PageLayout, counts: seq<int>, sha: Hash, stages: seq<CudaStage>, first: seq<seq<LogicalRange>>, bound: nat,
    ghost store: Store, ghost payloads: seq<seq<Bytes>>, ghost layers: seq<Bytes>, ghost plans: seq<DeltaPlan>,
    ghost read: TailReader, ghost objects: seq<Source>)
    returns (r: Result<seq<seq<LogicalRange>>, CudaError>, ghost held: seq<seq<Bytes>>)
    requires HistoryReady(layout, stages, bound, store, layers, counts, plans, read)
    requires AllHeld(store, first, payloads, layers, plans, read, 0, bound)
    requires AllDraw(first, SourcesOf(objects, stages, bound, 0))
    ensures r.Ok? ==> AllDraw(r.value, SourcesOf(objects, stages, bound, |stages|))
    ensures if Linked(counts, sha, plans, |plans|)
            then r.Ok? && AllHeld(store, r.value, held, layers, plans, read, |plans|, bound)
            else r == Err(CudaError.IdentityDiffers)
  {
    hide AllHeld, HistoryReady, Linked, CountsAfter, ShaAfter, AllDraw, StageNames;
    LinkedFirst(counts, sha, plans);
    SamePlans(layout, stages, bound, store, layers, counts, plans, read);
    var ranges, currentCounts, currentSha := first, counts, sha;
    held := payloads;
    for n := 0 to |stages|
      invariant Linked(counts, sha, plans, n) && AllHeld(store, ranges, held, layers, plans, read, n, bound)
      invariant AllDraw(ranges, SourcesOf(objects, stages, bound, n))
      invariant currentCounts == CountsAfter(counts, plans, n) && currentSha == ShaAfter(sha, plans, n)
    {
      var stage := stages[n];
      assert plans[n] == stage.plan;
      LinkedNext(counts, sha, plans, n);
      if stage.plan.baseCounts != currentCounts || stage.plan.baseSha != currentSha {
        return Err(CudaError.IdentityDiffers), held;
      }
      ranges, held := LayLinkedStage(layout, stages, n, ranges, bound, store, held, layers, counts, sha, plans, read,
                                     SourcesOf(objects, stages, bound, n));
      currentCounts, currentSha := stage.plan.resultCounts, stage.plan.resultSha;
    }
    r := Ok(ranges);
  }

  lemma BaseDraws(
    layout: PageLayout, plan: SnapshotPlan, objects: seq<Source>, stages: seq<CudaStage>, bound: nat)
    requires CountsFit(layout, plan.counts)
    requires plan.spans == SpansOf(layout, plan.counts, plan.headerBytes, |layout.layers|)
    ensures forall i :: 0 <= i < |plan.spans| ==> plan.spans[i].sourceStart <= plan.spans[i].sourceEnd
    ensures AllDraw(BaseRanges(plan.spans, objects), SourcesOf(objects, stages, bound, 0))
  {
    hide LayerOffset, LayerSize;
    forall i | 0 <= i < |plan.spans|
      ensures plan.spans[i].sourceStart <= plan.spans[i].sourceEnd
    {
      SpanPlace(layout, plan.counts, plan, i);
      OffsetsGrow(layout, plan.counts, i, i + 1);
    }
  }

  /** Exactly when the planner hands out a plan. */
  predicate Accepts(
    lib: Library, layout: PageLayout, root: Root, firstObject: Bytes, stages: seq<CudaStage>, expected: seq<int>)
    requires ValidLayout(layout)
  {
    && stages != []
    && var counts, plans := stages[0].plan.baseCounts, CudaPlans(stages);
       && PlanSnapshot(lib, layout, firstObject, counts, root.total).Ok?
       && root.boundary == stages[0].plan.baseBoundary && root.total == EncodedSize(lib, layout, counts)
       && root.sha == stages[0].plan.baseSha
       && Linked(counts, root.sha, plans, |plans|) && plans[|plans| - 1].resultCounts == expected
  }

  ghost function PlannedLayers(
    lib: Library, layout: PageLayout, root: Root, firstObject: Bytes, counts: seq<int>, store: Store)
    : (layers: seq<Bytes>)
    requires ValidLayout(layout) && Stored(store, root.objects) && |Encoded(store, root.objects)| == root.total
    requires PlanSnapshot(lib, layout, firstObject, counts, root.total).Ok?
    ensures LayersFit(layout, counts, layers)
  {
    var headerBytes := PlanSnapshot(lib, layout, firstObject, counts, root.total).value.headerBytes;
    FoundLayersFit(layout, counts, Encoded(store, root.objects), headerBytes);
    Layers(layout, counts, Encoded(store, root.objects), headerBytes)
  }

  /** The planner never meets a coverage gap, and the spans it hands out read,
      in order, the stacked layers byte for byte, whichever tails came as
      extents and whichever through whole objects. */
  method PlanCudaPageDeltaRestore(
    lib: Library, layout: PageLayout, root: Root, firstObject: Bytes, stages: seq<CudaStage>, expected: seq<int>,
    arena: nat, ghost store: Store)
    returns (r: Result<seq<SourceSpan>, CudaError>)
    requires Faithful(lib)
    requires StagesFit(layout, stages, Min(arena, PREFETCH_BYTES), store)
    requires Tiles(root.objects, root.total, Min(arena, PREFETCH_BYTES)) && Stored(store, root.objects)
    ensures r.Ok? <==> Accepts(lib, layout, root, firstObject, stages, expected)
    ensures r.Ok? ==>
              && Placeable(r.value, Min(arena, PREFETCH_BYTES))
              && CountsFit(layout, expected) && Total(r.value) == PayloadBytes(layout, expected)
              && r.value != [] && Places(layout, expected, r.value, |layout.layers|)
              && DrawnFrom(r.value, SourcesOf(root.objects, stages, Min(arena, PREFETCH_BYTES), |stages|))
    ensures |Encoded(store, root.objects)| == root.total
    ensures forall i :: 0 <= i < |layout.layers| ==> HasLayer(CudaPlans(stages), i)
    ensures r.Ok? ==>
              && SpansOk(store, r.value)
              && ReadSpans(store, r.value)
                 == Join(Stacked(PlannedLayers(lib, layout, root, firstObject, stages[0].plan.baseCounts, store),
                                 CudaPlans(stages), StageReader(StagesOf(store, stages)), |stages|))
  {
    ghost var plans := CudaPlans(stages);
    PageHistory.PlannedLayers(layout, plans);
    EncodedLength(store, root.objects);
    hide AllHeld, HasLayer, Stacked, Join, LayerOffset, LayerSize, PlanSnapshot, PlanFits, Faithful, Linked, LayersFit,
         Layers, StageReader, Planned, Tiles, Encoded, Placeable, SpansOk, ReadSpans, Places, DrawnFrom, SourcesOf;
    if stages == [] {
      return Err(NoSpans);
    }
    var counts := stages[0].plan.baseCounts;
    var planned := PlanPageSnapshot(lib, layout, firstObject, counts, root.total);
    if planned.Err? {
      return Err(ObjectGeometry);
    }
    if root.boundary != stages[0].plan.baseBoundary || root.total != EncodedSize(lib, layout, counts)
       || root.sha != stages[0].plan.baseSha {
      return Err(CudaError.IdentityDiffers);
    }
    r := PlanSpans(lib, layout, root, planned.value, stages, expected, Min(arena, PREFETCH_BYTES), store, plans,
                   StageReader(StagesOf(store, stages)),
                   PlannedLayers(lib, layout, root, firstObject, counts, store));
  }

  method PlanSpans(
    lib: Library, layout: PageLayout, root: Root, basePlan: SnapshotPlan, stages: seq<CudaStage>, expected: seq<int>,
    bound: nat, ghost store: Store, ghost plans: seq<DeltaPlan>, ghost read: TailReader, ghost layers: seq<Bytes>)
    returns (r: Result<seq<SourceSpan>, CudaError>)
    requires Faithful(lib) && stages != [] && StagesFit(layout, stages, bound, store)
    requires plans == CudaPlans(stages) && read == StageReader(StagesOf(store, stages))
    requires forall i :: 0 <= i < |layout.layers| ==> HasLayer(plans, i)
    requires Tiles(root.objects, root.total, bound) && Stored(store, root.objects)
    requires |Encoded(store, root.objects)| == root.total
    requires CountsFit(layout, basePlan.counts) && basePlan.counts == stages[0].plan.baseCounts
    requires basePlan.headerBytes + PayloadBytes(layout, basePlan.counts) == root.total
    requires basePlan.spans == SpansOf(layout, basePlan.counts, basePlan.headerBytes, |layout.layers|)
    requires layers == Layers(layout, basePlan.counts, Encoded(store, root.objects), basePlan.headerBytes)
    requires LayersFit(layout, basePlan.counts, layers)
    ensures r.Ok? <==> Linked(basePlan.counts, root.sha, plans, |plans|) && plans[|plans| - 1].resultCounts == expected
    ensures r.Ok? ==>
              && Placeable(r.value, bound) && CountsFit(layout, expected)
              && Total(r.value) == PayloadBytes(layout, expected)
              && r.value != [] && Places(layout, expected, r.value, |layout.layers|)
              && DrawnFrom(r.value, SourcesOf(root.objects, stages, bound, |stages|))
              && SpansOk(store, r.value) && ReadSpans(store, r.value) == Join(Stacked(layers, plans, read, |plans|))
  {
    hide AllHeld, HasLayer, Stacked, Join, LayerOffset, LayerSize, PlanSnapshot, PlanFits, Faithful, Linked, LayersFit,
         Layers, StageReader, Planned, Tiles, Encoded, StagesFit, SpanAt, AllDraw, SourcesOf, Places, DrawnFrom;
    BaseDraws(layout, basePlan, root.objects, stages, bound);
    BaseHeld(store, layout, basePlan.counts, basePlan, root.objects, root.total, bound, plans, read);
    var laid;
    ghost var held;
    laid, held := LayHistory(
      layout, basePlan.counts, root.sha, stages, BaseRanges(basePlan.spans, root.objects), bound, store,
      seq(|basePlan.spans|, _ => [Encoded(store, root.objects)]), layers, plans, read, root.objects);
    if laid.Err? {
      return Err(laid.error);
    }
    var last := stages[|stages| - 1].plan.resultCounts;
    if last != expected {
      return Err(CountsDiffer);
    }
    r := FinishSpans(lib, layout, basePlan.counts, root.sha, stages, laid.value, bound, store, held, plans, read, layers,
                     SourcesOf(root.objects, stages, bound, |stages|));
  }

  method FinishSpans(
    lib: Library, layout: PageLayout, counts: seq<int>, sha: Hash, stages: seq<CudaStage>,
    ranges: seq<seq<LogicalRange>>, bound: nat, ghost store: Store, ghost held: seq<seq<Bytes>>,
    ghost plans: seq<DeltaPlan>, ghost read: TailReader, ghost layers: seq<Bytes>, ghost sources: set<Source>)
    returns (r: Result<seq<SourceSpan>, CudaError>)
    requires Faithful(lib) && stages != [] && StagesFit(layout, stages, bound, store) && plans == CudaPlans(stages)
    requires AllDraw(ranges, sources)
    requires forall i :: 0 <= i < |layers| ==> HasLayer(plans, i)
    requires LayersFit(layout, counts, layers) && Linked(counts, sha, plans, |plans|)
    requires AllHeld(store, ranges, held, layers, plans, read, |plans|, bound)
    ensures var last := stages[|stages| - 1].plan.resultCounts;
            && r.Ok? && Placeable(r.value, bound) && CountsFit(layout, last)
            && Total(r.value) == PayloadBytes(layout, last)
            && r.value != [] && Places(layout, last, r.value, |layout.layers|) && DrawnFrom(r.value, sources)
            && SpansOk(store, r.value) && ReadSpans(store, r.value) == Join(Stacked(layers, plans, read, |plans|))
  {
    var last := stages[|stages| - 1].plan.resultCounts;
    StackedFit(layout, counts, sha, plans, read, layers);
    StackedHeld(store, ranges, held, layers, plans, read, bound);
    hide AllHeld, HasLayer, Stacked, Join, LayerOffset, LayerSize, PlanSnapshot, PlanFits, Faithful, Linked, LayersFit,
         Planned, StagesFit, SpanAt, Holds, Content, AllBounded, DrawsOn, Places, DrawnFrom;
    PayloadPositive(layout, last);
    var header := lib.snapshotHeader(layout, last);
    HeaderPlans(lib, layout, last);
    var planned := PlanPageSnapshot(lib, layout, header, last, EncodedSize(lib, layout, last));
    r := SplitLayers(layout, last, planned.value, ranges, bound, store, held, Stacked(layers, plans, read, |plans|), sources);
  }

  lemma PayloadPositive(layout: PageLayout, counts: seq<int>)
    requires CountsFit(layout, counts) && CountsPositive(counts)
    ensures PayloadBytes(layout, counts) > 0
  {
    MultiplyUp(1, counts[layout.layers[0].group], layout.layers[0].bytesPerPage);
    OffsetsGrow(layout, counts, 1, |layout.layers|);
  }

  lemma StackedHeld(
    store: Store, ranges: seq<seq<LogicalRange>>, held: seq<seq<Bytes>>, layers: seq<Bytes>, plans: seq<DeltaPlan>,
    read: TailReader, bound: nat)
    requires AllHeld(store, ranges, held, layers, plans, read, |plans|, bound)
    requires forall i :: 0 <= i < |layers| ==> HasLayer(plans, i)
    ensures |ranges| == |held| == |layers|
    ensures forall i :: 0 <= i < |ranges| ==>
              && AllBounded(ranges[i], bound) && Holds(store, ranges[i], held[i], 0)
              && Content(store, ranges[i], held[i], 0) == Stacked(layers, plans, read, |plans|)[i]
  {
    hide HasLayer, AllBounded, Holds, Content, Stack;
    forall i | 0 <= i < |ranges|
      ensures AllBounded(ranges[i], bound) && Holds(store, ranges[i], held[i], 0)
      ensures Content(store, ranges[i], held[i], 0) == Stacked(layers, plans, read, |plans|)[i]
    {
      HeldParts(store, ranges[i], held[i], layers[i], plans, read, i, |plans|, bound);
    }
  }

  /** Placing is composing. Over the same history and the same files, the header
      followed by what the spans read is the composed snapshot: composing
      succeeds exactly when the surviving tails and those bytes check out. */
  lemma PlacementRefinesComposition(
    lib: Library, layout: PageLayout, root: Root, firstObject: Bytes, stages: seq<CudaStage>, expected: seq<int>,
    bound: nat, store: Store, spans: seq<SourceSpan>)
    requires StagesFit(layout, stages, bound, store) && Stored(store, root.objects)
    requires Accepts(lib, layout, root, firstObject, stages, expected) && |Encoded(store, root.objects)| == root.total
    requires forall i :: 0 <= i < |layout.layers| ==> HasLayer(CudaPlans(stages), i)
    requires SpansOk(store, spans)
             && ReadSpans(store, spans)
                == Join(Stacked(PlannedLayers(lib, layout, root, firstObject, stages[0].plan.baseCounts, store),
                                CudaPlans(stages), StageReader(StagesOf(store, stages)), |stages|))
    requires var base, counts := Encoded(store, root.objects), stages[0].plan.baseCounts;
             lib.sha(base) == root.sha && PlanSnapshot(lib, layout, base, counts, |base|).Ok?
    ensures var plans, read := CudaPlans(stages), StageReader(StagesOf(store, stages));
            var composed := Composed(lib, layout, Verify(lib, Encoded(store, root.objects)),
                                     stages[0].plan.baseCounts, plans, read);
            var placed := lib.snapshotHeader(layout, expected) + ReadSpans(store, spans);
            var digest := plans[|plans| - 1].resultSha;
            && (composed.Ok? <==> SurvivorsAuthentic(lib, plans, read, |layout.layers|) && lib.sha(placed) == digest)
            && (composed.Ok? ==> composed.value == Verified(placed, digest))
  {
    hide HasLayer, Stacked, Join, PlanSnapshot, Layers, StageReader, SurvivorsAuthentic, Planned, Encoded, Linked;
  }
}
