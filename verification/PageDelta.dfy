// One page-delta stage: planning it from its header, applying it to its exact
// base, and the encoders that produce it.
module PageDelta {
  import opened Common
  import opened Pages

  datatype DeltaTail = DeltaTail(
    name: string, group: nat, sourceStart: nat, sourceEnd: nat, destinationOffset: nat, sha: Hash)

  datatype DeltaPlan = DeltaPlan(
    headerBytes: nat, totalBytes: nat, baseCounts: seq<int>, resultCounts: seq<int>,
    baseBoundary: int, resultBoundary: int, baseSha: Hash, resultSha: Hash, reused: seq<int>, tails: seq<DeltaTail>)

  /** The identity a stage is used under: both block-count vectors and boundaries. */
  datatype StageBounds = StageBounds(
    baseCounts: seq<int>, resultCounts: seq<int>, baseBoundary: int, resultBoundary: int)

  /** Immutable bytes together with their own hash. */
  datatype Verified = Verified(payload: Bytes, sha: Hash)

  function Verify(lib: Library, payload: Bytes): Verified {
    Verified(payload, lib.sha(payload))
  }

  predicate BoundsValid(layout: PageLayout, b: StageBounds) {
    && 0 < b.baseBoundary < b.resultBoundary
    && |b.baseCounts| == |b.resultCounts| == layout.groups
    && forall g :: 0 <= g < layout.groups ==> 0 < b.baseCounts[g] <= b.resultCounts[g]
  }

  predicate ReuseFits(b: StageBounds, reused: seq<int>) {
    && |reused| == |b.baseCounts|
    && forall g :: 0 <= g < |reused| ==> 0 <= reused[g] <= b.baseCounts[g]
  }

  /** Pages of each group that the stage carries itself. */
  function TailCounts(resultCounts: seq<int>, reused: seq<int>): (counts: seq<int>)
    requires |reused| == |resultCounts|
    ensures |counts| == |resultCounts|
    ensures forall g :: 0 <= g < |counts| ==> counts[g] == resultCounts[g] - reused[g]
  {
    seq(|resultCounts|, g requires 0 <= g < |resultCounts| => resultCounts[g] - reused[g])
  }

  lemma TailCountsFit(layout: PageLayout, b: StageBounds, reused: seq<int>)
    requires ValidLayout(layout) && BoundsValid(layout, b) && ReuseFits(b, reused)
    ensures CountsFit(layout, TailCounts(b.resultCounts, reused))
    ensures CountsFit(layout, reused) && CountsFit(layout, b.baseCounts) && CountsFit(layout, b.resultCounts)
  {
  }

  /** Every layer splits into its reused pages and its tail. */
  lemma ReusePlusTail(layout: PageLayout, b: StageBounds, reused: seq<int>, i: nat)
    requires ValidLayout(layout) && BoundsValid(layout, b) && ReuseFits(b, reused) && i < |layout.layers|
    ensures LayerSize(layout, reused, i) + LayerSize(layout, TailCounts(b.resultCounts, reused), i)
            == LayerSize(layout, b.resultCounts, i)
    ensures 0 <= LayerSize(layout, reused, i) <= LayerSize(layout, b.baseCounts, i)
    ensures LayerSize(layout, b.baseCounts, i) <= LayerSize(layout, b.resultCounts, i)
  {
    var g, w := layout.layers[i].group, layout.layers[i].bytesPerPage;
    Distribute(reused[g], b.resultCounts[g] - reused[g], w);
    MultiplyUp(0, reused[g], w);
    MultiplyUp(reused[g], b.baseCounts[g], w);
    MultiplyUp(b.baseCounts[g], b.resultCounts[g], w);
  }

  lemma Distribute(a: int, b: int, w: int)
    ensures a * w + b * w == (a + b) * w
  {
  }

  lemma MultiplyUp(a: int, b: int, w: nat)
    requires a <= b
    ensures a * w <= b * w
  {
  }

  // ---- planning ----

  function TailAt(layout: PageLayout, b: StageBounds, h: DeltaHeader, headerBytes: nat, i: nat): DeltaTail
    requires ValidLayout(layout) && BoundsValid(layout, b) && ReuseFits(b, h.reused)
    requires i < |layout.layers| && |h.tails| == |layout.layers|
  {
    TailCountsFit(layout, b, h.reused);
    var counts := TailCounts(b.resultCounts, h.reused);
    var layer := layout.layers[i];
    SizeNonNegative(layout, h.reused, i);
    DeltaTail(layer.name, layer.group, headerBytes + LayerOffset(layout, counts, i),
              headerBytes + LayerOffset(layout, counts, i + 1), LayerSize(layout, h.reused, i), h.tails[i].sha)
  }

  function TailsOf(layout: PageLayout, b: StageBounds, h: DeltaHeader, headerBytes: nat, n: nat)
    : (tails: seq<DeltaTail>)
    requires ValidLayout(layout) && BoundsValid(layout, b) && ReuseFits(b, h.reused)
    requires n <= |layout.layers| && |h.tails| == |layout.layers|
    ensures |tails| == n
  {
    seq(n, i requires 0 <= i < n => TailAt(layout, b, h, headerBytes, i))
  }

  predicate HeaderBinds(lib: Library, layout: PageLayout, h: DeltaHeader, b: StageBounds) {
    && h.layoutSha == lib.layoutSha(layout)
    && h.baseCounts == b.baseCounts && h.resultCounts == b.resultCounts
    && h.baseBoundary == b.baseBoundary && h.resultBoundary == b.resultBoundary
    && |h.tails| == |layout.layers|
  }

  predicate DescriptorsMatch(layout: PageLayout, b: StageBounds, h: DeltaHeader, n: nat)
    requires ValidLayout(layout) && BoundsValid(layout, b) && ReuseFits(b, h.reused)
    requires n <= |layout.layers| == |h.tails|
  {
    forall i :: 0 <= i < n ==>
      && h.tails[i].name == layout.layers[i].name
      && h.tails[i].bytes == LayerSize(layout, TailCounts(b.resultCounts, h.reused), i)
  }

  function PlanDelta(lib: Library, layout: PageLayout, prefix: Bytes, b: StageBounds, total: nat)
    : (r: Result<DeltaPlan, PageError>)
    requires ValidLayout(layout)
    ensures r.Ok? ==> PlanFits(layout, b, r.value) && r.value.totalBytes == total
  {
    if !BoundsValid(layout, b) then Err(DeltaRejected)
    else match lib.parseDelta(prefix)
      case None => Err(DeltaRejected)
      case Some((h, headerBytes)) =>
        if headerBytes > |prefix| || |prefix| > total || !HeaderBinds(lib, layout, h, b) || !ReuseFits(b, h.reused)
        then Err(DeltaRejected)
        else
          TailCountsFit(layout, b, h.reused);
          if !DescriptorsMatch(layout, b, h, |layout.layers|)
             || headerBytes + PayloadBytes(layout, TailCounts(b.resultCounts, h.reused)) != total
          then Err(DeltaRejected)
          else
            OffsetsFit(layout, b, h, headerBytes, total);
            Ok(DeltaPlan(headerBytes, total, b.baseCounts, b.resultCounts, b.baseBoundary, b.resultBoundary,
                         h.baseSha, h.resultSha, h.reused, TailsOf(layout, b, h, headerBytes, |layout.layers|)))
  }

  /** What a plan promises its users about geometry. */
  ghost predicate PlanFits(layout: PageLayout, b: StageBounds, plan: DeltaPlan) {
    && ValidLayout(layout) && BoundsValid(layout, b) && ReuseFits(b, plan.reused)
    && plan.baseCounts == b.baseCounts && plan.resultCounts == b.resultCounts
    && plan.baseBoundary == b.baseBoundary && plan.resultBoundary == b.resultBoundary
    && |plan.tails| == |layout.layers|
    && forall i :: 0 <= i < |plan.tails| ==>
         && plan.tails[i].destinationOffset == LayerSize(layout, plan.reused, i)
         && plan.tails[i].sourceStart <= plan.tails[i].sourceEnd <= plan.totalBytes
         && plan.tails[i].sourceEnd - plan.tails[i].sourceStart
            == LayerSize(layout, TailCounts(b.resultCounts, plan.reused), i)
         && plan.headerBytes <= plan.tails[i].sourceStart
  }

  lemma OffsetFits(layout: PageLayout, b: StageBounds, h: DeltaHeader, headerBytes: nat, i: nat)
    requires ValidLayout(layout) && BoundsValid(layout, b) && ReuseFits(b, h.reused)
    requires |h.tails| == |layout.layers| && CountsFit(layout, TailCounts(b.resultCounts, h.reused))
    requires i < |layout.layers|
    ensures var counts := TailCounts(b.resultCounts, h.reused);
            var t := TailAt(layout, b, h, headerBytes, i);
            && headerBytes <= t.sourceStart <= t.sourceEnd <= headerBytes + PayloadBytes(layout, counts)
            && t.destinationOffset == LayerSize(layout, h.reused, i)
            && t.sourceEnd - t.sourceStart == LayerSize(layout, counts, i)
  {
    var counts := TailCounts(b.resultCounts, h.reused);
    OffsetsGrow(layout, counts, i, i + 1);
    OffsetsGrow(layout, counts, i + 1, |layout.layers|);
  }

  lemma OffsetsFit(layout: PageLayout, b: StageBounds, h: DeltaHeader, headerBytes: nat, total: nat)
    requires ValidLayout(layout) && BoundsValid(layout, b) && ReuseFits(b, h.reused)
    requires |h.tails| == |layout.layers| && CountsFit(layout, TailCounts(b.resultCounts, h.reused))
    requires headerBytes + PayloadBytes(layout, TailCounts(b.resultCounts, h.reused)) == total
    ensures forall i :: 0 <= i < |layout.layers| ==>
              var t := TailsOf(layout, b, h, headerBytes, |layout.layers|)[i];
              && headerBytes <= t.sourceStart <= t.sourceEnd <= total
              && t.destinationOffset == LayerSize(layout, h.reused, i)
              && t.sourceEnd - t.sourceStart == LayerSize(layout, TailCounts(b.resultCounts, h.reused), i)
  {
    hide TailAt, LayerSize, LayerOffset, PayloadBytes, TailCounts;
    forall i | 0 <= i < |layout.layers|
      ensures var t := TailsOf(layout, b, h, headerBytes, |layout.layers|)[i];
              && headerBytes <= t.sourceStart <= t.sourceEnd <= total
              && t.destinationOffset == LayerSize(layout, h.reused, i)
              && t.sourceEnd - t.sourceStart == LayerSize(layout, TailCounts(b.resultCounts, h.reused), i)
    {
      OffsetFits(layout, b, h, headerBytes, i);
    }
  }

  /** Planning, once the header is accepted: descriptors and total size decide. */
  lemma PlanDeltaIs(
    lib: Library, layout: PageLayout, prefix: Bytes, b: StageBounds, total: nat, h: DeltaHeader, headerBytes: nat)
    requires ValidLayout(layout) && BoundsValid(layout, b) && lib.parseDelta(prefix) == Some((h, headerBytes))
    requires headerBytes <= |prefix| <= total && HeaderBinds(lib, layout, h, b) && ReuseFits(b, h.reused)
    ensures CountsFit(layout, TailCounts(b.resultCounts, h.reused))
    ensures PlanDelta(lib, layout, prefix, b, total)
            == if DescriptorsMatch(layout, b, h, |layout.layers|)
                  && headerBytes + PayloadBytes(layout, TailCounts(b.resultCounts, h.reused)) == total
               then Ok(DeltaPlan(headerBytes, total, b.baseCounts, b.resultCounts, b.baseBoundary, b.resultBoundary,
                                 h.baseSha, h.resultSha, h.reused, TailsOf(layout, b, h, headerBytes, |layout.layers|)))
               else Err(DeltaRejected)
  {
    TailCountsFit(layout, b, h.reused);
    hide PlanFits, LayerOffset, TailCounts, TailsOf, DescriptorsMatch;
  }

  lemma DescriptorNext(layout: PageLayout, b: StageBounds, h: DeltaHeader, i: nat)
    requires ValidLayout(layout) && BoundsValid(layout, b) && ReuseFits(b, h.reused)
    requires i < |layout.layers| == |h.tails| && DescriptorsMatch(layout, b, h, i)
    ensures if h.tails[i].name == layout.layers[i].name
               && h.tails[i].bytes == LayerSize(layout, TailCounts(b.resultCounts, h.reused), i)
            then DescriptorsMatch(layout, b, h, i + 1)
            else !DescriptorsMatch(layout, b, h, |layout.layers|)
  {
    hide LayerSize, TailCounts;
  }

  lemma TailNext(layout: PageLayout, b: StageBounds, h: DeltaHeader, headerBytes: nat, i: nat)
    requires ValidLayout(layout) && BoundsValid(layout, b) && ReuseFits(b, h.reused)
    requires i < |layout.layers| == |h.tails|
    ensures TailsOf(layout, b, h, headerBytes, i + 1)
            == TailsOf(layout, b, h, headerBytes, i) + [TailAt(layout, b, h, headerBytes, i)]
  {
    hide TailAt;
  }

  /** Layer `i`'s tail, from the cursor the layers before it leave. */
  lemma TailAtIs(layout: PageLayout, b: StageBounds, h: DeltaHeader, headerBytes: nat, i: nat, size: int)
    requires ValidLayout(layout) && BoundsValid(layout, b) && ReuseFits(b, h.reused)
    requires i < |layout.layers| == |h.tails| && CountsFit(layout, TailCounts(b.resultCounts, h.reused))
    requires layout.layers[i].group < |b.resultCounts| && layout.layers[i].group < |h.reused|
    requires var layer := layout.layers[i];
             size == (b.resultCounts[layer.group] - h.reused[layer.group]) * layer.bytesPerPage
    ensures var layer, counts := layout.layers[i], TailCounts(b.resultCounts, h.reused);
            && size == LayerSize(layout, counts, i) >= 0 && h.reused[layer.group] * layer.bytesPerPage >= 0
            && LayerOffset(layout, counts, i + 1) == LayerOffset(layout, counts, i) + size
            && TailAt(layout, b, h, headerBytes, i)
               == DeltaTail(layer.name, layer.group, headerBytes + LayerOffset(layout, counts, i),
                            headerBytes + LayerOffset(layout, counts, i) + size,
                            h.reused[layer.group] * layer.bytesPerPage, h.tails[i].sha)
  {
    SizeNonNegative(layout, TailCounts(b.resultCounts, h.reused), i);
    TailCountsFit(layout, b, h.reused);
    SizeNonNegative(layout, h.reused, i);
  }

  lemma LayerGroup(layout: PageLayout, b: StageBounds, reused: seq<int>, i: nat)
    requires ValidLayout(layout) && BoundsValid(layout, b) && ReuseFits(b, reused) && i < |layout.layers|
    ensures layout.layers[i].group < |b.resultCounts| && layout.layers[i].group < |reused|
  {
  }

  method PlanPageDelta(lib: Library, layout: PageLayout, prefix: Bytes, b: StageBounds, total: nat)
    returns (r: Result<DeltaPlan, PageError>)
    requires ValidLayout(layout)
    ensures r == PlanDelta(lib, layout, prefix, b, total)
  {
    hide PlanFits, LayerOffset, TailsOf, DescriptorsMatch, CountsFit;
    if !BoundsValid(layout, b) {
      return Err(DeltaRejected);
    }
    var parsed := lib.parseDelta(prefix);
    if parsed.None? {
      return Err(DeltaRejected);
    }
    var (h, headerEnd) := parsed.value;
    if headerEnd > |prefix| || !HeaderBinds(lib, layout, h, b) || |h.reused| != layout.groups {
      return Err(DeltaRejected);
    }
    if total < headerEnd || |prefix| > total || !ReuseFits(b, h.reused) {
      return Err(DeltaRejected);
    }
    PlanDeltaIs(lib, layout, prefix, b, total, h, headerEnd);
    var tails := PlanTails(layout, b, h, headerEnd, total);
    if tails.None? {
      return Err(DeltaRejected);
    }
    r := Ok(DeltaPlan(headerEnd, total, b.baseCounts, b.resultCounts, b.baseBoundary, b.resultBoundary,
                      h.baseSha, h.resultSha, h.reused, tails.value));
  }

  /** The planner's loop over the layers: every descriptor must fit, and the last one ends the stage. */
  method PlanTails(layout: PageLayout, b: StageBounds, h: DeltaHeader, headerEnd: nat, total: nat)
    returns (r: Option<seq<DeltaTail>>)
    requires ValidLayout(layout) && BoundsValid(layout, b) && ReuseFits(b, h.reused) && |h.tails| == |layout.layers|
    requires CountsFit(layout, TailCounts(b.resultCounts, h.reused)) && headerEnd <= total
    ensures r == if DescriptorsMatch(layout, b, h, |layout.layers|)
                    && headerEnd + PayloadBytes(layout, TailCounts(b.resultCounts, h.reused)) == total
                 then Some(TailsOf(layout, b, h, headerEnd, |layout.layers|)) else None
  {
    ghost var counts := TailCounts(b.resultCounts, h.reused);
    assert LayerOffset(layout, counts, 0) == 0;
    assert TailsOf(layout, b, h, headerEnd, 0) == [] && DescriptorsMatch(layout, b, h, 0);
    hide LayerOffset, LayerSize, TailsOf, TailAt, DescriptorsMatch, CountsFit, BoundsValid, ReuseFits, TailCounts,
         ValidLayout;
    var tails: seq<DeltaTail> := [];
    var sourceOffset := headerEnd;
    for i := 0 to |layout.layers|
      invariant sourceOffset == headerEnd + LayerOffset(layout, counts, i) <= total
      invariant tails == TailsOf(layout, b, h, headerEnd, i)
      invariant DescriptorsMatch(layout, b, h, i)
    {
      LayerGroup(layout, b, h.reused, i);
      var layer := layout.layers[i];
      var reusedPages := h.reused[layer.group];
      var expected := (b.resultCounts[layer.group] - reusedPages) * layer.bytesPerPage;
      TailAtIs(layout, b, h, headerEnd, i, expected);
      DescriptorNext(layout, b, h, i);
      if h.tails[i].name != layer.name || h.tails[i].bytes != expected {
        return None;
      }
      var sourceEnd := sourceOffset + expected;
      if sourceEnd > total {
        OffsetsGrow(layout, counts, i + 1, |layout.layers|);
        return None;
      }
      TailNext(layout, b, h, headerEnd, i);
      tails := tails + [DeltaTail(layer.name, layer.group, sourceOffset, sourceEnd,
                                  reusedPages * layer.bytesPerPage, h.tails[i].sha)];
      sourceOffset := sourceEnd;
    }
    if sourceOffset != total {
      return None;
    }
    r := Some(tails);
  }

  // ---- applying ----

  function TailBytes(plan: DeltaPlan, delta: Bytes, i: nat): Bytes
    requires i < |plan.tails| && plan.tails[i].sourceStart <= plan.tails[i].sourceEnd <= |delta|
  {
    delta[plan.tails[i].sourceStart..plan.tails[i].sourceEnd]
  }

  /** Each layer keeps its reused pages and takes the stage's tail after them. */
  function NextLayers(layout: PageLayout, b: StageBounds, plan: DeltaPlan, layers: seq<Bytes>, delta: Bytes)
    : (next: seq<Bytes>)
    requires PlanFits(layout, b, plan) && plan.totalBytes <= |delta| && LayersFit(layout, b.baseCounts, layers)
    ensures LayersFit(layout, b.resultCounts, next)
  {
    var next := seq(|layers|, i requires 0 <= i < |layers| =>
      NextLayerFits(layout, b, plan, layers, delta, i);
      layers[i][..plan.tails[i].destinationOffset] + TailBytes(plan, delta, i));
    NextLayersFit(layout, b, plan, layers, delta, next);
    next
  }

  lemma NextLayersFit(
    layout: PageLayout, b: StageBounds, plan: DeltaPlan, layers: seq<Bytes>, delta: Bytes, next: seq<Bytes>)
    requires PlanFits(layout, b, plan) && plan.totalBytes <= |delta| && LayersFit(layout, b.baseCounts, layers)
    requires |next| == |layers|
    requires forall i :: 0 <= i < |layers| ==>
               && plan.tails[i].destinationOffset <= |layers[i]|
               && next[i] == layers[i][..plan.tails[i].destinationOffset] + TailBytes(plan, delta, i)
    ensures LayersFit(layout, b.resultCounts, next)
  {
    forall i | 0 <= i < |next|
      ensures |next[i]| == LayerSize(layout, b.resultCounts, i)
    {
      NextLayerFits(layout, b, plan, layers, delta, i);
    }
  }

  /** Where layer `i` is cut, and how long it comes out. */
  lemma NextLayerFits(
    layout: PageLayout, b: StageBounds, plan: DeltaPlan, layers: seq<Bytes>, delta: Bytes, i: nat)
    requires PlanFits(layout, b, plan) && plan.totalBytes <= |delta| && LayersFit(layout, b.baseCounts, layers)
    requires i < |layers|
    ensures i < |plan.tails| && CountsFit(layout, b.resultCounts)
    ensures var t := plan.tails[i];
            && t.destinationOffset <= |layers[i]| && t.sourceStart <= t.sourceEnd <= |delta|
            && t.destinationOffset + t.sourceEnd - t.sourceStart == LayerSize(layout, b.resultCounts, i)
  {
    hide LayerSize, TailCounts;
    TailCountsFit(layout, b, plan.reused);
    ReusePlusTail(layout, b, plan.reused, i);
  }

  predicate TailsAuthentic(lib: Library, plan: DeltaPlan, delta: Bytes, n: nat)
    requires n <= |plan.tails|
  {
    forall i :: 0 <= i < n ==>
      && plan.tails[i].sourceStart <= plan.tails[i].sourceEnd <= |delta|
      && lib.sha(TailBytes(plan, delta, i)) == plan.tails[i].sha
  }

  function ApplyDelta(lib: Library, layout: PageLayout, base: Verified, delta: Bytes, b: StageBounds)
    : Result<Verified, PageError>
    requires ValidLayout(layout)
  {
    var plan :- PlanDelta(lib, layout, delta, b, |delta|);
    if plan.baseSha != base.sha then Err(IdentityDiffers)
    else
      var basePlan :- PlanSnapshot(lib, layout, base.payload, b.baseCounts, |base.payload|);
      if !TailsAuthentic(lib, plan, delta, |plan.tails|) then Err(TailChecksum)
      else
        FoundLayersFit(layout, b.baseCounts, base.payload, basePlan.headerBytes);
        var layers := Layers(layout, b.baseCounts, base.payload, basePlan.headerBytes);
        var result := Snapshot(lib, layout, b.resultCounts, NextLayers(layout, b, plan, layers, delta));
        if lib.sha(result) != plan.resultSha then Err(ResultChecksum)
        else Ok(Verified(result, lib.sha(result)))
  }

  method ApplyVerifiedPageDelta(lib: Library, layout: PageLayout, base: Verified, delta: Bytes, b: StageBounds)
    returns (r: Result<Verified, PageError>)
    requires ValidLayout(layout)
    ensures r == ApplyDelta(lib, layout, base, delta, b)
  {
    hide PlanDelta, PlanSnapshot, NextLayers, Join, LayerOffset, LayerSize, TailsAuthentic, PlanFits;
    var planned := PlanPageDelta(lib, layout, delta, b, |delta|);
    if planned.Err? {
      return Err(planned.error);
    }
    var plan := planned.value;
    if plan.baseSha != base.sha {
      return Err(IdentityDiffers);
    }
    var basePlanned := PlanPageSnapshot(lib, layout, base.payload, b.baseCounts, |base.payload|);
    if basePlanned.Err? {
      return Err(basePlanned.error);
    }
    FoundLayersFit(layout, b.baseCounts, base.payload, basePlanned.value.headerBytes);
    ghost var next := NextLayers(
      layout, b, plan, Layers(layout, b.baseCounts, base.payload, basePlanned.value.headerBytes), delta);
    PartsMatch(layout, b, plan, basePlanned.value, base.payload, delta);
    var header := lib.snapshotHeader(layout, b.resultCounts);
    var joined := JoinPrefixesAndTails(lib, header, plan, basePlanned.value.spans, base.payload, delta, next);
    if joined.Err? {
      return Err(TailChecksum);
    }
    LayersOfJoin(layout, b.resultCounts, header, next);
    assert |joined.value| == EncodedSize(lib, layout, b.resultCounts);
    var sha := lib.sha(joined.value);
    if sha != plan.resultSha {
      return Err(ResultChecksum);
    }
    r := Ok(Verified(joined.value, sha));
  }

  /** Part `i` of the result is base pages up to the tail's offset, then the tail. */
  ghost predicate PartIs(
    plan: DeltaPlan, spans: seq<PageSpan>, payload: Bytes, delta: Bytes, next: seq<Bytes>, i: nat)
    requires i < |plan.tails| == |spans| == |next|
  {
    var tail, start := plan.tails[i], spans[i].sourceStart;
    && start + tail.destinationOffset <= |payload|
    && tail.sourceStart <= tail.sourceEnd <= |delta|
    && next[i] == payload[start..start + tail.destinationOffset] + delta[tail.sourceStart..tail.sourceEnd]
  }

  lemma PartsMatch(layout: PageLayout, b: StageBounds, plan: DeltaPlan, basePlan: SnapshotPlan, payload: Bytes, delta: Bytes)
    requires PlanFits(layout, b, plan) && plan.totalBytes <= |delta| && CountsFit(layout, b.baseCounts)
    requires basePlan.headerBytes + PayloadBytes(layout, b.baseCounts) == |payload|
    requires basePlan.spans == SpansOf(layout, b.baseCounts, basePlan.headerBytes, |layout.layers|)
    requires LayersFit(layout, b.baseCounts, Layers(layout, b.baseCounts, payload, basePlan.headerBytes))
    ensures var next := NextLayers(
              layout, b, plan, Layers(layout, b.baseCounts, payload, basePlan.headerBytes), delta);
            |next| == |plan.tails| == |basePlan.spans|
            && forall i :: 0 <= i < |plan.tails| ==> PartIs(plan, basePlan.spans, payload, delta, next, i)
  {
    hide LayerOffset, LayerSize;
    var next := NextLayers(
      layout, b, plan, Layers(layout, b.baseCounts, payload, basePlan.headerBytes), delta);
    forall i | 0 <= i < |plan.tails|
      ensures PartIs(plan, basePlan.spans, payload, delta, next, i)
    {
      NextLayerAt(layout, b, plan, payload, basePlan.headerBytes, delta, i);
    }
  }

  /** Check every tail and join it after the base pages it follows. */
  method JoinPrefixesAndTails(
    lib: Library, header: Bytes, plan: DeltaPlan, spans: seq<PageSpan>, payload: Bytes, delta: Bytes,
    ghost next: seq<Bytes>)
    returns (r: Result<Bytes, PageError>)
    requires |plan.tails| == |spans| == |next|
    requires forall i :: 0 <= i < |plan.tails| ==> PartIs(plan, spans, payload, delta, next, i)
    ensures r == if TailsAuthentic(lib, plan, delta, |plan.tails|) then Ok(header + Join(next)) else Err(TailChecksum)
  {
    var joined: Bytes := header;
    for i := 0 to |plan.tails|
      invariant TailsAuthentic(lib, plan, delta, i)
      invariant joined == header + Join(next[..i])
    {
      assert PartIs(plan, spans, payload, delta, next, i);
      var tail, span := plan.tails[i], spans[i];
      var payloadTail := delta[tail.sourceStart..tail.sourceEnd];
      if lib.sha(payloadTail) != tail.sha {
        return Err(TailChecksum);
      }
      var prefix := payload[span.sourceStart..span.sourceStart + tail.destinationOffset];
      AppendPart(header, next, i, prefix, payloadTail);
      joined := joined + prefix + payloadTail;
    }
    assert next[..|plan.tails|] == next;
    r := Ok(joined);
  }

  lemma AppendPart(header: Bytes, parts: seq<Bytes>, i: nat, prefix: Bytes, tail: Bytes)
    requires i < |parts| && parts[i] == prefix + tail
    ensures header + Join(parts[..i]) + prefix + tail == header + Join(parts[..i + 1])
  {
    JoinNext(parts, i);
    assert header + Join(parts[..i]) + prefix + tail == header + (Join(parts[..i]) + (prefix + tail));
  }

  /** The two views joined for one layer of the result. */
  lemma NextLayerAt(
    layout: PageLayout, b: StageBounds, plan: DeltaPlan, payload: Bytes, headerBytes: nat, delta: Bytes, i: nat)
    requires PlanFits(layout, b, plan) && plan.totalBytes <= |delta| && CountsFit(layout, b.baseCounts)
    requires headerBytes + PayloadBytes(layout, b.baseCounts) == |payload| && i < |layout.layers|
    requires LayersFit(layout, b.baseCounts, Layers(layout, b.baseCounts, payload, headerBytes))
    ensures var start := headerBytes + LayerOffset(layout, b.baseCounts, i);
            var tail := plan.tails[i];
            && start + tail.destinationOffset <= |payload|
            && tail.sourceStart <= tail.sourceEnd <= |delta|
            && NextLayers(layout, b, plan, Layers(layout, b.baseCounts, payload, headerBytes), delta)[i]
               == payload[start..start + tail.destinationOffset] + delta[tail.sourceStart..tail.sourceEnd]
  {
    hide LayerOffset, LayerSize, TailCounts, BoundsValid, ReuseFits;
    LayersFound(layout, b.baseCounts, payload, headerBytes, i);
    assert ReuseFits(b, plan.reused) && BoundsValid(layout, b);
    ReusePlusTail(layout, b, plan.reused, i);
    TakeOfSlice(payload, headerBytes + LayerOffset(layout, b.baseCounts, i),
                headerBytes + LayerOffset(layout, b.baseCounts, i + 1), plan.tails[i].destinationOffset);
  }

  lemma TakeOfSlice(bytes: Bytes, lo: nat, hi: nat, n: nat)
    requires lo + n <= hi <= |bytes|
    ensures bytes[lo..hi][..n] == bytes[lo..lo + n]
  {
  }
}
