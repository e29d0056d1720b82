// From the planner through the packer and the executor to the page buffers.
module CudaPlacement {
  import opened Common
  import opened PageCopies
  import opened Pages
  import opened PageDelta
  import opened PageHistory
  import opened PageHistoryTheorems
  import opened CudaSources
  import opened CudaPlan
  import opened CudaSpans
  import opened CudaRestore
  import opened CudaBatches
  import opened CudaExecutor

  // ---- what one span carries ----

  lemma {:induction false} ReadLength(store: Store, spans: Batch)
    requires SpansOk(store, spans)
    ensures |ReadSpans(store, spans)| == Total(spans)
  {
    if spans != [] {
      SpansSplit(store, spans);
      ReadLength(store, spans[..|spans| - 1]);
    }
  }

  lemma SpansPart(store: Store, spans: Batch, k: nat)
    requires SpansOk(store, spans) && k <= |spans|
    ensures SpansOk(store, spans[..k]) && SpansOk(store, spans[k..])
  {
    hide SpanOk;
  }

  /** What a list reads has each span's bytes behind those of the spans before it. */
  lemma ReadAt(store: Store, spans: Batch, k: nat)
    requires SpansOk(store, spans) && k < |spans|
    ensures SpanOk(store, spans[k]) && Total(spans[..k]) + spans[k].count <= |ReadSpans(store, spans)|
    ensures ReadSpans(store, spans)[Total(spans[..k])..Total(spans[..k]) + spans[k].count]
            == SpanBytes(store, spans[k])
  {
    SpanThere(store, spans, k);
    SpansPart(store, spans, k);
    SpansPart(store, spans, k + 1);
    hide *;
    assert spans[..k + 1] == spans[..k] + [spans[k]];
    assert spans == spans[..k + 1] + spans[k + 1..];
    ReadOne(store, spans[..k], spans[k]);
    ReadAppend(store, spans[..k + 1], spans[k + 1..]);
    ReadLength(store, spans[..k]);
    Middle(ReadSpans(store, spans[..k]), SpanBytes(store, spans[k]), ReadSpans(store, spans[k + 1..]));
  }

  lemma SpanThere(store: Store, spans: Batch, k: nat)
    requires SpansOk(store, spans) && k < |spans|
    ensures SpanOk(store, spans[k]) && |SpanBytes(store, spans[k])| == spans[k].count
  {
  }

  lemma {:induction false} CoveredUp(spans: Batch, k: nat, d: nat)
    requires k <= |spans|
    ensures CoveredIn(spans[..k], d) <= CoveredIn(spans, d)
    decreases |spans|
  {
    if k == |spans| {
      assert spans[..k] == spans;
    } else {
      CoveredUp(spans[..|spans| - 1], k, d);
      assert spans[..|spans| - 1][..k] == spans[..k];
    }
  }

  lemma CoveredNext(spans: Batch, k: nat)
    requires k < |spans|
    ensures forall d: nat :: CoveredIn(spans[..k + 1], d)
                             == CoveredIn(spans[..k], d) + (if spans[k].destination == d then spans[k].count else 0)
  {
    assert spans[..k + 1] == spans[..k] + [spans[k]];
    BatchNext(spans[..k], spans[k]);
  }

  /** Spans that cover these layers and read them one after another. */
  ghost predicate Delivers(store: Store, layout: PageLayout, counts: seq<int>, layers: seq<Bytes>, spans: Batch) {
    && LayersFit(layout, counts, layers) && Coverage(spans) && Places(layout, counts, spans, |layers|)
    && SpansOk(store, spans) && ReadSpans(store, spans) == Join(layers)
  }

  lemma PlaceOf(layout: PageLayout, counts: seq<int>, spans: Batch, k: nat)
    requires CountsFit(layout, counts) && Places(layout, counts, spans, |layout.layers|) && k < |spans|
    requires Coverage(spans)
    ensures var d := spans[k].destination;
            && d < |layout.layers|
            && spans[k].snapshotOffset == LayerOffset(layout, counts, d) + spans[k].destinationOffset
            && spans[k].snapshotOffset == Total(spans[..k])
            && spans[k].destinationOffset == CoveredIn(spans[..k], d)
            && spans[k].destinationOffset + spans[k].count <= LayerSize(layout, counts, d)
  {
    CoveragePrefix(spans, k);
    CoveragePrefix(spans, k + 1);
    CoverageNext(spans, k);
    hide LayerOffset, LayerSize, Coverage, Total, CoveredIn;
    CoveredNext(spans, k);
    CoveredUp(spans, k + 1, spans[k].destination);
  }

  /** Each span carries the next stretch of the layer it names. */
  lemma SpanCarries(store: Store, layout: PageLayout, counts: seq<int>, layers: seq<Bytes>, spans: Batch, k: nat)
    requires Delivers(store, layout, counts, layers, spans) && k < |spans|
    ensures SpanOk(store, spans[k])
    ensures var d, off := spans[k].destination, spans[k].destinationOffset;
            && d < |layers| && off == CoveredIn(spans[..k], d) && off + spans[k].count <= |layers[d]|
            && SpanBytes(store, spans[k]) == layers[d][off..off + spans[k].count]
  {
    hide Coverage, Places, SpansOk, SpanOk, ReadSpans, SpanBytes, Join, LayerOffset, LayerSize, Total, CoveredIn;
    var d, off := spans[k].destination, spans[k].destinationOffset;
    PlaceOf(layout, counts, spans, k);
    ReadAt(store, spans, k);
    JoinedLayer(layout, counts, layers, d);
    SliceOfSlice(Join(layers), LayerOffset(layout, counts, d), LayerOffset(layout, counts, d + 1),
                 off, off + spans[k].count);
  }

  // ---- filling the buffers ----

  /** Every page buffer has its layer's size and holds what these spans cover of it. */
  ghost predicate Filled(layers: seq<Bytes>, pages: seq<Bytes>, spans: Batch) {
    |pages| == |layers| && forall i :: 0 <= i < |pages| ==> PageFilled(layers[i], pages[i], CoveredIn(spans, i))
  }

  predicate PageFilled(layer: Bytes, page: Bytes, covered: nat) {
    |page| == |layer| && covered <= |layer| && page[..covered] == layer[..covered]
  }

  lemma FilledNext(layers: seq<Bytes>, pages: seq<Bytes>, spans: Batch, k: nat, page: Bytes)
    requires k < |spans| && Filled(layers, pages, spans[..k])
    requires var d := spans[k].destination;
             d < |pages| && PageFilled(layers[d], page, CoveredIn(spans[..k], d) + spans[k].count)
    ensures Filled(layers, pages[spans[k].destination := page], spans[..k + 1])
  {
    hide CoveredIn, PageFilled;
    CoveredNext(spans, k);
  }

  lemma PageGrows(layer: Bytes, pages: seq<Bytes>, arena: Bytes, c: CopySpan)
    requires c.destination < |pages| && PageFilled(layer, pages[c.destination], c.destinationOffset)
    requires c.destinationOffset + c.bytes <= |layer| && c.arenaOffset + c.bytes <= |arena|
    requires arena[c.arenaOffset..c.arenaOffset + c.bytes]
             == layer[c.destinationOffset..c.destinationOffset + c.bytes]
    ensures CopyFits(pages, arena, c)
    ensures var page := Copied(pages, arena, c)[c.destination];
            && Copied(pages, arena, c) == pages[c.destination := page]
            && PageFilled(layer, page, c.destinationOffset + c.bytes)
  {
    FillOn(pages[c.destination], layer, c.destinationOffset, c.destinationOffset + c.bytes);
  }

  lemma FilledAt(layers: seq<Bytes>, pages: seq<Bytes>, spans: Batch, i: nat)
    requires Filled(layers, pages, spans) && i < |layers|
    ensures |pages| == |layers| && PageFilled(layers[i], pages[i], CoveredIn(spans, i))
  {
  }

  lemma CopyNames(span: SourceSpan, at: nat)
    ensures var c := CopyOf(span, at);
            && c.arenaOffset == at && c.bytes == span.count && c.destination == span.destination
            && c.destinationOffset == span.destinationOffset
  {
  }

  /** Copying one span out of an arena that holds its bytes. */
  lemma CopyFills(
    store: Store, layout: PageLayout, counts: seq<int>, layers: seq<Bytes>, spans: Batch, k: nat, pages: seq<Bytes>,
    arena: Bytes, at: nat)
    requires Delivers(store, layout, counts, layers, spans) && k < |spans| && Filled(layers, pages, spans[..k])
    requires at + spans[k].count <= |arena| && SpanOk(store, spans[k])
    requires arena[at..at + spans[k].count] == SpanBytes(store, spans[k])
    ensures var c := CopyOf(spans[k], at);
            CopyFits(pages, arena, c) && Filled(layers, Copied(pages, arena, c), spans[..k + 1])
  {
    hide *;
    var c := CopyOf(spans[k], at);
    CopyNames(spans[k], at);
    SpanCarries(store, layout, counts, layers, spans, k);
    FilledAt(layers, pages, spans[..k], c.destination);
    PageGrows(layers[c.destination], pages, arena, c);
    FilledNext(layers, pages, spans, k, Copied(pages, arena, c)[c.destination]);
  }

  lemma CopiesNext(batch: Batch, m: nat)
    requires m < |batch|
    ensures CopiesOf(batch[..m + 1]) == CopiesOf(batch[..m]) + [CopyOf(batch[m], Total(batch[..m]))]
  {
    assert batch[..m + 1][..m] == batch[..m];
    hide CopyOf, Total;
  }

  /** One submission: no copy is out of bounds, and the buffers move on by the batch. */
  lemma {:induction false} BatchFills(
    store: Store, layout: PageLayout, counts: seq<int>, layers: seq<Bytes>, spans: Batch, at: nat, batch: Batch, m: nat,
    pages: seq<Bytes>)
    requires at + |batch| <= |spans| && m <= |batch| && (forall j :: 0 <= j < |batch| ==> batch[j] == spans[at + j])
    requires Delivers(store, layout, counts, layers, spans) && Filled(layers, pages, spans[..at])
    requires SpansOk(store, batch)
    ensures var after := Submit(pages, ReadSpans(store, batch), CopiesOf(batch[..m]));
            after.Some? && Filled(layers, after.value, spans[..at + m])
  {
    hide *;
    if m == 0 {
      assert spans[..at + 0] == spans[..at];
      NoCopies(pages, ReadSpans(store, batch), batch);
    } else {
      var arena := ReadSpans(store, batch);
      BatchFills(store, layout, counts, layers, spans, at, batch, m - 1, pages);
      var before := Submit(pages, arena, CopiesOf(batch[..m - 1])).value;
      ReadAt(store, batch, m - 1);
      CopiesNext(batch, m - 1);
      CopyFills(store, layout, counts, layers, spans, at + m - 1, before, arena, Total(batch[..m - 1]));
      SubmitMore(pages, arena, CopiesOf(batch[..m - 1]), CopyOf(batch[m - 1], Total(batch[..m - 1])));
    }
  }

  lemma NoCopies(pages: seq<Bytes>, arena: Bytes, batch: Batch)
    ensures Submit(pages, arena, CopiesOf(batch[..0])) == Some(pages)
  {
  }

  /** All submissions of a run, in order. */
  function SubmitSlabs(pages: seq<Bytes>, slabs: seq<Slab>): Option<seq<Bytes>> {
    if slabs == [] then Some(pages)
    else
      match SubmitSlabs(pages, slabs[..|slabs| - 1])
      case None => None
      case Some(before) => Submit(before, slabs[|slabs| - 1].bytes, slabs[|slabs| - 1].copies)
  }

  lemma SlabsNext(store: Store, batches: seq<Batch>, n: nat, arenaCount: nat, pages: seq<Bytes>)
    requires n < |batches| && arenaCount > 0 && forall k :: 0 <= k <= n ==> SpansOk(store, batches[k])
    ensures SubmitSlabs(pages, SlabsOf(store, batches, n + 1, arenaCount))
            == match SubmitSlabs(pages, SlabsOf(store, batches, n, arenaCount))
               case None => None
               case Some(before) => Submit(before, ReadSpans(store, batches[n]), CopiesOf(batches[n]))
  {
    hide SpansOk, ReadSpans, CopiesOf, Submit;
    var slabs := SlabsOf(store, batches, n + 1, arenaCount);
    assert slabs[..|slabs| - 1] == SlabsOf(store, batches, n, arenaCount);
  }

  lemma {:induction false} FlattenAt(batches: seq<Batch>, n: nat)
    requires n < |batches|
    ensures |Flatten(batches[..n])| + |batches[n]| <= |Flatten(batches)|
    ensures Flatten(batches[..n + 1]) == Flatten(batches[..n]) + batches[n]
    ensures Flatten(batches)[..|Flatten(batches[..n])|] == Flatten(batches[..n])
    ensures forall j :: 0 <= j < |batches[n]| ==> Flatten(batches)[|Flatten(batches[..n])| + j] == batches[n][j]
    decreases |batches|
  {
    assert batches[..n + 1] == batches[..n] + [batches[n]];
    FlattenNext(batches[..n], batches[n]);
    if n + 1 == |batches| {
      assert batches[..n + 1] == batches;
    } else {
      var front := batches[..|batches| - 1];
      FlattenAt(front, n);
      assert front[..n] == batches[..n];
      assert Flatten(batches) == Flatten(front) + batches[|batches| - 1];
    }
  }

  lemma {:induction false} SlabsFill(
    store: Store, layout: PageLayout, counts: seq<int>, layers: seq<Bytes>, batches: seq<Batch>, n: nat,
    arenaCount: nat, pages: seq<Bytes>)
    requires Delivers(store, layout, counts, layers, Flatten(batches)) && arenaCount > 0 && n <= |batches|
    requires forall k :: 0 <= k < |batches| ==> SpansOk(store, batches[k])
    requires LayersFit(layout, counts, pages)
    ensures var after := SubmitSlabs(pages, SlabsOf(store, batches, n, arenaCount));
            after.Some? && Filled(layers, after.value, Flatten(batches[..n]))
  {
    hide *;
    if n == 0 {
      NothingFilled(store, layout, counts, layers, Flatten(batches), pages);
      NoSlabs(store, batches, arenaCount, pages);
    } else {
      SlabsFill(store, layout, counts, layers, batches, n - 1, arenaCount, pages);
      SlabsNext(store, batches, n - 1, arenaCount, pages);
      FlattenAt(batches, n - 1);
      var before := SubmitSlabs(pages, SlabsOf(store, batches, n - 1, arenaCount)).value;
      var batch, at := batches[n - 1], |Flatten(batches[..n - 1])|;
      BatchFills(store, layout, counts, layers, Flatten(batches), at, batch, |batch|, before);
      assert batch[..|batch|] == batch;
      assert Flatten(batches)[..at + |batch|] == Flatten(batches[..n - 1]) + batch;
    }
  }

  lemma NothingFilled(
    store: Store, layout: PageLayout, counts: seq<int>, layers: seq<Bytes>, spans: Batch, pages: seq<Bytes>)
    requires Delivers(store, layout, counts, layers, spans) && LayersFit(layout, counts, pages)
    ensures Filled(layers, pages, [])
  {
    hide LayerSize, Coverage, Places, SpansOk, Join, ReadSpans;
  }

  lemma NoSlabs(store: Store, batches: seq<Batch>, arenaCount: nat, pages: seq<Bytes>)
    requires arenaCount > 0
    ensures SubmitSlabs(pages, SlabsOf(store, batches, 0, arenaCount)) == Some(pages)
    ensures Flatten(batches[..0]) == []
  {
  }

  /** Placing the spans leaves every page buffer equal to its own layer, whatever
      the buffers held and however the spans were batched. */
  lemma BuffersHoldLayers(
    store: Store, layout: PageLayout, counts: seq<int>, layers: seq<Bytes>, batches: seq<Batch>, arenaCount: nat,
    pages: seq<Bytes>)
    requires LayersFit(layout, counts, layers) && LayersFit(layout, counts, pages) && arenaCount > 0
    requires Coverage(Flatten(batches)) && Places(layout, counts, Flatten(batches), |layers|)
    requires SpansOk(store, Flatten(batches)) && ReadSpans(store, Flatten(batches)) == Join(layers)
    requires forall k :: 0 <= k < |batches| ==> SpansOk(store, batches[k])
    ensures SubmitSlabs(pages, SlabsOf(store, batches, |batches|, arenaCount)) == Some(layers)
  {
    hide Coverage, SpansOk, ReadSpans, Join, LayerSize, LayerOffset, Flatten, CoveredIn, SlabsOf, SubmitSlabs;
    SlabsFill(store, layout, counts, layers, batches, |batches|, arenaCount, pages);
    assert batches[..|batches|] == batches;
    var after := SubmitSlabs(pages, SlabsOf(store, batches, |batches|, arenaCount)).value;
    assert |after| == |layers|;
    forall i | 0 <= i < |after|
      ensures after[i] == layers[i]
    {
      assert PageFilled(layers[i], after[i], CoveredIn(Flatten(batches), i));
      assert after[i][..|layers[i]|] == after[i] && layers[i][..|layers[i]|] == layers[i];
    }
    assert after == layers;
  }

  // ---- one path, one file ----

  /** Each stage was planned from the header in its own first object, and each
      starts at the boundary where the stage before it ended. */
  ghost predicate Chained(
    lib: Library, layout: PageLayout, prefixOf: Bytes -> Bytes, stages: seq<CudaStage>, store: Store)
    requires ValidLayout(layout)
  {
    forall s :: 0 <= s < |stages| ==>
      && stages[s].objects != []
      && PlanDelta(lib, layout, prefixOf(store(stages[s].objects[0].digest)), BoundsOf(stages[s].plan),
                   stages[s].plan.totalBytes) == Ok(stages[s].plan)
      && (s > 0 ==> stages[s].plan.baseBoundary == stages[s - 1].plan.resultBoundary)
  }

  lemma {:induction false} BoundariesAscend(
    lib: Library, layout: PageLayout, prefixOf: Bytes -> Bytes, stages: seq<CudaStage>, store: Store, m: nat, n: nat)
    requires ValidLayout(layout) && Chained(lib, layout, prefixOf, stages, store) && m < n < |stages|
    ensures stages[m].plan.baseBoundary < stages[n].plan.baseBoundary
    decreases n
  {
    hide PlanFits;
    BoundaryBefore(lib, layout, prefixOf, stages, store, n - 1);
    if m < n - 1 {
      BoundariesAscend(lib, layout, prefixOf, stages, store, m, n - 1);
    }
  }

  lemma BoundaryBefore(
    lib: Library, layout: PageLayout, prefixOf: Bytes -> Bytes, stages: seq<CudaStage>, store: Store, n: nat)
    requires ValidLayout(layout) && Chained(lib, layout, prefixOf, stages, store) && n < |stages|
    ensures stages[n].plan.baseBoundary < stages[n].plan.resultBoundary
  {
    hide DescriptorsMatch, TailsOf, TailCounts, HeaderBinds;
  }

  /** A header names its stage's boundaries, so stages with one first object are one stage. */
  lemma OneStage(
    lib: Library, layout: PageLayout, prefixOf: Bytes -> Bytes, stages: seq<CudaStage>, store: Store, m: nat, n: nat)
    requires ValidLayout(layout) && Chained(lib, layout, prefixOf, stages, store) && m < |stages| && n < |stages|
    requires stages[m].objects[0].digest == stages[n].objects[0].digest
    ensures m == n
  {
    var prefix := prefixOf(store(stages[m].objects[0].digest));
    HeaderNames(lib, layout, prefix, stages[m].plan);
    HeaderNames(lib, layout, prefix, stages[n].plan);
    hide Chained;
    if m < n {
      BoundariesAscend(lib, layout, prefixOf, stages, store, m, n);
    } else if n < m {
      BoundariesAscend(lib, layout, prefixOf, stages, store, n, m);
    }
  }

  lemma HeaderNames(lib: Library, layout: PageLayout, prefix: Bytes, plan: DeltaPlan)
    requires ValidLayout(layout) && PlanDelta(lib, layout, prefix, BoundsOf(plan), plan.totalBytes) == Ok(plan)
    ensures lib.parseDelta(prefix).Some? && lib.parseDelta(prefix).value.0.baseBoundary == plan.baseBoundary
  {
    hide DescriptorsMatch, TailsOf, TailCounts;
  }

  /** Where a source that a placement may read comes from: a stored object, or
      the extent of one tail of one stage. */
  ghost predicate ComesFrom(stages: seq<CudaStage>, bound: nat, store: Store, s: Source, n: nat) {
    && SourceOk(store, s)
    && (s.PageObject?
        || (&& n < |stages| && stages[n].objects != [] && Stored(store, stages[n].objects)
            && s.TailExtent? && s.digest == stages[n].objects[0].digest
            && Carries(store, s, Encoded(store, stages[n].objects))))
  }

  lemma {:induction false} SourceComesFrom(
    objects: seq<Source>, stages: seq<CudaStage>, bound: nat, store: Store, m: nat, s: Source) returns (n: nat)
    requires m <= |stages| && s in SourcesOf(objects, stages, bound, m)
    requires Stored(store, objects) && forall k :: 0 <= k < |objects| ==> objects[k].PageObject?
    requires forall k :: 0 <= k < |stages| ==> TailsInside(stages[k], bound) && Stored(store, stages[k].objects)
    ensures ComesFrom(stages, bound, store, s, n)
  {
    if m == 0 {
      n := 0;
    } else if s in SourcesOf(objects, stages, bound, m - 1) {
      n := SourceComesFrom(objects, stages, bound, store, m - 1, s);
    } else {
      n := m - 1;
      NamedByStage(stages, bound, store, n, s);
    }
  }

  lemma NamedByStage(stages: seq<CudaStage>, bound: nat, store: Store, n: nat, s: Source)
    requires n < |stages| && TailsInside(stages[n], bound) && Stored(store, stages[n].objects)
    requires s in StageNames(stages[n], bound)
    ensures ComesFrom(stages, bound, store, s, n)
  {
    var stage := stages[n];
    if s !in stage.objects {
      var i :| 0 <= i < |stage.plan.tails| && s == ExtentOf(stage.objects, SpotsOf(stage.plan.tails)[i]);
      ExtentCarries(store, stage.objects, SpotsOf(stage.plan.tails)[i]);
      hide SourceBytes, Encoded, TiledFrom, TiledTo;
    }
  }

  /** Sources with one path hold the same bytes. */
  lemma SamePathSameBytes(
    lib: Library, layout: PageLayout, prefixOf: Bytes -> Bytes, stages: seq<CudaStage>, bound: nat, store: Store,
    s: Source, t: Source, m: nat, n: nat)
    requires ValidLayout(layout) && Chained(lib, layout, prefixOf, stages, store) && s.Path() == t.Path()
    requires ComesFrom(stages, bound, store, s, m) && ComesFrom(stages, bound, store, t, n)
    ensures SourceOk(store, s) && SourceOk(store, t) && SourceBytes(store, s) == SourceBytes(store, t)
  {
    hide Encoded, Chained, SourceOk;
    if s.TailExtent? {
      OneStage(lib, layout, prefixOf, stages, store, m, n);
    }
  }

  /** The cache key is sound: of all sources a placement may read, two with one
      path are the same bytes. No property of the hash is used. */
  lemma PathsNameFiles(
    lib: Library, layout: PageLayout, prefixOf: Bytes -> Bytes, root: Root, stages: seq<CudaStage>, bound: nat,
    store: Store)
    requires StagesFit(layout, stages, bound, store) && Tiles(root.objects, root.total, bound)
    requires Stored(store, root.objects) && Chained(lib, layout, prefixOf, stages, store)
    ensures PathsAgree(store, SourcesOf(root.objects, stages, bound, |stages|))
  {
    hide StagesFit, Tiles, Stored, Chained, SourcesOf, SourceOk, SourceBytes;
    var sources := SourcesOf(root.objects, stages, bound, |stages|);
    forall s, t | s in sources && t in sources && s.Path() == t.Path()
      ensures SourceOk(store, s) && SourceOk(store, t) && SourceBytes(store, s) == SourceBytes(store, t)
    {
      SamePathNamed(lib, layout, prefixOf, root, stages, bound, store, s, t);
    }
  }

  lemma SamePathNamed(
    lib: Library, layout: PageLayout, prefixOf: Bytes -> Bytes, root: Root, stages: seq<CudaStage>, bound: nat,
    store: Store, s: Source, t: Source)
    requires StagesFit(layout, stages, bound, store) && Tiles(root.objects, root.total, bound)
    requires Stored(store, root.objects) && Chained(lib, layout, prefixOf, stages, store)
    requires s in SourcesOf(root.objects, stages, bound, |stages|) && t in SourcesOf(root.objects, stages, bound, |stages|)
    requires s.Path() == t.Path()
    ensures SourceOk(store, s) && SourceOk(store, t) && SourceBytes(store, s) == SourceBytes(store, t)
  {
    AllInside(layout, stages, bound, store);
    TilesAreObjects(root.objects, root.total, bound);
    hide *;
    var m := SourceComesFrom(root.objects, stages, bound, store, |stages|, s);
    var n := SourceComesFrom(root.objects, stages, bound, store, |stages|, t);
    SamePathSameBytes(lib, layout, prefixOf, stages, bound, store, s, t, m, n);
  }

  lemma AllInside(layout: PageLayout, stages: seq<CudaStage>, bound: nat, store: Store)
    requires StagesFit(layout, stages, bound, store)
    ensures forall k :: 0 <= k < |stages| ==> TailsInside(stages[k], bound) && Stored(store, stages[k].objects)
  {
    hide TailsInside, Tiles, Stored;
    forall k | 0 <= k < |stages|
      ensures TailsInside(stages[k], bound)
    {
      PlannedOne(layout, CudaPlans(stages), k);
      InsideFile(layout, stages[k], bound);
    }
  }

  lemma TilesAreObjects(objects: seq<Source>, total: nat, bound: nat)
    requires Tiles(objects, total, bound)
    ensures forall k :: 0 <= k < |objects| ==> objects[k].PageObject?
  {
  }

  // ---- the whole restore ----

  /** The layers that the accepted history stacks up to. */
  ghost function RestoredLayers(
    lib: Library, layout: PageLayout, root: Root, firstObject: Bytes, stages: seq<CudaStage>, expected: seq<int>,
    bound: nat, store: Store)
    : seq<Bytes>
    requires StagesFit(layout, stages, bound, store) && Stored(store, root.objects)
    requires |Encoded(store, root.objects)| == root.total
    requires Accepts(lib, layout, root, firstObject, stages, expected)
    requires forall i :: 0 <= i < |layout.layers| ==> HasLayer(CudaPlans(stages), i)
  {
    Stacked(CudaRestore.PlannedLayers(lib, layout, root, firstObject, stages[0].plan.baseCounts, store),
            CudaPlans(stages), StageReader(StagesOf(store, stages)), |stages|)
  }

  lemma RestoredFit(
    lib: Library, layout: PageLayout, root: Root, firstObject: Bytes, stages: seq<CudaStage>, expected: seq<int>,
    bound: nat, store: Store)
    requires StagesFit(layout, stages, bound, store) && Stored(store, root.objects)
    requires |Encoded(store, root.objects)| == root.total
    requires Accepts(lib, layout, root, firstObject, stages, expected)
    requires forall i :: 0 <= i < |layout.layers| ==> HasLayer(CudaPlans(stages), i)
    ensures LayersFit(layout, expected, RestoredLayers(lib, layout, root, firstObject, stages, expected, bound, store))
    ensures |RestoredLayers(lib, layout, root, firstObject, stages, expected, bound, store)| == |layout.layers|
  {
    hide Stacked, LayersFit, Planned, HasLayer, PlanSnapshot, Encoded, Stored, Linked, StageReader;
    var counts := stages[0].plan.baseCounts;
    StackedFit(layout, counts, root.sha, CudaPlans(stages), StageReader(StagesOf(store, stages)),
               CudaRestore.PlannedLayers(lib, layout, root, firstObject, counts, store));
  }

  /** The restored layers are the composed snapshot: composing the same history
      succeeds exactly when the surviving tails and the result digest check out. */
  lemma RestoredIsComposed(
    lib: Library, layout: PageLayout, root: Root, firstObject: Bytes, stages: seq<CudaStage>, expected: seq<int>,
    bound: nat, store: Store)
    requires StagesFit(layout, stages, bound, store) && Stored(store, root.objects)
    requires |Encoded(store, root.objects)| == root.total
    requires Accepts(lib, layout, root, firstObject, stages, expected)
    requires forall i :: 0 <= i < |layout.layers| ==> HasLayer(CudaPlans(stages), i)
    requires var base, counts := Encoded(store, root.objects), stages[0].plan.baseCounts;
             lib.sha(base) == root.sha && PlanSnapshot(lib, layout, base, counts, |base|).Ok?
    ensures var plans, read := CudaPlans(stages), StageReader(StagesOf(store, stages));
            var composed := Composed(lib, layout, Verify(lib, Encoded(store, root.objects)),
                                     stages[0].plan.baseCounts, plans, read);
            var restored := Snapshot(lib, layout, expected,
                                     RestoredLayers(lib, layout, root, firstObject, stages, expected, bound, store));
            var digest := plans[|plans| - 1].resultSha;
            && (composed.Ok? <==> SurvivorsAuthentic(lib, plans, read, |layout.layers|) && lib.sha(restored) == digest)
            && (composed.Ok? ==> composed.value == Verified(restored, digest))
  {
    hide HasLayer, Stacked, Join, PlanSnapshot, Layers, StageReader, SurvivorsAuthentic, Planned, Encoded, Linked;
  }

  lemma AcceptsSome(
    lib: Library, layout: PageLayout, root: Root, firstObject: Bytes, stages: seq<CudaStage>, expected: seq<int>)
    requires ValidLayout(layout) && Accepts(lib, layout, root, firstObject, stages, expected)
    ensures stages != []
  {
  }

  lemma PlaceableCovers(spans: Batch, bound: nat)
    requires Placeable(spans, bound)
    ensures Coverage(spans)
  {
  }

  lemma SpansInside(store: Store, spans: Batch, sources: set<Source>)
    requires SpansOk(store, spans) && DrawnFrom(spans, sources)
    ensures forall k :: 0 <= k < |spans| ==>
              spans[k].source in sources && spans[k].sourceOffset + spans[k].count <= spans[k].source.size
    ensures forall s :: s in spans ==> s.source in sources
  {
    hide SourceOk;
  }

  /** A whole restore, from the planned history to the page buffers. When it
      succeeds, its submissions leave every page buffer equal to its own layer of
      the history's result, whatever the buffers held and whatever the cache
      dropped, and the result has the digest the newest stage declares. When
      every source checks out, it succeeds exactly when the planner accepts the
      history and that digest is right. */
  method RestorePageDelta(
    lib: Library, layout: PageLayout, root: Root, firstObject: Bytes, stages: seq<CudaStage>, expected: seq<int>,
    arena: nat, arenaCount: nat, cacheLimit: nat, prefetched: map<Path, Loaded>, store: Store,
    ghost prefixOf: Bytes -> Bytes, ghost buffers: seq<Bytes>)
    returns (r: Result<seq<Slab>, CudaError>)
    requires Faithful(lib) && arenaCount > 0
    requires StagesFit(layout, stages, Min(arena, PREFETCH_BYTES), store)
    requires Tiles(root.objects, root.total, Min(arena, PREFETCH_BYTES)) && Stored(store, root.objects)
    requires Chained(lib, layout, prefixOf, stages, store)
    requires ItemsOk(store, SourcesOf(root.objects, stages, Min(arena, PREFETCH_BYTES), |stages|), prefetched)
    requires CountsFit(layout, expected) ==> LayersFit(layout, expected, buffers)
    ensures |Encoded(store, root.objects)| == root.total
    ensures forall i :: 0 <= i < |layout.layers| ==> HasLayer(CudaPlans(stages), i)
    ensures r.Ok? ==>
              && Accepts(lib, layout, root, firstObject, stages, expected)
              && var layers := RestoredLayers(lib, layout, root, firstObject, stages, expected,
                                              Min(arena, PREFETCH_BYTES), store);
                 && SubmitSlabs(buffers, r.value) == Some(layers)
                 && lib.sha(Snapshot(lib, layout, expected, layers)) == stages[|stages| - 1].plan.resultSha
    ensures (forall s :: s in SourcesOf(root.objects, stages, Min(arena, PREFETCH_BYTES), |stages|) ==>
               Trusted(lib, store, s)) ==>
              (r.Ok? <==>
                 && Accepts(lib, layout, root, firstObject, stages, expected)
                 && lib.sha(Snapshot(lib, layout, expected,
                                     RestoredLayers(lib, layout, root, firstObject, stages, expected,
                                                    Min(arena, PREFETCH_BYTES), store)))
                    == stages[|stages| - 1].plan.resultSha)
  {
    hide HasLayer, Stacked, Join, Linked, LayersFit, StageReader, Encoded, Placeable, SpansOk, ReadSpans, Places, DrawnFrom,
         SourcesOf, PathsAgree, ItemsOk, Trusted, Flatten, Greedy, BatchFits, SlabsOf, SubmitSlabs, Chained, StagesFit,
         Tiles, Stored, Faithful, Accepts, CudaRestore.PlannedLayers, Coverage;
    var spans := PlanCudaPageDeltaRestore(lib, layout, root, firstObject, stages, expected, arena, store);
    if spans.Err? {
      return Err(spans.error);
    }
    AcceptsSome(lib, layout, root, firstObject, stages, expected);
    PlaceableCovers(spans.value, Min(arena, PREFETCH_BYTES));
    ghost var sources := SourcesOf(root.objects, stages, Min(arena, PREFETCH_BYTES), |stages|);
    var batches := PackPlanned(spans.value, arena);
    PathsNameFiles(lib, layout, prefixOf, root, stages, Min(arena, PREFETCH_BYTES), store);
    SpansInside(store, spans.value, sources);
    var executor := new PageDeltaExecutor(
      lib, store, arenaCount, cacheLimit, prefetched, lib.snapshotHeader(layout, expected), sources);
    var ok := executor.Execute(batches, stages[|stages| - 1].plan.resultSha);
    ghost var layers :=
      RestoredLayers(lib, layout, root, firstObject, stages, expected, Min(arena, PREFETCH_BYTES), store);
    if !ok {
      return Err(RunFailed);
    }
    RestoredFit(lib, layout, root, firstObject, stages, expected, Min(arena, PREFETCH_BYTES), store);
    BuffersHoldLayers(store, layout, expected, layers, batches, arenaCount, buffers);
    r := Ok(executor.submitted);
  }
}
