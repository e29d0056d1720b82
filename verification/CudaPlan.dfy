// Planning a placement without assembling the result: every final byte is named
// as a span of some object or tail extent.
module CudaPlan {
  import opened Common
  import opened Pages
  import opened PageDelta
  import opened PageHistory
  import opened PageHistoryTheorems
  import opened CudaSources

  /** Bytes [start, end) of a layer, starting at `sourceStart` of what the
      sources hold. Unlike the composer's ranges these may be empty. */
  datatype LogicalRange = LogicalRange(start: nat, end: nat, sourceStart: nat, objects: seq<Source>)

  datatype SourceSpan = SourceSpan(
    source: Source, sourceOffset: nat, snapshotOffset: nat, destinationOffset: nat, count: nat, destination: nat)

  // ---- ranges of one layer ----

  function Cut(rs: seq<LogicalRange>, cutoff: nat): seq<LogicalRange> {
    if rs == [] || rs[0].start >= cutoff then []
    else
      var end := Min(rs[0].end, cutoff);
      [rs[0].(end := end)] + (if end == cutoff then [] else Cut(rs[1..], cutoff))
  }

  function CutTo(rs: seq<LogicalRange>): nat {
    if rs == [] then 0 else rs[|rs| - 1].end
  }

  /** The range's sources hold their parts of `payload`, all of the range among them. */
  ghost predicate Backed(store: Store, r: LogicalRange, payload: Bytes) {
    && r.start <= r.end && r.objects != []
    && TiledFrom(r.objects, r.objects[0].start) && r.objects[0].start <= r.sourceStart
    && r.sourceStart + r.end - r.start <= TiledTo(r.objects, r.objects[0].start)
    && r.sourceStart + r.end - r.start <= |payload|
    && forall k :: 0 <= k < |r.objects| ==> Carries(store, r.objects[k], payload)
  }

  /** Ranges that follow one another from byte `at`, each with what backs it. */
  ghost predicate Holds(store: Store, rs: seq<LogicalRange>, payloads: seq<Bytes>, at: nat) {
    |rs| == |payloads|
    && (rs != [] ==>
          && rs[0].start == at && Backed(store, rs[0], payloads[0])
          && Holds(store, rs[1..], payloads[1..], rs[0].end))
  }

  ghost function EndOf(rs: seq<LogicalRange>, at: nat): nat {
    if rs == [] then at else EndOf(rs[1..], rs[0].end)
  }

  ghost function Part(r: LogicalRange, payload: Bytes): Bytes
    requires r.start <= r.end && r.sourceStart + r.end - r.start <= |payload|
  {
    payload[r.sourceStart..r.sourceStart + r.end - r.start]
  }

  ghost function Content(store: Store, rs: seq<LogicalRange>, payloads: seq<Bytes>, at: nat): Bytes
    requires Holds(store, rs, payloads, at)
  {
    if rs == [] then [] else Part(rs[0], payloads[0]) + Content(store, rs[1..], payloads[1..], rs[0].end)
  }

  lemma {:induction false} ContentLength(store: Store, rs: seq<LogicalRange>, payloads: seq<Bytes>, at: nat)
    requires Holds(store, rs, payloads, at)
    ensures at <= EndOf(rs, at) && |Content(store, rs, payloads, at)| == EndOf(rs, at) - at
  {
    if rs != [] {
      ContentLength(store, rs[1..], payloads[1..], rs[0].end);
    }
  }

  lemma {:induction false} EndIsLast(rs: seq<LogicalRange>, at: nat)
    requires rs != []
    ensures EndOf(rs, at) == rs[|rs| - 1].end
  {
    if |rs| > 1 {
      EndIsLast(rs[1..], rs[0].end);
    }
  }

  /** Cutting keeps exactly the first bytes. */
  lemma {:induction false} CutContent(
    store: Store, rs: seq<LogicalRange>, payloads: seq<Bytes>, at: nat, cutoff: nat) returns (kept: seq<Bytes>)
    requires Holds(store, rs, payloads, at) && at <= cutoff <= EndOf(rs, at)
    ensures Holds(store, Cut(rs, cutoff), kept, at) && EndOf(Cut(rs, cutoff), at) == cutoff
    ensures cutoff - at <= |Content(store, rs, payloads, at)|
    ensures Content(store, Cut(rs, cutoff), kept, at) == Content(store, rs, payloads, at)[..cutoff - at]
  {
    hide Backed;
    ContentLength(store, rs, payloads, at);
    if at == cutoff {
      kept := [];
      assert Cut(rs, cutoff) == [];
    } else {
      BackedBounds(store, rs[0], payloads[0]);
      var end := Min(rs[0].end, cutoff);
      var rest: seq<LogicalRange>, restKept: seq<Bytes> := [], [];
      if end != cutoff {
        restKept := CutContent(store, rs[1..], payloads[1..], rs[0].end, cutoff);
        rest := Cut(rs[1..], cutoff);
      }
      var first := rs[0].(end := end);
      kept := [payloads[0]] + restKept;
      BackedPrefix(store, rs[0], payloads[0], end);
      HoldsFirst(store, first, payloads[0], rest, restKept);
      assert Cut(rs, cutoff) == [first] + rest;
      if end == cutoff {
        assert Part(first, payloads[0]) == Part(rs[0], payloads[0])[..cutoff - at];
      }
    }
  }

  lemma BackedBounds(store: Store, r: LogicalRange, payload: Bytes)
    requires Backed(store, r, payload)
    ensures r.start <= r.end && r.sourceStart + r.end - r.start <= |payload|
  {
  }

  lemma BackedPrefix(store: Store, r: LogicalRange, payload: Bytes, end: nat)
    requires Backed(store, r, payload) && r.start <= end <= r.end
    ensures Backed(store, r.(end := end), payload)
  {
  }

  lemma HoldsFirst(store: Store, r: LogicalRange, payload: Bytes, rest: seq<LogicalRange>, payloads: seq<Bytes>)
    requires Backed(store, r, payload) && Holds(store, rest, payloads, r.end)
    ensures Holds(store, [r] + rest, [payload] + payloads, r.start)
    ensures r.start <= r.end && r.sourceStart + r.end - r.start <= |payload|
    ensures Content(store, [r] + rest, [payload] + payloads, r.start)
            == Part(r, payload) + Content(store, rest, payloads, r.end)
    ensures EndOf([r] + rest, r.start) == EndOf(rest, r.end)
  {
    hide Backed;
    BackedBounds(store, r, payload);
    assert ([r] + rest)[1..] == rest && ([payload] + payloads)[1..] == payloads;
  }

  lemma {:induction false} HoldsLast(
    store: Store, rs: seq<LogicalRange>, payloads: seq<Bytes>, at: nat, r: LogicalRange, payload: Bytes)
    requires Holds(store, rs, payloads, at) && Backed(store, r, payload) && r.start == EndOf(rs, at)
    ensures Holds(store, rs + [r], payloads + [payload], at) && EndOf(rs + [r], at) == r.end
    ensures r.start <= r.end && r.sourceStart + r.end - r.start <= |payload|
    ensures Content(store, rs + [r], payloads + [payload], at) == Content(store, rs, payloads, at) + Part(r, payload)
  {
    hide Backed;
    BackedBounds(store, r, payload);
    if rs == [] {
      var none: seq<Bytes> := [];
      HoldsFirst(store, r, payload, [], none);
      assert [r] + [] == [r] && [payload] + none == [payload];
    } else {
      HoldsLast(store, rs[1..], payloads[1..], rs[0].end, r, payload);
      assert (rs + [r])[1..] == rs[1..] + [r] && (payloads + [payload])[1..] == payloads[1..] + [payload];
      BackedBounds(store, rs[0], payloads[0]);
    }
  }

  method CutLayer(rs: seq<LogicalRange>, cutoff: nat) returns (kept: seq<LogicalRange>)
    ensures kept == Cut(rs, cutoff)
  {
    kept := [];
    assert rs[0..] == rs;
    for j := 0 to |rs|
      invariant Cut(rs, cutoff) == kept + Cut(rs[j..], cutoff)
    {
      assert rs[j..][0] == rs[j] && rs[j..][1..] == rs[j + 1..];
      if rs[j].start >= cutoff {
        return;
      }
      var end := Min(rs[j].end, cutoff);
      kept := kept + [rs[j].(end := end)];
      if end == cutoff {
        return;
      }
    }
  }

  predicate AllBounded(rs: seq<LogicalRange>, bound: nat) {
    forall j :: 0 <= j < |rs| ==> Bounded(rs[j].objects, bound)
  }

  lemma {:induction false} CutBounded(rs: seq<LogicalRange>, cutoff: nat, bound: nat)
    requires AllBounded(rs, bound)
    ensures AllBounded(Cut(rs, cutoff), bound)
  {
    hide Bounded;
    if rs != [] && rs[0].start < cutoff {
      assert AllBounded(rs[1..], bound);
      CutBounded(rs[1..], cutoff, bound);
    }
  }

  /** Every range draws on nothing but these sources. */
  ghost predicate DrawsOn(rs: seq<LogicalRange>, sources: set<Source>) {
    forall j, k :: 0 <= j < |rs| && 0 <= k < |rs[j].objects| ==> rs[j].objects[k] in sources
  }

  lemma {:induction false} CutDraws(rs: seq<LogicalRange>, cutoff: nat, sources: set<Source>)
    requires DrawsOn(rs, sources)
    ensures DrawsOn(Cut(rs, cutoff), sources)
  {
    if rs != [] && rs[0].start < cutoff {
      assert forall j :: 0 <= j < |rs| - 1 ==> rs[1..][j] == rs[j + 1];
      CutDraws(rs[1..], cutoff, sources);
      var first := rs[0].(end := Min(rs[0].end, cutoff));
      assert first.objects == rs[0].objects;
    }
  }

  // ---- one stage over every layer ----

  datatype CudaStage = CudaStage(plan: DeltaPlan, objects: seq<Source>)

  predicate Tiles(objects: seq<Source>, total: nat, bound: nat) {
    && objects != [] && TiledFrom(objects, 0) && TiledTo(objects, 0) == total && Bounded(objects, bound)
    && forall k :: 0 <= k < |objects| ==> objects[k].PageObject?
  }

  function TailRange(tail: DeltaTail, sources: seq<Source>): LogicalRange
    requires tail.sourceStart <= tail.sourceEnd
  {
    LogicalRange(tail.destinationOffset, tail.destinationOffset + tail.sourceEnd - tail.sourceStart,
                 tail.sourceStart, sources)
  }

  /** A tail laid over a layer: what is kept, then the tail's own range. */
  function Laid(rs: seq<LogicalRange>, tail: DeltaTail, sources: seq<Source>): seq<LogicalRange>
    requires tail.sourceStart <= tail.sourceEnd
  {
    Cut(rs, tail.destinationOffset) + [TailRange(tail, sources)]
  }

  method LayLayer(
    rs: seq<LogicalRange>, tail: DeltaTail, sources: seq<Source>, bound: nat,
    ghost store: Store, ghost payloads: seq<Bytes>, ghost payload: Bytes)
    returns (r: Result<seq<LogicalRange>, CudaError>, ghost next: seq<Bytes>)
    requires tail.sourceStart <= tail.sourceEnd <= |payload|
    requires Holds(store, rs, payloads, 0) && tail.destinationOffset <= EndOf(rs, 0)
    requires AllBounded(rs, bound) && Bounded(sources, bound)
    requires Backed(store, TailRange(tail, sources), payload)
    ensures r.Ok? && AllBounded(r.value, bound) && Holds(store, r.value, next, 0) && r.value == Laid(rs, tail, sources)
    ensures tail.destinationOffset <= |Content(store, rs, payloads, 0)|
    ensures Content(store, r.value, next, 0)
            == Content(store, rs, payloads, 0)[..tail.destinationOffset] + payload[tail.sourceStart..tail.sourceEnd]
  {
    hide Backed, Holds, Content, Bounded, EndOf;
    var cutoff := tail.destinationOffset;
    var kept := CutLayer(rs, cutoff);
    CutBounded(rs, cutoff, bound);
    next := CutContent(store, rs, payloads, 0, cutoff);
    CutToEnd(kept);
    if CutTo(kept) != cutoff {
      return Err(CudaError.PrefixCoverage), next;
    }
    HoldsLast(store, kept, next, 0, TailRange(tail, sources), payload);
    next := next + [payload];
    r := Ok(kept + [TailRange(tail, sources)]);
  }

  lemma CutToEnd(rs: seq<LogicalRange>)
    ensures CutTo(rs) == EndOf(rs, 0)
  {
    if rs != [] {
      EndIsLast(rs, 0);
    }
  }

  function SpotsOf(tails: seq<DeltaTail>): (spots: seq<TailSpot>)
    ensures |spots| == |tails|
    ensures forall i :: 0 <= i < |tails| ==>
              spots[i] == TailSpot(tails[i].sourceStart, tails[i].sourceEnd, tails[i].sha)
  {
    seq(|tails|, i requires 0 <= i < |tails| => TailSpot(tails[i].sourceStart, tails[i].sourceEnd, tails[i].sha))
  }

  /** Either kind of source backs a tail: the stage's objects, or its extent. */
  lemma TailBacked(store: Store, objects: seq<Source>, tail: DeltaTail, total: nat, bound: nat)
    requires Tiles(objects, total, bound) && Stored(store, objects)
    requires tail.sourceStart <= tail.sourceEnd <= total
    ensures |Encoded(store, objects)| == total
    ensures Backed(store, TailRange(tail, objects), Encoded(store, objects))
    ensures var spot := TailSpot(tail.sourceStart, tail.sourceEnd, tail.sha);
            ExtentSized(spot, bound) ==>
              && Bounded([ExtentOf(objects, spot)], bound)
              && Backed(store, TailRange(tail, [ExtentOf(objects, spot)]), Encoded(store, objects))
  {
    EncodedLength(store, objects);
    hide Encoded, Carries, SourceOk, ExtentOf;
    forall k | 0 <= k < |objects|
      ensures Carries(store, objects[k], Encoded(store, objects))
    {
      TileCarries(store, objects, k);
    }
    var spot := TailSpot(tail.sourceStart, tail.sourceEnd, tail.sha);
    if ExtentSized(spot, bound) {
      ExtentCarries(store, objects, spot);
      ExtentShape(objects, spot);
      var e := ExtentOf(objects, spot);
      assert TiledFrom([e], e.start) && TiledTo([e], e.start) == e.end;
    }
  }

  lemma ExtentShape(objects: seq<Source>, t: TailSpot)
    requires objects != [] && TiledFrom(objects, 0) && t.start <= t.end <= TiledTo(objects, 0)
    ensures var e := ExtentOf(objects, t);
            e.start == t.start && e.end == t.end && e.size == t.end - t.start
  {
  }

  // ---- the whole history ----

  function CudaPlans(stages: seq<CudaStage>): (plans: seq<DeltaPlan>)
    ensures |plans| == |stages| && forall s :: 0 <= s < |stages| ==> plans[s] == stages[s].plan
  {
    seq(|stages|, s requires 0 <= s < |stages| => stages[s].plan)
  }

  /** Planned stages whose objects tile their files and exist in the store. */
  ghost predicate StagesFit(layout: PageLayout, stages: seq<CudaStage>, bound: nat, store: Store) {
    && ValidLayout(layout) && Planned(layout, CudaPlans(stages))
    && forall s :: 0 <= s < |stages| ==>
         Tiles(stages[s].objects, stages[s].plan.totalBytes, bound) && Stored(store, stages[s].objects)
  }

  /** The stage files that the objects spell out. */
  ghost function StagesOf(store: Store, stages: seq<CudaStage>): (r: seq<Stage>)
    requires forall s :: 0 <= s < |stages| ==> Stored(store, stages[s].objects)
    ensures |r| == |stages|
    ensures forall s :: 0 <= s < |stages| ==> r[s].delta == Encoded(store, stages[s].objects)
  {
    seq(|stages|, s requires 0 <= s < |stages| =>
      Stage(Encoded(store, stages[s].objects), BoundsOf(stages[s].plan)))
  }

  ghost predicate LayerHeld(
    store: Store, rs: seq<LogicalRange>, payloads: seq<Bytes>, layer: Bytes, plans: seq<DeltaPlan>, read: TailReader,
    i: nat, n: nat, bound: nat)
    requires n <= |plans| && HasLayer(plans, i)
  {
    && AllBounded(rs, bound) && Holds(store, rs, payloads, 0)
    && Content(store, rs, payloads, 0) == Stack(layer, Cutoffs(plans, i), TailsFor(plans, read, i), n)
  }

  /** The facts one layer of a linked stage gives its range. */
  lemma TailFacts(
    layout: PageLayout, stages: seq<CudaStage>, bound: nat, store: Store, counts: seq<int>, sha: Hash,
    rs: seq<LogicalRange>, payloads: seq<Bytes>, layer: Bytes, i: nat, n: nat)
    requires StagesFit(layout, stages, bound, store) && n < |stages| && i < |layout.layers|
    requires HasLayer(CudaPlans(stages), i)
    requires Linked(counts, sha, CudaPlans(stages), n)
    requires stages[n].plan.baseCounts == CountsAfter(counts, CudaPlans(stages), n)
    requires |counts| == layout.groups && |layer| == LayerSize(layout, counts, i)
    requires LayerHeld(store, rs, payloads, layer, CudaPlans(stages), StageReader(StagesOf(store, stages)), i, n, bound)
    ensures i < |stages[n].plan.tails|
    ensures var tail, payload := stages[n].plan.tails[i], Encoded(store, stages[n].objects);
            && tail.sourceStart <= tail.sourceEnd <= |payload| == stages[n].plan.totalBytes
            && tail.destinationOffset <= EndOf(rs, 0)
            && TailsFor(CudaPlans(stages), StageReader(StagesOf(store, stages)), i)[n]
               == payload[tail.sourceStart..tail.sourceEnd]
  {
    hide LayerSize, Holds, Content, Stack, TailsFor, Cutoffs, Planned, Encoded, EndOf, AllBounded;
    var plans, read := CudaPlans(stages), StageReader(StagesOf(store, stages));
    StackSize(layout, counts, sha, plans, read, layer, i, n);
    ContentLength(store, rs, payloads, 0);
    assert PlanFits(layout, BoundsOf(plans[n]), plans[n]) by { PlannedOne(layout, plans, n); }
    EncodedLength(store, stages[n].objects);
  }

  lemma PlannedOne(layout: PageLayout, plans: seq<DeltaPlan>, n: nat)
    requires Planned(layout, plans) && n < |plans|
    ensures PlanFits(layout, BoundsOf(plans[n]), plans[n])
  {
  }

  ghost predicate AllHeld(
    store: Store, ranges: seq<seq<LogicalRange>>, payloads: seq<seq<Bytes>>, layers: seq<Bytes>,
    plans: seq<DeltaPlan>, read: TailReader, n: nat, bound: nat)
    requires n <= |plans|
  {
    && |ranges| == |payloads| == |layers|
    && forall i :: 0 <= i < |layers| ==>
         HasLayer(plans, i) && LayerHeld(store, ranges[i], payloads[i], layers[i], plans, read, i, n, bound)
  }

  predicate LaidAs(laid: seq<LogicalRange>, rs: seq<LogicalRange>, tail: DeltaTail, sources: seq<Source>) {
    tail.sourceStart <= tail.sourceEnd && laid == Laid(rs, tail, sources)
  }

  /** One layer of one linked stage: cut what is kept, then lay the tail. */
  method LayStageLayer(
    layout: PageLayout, stages: seq<CudaStage>, n: nat, rs: seq<LogicalRange>, sources: seq<Source>, bound: nat,
    i: nat, ghost store: Store, ghost payloads: seq<Bytes>, ghost layer: Bytes, ghost counts: seq<int>, ghost sha: Hash)
    returns (r: Result<seq<LogicalRange>, CudaError>, ghost next: seq<Bytes>)
    requires StagesFit(layout, stages, bound, store) && n < |stages| && i < |layout.layers|
    requires HasLayer(CudaPlans(stages), i) && Linked(counts, sha, CudaPlans(stages), n)
    requires stages[n].plan.baseCounts == CountsAfter(counts, CudaPlans(stages), n)
    requires |counts| == layout.groups && |layer| == LayerSize(layout, counts, i)
    requires LayerHeld(store, rs, payloads, layer, CudaPlans(stages), StageReader(StagesOf(store, stages)), i, n, bound)
    requires i < |stages[n].plan.tails|
    requires SourcesFor(stages[n].objects, stages[n].plan.tails[i], stages[n].plan.totalBytes, bound, sources)
    ensures r.Ok?
    ensures LayerHeld(store, r.value, next, layer, CudaPlans(stages), StageReader(StagesOf(store, stages)), i, n + 1, bound)
    ensures LaidAs(r.value, rs, stages[n].plan.tails[i], sources)
  {
    hide LayerHeld, LayerSize, TiledFrom, TiledTo, Linked, HasLayer, Planned, PlanFits, SourceOk, Backed, Holds, Content,
         Stack, ExtentOf;
    var tail := stages[n].plan.tails[i];
    TailFacts(layout, stages, bound, store, counts, sha, rs, payloads, layer, i, n);
    TailBacked(store, stages[n].objects, tail, stages[n].plan.totalBytes, bound);
    HeldParts(store, rs, payloads, layer, CudaPlans(stages), StageReader(StagesOf(store, stages)), i, n, bound);
    r, next := LayLayer(rs, tail, sources, bound, store, payloads, Encoded(store, stages[n].objects));
    NextHeld(store, r.value, next, layer, CudaPlans(stages), StageReader(StagesOf(store, stages)), i, n, bound);
  }

  /** A tail's sources: the stage's objects, or the extent cut from them. */
  predicate SourcesFor(objects: seq<Source>, tail: DeltaTail, total: nat, bound: nat, sources: seq<Source>) {
    && Tiles(objects, total, bound) && tail.sourceStart <= tail.sourceEnd <= total
    && var spot := TailSpot(tail.sourceStart, tail.sourceEnd, tail.sha);
       sources == objects || (ExtentSized(spot, bound) && sources == [ExtentOf(objects, spot)])
  }

  predicate SourcesForAll(stage: CudaStage, bound: nat, sources: seq<seq<Source>>) {
    && |sources| == |stage.plan.tails|
    && forall i :: 0 <= i < |sources| ==>
         SourcesFor(stage.objects, stage.plan.tails[i], stage.plan.totalBytes, bound, sources[i])
  }

  /** Tail extents when every tail has one, the stage's own objects otherwise. */
  method StageSources(layout: PageLayout, stage: CudaStage, bound: nat)
    returns (r: Result<seq<seq<Source>>, CudaError>)
    requires PlanFits(layout, BoundsOf(stage.plan), stage.plan) && Tiles(stage.objects, stage.plan.totalBytes, bound)
    ensures r.Ok? && SourcesForAll(stage, bound, r.value)
  {
    StageShape(layout, stage.plan);
    hide PlanFits, TiledFrom, TiledTo, ExtentOf, Bounded;
    var tails := stage.plan.tails;
    var cut := TailExtents(stage.objects, SpotsOf(tails), bound);
    match cut {
      case Err(error) => return Err(error);
      case Ok(None) => return Ok(seq(|tails|, _ => stage.objects));
      case Ok(Some(extents)) => return Ok(seq(|tails|, i requires 0 <= i < |tails| => [extents[i]]));
    }
  }

  /** Every source a stage may be read from: its objects and its tails' extents. */
  ghost function StageNames(stage: CudaStage, bound: nat): (names: set<Source>) {
    (set s | s in stage.objects)
    + (if TailsInside(stage, bound)
       then set i | 0 <= i < |stage.plan.tails| :: ExtentOf(stage.objects, SpotsOf(stage.plan.tails)[i])
       else {})
  }

  /** The stage's tails lie in the file its objects tile. */
  predicate TailsInside(stage: CudaStage, bound: nat) {
    && Tiles(stage.objects, stage.plan.totalBytes, bound)
    && forall i :: 0 <= i < |stage.plan.tails| ==>
         stage.plan.tails[i].sourceStart <= stage.plan.tails[i].sourceEnd <= stage.plan.totalBytes
  }

  /** Everything a placement may read: the base objects and the first `n` stages' sources. */
  ghost function SourcesOf(objects: seq<Source>, stages: seq<CudaStage>, bound: nat, n: nat): set<Source>
    requires n <= |stages|
  {
    if n == 0 then set s | s in objects else SourcesOf(objects, stages, bound, n - 1) + StageNames(stages[n - 1], bound)
  }

  ghost predicate AllDraw(ranges: seq<seq<LogicalRange>>, names: set<Source>) {
    forall i :: 0 <= i < |ranges| ==> DrawsOn(ranges[i], names)
  }

  lemma AllLaidDraw(
    stage: CudaStage, bound: nat, ranges: seq<seq<LogicalRange>>, sources: seq<seq<Source>>,
    laid: seq<seq<LogicalRange>>, names: set<Source>)
    requires TailsInside(stage, bound) && SourcesForAll(stage, bound, sources) && AllDraw(ranges, names)
    requires LaidTo(laid, ranges, stage.plan.tails, sources, |ranges|)
    ensures AllDraw(laid, names + StageNames(stage, bound))
  {
    hide DrawsOn, LaidAs, SourcesFor, StageNames, TailsInside;
    forall i | 0 <= i < |laid|
      ensures DrawsOn(laid[i], names + StageNames(stage, bound))
    {
      LaidDraws(stage, bound, ranges[i], i, sources[i], laid[i], names);
    }
  }

  lemma LaidDraws(
    stage: CudaStage, bound: nat, rs: seq<LogicalRange>, i: nat, sources: seq<Source>, laid: seq<LogicalRange>,
    names: set<Source>)
    requires TailsInside(stage, bound) && i < |stage.plan.tails|
    requires SourcesFor(stage.objects, stage.plan.tails[i], stage.plan.totalBytes, bound, sources)
    requires DrawsOn(rs, names) && LaidAs(laid, rs, stage.plan.tails[i], sources)
    ensures DrawsOn(laid, names + StageNames(stage, bound))
  {
    var tail := stage.plan.tails[i];
    CutDraws(rs, tail.destinationOffset, names);
    hide Cut, ExtentOf, Bounded, TiledFrom, TiledTo;
    assert SpotsOf(stage.plan.tails)[i] == TailSpot(tail.sourceStart, tail.sourceEnd, tail.sha);
    forall k | 0 <= k < |sources|
      ensures sources[k] in StageNames(stage, bound)
    {
    }
  }

  lemma LayerReady(
    layout: PageLayout, stages: seq<CudaStage>, n: nat, ranges: seq<seq<LogicalRange>>, bound: nat, store: Store,
    payloads: seq<seq<Bytes>>, layers: seq<Bytes>, counts: seq<int>, sources: seq<seq<Source>>, i: nat)
    requires StagesFit(layout, stages, bound, store) && n < |stages| && LayersFit(layout, counts, layers)
    requires SourcesForAll(stages[n], bound, sources)
    requires AllHeld(store, ranges, payloads, layers, CudaPlans(stages), StageReader(StagesOf(store, stages)), n, bound)
    requires i < |ranges|
    ensures i < |layout.layers| == |layers| == |stages[n].plan.tails| && |payloads| == |ranges|
    ensures |counts| == layout.groups && layout.layers[i].group < |counts| && |layers[i]| == LayerSize(layout, counts, i)
    ensures |sources| == |ranges|
    ensures SourcesFor(stages[n].objects, stages[n].plan.tails[i], stages[n].plan.totalBytes, bound, sources[i])
    ensures HasLayer(CudaPlans(stages), i)
    ensures LayerHeld(store, ranges[i], payloads[i], layers[i], CudaPlans(stages), StageReader(StagesOf(store, stages)),
                      i, n, bound)
  {
    hide LayerHeld, LayerSize;
    PlannedOne(layout, CudaPlans(stages), n);
    StageShape(layout, stages[n].plan);
  }

  /** Everything one stage's overlay starts from. */
  ghost predicate StageReady(
    layout: PageLayout, stages: seq<CudaStage>, n: nat, ranges: seq<seq<LogicalRange>>, bound: nat, store: Store,
    payloads: seq<seq<Bytes>>, layers: seq<Bytes>, counts: seq<int>, sha: Hash, plans: seq<DeltaPlan>, read: TailReader)
  {
    && StagesFit(layout, stages, bound, store) && n < |stages| && LayersFit(layout, counts, layers)
    && plans == CudaPlans(stages) && read == StageReader(StagesOf(store, stages))
    && Linked(counts, sha, plans, n) && plans[n].baseCounts == CountsAfter(counts, plans, n)
    && AllHeld(store, ranges, payloads, layers, plans, read, n, bound)
  }

  method LayNextLayer(
    layout: PageLayout, stages: seq<CudaStage>, n: nat, ranges: seq<seq<LogicalRange>>, sources: seq<seq<Source>>,
    bound: nat, i: nat, laid: seq<seq<LogicalRange>>, ghost store: Store, ghost payloads: seq<seq<Bytes>>,
    ghost layers: seq<Bytes>, ghost counts: seq<int>, ghost sha: Hash, ghost plans: seq<DeltaPlan>,
    ghost read: TailReader, ghost done: seq<seq<Bytes>>)
    returns (more: seq<seq<LogicalRange>>, ghost next: seq<seq<Bytes>>)
    requires StageReady(layout, stages, n, ranges, bound, store, payloads, layers, counts, sha, plans, read)
    requires SourcesForAll(stages[n], bound, sources) && i < |ranges|
    requires HeldTo(store, laid, done, layers, plans, read, n + 1, bound, i)
    requires LaidTo(laid, ranges, stages[n].plan.tails, sources, i)
    ensures HeldTo(store, more, next, layers, plans, read, n + 1, bound, i + 1)
    ensures LaidTo(more, ranges, stages[n].plan.tails, sources, i + 1)
  {
    hide LaidAs, LayerHeld, LayerSize, Linked, HasLayer, Planned, SourcesFor, AllHeld, LayersFit, StagesOf, HeldTo,
         SourcesForAll, StageReader;
    LayerReady(layout, stages, n, ranges, bound, store, payloads, layers, counts, sources, i);
    var one, kept := LayStageLayer(layout, stages, n, ranges[i], sources[i], bound, i, store, payloads[i], layers[i],
                                   counts, sha);
    HeldMore(store, laid, done, layers, plans, read, n + 1, bound, i, one.value, kept);
    more, next := laid + [one.value], done + [kept];
  }

  method LayStage(
    layout: PageLayout, stages: seq<CudaStage>, n: nat, ranges: seq<seq<LogicalRange>>, sources: seq<seq<Source>>,
    bound: nat, ghost store: Store, ghost payloads: seq<seq<Bytes>>, ghost layers: seq<Bytes>,
    ghost counts: seq<int>, ghost sha: Hash, ghost plans: seq<DeltaPlan>, ghost read: TailReader)
    returns (laid: seq<seq<LogicalRange>>, ghost next: seq<seq<Bytes>>)
    requires StageReady(layout, stages, n, ranges, bound, store, payloads, layers, counts, sha, plans, read)
    requires SourcesForAll(stages[n], bound, sources)
    ensures n < |plans| && AllHeld(store, laid, next, layers, plans, read, n + 1, bound)
    ensures LaidTo(laid, ranges, stages[n].plan.tails, sources, |ranges|)
  {
    StageWidth(layout, stages, n, ranges, bound, store, payloads, layers, counts, sha, plans, read);
    hide *;
    laid, next := [], [];
    LaidNone(stages[n], bound, ranges, sources);
    HeldNone(store, layers, plans, read, n + 1, bound);
    for i := 0 to |ranges|
      invariant HeldTo(store, laid, next, layers, plans, read, n + 1, bound, i)
      invariant LaidTo(laid, ranges, stages[n].plan.tails, sources, i)
    {
      laid, next := LayNextLayer(layout, stages, n, ranges, sources, bound, i, laid, store, payloads, layers, counts,
                                 sha, plans, read, next);
    }
    HeldTogether(store, laid, next, layers, plans, read, n + 1, bound);
  }

  /** The first `k` layers are laid over with their tails. */
  ghost predicate LaidTo(
    laid: seq<seq<LogicalRange>>, ranges: seq<seq<LogicalRange>>, tails: seq<DeltaTail>, sources: seq<seq<Source>>, k: nat)
  {
    && |laid| == k <= |ranges| <= |tails| && |tails| == |sources|
    && forall i :: 0 <= i < k ==> LaidAs(laid[i], ranges[i], tails[i], sources[i])
  }

  lemma StageWidth(
    layout: PageLayout, stages: seq<CudaStage>, n: nat, ranges: seq<seq<LogicalRange>>, bound: nat, store: Store,
    payloads: seq<seq<Bytes>>, layers: seq<Bytes>, counts: seq<int>, sha: Hash, plans: seq<DeltaPlan>, read: TailReader)
    requires StageReady(layout, stages, n, ranges, bound, store, payloads, layers, counts, sha, plans, read)
    ensures n < |stages| == |plans| && |ranges| == |layers| == |stages[n].plan.tails|
  {
    hide LayerHeld, LayerSize, Linked;
    PlannedOne(layout, CudaPlans(stages), n);
    StageShape(layout, stages[n].plan);
  }

  lemma LaidNone(stage: CudaStage, bound: nat, ranges: seq<seq<LogicalRange>>, sources: seq<seq<Source>>)
    requires SourcesForAll(stage, bound, sources) && |ranges| == |stage.plan.tails|
    ensures LaidTo([], ranges, stage.plan.tails, sources, 0)
  {
    hide SourcesFor;
  }

  /** The first `k` layers are held after `n` stages. */
  ghost predicate HeldTo(
    store: Store, ranges: seq<seq<LogicalRange>>, payloads: seq<seq<Bytes>>, layers: seq<Bytes>,
    plans: seq<DeltaPlan>, read: TailReader, n: nat, bound: nat, k: nat)
    requires n <= |plans|
  {
    && |ranges| == |payloads| == k <= |layers|
    && forall i :: 0 <= i < k ==>
         HasLayer(plans, i) && LayerHeld(store, ranges[i], payloads[i], layers[i], plans, read, i, n, bound)
  }

  lemma HeldNone(
    store: Store, layers: seq<Bytes>, plans: seq<DeltaPlan>, read: TailReader, n: nat, bound: nat)
    requires n <= |plans|
    ensures HeldTo(store, [], [], layers, plans, read, n, bound, 0)
  {
  }

  lemma HeldMore(
    store: Store, ranges: seq<seq<LogicalRange>>, payloads: seq<seq<Bytes>>, layers: seq<Bytes>,
    plans: seq<DeltaPlan>, read: TailReader, n: nat, bound: nat, k: nat, rs: seq<LogicalRange>, more: seq<Bytes>)
    requires n <= |plans| && HeldTo(store, ranges, payloads, layers, plans, read, n, bound, k) && k < |layers|
    requires HasLayer(plans, k) && LayerHeld(store, rs, more, layers[k], plans, read, k, n, bound)
    ensures HeldTo(store, ranges + [rs], payloads + [more], layers, plans, read, n, bound, k + 1)
  {
    hide LayerHeld, HasLayer;
  }

  lemma HeldTogether(
    store: Store, ranges: seq<seq<LogicalRange>>, payloads: seq<seq<Bytes>>, layers: seq<Bytes>,
    plans: seq<DeltaPlan>, read: TailReader, n: nat, bound: nat)
    requires n <= |plans| && HeldTo(store, ranges, payloads, layers, plans, read, n, bound, |layers|)
    ensures AllHeld(store, ranges, payloads, layers, plans, read, n, bound)
  {
    hide LayerHeld, HasLayer;
  }

  lemma HeldParts(
    store: Store, rs: seq<LogicalRange>, payloads: seq<Bytes>, layer: Bytes, plans: seq<DeltaPlan>, read: TailReader,
    i: nat, n: nat, bound: nat)
    requires n <= |plans| && HasLayer(plans, i) && LayerHeld(store, rs, payloads, layer, plans, read, i, n, bound)
    ensures AllBounded(rs, bound) && Holds(store, rs, payloads, 0)
    ensures Content(store, rs, payloads, 0) == Stack(layer, Cutoffs(plans, i), TailsFor(plans, read, i), n)
  {
  }

  lemma NextHeld(
    store: Store, rs: seq<LogicalRange>, payloads: seq<Bytes>, layer: Bytes, plans: seq<DeltaPlan>, read: TailReader,
    i: nat, n: nat, bound: nat)
    requires n < |plans| && HasLayer(plans, i) && AllBounded(rs, bound) && Holds(store, rs, payloads, 0)
    requires var before := Stack(layer, Cutoffs(plans, i), TailsFor(plans, read, i), n);
             && Cutoffs(plans, i)[n] <= |before|
             && Content(store, rs, payloads, 0) == before[..Cutoffs(plans, i)[n]] + TailsFor(plans, read, i)[n]
    ensures LayerHeld(store, rs, payloads, layer, plans, read, i, n + 1, bound)
  {
    hide Holds, Content, Cutoffs, TailsFor, AllBounded;
  }

  lemma StageShape(layout: PageLayout, plan: DeltaPlan)
    requires PlanFits(layout, BoundsOf(plan), plan)
    ensures |plan.tails| == |layout.layers|
    ensures forall i :: 0 <= i < |plan.tails| ==>
              plan.tails[i].sourceStart <= plan.tails[i].sourceEnd <= plan.totalBytes
  {
  }
}
