// Composing a whole delta history at once: every final byte comes from its one
// surviving writer, and what comes out is what stacking the stages one after
// another would give.
module PageHistory {
  import opened Common
  import opened Pages
  import opened LayerRanges
  import opened PageDelta
  import opened PageCapture

  /** Reads one tail of one stage; nothing is assumed of what it returns. */
  type TailReader = (nat, DeltaTail) -> Bytes

  datatype TailRead = TailRead(layer: nat, stage: nat)

  function BoundsOf(plan: DeltaPlan): StageBounds {
    StageBounds(plan.baseCounts, plan.resultCounts, plan.baseBoundary, plan.resultBoundary)
  }

  /** Every plan is one that planning a delta header could have returned. */
  ghost predicate Planned(layout: PageLayout, plans: seq<DeltaPlan>) {
    forall s :: 0 <= s < |plans| ==> PlanFits(layout, BoundsOf(plans[s]), plans[s])
  }

  // ---- the chain of identities ----

  function CountsAfter(counts: seq<int>, plans: seq<DeltaPlan>, n: nat): seq<int>
    requires n <= |plans|
  {
    if n == 0 then counts else plans[n - 1].resultCounts
  }

  function ShaAfter(sha: Hash, plans: seq<DeltaPlan>, n: nat): Hash
    requires n <= |plans|
  {
    if n == 0 then sha else plans[n - 1].resultSha
  }

  /** Each of the first `n` stages names what the stage before it produced. */
  predicate Linked(counts: seq<int>, sha: Hash, plans: seq<DeltaPlan>, n: nat)
    requires n <= |plans|
  {
    forall s :: 0 <= s < n ==>
      plans[s].baseCounts == CountsAfter(counts, plans, s) && plans[s].baseSha == ShaAfter(sha, plans, s)
  }

  // ---- one layer through the history ----

  ghost predicate HasLayer(plans: seq<DeltaPlan>, i: nat) {
    forall s :: 0 <= s < |plans| ==> i < |plans[s].tails| && plans[s].tails[i].sourceStart <= plans[s].tails[i].sourceEnd
  }

  ghost function Cutoffs(plans: seq<DeltaPlan>, i: nat): (cutoffs: seq<nat>)
    requires HasLayer(plans, i)
    ensures |cutoffs| == |plans|
    ensures forall s :: 0 <= s < |plans| ==> cutoffs[s] == plans[s].tails[i].destinationOffset
  {
    seq(|plans|, s requires 0 <= s < |plans| => plans[s].tails[i].destinationOffset)
  }

  ghost function Lengths(plans: seq<DeltaPlan>, i: nat): (lengths: seq<nat>)
    requires HasLayer(plans, i)
    ensures |lengths| == |plans|
    ensures forall s :: 0 <= s < |plans| ==> lengths[s] == plans[s].tails[i].sourceEnd - plans[s].tails[i].sourceStart
  {
    seq(|plans|, s requires 0 <= s < |plans| => plans[s].tails[i].sourceEnd - plans[s].tails[i].sourceStart)
  }

  /** A read of the wrong length is refused, so it may stand for any bytes. */
  ghost function Declared(tail: DeltaTail, payload: Bytes): (bytes: Bytes)
    requires tail.sourceStart <= tail.sourceEnd
    ensures |bytes| == tail.sourceEnd - tail.sourceStart
  {
    var n := tail.sourceEnd - tail.sourceStart;
    if |payload| == n then payload else seq(n, _ => 0)
  }

  ghost function TailsFor(plans: seq<DeltaPlan>, read: TailReader, i: nat): (tails: seq<Bytes>)
    requires HasLayer(plans, i)
    ensures |tails| == |plans|
    ensures forall s :: 0 <= s < |plans| ==> tails[s] == Declared(plans[s].tails[i], read(s, plans[s].tails[i]))
    ensures forall s :: 0 <= s < |plans| ==> |tails[s]| == Lengths(plans, i)[s]
  {
    seq(|plans|, s requires 0 <= s < |plans| => Declared(plans[s].tails[i], read(s, plans[s].tails[i])))
  }

  predicate Authentic(lib: Library, tail: DeltaTail, payload: Bytes) {
    |payload| == tail.sourceEnd - tail.sourceStart && lib.sha(payload) == tail.sha
  }

  /** The layer after `n` stages: keep the prefix, put the tail behind it. */
  ghost function Stack(layer: Bytes, cutoffs: seq<nat>, tails: seq<Bytes>, n: nat): Bytes
    requires n <= |cutoffs| == |tails|
  {
    if n == 0 then layer
    else
      var before := Stack(layer, cutoffs, tails, n - 1);
      before[..Min(cutoffs[n - 1], |before|)] + tails[n - 1]
  }

  ghost predicate LayerSurvives(plans: seq<DeltaPlan>, i: nat, s: int)
    requires HasLayer(plans, i)
  {
    Survives(Cutoffs(plans, i), Lengths(plans, i), s)
  }

  /** Every tail of layer `i` that still writes some byte reads back authentic. */
  ghost predicate LayerAuthentic(lib: Library, plans: seq<DeltaPlan>, read: TailReader, i: nat)
    requires HasLayer(plans, i)
  {
    forall s :: 0 <= s < |plans| && LayerSurvives(plans, i, s) ==>
      Authentic(lib, plans[s].tails[i], read(s, plans[s].tails[i]))
  }

  ghost predicate SurvivorsAuthentic(lib: Library, plans: seq<DeltaPlan>, read: TailReader, n: nat)
    requires forall i :: 0 <= i < n ==> HasLayer(plans, i)
  {
    forall i :: 0 <= i < n ==> LayerAuthentic(lib, plans, read, i)
  }

  /** Every layer after `n` stages. */
  ghost function Stacked(layers: seq<Bytes>, plans: seq<DeltaPlan>, read: TailReader, n: nat): (r: seq<Bytes>)
    requires n <= |plans| && forall i :: 0 <= i < |layers| ==> HasLayer(plans, i)
    ensures |r| == |layers|
  {
    seq(|layers|, i requires 0 <= i < |layers| =>
      Stack(layers[i], Cutoffs(plans, i), TailsFor(plans, read, i), n))
  }

  lemma PlannedLayers(layout: PageLayout, plans: seq<DeltaPlan>)
    requires Planned(layout, plans)
    ensures forall i :: 0 <= i < |layout.layers| ==> HasLayer(plans, i)
  {
    forall i, s | 0 <= i < |layout.layers| && 0 <= s < |plans|
      ensures i < |plans[s].tails| && plans[s].tails[i].sourceStart <= plans[s].tails[i].sourceEnd
    {
      assert PlanFits(layout, BoundsOf(plans[s]), plans[s]);
    }
  }

  /** What composing a history means, without saying how: link the stages, check
      the surviving tails, stack the tails, check the newest digest. */
  ghost function Composed(
    lib: Library, layout: PageLayout, base: Verified, counts: seq<int>, plans: seq<DeltaPlan>, read: TailReader)
    : Result<Verified, PageError>
    requires ValidLayout(layout) && Planned(layout, plans)
  {
    if plans == [] then Err(NoDelta)
    else
      var basePlan :- PlanSnapshot(lib, layout, base.payload, counts, |base.payload|);
      PlannedLayers(layout, plans);
      if !Linked(counts, base.sha, plans, |plans|) then Err(IdentityDiffers)
      else if !SurvivorsAuthentic(lib, plans, read, |layout.layers|) then Err(TailChecksum)
      else
        var layers := Layers(layout, counts, base.payload, basePlan.headerBytes);
        var last := plans[|plans| - 1];
        var result := Snapshot(lib, layout, last.resultCounts, Stacked(layers, plans, read, |plans|));
        if lib.sha(result) != last.resultSha then Err(ResultChecksum) else Ok(Verified(result, last.resultSha))
  }

  // ---- ranges mean the stack ----

  /** The ranges of one layer after `n` stages. */
  ghost predicate Owned(
    rs: seq<Range>, payload: Bytes, layer: Bytes, cutoffs: seq<nat>, lengths: seq<nat>, tails: seq<Bytes>, n: nat)
    requires n <= |cutoffs| == |tails| == |lengths|
  {
    && Dense(rs, payload, tails)
    && Meaning(rs, payload, tails) == Stack(layer, cutoffs, tails, n)
    && OwnersSurvive(rs, cutoffs[..n], lengths[..n])
  }

  lemma OwnedAtFirst(payload: Bytes, start: nat, end: nat, cutoffs: seq<nat>, lengths: seq<nat>, tails: seq<Bytes>)
    requires start < end <= |payload| && |cutoffs| == |tails| == |lengths|
    ensures Owned([Range(0, end - start, BASE, start)], payload, payload[start..end], cutoffs, lengths, tails, 0)
  {
    hide *;
    var r := Range(0, end - start, BASE, start);
    BaseRangeMeans(r, payload, tails);
    BaseRangeSurvives(r);
    assert payload[r.source..r.source + r.end - r.start] == payload[start..end];
    OwnedByBase([r], payload, payload[start..end], cutoffs, lengths, tails);
  }

  lemma BaseRangeMeans(r: Range, payload: Bytes, tails: seq<Bytes>)
    requires r.start == 0 < r.end && r.owner == BASE && r.source + r.end <= |payload|
    ensures Dense([r], payload, tails)
    ensures Meaning([r], payload, tails) == payload[r.source..r.source + r.end - r.start]
  {
    var none: seq<Range> := [];
    assert [r] == none + [r];
    assert Dense(none, payload, tails);
    DenseAppend(none, r, payload, tails);
  }

  lemma BaseRangeSurvives(r: Range)
    requires r.start == 0 && r.owner == BASE
    ensures OwnersSurvive([r], [], [])
  {
    assert [r][0].owner == BASE;
  }

  lemma OwnedByBase(
    rs: seq<Range>, payload: Bytes, layer: Bytes, cutoffs: seq<nat>, lengths: seq<nat>, tails: seq<Bytes>)
    requires |cutoffs| == |tails| == |lengths|
    requires Dense(rs, payload, tails) && Meaning(rs, payload, tails) == layer && OwnersSurvive(rs, [], [])
    ensures Owned(rs, payload, layer, cutoffs, lengths, tails, 0)
  {
    hide Dense, Meaning, OwnersSurvive;
    assert cutoffs[..0] == [] && lengths[..0] == [];
  }

  lemma OwnedNext(
    rs: seq<Range>, payload: Bytes, layer: Bytes, cutoffs: seq<nat>, lengths: seq<nat>, tails: seq<Bytes>, n: nat)
    requires n < |cutoffs| == |tails| == |lengths| && lengths[n] == |tails[n]|
    requires Owned(rs, payload, layer, cutoffs, lengths, tails, n)
    requires cutoffs[n] <= |Stack(layer, cutoffs, tails, n)|
    ensures var r := Overlay(rs, cutoffs[n], lengths[n], n);
            r.Ok? && Owned(r.value, payload, layer, cutoffs, lengths, tails, n + 1)
  {
    hide Dense, Meaning, Overlay, OwnersSurvive, Survives;
    MeaningLength(rs, payload, tails);
    OverlayMeaning(rs, cutoffs[n], n, payload, tails);
    DenseStartsGrow(rs, payload, tails);
    OverlaySurvivors(rs, cutoffs[..n], lengths[..n], cutoffs[n], lengths[n]);
    assert cutoffs[..n] + [cutoffs[n]] == cutoffs[..n + 1] && lengths[..n] + [lengths[n]] == lengths[..n + 1];
  }

  lemma DenseStartsGrow(rs: seq<Range>, base: Bytes, tails: seq<Bytes>)
    requires Dense(rs, base, tails)
    ensures forall i, j :: 0 <= i < j < |rs| ==> rs[i].start < rs[j].start
  {
    forall i, j | 0 <= i < j < |rs|
      ensures rs[i].start < rs[j].start
    {
      StartsGrow(rs, base, tails, i, j);
      assert RangeOk(rs[i], base, tails);
    }
  }

  /** A stage leaves a layer at its result size and keeps no more than the base has. */
  lemma PlanSizes(layout: PageLayout, plan: DeltaPlan, i: nat)
    requires PlanFits(layout, BoundsOf(plan), plan) && i < |layout.layers|
    ensures |plan.tails| == |layout.layers| && |plan.baseCounts| == |plan.resultCounts| == layout.groups
    ensures layout.layers[i].group < layout.groups
    ensures var t := plan.tails[i];
            && t.destinationOffset + t.sourceEnd - t.sourceStart == LayerSize(layout, plan.resultCounts, i)
            && t.destinationOffset <= LayerSize(layout, plan.baseCounts, i)
  {
    hide LayerSize, TailCounts;
    ReusePlusTail(layout, BoundsOf(plan), plan.reused, i);
  }

  lemma PlannedLayer(layout: PageLayout, plans: seq<DeltaPlan>, s: nat, i: nat)
    requires ValidLayout(layout) && Planned(layout, plans) && s < |plans|
    requires i < |layout.layers| && HasLayer(plans, i)
    ensures |plans[s].tails| == |layout.layers| && layout.layers[i].group < layout.groups
    ensures |plans[s].baseCounts| == |plans[s].resultCounts| == layout.groups
    ensures Cutoffs(plans, i)[s] + Lengths(plans, i)[s] == LayerSize(layout, plans[s].resultCounts, i)
    ensures Cutoffs(plans, i)[s] <= LayerSize(layout, plans[s].baseCounts, i)
  {
    hide LayerSize, PlanFits, Cutoffs, Lengths;
    PlanSizes(layout, plans[s], i);
  }

  lemma LinkedBefore(counts: seq<int>, sha: Hash, plans: seq<DeltaPlan>, n: nat)
    requires n < |plans| && Linked(counts, sha, plans, n + 1)
    ensures Linked(counts, sha, plans, n) && plans[n].baseCounts == CountsAfter(counts, plans, n)
    ensures CountsAfter(counts, plans, n + 1) == plans[n].resultCounts
  {
  }

  lemma StackFirst(layer: Bytes, cutoffs: seq<nat>, tails: seq<Bytes>, counts: seq<int>, plans: seq<DeltaPlan>)
    requires |cutoffs| == |tails|
    ensures Stack(layer, cutoffs, tails, 0) == layer && CountsAfter(counts, plans, 0) == counts
  {
  }

  lemma StackGrows(layer: Bytes, cutoffs: seq<nat>, tails: seq<Bytes>, n: nat)
    requires n < |cutoffs| == |tails| && cutoffs[n] <= |Stack(layer, cutoffs, tails, n)|
    ensures |Stack(layer, cutoffs, tails, n + 1)| == cutoffs[n] + |tails[n]|
  {
  }

  /** A linked history gives every layer the size its result counts ask for,
      so no stage ever keeps a prefix that is not there. */
  lemma {:induction false} StackSize(
    layout: PageLayout, counts: seq<int>, sha: Hash, plans: seq<DeltaPlan>, read: TailReader, layer: Bytes, i: nat, n: nat)
    requires ValidLayout(layout) && Planned(layout, plans) && i < |layout.layers| && HasLayer(plans, i)
    requires n <= |plans| && Linked(counts, sha, plans, n)
    requires |counts| == layout.groups && |layer| == LayerSize(layout, counts, i)
    ensures |CountsAfter(counts, plans, n)| == layout.groups
    ensures |Stack(layer, Cutoffs(plans, i), TailsFor(plans, read, i), n)|
            == LayerSize(layout, CountsAfter(counts, plans, n), i)
    ensures n < |plans| && plans[n].baseCounts == CountsAfter(counts, plans, n) ==>
              Cutoffs(plans, i)[n] <= |Stack(layer, Cutoffs(plans, i), TailsFor(plans, read, i), n)|
  {
    hide *;
    if n == 0 {
      StackFirst(layer, Cutoffs(plans, i), TailsFor(plans, read, i), counts, plans);
    } else {
      LinkedBefore(counts, sha, plans, n - 1);
      StackSize(layout, counts, sha, plans, read, layer, i, n - 1);
      StackGrows(layer, Cutoffs(plans, i), TailsFor(plans, read, i), n - 1);
      PlannedLayer(layout, plans, n - 1, i);
    }
    if n < |plans| {
      PlannedLayer(layout, plans, n, i);
    }
  }

  // ---- laying every stage over the ranges ----

  lemma KeepCountNext(rs: seq<Range>, cutoff: nat, j: nat)
    requires j <= |rs|
    ensures KeepCount(rs[j..], cutoff)
            == if j < |rs| && rs[j].start < cutoff then 1 + KeepCount(rs[j + 1..], cutoff) else 0
  {
    if j < |rs| {
      assert rs[j..][1..] == rs[j + 1..];
    }
  }

  lemma KeptAll(rs: seq<Range>, cutoff: nat, kept: seq<Range>)
    requires |kept| == KeepCount(rs, cutoff)
    requires forall k :: 0 <= k < |kept| ==> kept[k] == Clip(rs[k], cutoff)
    ensures kept == Keep(rs, cutoff)
  {
    hide KeepCount, Clip;
  }

  method OverlayLayer(rs: seq<Range>, cutoff: nat, length: nat, stage: nat) returns (r: Result<seq<Range>, PageError>)
    ensures r == Overlay(rs, cutoff, length, stage)
  {
    hide Keep, KeepCount, Clip;
    var kept: seq<Range> := [];
    var j := 0;
    assert rs[0..] == rs;
    while j < |rs| && rs[j].start < cutoff
      invariant j <= |rs| && KeepCount(rs, cutoff) == j + KeepCount(rs[j..], cutoff)
      invariant |kept| == j && forall k :: 0 <= k < j ==> kept[k] == Clip(rs[k], cutoff)
    {
      KeepCountNext(rs, cutoff, j);
      kept := kept + [Clip(rs[j], cutoff)];
      j := j + 1;
    }
    KeepCountNext(rs, cutoff, j);
    KeptAll(rs, cutoff, kept);
    if (if kept == [] then 0 else kept[|kept| - 1].end) != cutoff {
      return Err(PrefixCoverage);
    }
    if length > 0 {
      kept := kept + [Range(cutoff, cutoff + length, stage, 0)];
    }
    r := Ok(kept);
  }

  function LaidLayer(rs: seq<Range>, t: DeltaTail, stage: nat): Result<seq<Range>, PageError>
    requires t.sourceStart <= t.sourceEnd
  {
    Overlay(rs, t.destinationOffset, t.sourceEnd - t.sourceStart, stage)
  }

  /** Every layer is laid over, or the first failure is reported. */
  ghost predicate LaidOver(ranges: seq<seq<Range>>, plan: DeltaPlan, stage: nat, r: Result<seq<seq<Range>>, PageError>)
    requires |plan.tails| == |ranges|
    requires forall i :: 0 <= i < |ranges| ==> plan.tails[i].sourceStart <= plan.tails[i].sourceEnd
  {
    match r
    case Ok(next) =>
      |next| == |ranges| && forall i :: 0 <= i < |ranges| ==> LaidLayer(ranges[i], plan.tails[i], stage) == Ok(next[i])
    case Err(error) =>
      exists i :: 0 <= i < |ranges| && LaidLayer(ranges[i], plan.tails[i], stage) == Err(error)
  }

  method OverlayStage(ranges: seq<seq<Range>>, plan: DeltaPlan, stage: nat)
    returns (r: Result<seq<seq<Range>>, PageError>)
    requires |plan.tails| == |ranges|
    requires forall i :: 0 <= i < |ranges| ==> plan.tails[i].sourceStart <= plan.tails[i].sourceEnd
    ensures LaidOver(ranges, plan, stage, r)
  {
    hide Overlay;
    var next: seq<seq<Range>> := [];
    for i := 0 to |ranges|
      invariant |next| == i
      invariant forall k :: 0 <= k < i ==> LaidLayer(ranges[k], plan.tails[k], stage) == Ok(next[k])
    {
      var t := plan.tails[i];
      var laid := OverlayLayer(ranges[i], t.destinationOffset, t.sourceEnd - t.sourceStart, stage);
      if laid.Err? {
        assert LaidLayer(ranges[i], plan.tails[i], stage) == Err(laid.error);
        return Err(laid.error);
      }
      next := next + [laid.value];
    }
    r := Ok(next);
  }

  ghost predicate AllOwned(
    ranges: seq<seq<Range>>, payload: Bytes, layers: seq<Bytes>, plans: seq<DeltaPlan>, read: TailReader, n: nat)
    requires n <= |plans|
  {
    && |ranges| == |layers|
    && forall i :: 0 <= i < |layers| ==>
         && HasLayer(plans, i)
         && Owned(ranges[i], payload, layers[i], Cutoffs(plans, i), Lengths(plans, i), TailsFor(plans, read, i), n)
  }

  /** Layer `i` can be laid over with stage `n` and stays owned. */
  ghost predicate LaysOwned(
    rs: seq<Range>, plans: seq<DeltaPlan>, read: TailReader, payload: Bytes, layer: Bytes, n: nat, i: nat)
    requires n < |plans|
  {
    && HasLayer(plans, i)
    && i < |plans[n].tails|
    && plans[n].tails[i].sourceStart <= plans[n].tails[i].sourceEnd
    && var laid := LaidLayer(rs, plans[n].tails[i], n);
       && laid.Ok?
       && Owned(laid.value, payload, layer, Cutoffs(plans, i), Lengths(plans, i), TailsFor(plans, read, i), n + 1)
  }

  /** A linked stage can be laid over every layer: its prefixes are always there. */
  lemma StageLays(
    layout: PageLayout, counts: seq<int>, sha: Hash, plans: seq<DeltaPlan>, read: TailReader, payload: Bytes,
    layers: seq<Bytes>, ranges: seq<seq<Range>>, n: nat, i: nat)
    requires ValidLayout(layout) && Planned(layout, plans) && n < |plans| && i < |layers| == |ranges|
    requires Linked(counts, sha, plans, n) && plans[n].baseCounts == CountsAfter(counts, plans, n)
    requires LayersFit(layout, counts, layers) && AllOwned(ranges, payload, layers, plans, read, n)
    ensures LaysOwned(ranges[i], plans, read, payload, layers[i], n, i)
  {
    hide Owned, Overlay, PlanFits, LayerSize, Planned, Declared, Linked, Stack;
    StackSize(layout, counts, sha, plans, read, layers[i], i, n);
    OwnedNext(ranges[i], payload, layers[i], Cutoffs(plans, i), Lengths(plans, i), TailsFor(plans, read, i), n);
  }

  lemma RangesMatchTails(
    layout: PageLayout, plans: seq<DeltaPlan>, ranges: seq<seq<Range>>, payload: Bytes, layers: seq<Bytes>,
    read: TailReader, n: nat, counts: seq<int>)
    requires Planned(layout, plans) && n < |plans| && LayersFit(layout, counts, layers)
    requires AllOwned(ranges, payload, layers, plans, read, n)
    ensures |plans[n].tails| == |ranges| == |layers|
    ensures forall i :: 0 <= i < |ranges| ==> plans[n].tails[i].sourceStart <= plans[n].tails[i].sourceEnd
  {
    PlannedLayers(layout, plans);
    assert PlanFits(layout, BoundsOf(plans[n]), plans[n]);
  }

  /** `OverlayStage` on a linked stage: it succeeds and every layer stays owned. */
  lemma StageLaysAll(
    layout: PageLayout, counts: seq<int>, sha: Hash, plans: seq<DeltaPlan>, read: TailReader, payload: Bytes,
    layers: seq<Bytes>, ranges: seq<seq<Range>>, n: nat, r: Result<seq<seq<Range>>, PageError>)
    requires ValidLayout(layout) && Planned(layout, plans) && n < |plans|
    requires Linked(counts, sha, plans, n) && plans[n].baseCounts == CountsAfter(counts, plans, n)
    requires LayersFit(layout, counts, layers) && AllOwned(ranges, payload, layers, plans, read, n)
    requires |plans[n].tails| == |ranges|
    requires forall i :: 0 <= i < |ranges| ==> plans[n].tails[i].sourceStart <= plans[n].tails[i].sourceEnd
    requires LaidOver(ranges, plans[n], n, r)
    ensures r.Ok? && AllOwned(r.value, payload, layers, plans, read, n + 1)
  {
    hide Owned, Overlay, PlanFits, LayersFit, Planned, HasLayer, Linked;
    forall i | 0 <= i < |layers|
      ensures LaysOwned(ranges[i], plans, read, payload, layers[i], n, i)
    {
      StageLays(layout, counts, sha, plans, read, payload, layers, ranges, n, i);
    }
  }

  lemma LinkedNext(counts: seq<int>, sha: Hash, plans: seq<DeltaPlan>, n: nat)
    requires n < |plans| && Linked(counts, sha, plans, n)
    ensures if plans[n].baseCounts == CountsAfter(counts, plans, n) && plans[n].baseSha == ShaAfter(sha, plans, n)
            then Linked(counts, sha, plans, n + 1)
            else !Linked(counts, sha, plans, |plans|)
    ensures CountsAfter(counts, plans, n + 1) == plans[n].resultCounts
    ensures ShaAfter(sha, plans, n + 1) == plans[n].resultSha
  {
  }

  lemma LinkedFirst(counts: seq<int>, sha: Hash, plans: seq<DeltaPlan>)
    ensures Linked(counts, sha, plans, 0)
    ensures CountsAfter(counts, plans, 0) == counts && ShaAfter(sha, plans, 0) == sha
  {
  }

  method OverlayHistory(
    layout: PageLayout, counts: seq<int>, sha: Hash, plans: seq<DeltaPlan>, first: seq<seq<Range>>,
    ghost read: TailReader, ghost payload: Bytes, ghost layers: seq<Bytes>)
    returns (r: Result<seq<seq<Range>>, PageError>)
    requires ValidLayout(layout) && Planned(layout, plans) && LayersFit(layout, counts, layers)
    requires AllOwned(first, payload, layers, plans, read, 0)
    ensures if Linked(counts, sha, plans, |plans|)
            then r.Ok? && AllOwned(r.value, payload, layers, plans, read, |plans|)
            else r == Err(IdentityDiffers)
  {
    hide *;
    LinkedFirst(counts, sha, plans);
    var ranges, currentCounts, currentSha := first, counts, sha;
    for n := 0 to |plans|
      invariant Linked(counts, sha, plans, n) && AllOwned(ranges, payload, layers, plans, read, n)
      invariant currentCounts == CountsAfter(counts, plans, n) && currentSha == ShaAfter(sha, plans, n)
    {
      var plan := plans[n];
      RangesMatchTails(layout, plans, ranges, payload, layers, read, n, counts);
      LinkedNext(counts, sha, plans, n);
      if plan.baseCounts != currentCounts || plan.baseSha != currentSha || |plan.tails| != |ranges| {
        return Err(IdentityDiffers);
      }
      var laid := OverlayStage(ranges, plan, n);
      StageLaysAll(layout, counts, sha, plans, read, payload, layers, ranges, n, laid);
      match laid {
        case Err(error) => return Err(error);
        case Ok(next) => ranges := next;
      }
      currentCounts, currentSha := plan.resultCounts, plan.resultSha;
    }
    r := Ok(ranges);
  }

  // ---- reading the survivors ----

  /** Every range among the first `k` that a stage owns reads back authentic. */
  ghost predicate OwnersAuthentic(
    lib: Library, plans: seq<DeltaPlan>, read: TailReader, i: nat, rs: seq<Range>, k: nat)
    requires HasLayer(plans, i) && k <= |rs|
  {
    forall j :: 0 <= j < k && 0 <= rs[j].owner < |plans| ==>
      Authentic(lib, plans[rs[j].owner].tails[i], read(rs[j].owner, plans[rs[j].owner].tails[i]))
  }

  /** The tails asked for by the first `k` ranges of a layer. */
  ghost function Requested(rs: seq<Range>, i: nat, k: nat): seq<TailRead>
    requires k <= |rs|
  {
    if k == 0 then []
    else Requested(rs, i, k - 1) + (if rs[k - 1].owner < 0 then [] else [TailRead(i, rs[k - 1].owner)])
  }

  lemma RangesUpTo(rs: seq<Range>, payload: Bytes, tails: seq<Bytes>, k: nat)
    requires Dense(rs, payload, tails) && k < |rs|
    ensures Dense(rs[..k], payload, tails) && Dense(rs[..k + 1], payload, tails) && RangeOk(rs[k], payload, tails)
    ensures rs[k].start == CoveredTo(rs[..k]) == |Meaning(rs[..k], payload, tails)|
    ensures Meaning(rs[..k + 1], payload, tails) == Meaning(rs[..k], payload, tails) + RangeBytes(rs[k], payload, tails)
    ensures rs[k].end == CoveredTo(rs[..k + 1]) <= CoveredTo(rs)
  {
    hide Meaning, RangeBytes;
    assert rs[k].start == CoveredTo(rs[..k]) && RangeOk(rs[k], payload, tails);
    hide Dense, RangeOk;
    DensePrefix(rs, payload, tails, k);
    DensePrefix(rs, payload, tails, k + 1);
    MeaningLength(rs[..k], payload, tails);
    MeaningLength(rs[..k + 1], payload, tails);
    MeaningLength(rs, payload, tails);
    MeaningPrefix(rs, payload, tails, k + 1);
    assert rs[..k] + [rs[k]] == rs[..k + 1];
    DenseAppend(rs[..k], rs[k], payload, tails);
  }

  method FillLayer(
    lib: Library, buffer: array<Byte>, at: nat, payload: Bytes, plans: seq<DeltaPlan>, read: TailReader, i: nat,
    rs: seq<Range>, size: nat, ghost done: Bytes)
    returns (error: Option<PageError>, ghost asked: seq<TailRead>)
    requires HasLayer(plans, i) && Dense(rs, payload, TailsFor(plans, read, i)) && CoveredTo(rs) == size
    requires at + size <= buffer.Length && buffer[..at] == done
    modifies buffer
    ensures error == if OwnersAuthentic(lib, plans, read, i, rs, |rs|) then None else Some(TailChecksum)
    ensures error.None? ==> buffer[..at + size] == done + Meaning(rs, payload, TailsFor(plans, read, i))
    ensures exists k :: 0 <= k <= |rs| && asked == Requested(rs, i, k) && (error.None? ==> k == |rs|)
  {
    hide Dense, Meaning, TailsFor, OwnersAuthentic, RangeOk, RangeBytes, CoveredTo, Requested, HasLayer, Declared;
    ghost var tails := TailsFor(plans, read, i);
    var covered := 0;
    asked := [];
    EmptyRanges(lib, plans, read, i, rs, payload, tails);
    assert buffer[..at] == done + [];
    for k := 0 to |rs|
      invariant covered == CoveredTo(rs[..k]) <= size
      invariant Dense(rs[..k], payload, tails) && buffer[..at + covered] == done + Meaning(rs[..k], payload, tails)
      invariant OwnersAuthentic(lib, plans, read, i, rs, k) && asked == Requested(rs, i, k)
    {
      RangesUpTo(rs, payload, tails, k);
      RangeReads(lib, plans, read, i, rs[k], payload);
      RequestedNext(rs, i, k);
      var r := rs[k];
      if r.start != covered {
        return Some(CoverageGap), asked;
      }
      var data: Bytes;
      ghost var before := asked;
      if r.owner < 0 {
        data := payload[r.source..r.source + r.end - r.start];
      } else {
        var tail := plans[r.owner].tails[i];
        var bytes := read(r.owner, tail);
        asked := asked + [TailRead(i, r.owner)];
        if |bytes| != tail.sourceEnd - tail.sourceStart || lib.sha(bytes) != tail.sha {
          RefusedRead(lib, plans, read, i, rs, k);
          return Some(TailChecksum), asked;
        }
        data := bytes[..r.end - r.start];
      }
      AcceptedRead(lib, plans, read, i, rs, k);
      var next := AppendInto(buffer, at + r.start, data, done + Meaning(rs[..k], payload, tails));
      assert done + Meaning(rs[..k], payload, tails) + data == done + (Meaning(rs[..k], payload, tails) + data);
      covered := r.end;
    }
    assert rs[..|rs|] == rs;
    if covered != size {
      return Some(CoverageDiffers), asked;
    }
    error := None;
  }

  lemma EmptyRanges(
    lib: Library, plans: seq<DeltaPlan>, read: TailReader, i: nat, rs: seq<Range>, payload: Bytes, tails: seq<Bytes>)
    requires HasLayer(plans, i)
    ensures Dense(rs[..0], payload, tails) && Meaning(rs[..0], payload, tails) == []
    ensures OwnersAuthentic(lib, plans, read, i, rs, 0) && CoveredTo(rs[..0]) == 0 && Requested(rs, i, 0) == []
  {
  }

  lemma RequestedNext(rs: seq<Range>, i: nat, k: nat)
    requires k < |rs|
    ensures Requested(rs, i, k + 1)
            == Requested(rs, i, k) + (if rs[k].owner < 0 then [] else [TailRead(i, rs[k].owner)])
  {
  }

  /** What reading one range yields: base bytes, or the front of an authentic tail. */
  lemma RangeReads(lib: Library, plans: seq<DeltaPlan>, read: TailReader, i: nat, r: Range, payload: Bytes)
    requires HasLayer(plans, i) && RangeOk(r, payload, TailsFor(plans, read, i))
    ensures r.start < r.end
    ensures r.owner < 0 ==>
              && r.source + r.end - r.start <= |payload|
              && RangeBytes(r, payload, TailsFor(plans, read, i)) == payload[r.source..r.source + r.end - r.start]
    ensures r.owner >= 0 ==>
              && r.owner < |plans| && i < |plans[r.owner].tails|
              && var tail := plans[r.owner].tails[i];
                 && tail.sourceStart <= tail.sourceEnd
                 && r.end - r.start <= tail.sourceEnd - tail.sourceStart
                 && (Authentic(lib, tail, read(r.owner, tail)) ==>
                       RangeBytes(r, payload, TailsFor(plans, read, i)) == read(r.owner, tail)[..r.end - r.start])
  {
  }

  lemma RefusedRead(lib: Library, plans: seq<DeltaPlan>, read: TailReader, i: nat, rs: seq<Range>, k: nat)
    requires HasLayer(plans, i) && k < |rs| && 0 <= rs[k].owner < |plans|
    requires !Authentic(lib, plans[rs[k].owner].tails[i], read(rs[k].owner, plans[rs[k].owner].tails[i]))
    ensures !OwnersAuthentic(lib, plans, read, i, rs, |rs|)
  {
  }

  lemma AcceptedRead(lib: Library, plans: seq<DeltaPlan>, read: TailReader, i: nat, rs: seq<Range>, k: nat)
    requires HasLayer(plans, i) && k < |rs| && OwnersAuthentic(lib, plans, read, i, rs, k)
    requires 0 <= rs[k].owner < |plans| ==>
               Authentic(lib, plans[rs[k].owner].tails[i], read(rs[k].owner, plans[rs[k].owner].tails[i]))
    ensures OwnersAuthentic(lib, plans, read, i, rs, k + 1)
  {
  }

  // ---- which tails are asked for ----

  /** Only surviving tails of the first `n` layers, each at most once, in order. */
  ghost predicate AskedOnce(plans: seq<DeltaPlan>, asked: seq<TailRead>, n: nat)
    requires forall i :: 0 <= i < n ==> HasLayer(plans, i)
  {
    && (forall k :: 0 <= k < |asked| ==>
          asked[k].layer < n && asked[k].stage < |plans| && LayerSurvives(plans, asked[k].layer, asked[k].stage))
    && (forall j, k :: 0 <= j < k < |asked| ==>
          || asked[j].layer < asked[k].layer
          || (asked[j].layer == asked[k].layer && asked[j].stage < asked[k].stage))
  }

  /** Every surviving tail of the first `n` layers. */
  ghost predicate AskedAll(plans: seq<DeltaPlan>, asked: seq<TailRead>, n: nat)
    requires forall i :: 0 <= i < n ==> HasLayer(plans, i)
  {
    forall i, s :: 0 <= i < n && 0 <= s < |plans| && LayerSurvives(plans, i, s) ==> TailRead(i, s) in asked
  }

  lemma {:induction false} RequestedOwners(rs: seq<Range>, i: nat, k: nat)
    requires k <= |rs| && forall a, b :: 0 <= a < b < |rs| ==> rs[a].owner < rs[b].owner
    ensures var q := Requested(rs, i, k);
            && (forall a :: 0 <= a < |q| ==> q[a].layer == i && exists j :: 0 <= j < k && rs[j].owner == q[a].stage)
            && (forall a, b :: 0 <= a < b < |q| ==> q[a].stage < q[b].stage)
            && (forall j :: 0 <= j < k && rs[j].owner >= 0 ==> TailRead(i, rs[j].owner) in q)
  {
    if k > 0 {
      RequestedOwners(rs, i, k - 1);
      var front, q := Requested(rs, i, k - 1), Requested(rs, i, k);
      forall a | 0 <= a < |q|
        ensures q[a].layer == i && exists j :: 0 <= j < k && rs[j].owner == q[a].stage
      {
        if a < |front| {
          assert q[a] == front[a] && front[a].layer == i;
          var j :| 0 <= j < k - 1 && rs[j].owner == front[a].stage;
          assert rs[j].owner == q[a].stage;
        } else {
          assert q[a] == TailRead(i, rs[k - 1].owner);
          assert rs[k - 1].owner == q[a].stage;
        }
      }
    }
  }

  /** Asking for a layer's owners is asking for its surviving tails. */
  lemma RequestedSurvivors(plans: seq<DeltaPlan>, asked: seq<TailRead>, rs: seq<Range>, i: nat, k: nat)
    requires forall j :: 0 <= j <= i ==> HasLayer(plans, j)
    requires OwnersSurvive(rs, Cutoffs(plans, i), Lengths(plans, i)) && k <= |rs|
    requires AskedOnce(plans, asked, i)
    ensures AskedOnce(plans, asked + Requested(rs, i, k), i + 1)
    ensures AskedAll(plans, asked, i) ==> AskedAll(plans, asked + Requested(rs, i, |rs|), i + 1)
  {
    hide Requested, Survives, HasLayer;
    RequestedOwners(rs, i, k);
    RequestedOwners(rs, i, |rs|);
  }

  lemma OwnersAreSurvivors(lib: Library, plans: seq<DeltaPlan>, read: TailReader, i: nat, rs: seq<Range>)
    requires HasLayer(plans, i) && OwnersSurvive(rs, Cutoffs(plans, i), Lengths(plans, i))
    ensures OwnersAuthentic(lib, plans, read, i, rs, |rs|) <==> LayerAuthentic(lib, plans, read, i)
  {
    hide Survives, HasLayer, Authentic;
  }

  // ---- composing ----

  lemma StackedFit(
    layout: PageLayout, counts: seq<int>, sha: Hash, plans: seq<DeltaPlan>, read: TailReader, layers: seq<Bytes>)
    requires ValidLayout(layout) && Planned(layout, plans) && plans != []
    requires Linked(counts, sha, plans, |plans|) && LayersFit(layout, counts, layers)
    requires forall i :: 0 <= i < |layers| ==> HasLayer(plans, i)
    ensures var last := plans[|plans| - 1].resultCounts;
            CountsFit(layout, last) && CountsPositive(last) && LayersFit(layout, last, Stacked(layers, plans, read, |plans|))
  {
    hide Stack, LayerSize, HasLayer, TailsFor, Cutoffs, Linked;
    var last := plans[|plans| - 1];
    assert PlanFits(layout, BoundsOf(last), last);
    forall i | 0 <= i < |layers|
      ensures |Stacked(layers, plans, read, |plans|)[i]| == LayerSize(layout, last.resultCounts, i)
    {
      StackSize(layout, counts, sha, plans, read, layers[i], i, |plans|);
    }
  }

  lemma LayerOwned(
    ranges: seq<seq<Range>>, payload: Bytes, layers: seq<Bytes>, plans: seq<DeltaPlan>, read: TailReader, i: nat)
    requires AllOwned(ranges, payload, layers, plans, read, |plans|) && i < |layers|
    requires forall j :: 0 <= j < |layers| ==> HasLayer(plans, j)
    ensures var rs, tails := ranges[i], TailsFor(plans, read, i);
            && Dense(rs, payload, tails) && Meaning(rs, payload, tails) == Stacked(layers, plans, read, |plans|)[i]
            && CoveredTo(rs) == |Stacked(layers, plans, read, |plans|)[i]|
            && OwnersSurvive(rs, Cutoffs(plans, i), Lengths(plans, i))
  {
    hide Dense, Meaning, OwnersSurvive, Stack, HasLayer, TailsFor;
    var tails := TailsFor(plans, read, i);
    assert Owned(ranges[i], payload, layers[i], Cutoffs(plans, i), Lengths(plans, i), tails, |plans|);
    assert Cutoffs(plans, i)[..|plans|] == Cutoffs(plans, i) && Lengths(plans, i)[..|plans|] == Lengths(plans, i);
    MeaningLength(ranges[i], payload, tails);
  }

  method FillHistory(
    lib: Library, layout: PageLayout, buffer: array<Byte>, counts: seq<int>, resultPlan: SnapshotPlan, payload: Bytes,
    plans: seq<DeltaPlan>, read: TailReader, ranges: seq<seq<Range>>, ghost header: Bytes, ghost layers: seq<Bytes>)
    returns (error: Option<PageError>, ghost asked: seq<TailRead>)
    requires forall i :: 0 <= i < |layers| ==> HasLayer(plans, i)
    requires AllOwned(ranges, payload, layers, plans, read, |plans|)
    requires LayersFit(layout, counts, Stacked(layers, plans, read, |plans|))
    requires resultPlan.spans == SpansOf(layout, counts, |header|, |layout.layers|)
    requires buffer.Length == |header| + PayloadBytes(layout, counts) && buffer[..|header|] == header
    modifies buffer
    ensures error == if SurvivorsAuthentic(lib, plans, read, |layers|) then None else Some(TailChecksum)
    ensures error.None? ==> buffer[..] == header + Join(Stacked(layers, plans, read, |plans|))
    ensures AskedOnce(plans, asked, |layers|) && (error.None? ==> AskedAll(plans, asked, |layers|))
  {
    hide *;
    ghost var stacked := Stacked(layers, plans, read, |plans|);
    asked := [];
    NothingAsked(lib, plans, read);
    NothingFilled(layout, counts, stacked, ranges, payload, layers, plans, read);
    for i := 0 to |ranges|
      invariant |ranges| == |stacked| == |layers| == |resultPlan.spans|
      invariant 0 <= |header| + LayerOffset(layout, counts, i) <= buffer.Length
      invariant buffer[..|header| + LayerOffset(layout, counts, i)] == header + Join(stacked[..i])
      invariant SurvivorsAuthentic(lib, plans, read, i) && AskedOnce(plans, asked, i) && AskedAll(plans, asked, i)
    {
      var span := resultPlan.spans[i];
      SpanLies(layout, counts, |header|, i);
      SurvivorsNext(lib, plans, read, i, |layers|);
      LayerOwned(ranges, payload, layers, plans, read, i);
      LayerNext(layout, counts, stacked, i);
      OwnersAreSurvivors(lib, plans, read, i, ranges[i]);
      ghost var q;
      error, q := FillLayer(lib, buffer, span.sourceStart, payload, plans, read, i, ranges[i],
                            span.sourceEnd - span.sourceStart, header + Join(stacked[..i]));
      ghost var k :| 0 <= k <= |ranges[i]| && q == Requested(ranges[i], i, k) && (error.None? ==> k == |ranges[i]|);
      RequestedSurvivors(plans, asked, ranges[i], i, k);
      asked := asked + q;
      if error.Some? {
        AskedMore(plans, asked, i + 1, |layers|);
        return;
      }
      assert header + Join(stacked[..i]) + stacked[i] == header + (Join(stacked[..i]) + stacked[i]);
    }
    assert stacked[..|stacked|] == stacked;
    assert buffer[..] == buffer[..buffer.Length];
    error := None;
  }

  lemma NothingFilled(
    layout: PageLayout, counts: seq<int>, stacked: seq<Bytes>, ranges: seq<seq<Range>>, payload: Bytes,
    layers: seq<Bytes>, plans: seq<DeltaPlan>, read: TailReader)
    requires LayersFit(layout, counts, stacked) && AllOwned(ranges, payload, layers, plans, read, |plans|)
    ensures |ranges| == |layers| && LayerOffset(layout, counts, 0) == 0 && Join(stacked[..0]) == []
    ensures CountsFit(layout, counts) && |stacked| == |layout.layers|
    ensures LayerOffset(layout, counts, |stacked|) == PayloadBytes(layout, counts)
  {
  }

  lemma NothingAsked(lib: Library, plans: seq<DeltaPlan>, read: TailReader)
    ensures AskedOnce(plans, [], 0) && AskedAll(plans, [], 0) && SurvivorsAuthentic(lib, plans, read, 0)
  {
  }

  lemma SurvivorsNext(lib: Library, plans: seq<DeltaPlan>, read: TailReader, i: nat, n: nat)
    requires i < n && (forall j :: 0 <= j < n ==> HasLayer(plans, j)) && SurvivorsAuthentic(lib, plans, read, i)
    ensures if LayerAuthentic(lib, plans, read, i) then SurvivorsAuthentic(lib, plans, read, i + 1)
            else !SurvivorsAuthentic(lib, plans, read, n)
  {
    hide LayerAuthentic, HasLayer;
  }

  lemma AskedMore(plans: seq<DeltaPlan>, asked: seq<TailRead>, m: nat, n: nat)
    requires m <= n && forall i :: 0 <= i < n ==> HasLayer(plans, i)
    requires AskedOnce(plans, asked, m)
    ensures AskedOnce(plans, asked, n)
  {
  }

  lemma LayerNext(layout: PageLayout, counts: seq<int>, layers: seq<Bytes>, i: nat)
    requires LayersFit(layout, counts, layers) && i < |layers|
    ensures 0 <= LayerOffset(layout, counts, i)
    ensures LayerOffset(layout, counts, i + 1) == LayerOffset(layout, counts, i) + |layers[i]|
    ensures LayerOffset(layout, counts, i + 1) <= PayloadBytes(layout, counts)
    ensures Join(layers[..i + 1]) == Join(layers[..i]) + layers[i]
  {
    OffsetsGrow(layout, counts, i + 1, |layers|);
    JoinNext(layers, i);
  }

  /** Before any stage every layer is the base snapshot's. */
  function FirstRanges(spans: seq<PageSpan>): (ranges: seq<seq<Range>>)
    requires forall i :: 0 <= i < |spans| ==> spans[i].sourceStart <= spans[i].sourceEnd
    ensures |ranges| == |spans|
  {
    seq(|spans|, i requires 0 <= i < |spans| =>
      [Range(0, spans[i].sourceEnd - spans[i].sourceStart, BASE, spans[i].sourceStart)])
  }

  lemma FirstOwned(
    layout: PageLayout, counts: seq<int>, plans: seq<DeltaPlan>, read: TailReader, payload: Bytes, plan: SnapshotPlan)
    requires CountsFit(layout, counts) && CountsPositive(counts)
    requires plan.headerBytes + PayloadBytes(layout, counts) == |payload|
    requires plan.spans == SpansOf(layout, counts, plan.headerBytes, |layout.layers|)
    requires forall i :: 0 <= i < |layout.layers| ==> HasLayer(plans, i)
    ensures forall i :: 0 <= i < |plan.spans| ==> plan.spans[i].sourceStart <= plan.spans[i].sourceEnd
    ensures LayersFit(layout, counts, Layers(layout, counts, payload, plan.headerBytes))
    ensures AllOwned(FirstRanges(plan.spans), payload, Layers(layout, counts, payload, plan.headerBytes), plans, read, 0)
  {
    hide Owned, HasLayer, LayerOffset, Cutoffs, Lengths, TailsFor;
    var layers := Layers(layout, counts, payload, plan.headerBytes);
    FoundLayersFit(layout, counts, payload, plan.headerBytes);
    forall i | 0 <= i < |layout.layers|
      ensures plan.spans[i].sourceStart < plan.spans[i].sourceEnd <= |payload|
      ensures layers[i] == payload[plan.spans[i].sourceStart..plan.spans[i].sourceEnd]
    {
      LayersFound(layout, counts, payload, plan.headerBytes, i);
      MultiplyUp(1, counts[layout.layers[i].group], layout.layers[i].bytesPerPage);
    }
    forall i | 0 <= i < |layers|
      ensures Owned(FirstRanges(plan.spans)[i], payload, layers[i],
                    Cutoffs(plans, i), Lengths(plans, i), TailsFor(plans, read, i), 0)
    {
      OwnedAtFirst(payload, plan.spans[i].sourceStart, plan.spans[i].sourceEnd,
                   Cutoffs(plans, i), Lengths(plans, i), TailsFor(plans, read, i));
    }
  }

  lemma HeaderPlans(lib: Library, layout: PageLayout, counts: seq<int>)
    requires Faithful(lib) && CountsFit(layout, counts) && CountsPositive(counts)
    ensures var header := lib.snapshotHeader(layout, counts);
            var r := PlanSnapshot(lib, layout, header, counts, EncodedSize(lib, layout, counts));
            r.Ok? && r.value.headerBytes == |header|
  {
    hide LayerOffset;
    var header := lib.snapshotHeader(layout, counts);
    assert header + [] == header;
  }

  /** The composer does exactly what `Composed` says. In particular it never
      reports a coverage gap, it asks for surviving tails only, each once, and it
      has asked for all of them whenever it reaches the final digest. */
  method ComposePageHistory(
    lib: Library, layout: PageLayout, base: Verified, counts: seq<int>, plans: seq<DeltaPlan>, read: TailReader)
    returns (r: Result<Verified, PageError>, ghost asked: seq<TailRead>)
    requires Faithful(lib) && ValidLayout(layout) && Planned(layout, plans)
    ensures r == Composed(lib, layout, base, counts, plans, read)
    ensures forall i :: 0 <= i < |layout.layers| ==> HasLayer(plans, i)
    ensures AskedOnce(plans, asked, |layout.layers|)
    ensures r.Ok? || r == Err(ResultChecksum) ==> AskedAll(plans, asked, |layout.layers|)
  {
    hide AllOwned, HasLayer, Stacked, Join, LayerOffset, LayerSize, LayerAuthentic, AskedAll, PlanSnapshot, PlanFits,
         Faithful, SurvivorsAuthentic, Linked, LayersFit, Layers;
    PlannedLayers(layout, plans);
    asked := [];
    if plans == [] {
      return Err(NoDelta), asked;
    }
    var planned := PlanPageSnapshot(lib, layout, base.payload, counts, |base.payload|);
    if planned.Err? {
      return Err(planned.error), asked;
    }
    var basePlan := planned.value;
    ghost var layers := Layers(layout, counts, base.payload, basePlan.headerBytes);
    FirstOwned(layout, counts, plans, read, base.payload, basePlan);
    var laid := OverlayHistory(
      layout, counts, base.sha, plans, FirstRanges(basePlan.spans), read, base.payload, layers);
    if laid.Err? {
      return Err(laid.error), asked;
    }
    var last := plans[|plans| - 1];
    var resultCounts := last.resultCounts;
    StackedFit(layout, counts, base.sha, plans, read, layers);
    var header := lib.snapshotHeader(layout, resultCounts);
    var total := EncodedSize(lib, layout, resultCounts);
    HeaderPlans(lib, layout, resultCounts);
    var resultPlanned := PlanPageSnapshot(lib, layout, header, resultCounts, total);
    var resultPlan;
    match resultPlanned {
      case Err(error) => return Err(error), asked;
      case Ok(plan) => resultPlan := plan;
    }
    var buffer := new Byte[total];
    CopyInto(buffer, 0, header);
    var error;
    error, asked := FillHistory(lib, layout, buffer, resultCounts, resultPlan, base.payload, plans, read,
                                laid.value, header, layers);
    if error.Some? {
      return Err(error.value), asked;
    }
    var result := buffer[..];
    if lib.sha(result) != last.resultSha {
      return Err(ResultChecksum), asked;
    }
    r := Ok(Verified(result, last.resultSha));
  }
}
