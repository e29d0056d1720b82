// The two producers of a delta stage, by comparing snapshots and directly from
// captured pages, and what applying their output gives back.
module PageDeltaEncode {
  import opened Common
  import opened Pages
  import opened PageDelta

  // ---- a stage built from its parts ----

  function StageHeader(
    lib: Library, layout: PageLayout, b: StageBounds, baseSha: Hash, resultSha: Hash, reused: seq<int>, tails: seq<Bytes>)
    : DeltaHeader
    requires |tails| == |layout.layers|
  {
    DeltaHeader(
      lib.layoutSha(layout), baseSha, resultSha, b.baseCounts, b.resultCounts, b.baseBoundary, b.resultBoundary, reused,
      seq(|tails|, i requires 0 <= i < |tails| =>
        TailDescriptor(layout.layers[i].name, |tails[i]|, lib.sha(tails[i]))))
  }

  function StageBytes(lib: Library, h: DeltaHeader, tails: seq<Bytes>): Bytes {
    lib.deltaHeader(h) + Join(tails)
  }

  ghost predicate PartsFit(layout: PageLayout, b: StageBounds, reused: seq<int>, tails: seq<Bytes>) {
    && ValidLayout(layout) && BoundsValid(layout, b) && ReuseFits(b, reused)
    && LayersFit(layout, TailCounts(b.resultCounts, reused), tails)
  }

  /** A built stage plans successfully and its tails are where the plan says. */
  lemma BuiltStagePlans(
    lib: Library, layout: PageLayout, b: StageBounds, baseSha: Hash, resultSha: Hash, reused: seq<int>, tails: seq<Bytes>)
    requires Faithful(lib) && PartsFit(layout, b, reused, tails)
    ensures var h := StageHeader(lib, layout, b, baseSha, resultSha, reused, tails);
            var delta := StageBytes(lib, h, tails);
            var r := PlanDelta(lib, layout, delta, b, |delta|);
            && r.Ok? && r.value.baseSha == baseSha && r.value.resultSha == resultSha && r.value.reused == reused
            && TailsAuthentic(lib, r.value, delta, |tails|)
            && forall i :: 0 <= i < |tails| ==> TailBytes(r.value, delta, i) == tails[i]
  {
    hide LayerSize, LayerOffset, PlanFits, Join;
    var h := StageHeader(lib, layout, b, baseSha, resultSha, reused, tails);
    var delta := StageBytes(lib, h, tails);
    var header := lib.deltaHeader(h);
    var counts := TailCounts(b.resultCounts, reused);
    assert lib.parseDelta(header + Join(tails)) == Some((h, |header|));
    TailCountsFit(layout, b, reused);
    LayersOfJoin(layout, counts, header, tails);
    BuiltStageParses(lib, layout, b, h, tails, delta);
    var plan := PlanDelta(lib, layout, delta, b, |delta|).value;
    hide PlanDelta, Faithful;
    forall i | 0 <= i < |tails|
      ensures plan.tails[i].sourceStart <= plan.tails[i].sourceEnd <= |delta|
      ensures TailBytes(plan, delta, i) == tails[i] && lib.sha(tails[i]) == plan.tails[i].sha
    {
      LayersFound(layout, counts, delta, |header|, i);
    }
  }

  lemma BuiltStageParses(
    lib: Library, layout: PageLayout, b: StageBounds, h: DeltaHeader, tails: seq<Bytes>, delta: Bytes)
    requires PartsFit(layout, b, h.reused, tails)
    requires h == StageHeader(lib, layout, b, h.baseSha, h.resultSha, h.reused, tails)
    requires lib.parseDelta(delta) == Some((h, |lib.deltaHeader(h)|))
    requires |delta| == |lib.deltaHeader(h)| + PayloadBytes(layout, TailCounts(b.resultCounts, h.reused))
    ensures var r := PlanDelta(lib, layout, delta, b, |delta|);
            && r.Ok? && r.value.baseSha == h.baseSha && r.value.resultSha == h.resultSha && r.value.reused == h.reused
            && r.value.tails == TailsOf(layout, b, h, |lib.deltaHeader(h)|, |layout.layers|)
  {
    hide LayerSize, LayerOffset, TailCounts;
    assert DescriptorsMatch(layout, b, h, |layout.layers|);
  }

  /** What a built stage makes of a base: reused pages, then the stage's tails. */
  function Spliced(layout: PageLayout, reused: seq<int>, layers: seq<Bytes>, tails: seq<Bytes>): (r: seq<Bytes>)
    requires CountsFit(layout, reused) && |layers| == |tails| == |layout.layers|
    requires forall i :: 0 <= i < |layers| ==> 0 <= LayerSize(layout, reused, i) <= |layers[i]|
  {
    seq(|layers|, i requires 0 <= i < |layers| => layers[i][..LayerSize(layout, reused, i)] + tails[i])
  }

  lemma SpliceFits(layout: PageLayout, b: StageBounds, reused: seq<int>, layers: seq<Bytes>, tails: seq<Bytes>)
    requires PartsFit(layout, b, reused, tails) && LayersFit(layout, b.baseCounts, layers)
    ensures CountsFit(layout, reused)
    ensures forall i :: 0 <= i < |layers| ==> 0 <= LayerSize(layout, reused, i) <= |layers[i]|
    ensures LayersFit(layout, b.resultCounts, Spliced(layout, reused, layers, tails))
  {
    forall i | 0 <= i < |layers|
      ensures 0 <= LayerSize(layout, reused, i) <= |layers[i]|
      ensures LayerSize(layout, reused, i) + |tails[i]| == LayerSize(layout, b.resultCounts, i)
    {
      ReusePlusTail(layout, b, reused, i);
    }
  }

  /** Applying a built stage to a base it binds gives the splice, provided the
      hash it declares is the hash of that splice. */
  lemma ApplyBuiltStage(
    lib: Library, layout: PageLayout, base: Verified, b: StageBounds, resultSha: Hash, reused: seq<int>, tails: seq<Bytes>)
    requires Faithful(lib) && PartsFit(layout, b, reused, tails)
    requires PlanSnapshot(lib, layout, base.payload, b.baseCounts, |base.payload|).Ok?
    ensures var headerBytes := PlanSnapshot(lib, layout, base.payload, b.baseCounts, |base.payload|).value.headerBytes;
            var layers := Layers(layout, b.baseCounts, base.payload, headerBytes);
            && LayersFit(layout, b.baseCounts, layers) && CountsFit(layout, reused)
            && (forall i :: 0 <= i < |layers| ==> 0 <= LayerSize(layout, reused, i) <= |layers[i]|)
            && var result := Snapshot(lib, layout, b.resultCounts, Spliced(layout, reused, layers, tails));
               var delta := StageBytes(lib, StageHeader(lib, layout, b, base.sha, resultSha, reused, tails), tails);
               ApplyDelta(lib, layout, base, delta, b)
               == if lib.sha(result) == resultSha then Ok(Verified(result, resultSha)) else Err(ResultChecksum)
  {
    var headerBytes := PlanSnapshot(lib, layout, base.payload, b.baseCounts, |base.payload|).value.headerBytes;
    var layers := Layers(layout, b.baseCounts, base.payload, headerBytes);
    FoundLayersFit(layout, b.baseCounts, base.payload, headerBytes);
    SpliceFits(layout, b, reused, layers, tails);
    BuiltStagePlans(lib, layout, b, base.sha, resultSha, reused, tails);
    var delta := StageBytes(lib, StageHeader(lib, layout, b, base.sha, resultSha, reused, tails), tails);
    var plan := PlanDelta(lib, layout, delta, b, |delta|).value;
    SpliceIsNext(layout, b, plan, layers, delta, tails);
  }

  lemma SpliceIsNext(layout: PageLayout, b: StageBounds, plan: DeltaPlan, layers: seq<Bytes>, delta: Bytes, tails: seq<Bytes>)
    requires PlanFits(layout, b, plan) && plan.totalBytes <= |delta| && LayersFit(layout, b.baseCounts, layers)
    requires PartsFit(layout, b, plan.reused, tails) && CountsFit(layout, plan.reused)
    requires forall i :: 0 <= i < |layers| ==> 0 <= LayerSize(layout, plan.reused, i) <= |layers[i]|
    requires forall i :: 0 <= i < |tails| ==> TailBytes(plan, delta, i) == tails[i]
    ensures NextLayers(layout, b, plan, layers, delta) == Spliced(layout, plan.reused, layers, tails)
  {
    hide LayerSize, LayerOffset;
  }

  // ---- encoding by comparison ----

  /** Page `page` of group `group` is the same in every layer of the group. */
  predicate SamePage(layout: PageLayout, group: nat, page: nat, base: seq<Bytes>, result: seq<Bytes>)
    requires |base| == |result| == |layout.layers|
  {
    forall i :: 0 <= i < |layout.layers| && layout.layers[i].group == group ==>
      var start := page * layout.layers[i].bytesPerPage;
      var end := start + layout.layers[i].bytesPerPage;
      && end <= |base[i]| && end <= |result[i]| && base[i][start..end] == result[i][start..end]
  }

  function Reusable(
    layout: PageLayout, group: nat, limit: nat, base: seq<Bytes>, result: seq<Bytes>, page: nat): (k: nat)
    requires |base| == |result| == |layout.layers| && page <= limit
    ensures page <= k <= limit
    decreases limit - page
  {
    if page < limit && SamePage(layout, group, page, base, result)
    then Reusable(layout, group, limit, base, result, page + 1)
    else page
  }

  function ReusedPages(layout: PageLayout, b: StageBounds, base: seq<Bytes>, result: seq<Bytes>, n: nat): (r: seq<int>)
    requires |base| == |result| == |layout.layers| && BoundsValid(layout, b) && n <= layout.groups
    ensures |r| == n && forall g :: 0 <= g < n ==> 0 <= r[g] <= b.baseCounts[g]
  {
    seq(n, g requires 0 <= g < n => Reusable(layout, g, b.baseCounts[g], base, result, 0))
  }

  function TailsAfter(layout: PageLayout, reused: seq<int>, layers: seq<Bytes>, n: nat): (tails: seq<Bytes>)
    requires CountsFit(layout, reused) && n <= |layers| == |layout.layers|
    requires forall i :: 0 <= i < |layers| ==> 0 <= LayerSize(layout, reused, i) <= |layers[i]|
    ensures |tails| == n
  {
    seq(n, i requires 0 <= i < n => layers[i][LayerSize(layout, reused, i)..])
  }

  function EncodeDelta(
    lib: Library, layout: PageLayout, base: Bytes, result: Bytes, b: StageBounds, baseSha: Option<Hash>)
    : Result<Bytes, PageError>
    requires ValidLayout(layout)
  {
    if !BoundsValid(layout, b) then Err(DeltaRejected)
    else
      var baseLayers :- DecodeSnapshot(lib, layout, base, b.baseCounts);
      var resultLayers :- DecodeSnapshot(lib, layout, result, b.resultCounts);
      DecodedFit(lib, layout, base, b.baseCounts);
      DecodedFit(lib, layout, result, b.resultCounts);
      var reused := ReusedPages(layout, b, baseLayers, resultLayers, layout.groups);
      ReusedFit(layout, b, reused, resultLayers);
      var tails := TailsAfter(layout, reused, resultLayers, |resultLayers|);
      var sha := if baseSha.Some? then baseSha.value else lib.sha(base);
      Ok(StageBytes(lib, StageHeader(lib, layout, b, sha, lib.sha(result), reused, tails), tails))
  }

  lemma DecodedFit(lib: Library, layout: PageLayout, encoded: Bytes, counts: seq<int>)
    requires ValidLayout(layout) && DecodeSnapshot(lib, layout, encoded, counts).Ok?
    ensures LayersFit(layout, counts, DecodeSnapshot(lib, layout, encoded, counts).value)
  {
    var plan := PlanSnapshot(lib, layout, encoded, counts, |encoded|).value;
    FoundLayersFit(layout, counts, encoded, plan.headerBytes);
  }

  lemma ReusedFit(layout: PageLayout, b: StageBounds, reused: seq<int>, layers: seq<Bytes>)
    requires ValidLayout(layout) && BoundsValid(layout, b) && ReuseFits(b, reused)
    requires LayersFit(layout, b.resultCounts, layers)
    ensures CountsFit(layout, reused)
    ensures forall i :: 0 <= i < |layers| ==> 0 <= LayerSize(layout, reused, i) <= |layers[i]|
    ensures PartsFit(layout, b, reused, TailsAfter(layout, reused, layers, |layers|))
  {
    TailCountsFit(layout, b, reused);
    forall i | 0 <= i < |layers|
      ensures 0 <= LayerSize(layout, reused, i) <= |layers[i]|
      ensures |layers[i]| - LayerSize(layout, reused, i) == LayerSize(layout, TailCounts(b.resultCounts, reused), i)
    {
      ReusePlusTail(layout, b, reused, i);
    }
  }

  /** Equal leading pages are equal leading bytes. */
  lemma {:induction false} SamePagesSameBytes(a: Bytes, c: Bytes, w: nat, n: nat)
    requires n * w <= |a| && n * w <= |c|
    requires forall p :: 0 <= p < n ==>
               var start := p * w;
               start + w <= |a| && start + w <= |c| && a[start..start + w] == c[start..start + w]
    ensures a[..n * w] == c[..n * w]
  {
    if n > 0 {
      Distribute(n - 1, 1, w);
      SamePagesSameBytes(a, c, w, n - 1);
      var m := (n - 1) * w;
      assert a[..n * w] == a[..m] + a[m..m + w];
      assert c[..n * w] == c[..m] + c[m..m + w];
    }
  }

  lemma {:induction false} ReusablePagesSame(
    layout: PageLayout, group: nat, limit: nat, base: seq<Bytes>, result: seq<Bytes>, page: nat, p: nat)
    requires |base| == |result| == |layout.layers| && page <= limit
    requires page <= p < Reusable(layout, group, limit, base, result, page)
    ensures SamePage(layout, group, p, base, result)
    decreases limit - page
  {
    if page < p {
      ReusablePagesSame(layout, group, limit, base, result, page + 1, p);
    }
  }

  lemma ReusedBytesSame(layout: PageLayout, b: StageBounds, base: seq<Bytes>, result: seq<Bytes>, i: nat)
    requires ValidLayout(layout) && BoundsValid(layout, b) && i < |layout.layers|
    requires LayersFit(layout, b.baseCounts, base) && LayersFit(layout, b.resultCounts, result)
    ensures var n := LayerSize(layout, ReusedPages(layout, b, base, result, layout.groups), i);
            0 <= n <= |base[i]| && n <= |result[i]| && base[i][..n] == result[i][..n]
  {
    var reused := ReusedPages(layout, b, base, result, layout.groups);
    ReusePlusTail(layout, b, reused, i);
    var g, w := layout.layers[i].group, layout.layers[i].bytesPerPage;
    forall p | 0 <= p < reused[g]
      ensures var start := p * w;
              && start + w <= |base[i]| && start + w <= |result[i]|
              && base[i][start..start + w] == result[i][start..start + w]
    {
      ReusablePagesSame(layout, g, b.baseCounts[g], base, result, 0, p);
    }
    SamePagesSameBytes(base[i], result[i], w, reused[g]);
  }

  // ---- no page is sent twice ----

  predicate SharedIn(a: Bytes, c: Bytes, w: nat, n: nat) {
    n * w <= |a| && n * w <= |c| && n * w >= 0 && a[..n * w] == c[..n * w]
  }

  /** The first `n` pages are the same in every layer of the group. */
  predicate SharedPages(layout: PageLayout, group: nat, base: seq<Bytes>, result: seq<Bytes>, n: nat)
    requires |base| == |result| == |layout.layers|
  {
    forall i :: 0 <= i < |layout.layers| && layout.layers[i].group == group ==>
      SharedIn(base[i], result[i], layout.layers[i].bytesPerPage, n)
  }

  /** `r` is the largest number of leading base pages the two share. */
  ghost predicate LargestShared(layout: PageLayout, group: nat, limit: int, base: seq<Bytes>, result: seq<Bytes>, r: int)
    requires |base| == |result| == |layout.layers|
  {
    && 0 <= r <= limit && SharedPages(layout, group, base, result, r)
    && forall n: nat :: n <= limit && SharedPages(layout, group, base, result, n) ==> n <= r
  }

  lemma {:induction false} ReusableStops(
    layout: PageLayout, group: nat, limit: nat, base: seq<Bytes>, result: seq<Bytes>, page: nat)
    requires |base| == |result| == |layout.layers| && page <= limit
    ensures var k := Reusable(layout, group, limit, base, result, page);
            k < limit ==> !SamePage(layout, group, k, base, result)
    decreases limit - page
  {
    if page < limit && SamePage(layout, group, page, base, result) {
      ReusableStops(layout, group, limit, base, result, page + 1);
    }
  }

  lemma PageInside(page: nat, n: nat, w: nat)
    requires page < n
    ensures 0 <= page * w <= page * w + w <= n * w
  {
    Distribute(page, 1, w);
    MultiplyUp(page + 1, n, w);
    MultiplyUp(0, page, w);
  }

  lemma SharedPage(a: Bytes, c: Bytes, w: nat, n: nat, page: nat)
    requires SharedIn(a, c, w, n) && page < n
    ensures var start := page * w;
            0 <= start && start + w <= |a| && start + w <= |c| && a[start..start + w] == c[start..start + w]
  {
    PageInside(page, n, w);
    var start, end, size := page * w, page * w + w, n * w;
    assert a[start..end] == a[..size][start..end] && c[start..end] == c[..size][start..end];
  }

  lemma SharedIsSame(layout: PageLayout, group: nat, base: seq<Bytes>, result: seq<Bytes>, n: nat, page: nat)
    requires |base| == |result| == |layout.layers| && page < n
    requires SharedPages(layout, group, base, result, n)
    ensures SamePage(layout, group, page, base, result)
  {
    hide SharedIn;
    forall i | 0 <= i < |layout.layers| && layout.layers[i].group == group
      ensures var start := page * layout.layers[i].bytesPerPage;
              var end := start + layout.layers[i].bytesPerPage;
              0 <= start && end <= |base[i]| && end <= |result[i]| && base[i][start..end] == result[i][start..end]
    {
      SharedPage(base[i], result[i], layout.layers[i].bytesPerPage, n, page);
    }
  }

  /** Reuse is as long as it can be: a group shares the pages it reuses, and any
      number of leading base pages it shares is no larger. */
  lemma ReuseIsMaximal(layout: PageLayout, b: StageBounds, base: seq<Bytes>, result: seq<Bytes>, g: nat)
    requires ValidLayout(layout) && BoundsValid(layout, b) && g < layout.groups
    requires LayersFit(layout, b.baseCounts, base) && LayersFit(layout, b.resultCounts, result)
    ensures LargestShared(layout, g, b.baseCounts[g], base, result, ReusedPages(layout, b, base, result, layout.groups)[g])
  {
    var reused := ReusedPages(layout, b, base, result, layout.groups);
    forall i | 0 <= i < |layout.layers| && layout.layers[i].group == g
      ensures SharedIn(base[i], result[i], layout.layers[i].bytesPerPage, reused[g])
    {
      ReusedBytesSame(layout, b, base, result, i);
    }
    ReusableStops(layout, g, b.baseCounts[g], base, result, 0);
    hide SharedIn, SamePage;
    forall n: nat | n <= b.baseCounts[g] && SharedPages(layout, g, base, result, n)
      ensures n <= reused[g]
    {
      if reused[g] < n {
        SharedIsSame(layout, g, base, result, n, reused[g]);
      }
    }
  }

  /** The delta of two snapshots plans, and reuses in every group the largest
      number of leading pages the two share. */
  lemma DeltaIsSmallest(lib: Library, layout: PageLayout, base: Bytes, result: Bytes, b: StageBounds, baseSha: Option<Hash>)
    requires Faithful(lib) && ValidLayout(layout) && EncodeDelta(lib, layout, base, result, b, baseSha).Ok?
    ensures var delta := EncodeDelta(lib, layout, base, result, b, baseSha).value;
            var plan := PlanDelta(lib, layout, delta, b, |delta|);
            var before, after := DecodeSnapshot(lib, layout, base, b.baseCounts), DecodeSnapshot(lib, layout, result, b.resultCounts);
            && plan.Ok? && before.Ok? && after.Ok? && |plan.value.reused| == layout.groups == |b.baseCounts|
            && |before.value| == |after.value| == |layout.layers|
            && forall g :: 0 <= g < layout.groups ==>
                 LargestShared(layout, g, b.baseCounts[g], before.value, after.value, plan.value.reused[g])
  {
    var before := DecodeSnapshot(lib, layout, base, b.baseCounts).value;
    var after := DecodeSnapshot(lib, layout, result, b.resultCounts).value;
    DecodedFit(lib, layout, base, b.baseCounts);
    DecodedFit(lib, layout, result, b.resultCounts);
    var reused := ReusedPages(layout, b, before, after, layout.groups);
    ReusedFit(layout, b, reused, after);
    var tails := TailsAfter(layout, reused, after, |after|);
    hide LargestShared, ReusedPages, LayerSize, PlanDelta, Faithful, DecodeSnapshot, TailsAfter, StageHeader, StageBytes;
    BuiltStagePlans(
      lib, layout, b, if baseSha.Some? then baseSha.value else lib.sha(base), lib.sha(result), reused, tails);
    forall g | 0 <= g < layout.groups
      ensures LargestShared(layout, g, b.baseCounts[g], before, after, reused[g])
    {
      ReuseIsMaximal(layout, b, before, after, g);
    }
  }

  /** Round trip. Whatever the two snapshots, applying their delta to the base
      gives the result in canonical form exactly when the canonical form hashes
      as the result does; for a canonical result that is the result itself. */
  lemma DeltaRoundTrip(lib: Library, layout: PageLayout, base: Bytes, result: Bytes, b: StageBounds)
    requires Faithful(lib) && ValidLayout(layout)
    requires EncodeDelta(lib, layout, base, result, b, None).Ok?
    ensures DecodeSnapshot(lib, layout, result, b.resultCounts).Ok?
    ensures var delta := EncodeDelta(lib, layout, base, result, b, None).value;
            var layers := DecodeSnapshot(lib, layout, result, b.resultCounts).value;
            var canonical := Snapshot(lib, layout, b.resultCounts, layers);
            && ApplyDelta(lib, layout, Verify(lib, base), delta, b)
               == (if lib.sha(canonical) == lib.sha(result) then Ok(Verified(canonical, lib.sha(result)))
                   else Err(ResultChecksum))
            && (lib.snapshotHeader(layout, b.resultCounts) <= result ==> canonical == result)
  {
    var baseLayers := DecodeSnapshot(lib, layout, base, b.baseCounts).value;
    var layers := DecodeSnapshot(lib, layout, result, b.resultCounts).value;
    DecodedFit(lib, layout, base, b.baseCounts);
    DecodedFit(lib, layout, result, b.resultCounts);
    var reused := ReusedPages(layout, b, baseLayers, layers, layout.groups);
    ReusedFit(layout, b, reused, layers);
    var tails := TailsAfter(layout, reused, layers, |layers|);
    ApplyBuiltStage(lib, layout, Verify(lib, base), b, lib.sha(result), reused, tails);
    SpliceRestores(layout, b, baseLayers, layers);
    CanonicalFromHeader(lib, layout, result, b.resultCounts);
  }

  lemma SpliceRestores(layout: PageLayout, b: StageBounds, base: seq<Bytes>, result: seq<Bytes>)
    requires ValidLayout(layout) && BoundsValid(layout, b)
    requires LayersFit(layout, b.baseCounts, base) && LayersFit(layout, b.resultCounts, result)
    ensures var reused := ReusedPages(layout, b, base, result, layout.groups);
            && CountsFit(layout, reused)
            && (forall i :: 0 <= i < |base| ==> 0 <= LayerSize(layout, reused, i) <= |base[i]|)
            && (forall i :: 0 <= i < |base| ==> 0 <= LayerSize(layout, reused, i) <= |result[i]|)
            && Spliced(layout, reused, base, TailsAfter(layout, reused, result, |result|)) == result
  {
    var reused := ReusedPages(layout, b, base, result, layout.groups);
    ReusedFit(layout, b, reused, result);
    forall i | 0 <= i < |base|
      ensures 0 <= LayerSize(layout, reused, i) <= |base[i]| && LayerSize(layout, reused, i) <= |result[i]|
      ensures base[i][..LayerSize(layout, reused, i)] + result[i][LayerSize(layout, reused, i)..] == result[i]
    {
      ReusedBytesSame(layout, b, base, result, i);
    }
  }

  /** A snapshot that starts with the canonical header is the canonical encoding of its layers. */
  lemma CanonicalFromHeader(lib: Library, layout: PageLayout, encoded: Bytes, counts: seq<int>)
    requires Faithful(lib) && ValidLayout(layout) && DecodeSnapshot(lib, layout, encoded, counts).Ok?
    ensures lib.snapshotHeader(layout, counts) <= encoded ==>
              Snapshot(lib, layout, counts, DecodeSnapshot(lib, layout, encoded, counts).value) == encoded
  {
    var header := lib.snapshotHeader(layout, counts);
    if header <= encoded {
      assert encoded == header + encoded[|header|..];
      JoinOfLayers(layout, counts, encoded, |header|);
    }
  }

  method EncodePageDelta(
    lib: Library, layout: PageLayout, base: Bytes, result: Bytes, b: StageBounds, baseSha: Option<Hash>)
    returns (r: Result<Bytes, PageError>)
    requires ValidLayout(layout)
    ensures r == EncodeDelta(lib, layout, base, result, b, baseSha)
  {
    if !BoundsValid(layout, b) {
      return Err(DeltaRejected);
    }
    var decodedBase := DecodeSnapshot(lib, layout, base, b.baseCounts);
    if decodedBase.Err? {
      return Err(decodedBase.error);
    }
    var decodedResult := DecodeSnapshot(lib, layout, result, b.resultCounts);
    if decodedResult.Err? {
      return Err(decodedResult.error);
    }
    var baseLayers, resultLayers := decodedBase.value, decodedResult.value;
    DecodedFit(lib, layout, base, b.baseCounts);
    DecodedFit(lib, layout, result, b.resultCounts);
    var reused := CountReusedPages(layout, b, baseLayers, resultLayers);
    ReusedFit(layout, b, reused, resultLayers);
    hide LayerOffset, Join, DecodeSnapshot, SamePage, LayerSize;
    var tails := CollectChangedTails(layout, reused, resultLayers);
    var sha := if baseSha.Some? then baseSha.value else lib.sha(base);
    r := Ok(StageBytes(lib, StageHeader(lib, layout, b, sha, lib.sha(result), reused, tails), tails));
  }

  method CollectChangedTails(layout: PageLayout, reused: seq<int>, layers: seq<Bytes>) returns (tails: seq<Bytes>)
    requires CountsFit(layout, reused) && |layers| == |layout.layers|
    requires forall i :: 0 <= i < |layers| ==> 0 <= LayerSize(layout, reused, i) <= |layers[i]|
    ensures tails == TailsAfter(layout, reused, layers, |layers|)
  {
    tails := [];
    for i := 0 to |layers|
      invariant tails == TailsAfter(layout, reused, layers, i)
    {
      tails := tails + [layers[i][LayerSize(layout, reused, i)..]];
    }
  }

  method CountReusedPages(layout: PageLayout, b: StageBounds, base: seq<Bytes>, result: seq<Bytes>)
    returns (reused: seq<int>)
    requires |base| == |result| == |layout.layers| && BoundsValid(layout, b)
    ensures reused == ReusedPages(layout, b, base, result, layout.groups)
  {
    hide SamePage;
    reused := [];
    for group := 0 to layout.groups
      invariant reused == ReusedPages(layout, b, base, result, group)
    {
      var limit := b.baseCounts[group];
      var reusable := 0;
      while reusable < limit && SamePage(layout, group, reusable, base, result)
        invariant 0 <= reusable <= limit
        invariant Reusable(layout, group, limit, base, result, reusable)
                  == Reusable(layout, group, limit, base, result, 0)
      {
        reusable := reusable + 1;
      }
      reused := reused + [reusable];
    }
  }
}
