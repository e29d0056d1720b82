// Placing a flat page snapshot through bounded arenas: every slab copies one
// window of the payload, and each layer's page buffer is filled front to back.
module PageSlabs {
  import opened Common
  import opened PageCopies
  import opened Pages

  datatype PageSlab = PageSlab(start: nat, end: nat, spans: seq<CopySpan>)

  /** Layers follow one another from the header to the end of the snapshot. */
  predicate Contiguous(plan: SnapshotPlan) {
    && plan.headerBytes <= plan.totalBytes
    && (forall i :: 0 <= i < |plan.spans| ==>
          && plan.spans[i].sourceStart == EndOf(plan, i)
          && EndOf(plan, i) <= plan.spans[i].sourceEnd <= plan.totalBytes)
    && EndOf(plan, |plan.spans|) == plan.totalBytes
  }

  /** Where the first `n` layers end. */
  function EndOf(plan: SnapshotPlan, n: nat): nat
    requires n <= |plan.spans|
  {
    if n == 0 then plan.headerBytes else plan.spans[n - 1].sourceEnd
  }

  function PayloadSize(plan: SnapshotPlan): nat
    requires Contiguous(plan)
  {
    plan.totalBytes - plan.headerBytes
  }

  function LayerStart(plan: SnapshotPlan, i: nat): nat
    requires Contiguous(plan) && i < |plan.spans|
  {
    EndsGrow(plan, 0, i);
    plan.spans[i].sourceStart - plan.headerBytes
  }

  function LayerBytes(plan: SnapshotPlan, i: nat): nat
    requires Contiguous(plan) && i < |plan.spans|
  {
    plan.spans[i].sourceEnd - plan.spans[i].sourceStart
  }

  lemma {:induction false} EndsGrow(plan: SnapshotPlan, i: nat, j: nat)
    requires Contiguous(plan) && i <= j <= |plan.spans|
    ensures EndOf(plan, i) <= EndOf(plan, j)
    decreases j
  {
    if i < j {
      EndsGrow(plan, i, j - 1);
    }
  }

  /** Every plan of an accepted snapshot is contiguous, and its layers lie where decoding finds them. */
  lemma PlannedContiguous(lib: Library, layout: PageLayout, encoded: Bytes, counts: seq<int>)
    requires ValidLayout(layout) && PlanSnapshot(lib, layout, encoded, counts, |encoded|).Ok?
    ensures var plan := PlanSnapshot(lib, layout, encoded, counts, |encoded|).value;
            && Contiguous(plan) && plan.totalBytes == |encoded| && |plan.spans| == |layout.layers|
            && LayersOf(plan, encoded) == Layers(layout, counts, encoded, plan.headerBytes)
            && forall i :: 0 <= i < |plan.spans| ==> LayerBytes(plan, i) == LayerSize(layout, counts, i)
  {
    hide *;
    var plan := PlanSnapshot(lib, layout, encoded, counts, |encoded|).value;
    SpansContiguous(layout, counts, plan);
    SpansDecode(layout, counts, plan, encoded);
  }

  lemma SpansContiguous(layout: PageLayout, counts: seq<int>, plan: SnapshotPlan)
    requires CountsFit(layout, counts) && plan.spans == SpansOf(layout, counts, plan.headerBytes, |layout.layers|)
    requires plan.headerBytes + PayloadBytes(layout, counts) == plan.totalBytes
    ensures Contiguous(plan)
  {
    hide LayerSize, SpansOf;
    assert LayerOffset(layout, counts, 0) == 0;
    hide LayerOffset;
    forall i | 0 <= i < |layout.layers|
      ensures plan.spans[i].sourceStart == EndOf(plan, i) <= plan.spans[i].sourceEnd <= plan.totalBytes
    {
      SpanLies(layout, counts, plan.headerBytes, i);
      if i > 0 {
        SpanLies(layout, counts, plan.headerBytes, i - 1);
      }
      OffsetsGrow(layout, counts, i, i + 1);
      OffsetsGrow(layout, counts, i + 1, |layout.layers|);
    }
    if plan.spans != [] {
      SpanLies(layout, counts, plan.headerBytes, |layout.layers| - 1);
    }
  }

  lemma SpansDecode(layout: PageLayout, counts: seq<int>, plan: SnapshotPlan, encoded: Bytes)
    requires CountsFit(layout, counts) && plan.spans == SpansOf(layout, counts, plan.headerBytes, |layout.layers|)
    requires plan.headerBytes + PayloadBytes(layout, counts) == plan.totalBytes == |encoded| && Contiguous(plan)
    ensures LayersOf(plan, encoded) == Layers(layout, counts, encoded, plan.headerBytes)
    ensures forall i :: 0 <= i < |plan.spans| ==> LayerBytes(plan, i) == LayerSize(layout, counts, i)
  {
    hide LayerSize, LayerOffset, Layers, SpansOf, Contiguous;
    forall i | 0 <= i < |plan.spans|
      ensures LayerOf(plan, encoded, i) == Layers(layout, counts, encoded, plan.headerBytes)[i]
      ensures LayerBytes(plan, i) == LayerSize(layout, counts, i)
    {
      SpanLies(layout, counts, plan.headerBytes, i);
      LayersFound(layout, counts, encoded, plan.headerBytes, i);
      LayerFits(plan, encoded, i);
    }
  }

  // ---- what one window copies ----

  /** How much of layer `i` lies before a payload position. */
  function Front(plan: SnapshotPlan, i: nat, edge: int): (n: nat)
    requires Contiguous(plan) && i < |plan.spans|
    ensures n <= LayerBytes(plan, i)
  {
    Max(0, Min(edge - LayerStart(plan, i), LayerBytes(plan, i)))
  }

  /** Layer `i`'s share of the window `[lo, hi)`. */
  function CutAt(plan: SnapshotPlan, lo: nat, hi: nat, i: nat): seq<CopySpan>
    requires Contiguous(plan) && i < |plan.spans|
  {
    var from, to := Front(plan, i, lo), Front(plan, i, hi);
    if to <= from || LayerStart(plan, i) + from < lo then []
    else
      [CopySpan(LayerStart(plan, i) + from - lo, LayerStart(plan, i) + from, from, to - from, i)]
  }

  function Cuts(plan: SnapshotPlan, lo: nat, hi: nat, n: nat): seq<CopySpan>
    requires Contiguous(plan) && n <= |plan.spans|
  {
    if n == 0 then [] else Cuts(plan, lo, hi, n - 1) + CutAt(plan, lo, hi, n - 1)
  }

  /** A share of a window that starts before its layer ends begins inside it. */
  lemma CutIs(plan: SnapshotPlan, lo: nat, hi: nat, i: nat)
    requires Contiguous(plan) && i < |plan.spans| && lo <= hi
    ensures var first, last := LayerStart(plan, i), LayerStart(plan, i) + LayerBytes(plan, i);
            var start, end := Max(lo, first), Min(hi, last);
            CutAt(plan, lo, hi, i)
            == if start >= end then [] else [CopySpan(start - lo, start, start - first, end - start, i)]
  {
  }

  function SlabEnd(plan: SnapshotPlan, arena: nat, lo: nat): nat
    requires Contiguous(plan)
  {
    Min(PayloadSize(plan), lo + arena)
  }

  function Slabs(plan: SnapshotPlan, arena: nat, lo: nat): seq<PageSlab>
    requires Contiguous(plan) && arena > 0
    decreases PayloadSize(plan) - lo
  {
    if lo >= PayloadSize(plan) then []
    else
      [PageSlab(lo, SlabEnd(plan, arena, lo), Cuts(plan, lo, SlabEnd(plan, arena, lo), |plan.spans|))]
      + Slabs(plan, arena, lo + arena)
  }

  /** Some layer covers every payload byte. */
  lemma {:induction false} Covering(plan: SnapshotPlan, p: nat, n: nat) returns (i: nat)
    requires Contiguous(plan) && n <= |plan.spans| && p + plan.headerBytes < EndOf(plan, n)
    ensures i < n && LayerStart(plan, i) <= p < LayerStart(plan, i) + LayerBytes(plan, i)
  {
    if p + plan.headerBytes < EndOf(plan, n - 1) {
      i := Covering(plan, p, n - 1);
    } else {
      i := n - 1;
    }
  }

  lemma {:induction false} CutsHold(plan: SnapshotPlan, lo: nat, hi: nat, n: nat, i: nat)
    requires Contiguous(plan) && i < n <= |plan.spans| && CutAt(plan, lo, hi, i) != []
    ensures CutAt(plan, lo, hi, i)[0] in Cuts(plan, lo, hi, n)
  {
    hide CutAt, Contiguous;
    if i < n - 1 {
      CutsHold(plan, lo, hi, n - 1, i);
    }
  }

  lemma WindowHasSpans(plan: SnapshotPlan, lo: nat, hi: nat)
    requires Contiguous(plan) && lo < hi <= PayloadSize(plan)
    ensures Cuts(plan, lo, hi, |plan.spans|) != []
  {
    var i := Covering(plan, lo, |plan.spans|);
    CutIs(plan, lo, hi, i);
    CutsHold(plan, lo, hi, |plan.spans|, i);
  }

  /** None stands for the two refusals; the second is never met. */
  method PlanPageSlabs(plan: SnapshotPlan, arena: int) returns (r: Option<seq<PageSlab>>)
    requires Contiguous(plan)
    ensures r == if arena <= 0 then None else Some(Slabs(plan, arena, 0))
  {
    if arena <= 0 {
      return None;
    }
    hide Cuts, Contiguous;
    var slabs: seq<PageSlab> := [];
    var slabStart: nat := 0;
    while slabStart < PayloadSize(plan)
      invariant Slabs(plan, arena, 0) == slabs + Slabs(plan, arena, slabStart)
    {
      var slabEnd := SlabEnd(plan, arena, slabStart);
      var spans := PlanWindow(plan, slabStart, slabEnd);
      WindowHasSpans(plan, slabStart, slabEnd);
      if spans == [] {
        return None;
      }
      SlabsNext(plan, arena, slabStart, slabs);
      slabs := slabs + [PageSlab(slabStart, slabEnd, spans)];
      slabStart := slabStart + arena;
    }
    assert slabs + Slabs(plan, arena, slabStart) == slabs;
    r := Some(slabs);
  }

  lemma SlabsNext(plan: SnapshotPlan, arena: nat, lo: nat, before: seq<PageSlab>)
    requires Contiguous(plan) && arena > 0 && lo < PayloadSize(plan)
    ensures var hi := SlabEnd(plan, arena, lo);
            before + Slabs(plan, arena, lo)
            == before + [PageSlab(lo, hi, Cuts(plan, lo, hi, |plan.spans|))] + Slabs(plan, arena, lo + arena)
  {
    hide Cuts, Contiguous;
  }

  method PlanWindow(plan: SnapshotPlan, slabStart: nat, slabEnd: nat) returns (spans: seq<CopySpan>)
    requires Contiguous(plan) && slabStart <= slabEnd
    ensures spans == Cuts(plan, slabStart, slabEnd, |plan.spans|)
  {
    hide CutAt, Contiguous;
    spans := [];
    for i := 0 to |plan.spans|
      invariant spans == Cuts(plan, slabStart, slabEnd, i)
    {
      CutIs(plan, slabStart, slabEnd, i);
      var layerStart := LayerStart(plan, i);
      var layerEnd := layerStart + LayerBytes(plan, i);
      var start, end := Max(slabStart, layerStart), Min(slabEnd, layerEnd);
      if start < end {
        spans := spans + [CopySpan(start - slabStart, start, start - layerStart, end - start, i)];
      }
    }
  }

  // ---- what submitting the slabs does ----

  function LayerOf(plan: SnapshotPlan, encoded: Bytes, i: nat): Bytes
    requires Contiguous(plan) && plan.totalBytes == |encoded| && i < |plan.spans|
  {
    encoded[plan.spans[i].sourceStart..plan.spans[i].sourceEnd]
  }

  function LayersOf(plan: SnapshotPlan, encoded: Bytes): seq<Bytes>
    requires Contiguous(plan) && plan.totalBytes == |encoded|
  {
    seq(|plan.spans|, i requires 0 <= i < |plan.spans| => LayerOf(plan, encoded, i))
  }

  /** Page buffer `i` has its layer's size and holds the layer up to `edge`. */
  ghost predicate FilledTo(plan: SnapshotPlan, encoded: Bytes, page: Bytes, i: nat, edge: int)
    requires Contiguous(plan) && plan.totalBytes == |encoded| && i < |plan.spans|
  {
    |page| == LayerBytes(plan, i) && page[..Front(plan, i, edge)] == LayerOf(plan, encoded, i)[..Front(plan, i, edge)]
  }

  /** The first `n` buffers hold their layers up to `ahead`, the others up to `done`. */
  ghost predicate AllFilled(plan: SnapshotPlan, encoded: Bytes, pages: seq<Bytes>, n: nat, done: int, ahead: int)
    requires Contiguous(plan) && plan.totalBytes == |encoded| && n <= |plan.spans|
  {
    && |pages| == |plan.spans|
    && forall i :: 0 <= i < |pages| ==> FilledTo(plan, encoded, pages[i], i, if i < n then ahead else done)
  }

  /** What the arena holds for a cut is the next stretch of its layer. */
  lemma CutReads(plan: SnapshotPlan, encoded: Bytes, lo: nat, hi: nat, i: nat)
    requires Contiguous(plan) && plan.totalBytes == |encoded| && i < |plan.spans|
    requires lo <= hi <= PayloadSize(plan) && CutAt(plan, lo, hi, i) != []
    ensures var arena, c := encoded[plan.headerBytes + lo..plan.headerBytes + hi], CutAt(plan, lo, hi, i)[0];
            var from, to := Front(plan, i, lo), Front(plan, i, hi);
            && c.destination == i && c.destinationOffset == from && c.bytes == to - from > 0
            && c.arenaOffset + c.bytes <= |arena|
            && arena[c.arenaOffset..c.arenaOffset + c.bytes] == LayerOf(plan, encoded, i)[from..to]
  {
    CutLies(plan, lo, hi, i);
    var c := CutAt(plan, lo, hi, i)[0];
    var at, layer := plan.headerBytes, plan.spans[i];
    hide CutAt, Contiguous, Front;
    SliceOfSlice(encoded, at + lo, at + hi, c.arenaOffset, c.arenaOffset + c.bytes);
    SliceOfSlice(encoded, layer.sourceStart, layer.sourceEnd, Front(plan, i, lo), Front(plan, i, hi));
  }

  lemma CutLies(plan: SnapshotPlan, lo: nat, hi: nat, i: nat)
    requires Contiguous(plan) && i < |plan.spans| && lo <= hi <= PayloadSize(plan) && CutAt(plan, lo, hi, i) != []
    ensures var c := CutAt(plan, lo, hi, i)[0];
            var from, to := Front(plan, i, lo), Front(plan, i, hi);
            && c.destination == i && c.destinationOffset == from && c.bytes == to - from > 0
            && c.arenaOffset + c.bytes <= hi - lo
            && plan.headerBytes + lo + c.arenaOffset == plan.spans[i].sourceStart + from
            && plan.spans[i].sourceStart <= plan.spans[i].sourceEnd <= plan.totalBytes
  {
    CutIs(plan, lo, hi, i);
  }

  lemma NothingToCut(plan: SnapshotPlan, lo: nat, hi: nat, i: nat)
    requires Contiguous(plan) && i < |plan.spans| && lo <= hi && CutAt(plan, lo, hi, i) == []
    ensures Front(plan, i, hi) == Front(plan, i, lo)
  {
    CutIs(plan, lo, hi, i);
  }

  /** A window's copy for layer `i` moves that layer's front from `lo` to `hi`. */
  lemma CopyFills(plan: SnapshotPlan, encoded: Bytes, pages: seq<Bytes>, lo: nat, hi: nat, i: nat)
    requires Contiguous(plan) && plan.totalBytes == |encoded| && i < |plan.spans|
    requires lo <= hi <= PayloadSize(plan) && AllFilled(plan, encoded, pages, i, lo, hi)
    requires CutAt(plan, lo, hi, i) != []
    ensures var arena, c := encoded[plan.headerBytes + lo..plan.headerBytes + hi], CutAt(plan, lo, hi, i)[0];
            CopyFits(pages, arena, c) && AllFilled(plan, encoded, Copied(pages, arena, c), i + 1, lo, hi)
  {
    hide Contiguous, CutAt, Front, LayerOf;
    var arena, c := encoded[plan.headerBytes + lo..plan.headerBytes + hi], CutAt(plan, lo, hi, i)[0];
    assert FilledTo(plan, encoded, pages[i], i, lo);
    CutReads(plan, encoded, lo, hi, i);
    LayerFits(plan, encoded, i);
    FillOn(pages[i], LayerOf(plan, encoded, i), Front(plan, i, lo), Front(plan, i, hi));
    OtherBuffers(plan, encoded, pages, Copied(pages, arena, c), lo, hi, i);
  }

  lemma LayerFits(plan: SnapshotPlan, encoded: Bytes, i: nat)
    requires Contiguous(plan) && plan.totalBytes == |encoded| && i < |plan.spans|
    ensures |LayerOf(plan, encoded, i)| == LayerBytes(plan, i)
  {
  }

  lemma OtherBuffers(
    plan: SnapshotPlan, encoded: Bytes, before: seq<Bytes>, after: seq<Bytes>, lo: nat, hi: nat, i: nat)
    requires Contiguous(plan) && plan.totalBytes == |encoded| && i < |plan.spans|
    requires AllFilled(plan, encoded, before, i, lo, hi) && |after| == |before|
    requires forall j :: 0 <= j < |before| && j != i ==> after[j] == before[j]
    requires FilledTo(plan, encoded, after[i], i, hi)
    ensures AllFilled(plan, encoded, after, i + 1, lo, hi)
  {
    hide FilledTo, Contiguous;
  }

  lemma PassedOver(plan: SnapshotPlan, encoded: Bytes, pages: seq<Bytes>, lo: nat, hi: nat, i: nat)
    requires Contiguous(plan) && plan.totalBytes == |encoded| && i < |plan.spans| && lo <= hi
    requires AllFilled(plan, encoded, pages, i, lo, hi) && CutAt(plan, lo, hi, i) == []
    ensures AllFilled(plan, encoded, pages, i + 1, lo, hi)
  {
    hide Contiguous, CutAt, Front, LayerOf;
    NothingToCut(plan, lo, hi, i);
    assert FilledTo(plan, encoded, pages[i], i, lo);
    OtherBuffers(plan, encoded, pages, pages, lo, hi, i);
  }

  lemma OneCut(plan: SnapshotPlan, lo: nat, hi: nat, i: nat)
    requires Contiguous(plan) && i < |plan.spans|
    ensures var cut := CutAt(plan, lo, hi, i);
            cut == [] || (cut == [cut[0]] && cut[0].destination == i)
  {
  }

  /** Submitting a window is never refused and brings every layer up to its end. */
  lemma {:induction false} WindowFills(
    plan: SnapshotPlan, encoded: Bytes, pages: seq<Bytes>, lo: nat, hi: nat, n: nat)
    requires Contiguous(plan) && plan.totalBytes == |encoded| && n <= |plan.spans|
    requires lo <= hi <= PayloadSize(plan) && AllFilled(plan, encoded, pages, 0, lo, hi)
    ensures var arena := encoded[plan.headerBytes + lo..plan.headerBytes + hi];
            var after := Submit(pages, arena, Cuts(plan, lo, hi, n));
            after.Some? && AllFilled(plan, encoded, after.value, n, lo, hi)
  {
    hide CutAt, AllFilled, CopyFits, Copied;
    if n > 0 {
      var arena := encoded[plan.headerBytes + lo..plan.headerBytes + hi];
      WindowFills(plan, encoded, pages, lo, hi, n - 1);
      var front, cut := Cuts(plan, lo, hi, n - 1), CutAt(plan, lo, hi, n - 1);
      var before := Submit(pages, arena, front).value;
      OneCut(plan, lo, hi, n - 1);
      assert Cuts(plan, lo, hi, n) == front + cut;
      if cut == [] {
        PassedOver(plan, encoded, before, lo, hi, n - 1);
        assert front + cut == front;
      } else {
        CopyFills(plan, encoded, before, lo, hi, n - 1);
        SubmitMore(pages, arena, front, cut[0]);
      }
    }
  }

  lemma NothingYet(plan: SnapshotPlan, encoded: Bytes, pages: seq<Bytes>)
    requires Contiguous(plan) && plan.totalBytes == |encoded| && |pages| == |plan.spans|
    requires forall i :: 0 <= i < |pages| ==> |pages[i]| == LayerBytes(plan, i)
    ensures AllFilled(plan, encoded, pages, 0, Min(PayloadSize(plan), 0), 0)
  {
    forall i | 0 <= i < |pages|
      ensures FilledTo(plan, encoded, pages[i], i, 0)
    {
      assert Front(plan, i, 0) == 0;
    }
  }

  /** Behind one window the next begins. */
  lemma NextWindow(plan: SnapshotPlan, encoded: Bytes, pages: seq<Bytes>, lo: int, hi: int, next: int)
    requires Contiguous(plan) && plan.totalBytes == |encoded|
    requires AllFilled(plan, encoded, pages, |plan.spans|, lo, hi)
    ensures AllFilled(plan, encoded, pages, 0, hi, next)
  {
    hide FilledTo, Contiguous;
  }

  lemma AllThere(plan: SnapshotPlan, encoded: Bytes, pages: seq<Bytes>, edge: nat, next: int)
    requires Contiguous(plan) && plan.totalBytes == |encoded| && edge >= PayloadSize(plan)
    requires AllFilled(plan, encoded, pages, 0, edge, next)
    ensures pages == LayersOf(plan, encoded)
  {
    forall i | 0 <= i < |pages|
      ensures pages[i] == LayerOf(plan, encoded, i)
    {
      assert FilledTo(plan, encoded, pages[i], i, edge);
      assert Front(plan, i, edge) == LayerBytes(plan, i);
      assert pages[i][..LayerBytes(plan, i)] == pages[i];
    }
  }

  /** Fill an arena with each slab's bytes and submit it. None stands for a
      refused arena size or copy; whatever the buffers held, they end up as the
      layers of the snapshot. */
  method PlacePages(plan: SnapshotPlan, encoded: Bytes, arena: int, buffers: seq<Bytes>) returns (r: Option<seq<Bytes>>)
    requires Contiguous(plan) && plan.totalBytes == |encoded| && |buffers| == |plan.spans|
    requires forall i :: 0 <= i < |buffers| ==> |buffers[i]| == LayerBytes(plan, i)
    ensures r == if arena <= 0 then None else Some(LayersOf(plan, encoded))
  {
    hide Contiguous, AllFilled, Cuts, Slabs, Submit, LayersOf, Min, LayerBytes;
    var planned := PlanPageSlabs(plan, arena);
    if planned.None? {
      return None;
    }
    var slabs, pages := planned.value, buffers;
    ghost var edge: nat := 0;
    NothingYet(plan, encoded, pages);
    for k := 0 to |slabs|
      invariant slabs[k..] == Slabs(plan, arena, edge)
      invariant AllFilled(plan, encoded, pages, 0, Min(PayloadSize(plan), edge), 0)
    {
      FirstSlab(plan, arena, edge, slabs, k);
      var slab := slabs[k];
      var used := encoded[plan.headerBytes + slab.start..plan.headerBytes + slab.end];
      WindowAhead(plan, encoded, pages, slab.start, slab.end);
      WindowFills(plan, encoded, pages, slab.start, slab.end, |plan.spans|);
      var after := Submit(pages, used, slab.spans);
      if after.None? {
        return None;
      }
      pages := after.value;
      NextWindow(plan, encoded, pages, slab.start, slab.end, 0);
      edge := edge + arena;
    }
    LastSlab(plan, arena, edge);
    AllThere(plan, encoded, pages, Min(PayloadSize(plan), edge), 0);
    r := Some(pages);
  }

  lemma WindowAhead(plan: SnapshotPlan, encoded: Bytes, pages: seq<Bytes>, lo: int, hi: int)
    requires Contiguous(plan) && plan.totalBytes == |encoded| && AllFilled(plan, encoded, pages, 0, lo, 0)
    ensures AllFilled(plan, encoded, pages, 0, lo, hi)
  {
    hide FilledTo, Contiguous;
  }

  lemma FirstSlab(plan: SnapshotPlan, arena: nat, edge: nat, slabs: seq<PageSlab>, k: nat)
    requires Contiguous(plan) && arena > 0 && k < |slabs| && slabs[k..] == Slabs(plan, arena, edge)
    ensures edge < PayloadSize(plan) && slabs[k + 1..] == Slabs(plan, arena, edge + arena)
    ensures slabs[k].start == edge == Min(PayloadSize(plan), edge)
    ensures slabs[k].start <= slabs[k].end == Min(PayloadSize(plan), edge + arena) <= PayloadSize(plan)
    ensures slabs[k].spans == Cuts(plan, slabs[k].start, slabs[k].end, |plan.spans|)
  {
    hide Cuts, Contiguous;
    assert slabs[k..][0] == slabs[k];
    assert slabs[k..][1..] == slabs[k + 1..];
  }

  lemma LastSlab(plan: SnapshotPlan, arena: nat, edge: nat)
    requires Contiguous(plan) && arena > 0 && Slabs(plan, arena, edge) == []
    ensures Min(PayloadSize(plan), edge) == PayloadSize(plan)
  {
    hide Cuts, Contiguous;
  }

  /** Placing an accepted snapshot delivers exactly what decoding it finds. */
  method PlaceSnapshot(
    lib: Library, layout: PageLayout, encoded: Bytes, counts: seq<int>, arena: int, buffers: seq<Bytes>)
    returns (r: Option<seq<Bytes>>)
    requires ValidLayout(layout) && arena > 0
    requires PlanSnapshot(lib, layout, encoded, counts, |encoded|).Ok?
    requires LayersFit(layout, counts, buffers)
    ensures r.Some? && DecodeSnapshot(lib, layout, encoded, counts) == Ok(r.value)
  {
    var plan := PlanPageSnapshot(lib, layout, encoded, counts, |encoded|);
    PlannedContiguous(lib, layout, encoded, counts);
    r := PlacePages(plan.value, encoded, arena, buffers);
  }

  // ---- every byte once ----

  /** Copy `j` of slab `k` carries byte `o` of layer `i`. */
  predicate Carries(slabs: seq<PageSlab>, k: nat, j: nat, i: nat, o: nat) {
    && k < |slabs| && j < |slabs[k].spans|
    && var c := slabs[k].spans[j];
       c.destination == i && c.destinationOffset <= o < c.destinationOffset + c.bytes
  }

  predicate ShareOf(plan: SnapshotPlan, lo: nat, hi: nat, n: nat, c: CopySpan)
    requires Contiguous(plan) && n <= |plan.spans|
  {
    c.destination < n && CutAt(plan, lo, hi, c.destination) == [c]
  }

  /** A window's copies are its layers' shares ... */
  lemma {:induction false} CutsShare(plan: SnapshotPlan, lo: nat, hi: nat, n: nat, c: CopySpan)
    requires Contiguous(plan) && n <= |plan.spans| && c in Cuts(plan, lo, hi, n)
    ensures ShareOf(plan, lo, hi, n, c)
  {
    hide CutAt, Contiguous;
    OneCut(plan, lo, hi, n - 1);
    if c in Cuts(plan, lo, hi, n - 1) {
      CutsShare(plan, lo, hi, n - 1, c);
    } else {
      assert c in CutAt(plan, lo, hi, n - 1);
    }
  }

  /** ... each layer at most once, in order. */
  lemma {:induction false} CutsAscend(plan: SnapshotPlan, lo: nat, hi: nat, n: nat)
    requires Contiguous(plan) && n <= |plan.spans|
    ensures Ascending(Cuts(plan, lo, hi, n))
  {
    hide CutAt, Contiguous;
    if n > 0 {
      var front := Cuts(plan, lo, hi, n - 1);
      CutsAscend(plan, lo, hi, n - 1);
      OneCut(plan, lo, hi, n - 1);
      forall j | 0 <= j < |front|
        ensures front[j].destination < n - 1
      {
        CutsShare(plan, lo, hi, n - 1, front[j]);
      }
      assert Cuts(plan, lo, hi, n) == front + CutAt(plan, lo, hi, n - 1);
    }
  }

  predicate Ascending(cuts: seq<CopySpan>) {
    forall j, m :: 0 <= j < m < |cuts| ==> cuts[j].destination < cuts[m].destination
  }

  lemma {:induction false} SlabIs(plan: SnapshotPlan, arena: nat, lo: nat, k: nat)
    requires Contiguous(plan) && arena > 0 && k < |Slabs(plan, arena, lo)|
    ensures var slab := Slabs(plan, arena, lo)[k];
            && lo <= slab.start <= slab.end <= PayloadSize(plan)
            && slab.spans == Cuts(plan, slab.start, slab.end, |plan.spans|)
    decreases k
  {
    hide Cuts, Contiguous;
    if k > 0 {
      SlabIs(plan, arena, lo + arena, k - 1);
    }
  }

  lemma {:induction false} SlabsApart(plan: SnapshotPlan, arena: nat, lo: nat, j: nat, k: nat)
    requires Contiguous(plan) && arena > 0 && j < k < |Slabs(plan, arena, lo)|
    ensures Slabs(plan, arena, lo)[j].end <= Slabs(plan, arena, lo)[k].start
    decreases j
  {
    hide Cuts, Contiguous;
    if j == 0 {
      SlabIs(plan, arena, lo + arena, k - 1);
    } else {
      SlabsApart(plan, arena, lo + arena, j - 1, k - 1);
    }
  }

  lemma {:induction false} SlabOf(plan: SnapshotPlan, arena: nat, lo: nat, p: nat) returns (k: nat)
    requires Contiguous(plan) && arena > 0 && lo <= p < PayloadSize(plan)
    ensures k < |Slabs(plan, arena, lo)|
    ensures Slabs(plan, arena, lo)[k].start <= p < Slabs(plan, arena, lo)[k].end
    decreases PayloadSize(plan) - lo
  {
    hide Cuts, Contiguous;
    if p < lo + arena {
      k := 0;
    } else {
      k := SlabOf(plan, arena, lo + arena, p);
      k := k + 1;
    }
  }

  /** A share of a window carries a byte exactly when the byte lies in the window. */
  lemma CutCarries(plan: SnapshotPlan, lo: nat, hi: nat, i: nat, o: nat)
    requires Contiguous(plan) && i < |plan.spans| && lo <= hi && o < LayerBytes(plan, i)
    ensures lo <= LayerStart(plan, i) + o < hi <==>
              && CutAt(plan, lo, hi, i) != []
              && var c := CutAt(plan, lo, hi, i)[0]; c.destinationOffset <= o < c.destinationOffset + c.bytes
  {
    CutIs(plan, lo, hi, i);
  }

  lemma CarriedIn(plan: SnapshotPlan, arena: nat, k: nat, j: nat, i: nat, o: nat)
    requires Contiguous(plan) && arena > 0 && i < |plan.spans| && o < LayerBytes(plan, i)
    requires Carries(Slabs(plan, arena, 0), k, j, i, o)
    ensures Slabs(plan, arena, 0)[k].start <= LayerStart(plan, i) + o < Slabs(plan, arena, 0)[k].end
  {
    hide Cuts, CutAt, Contiguous, Slabs, LayerStart, LayerBytes;
    var slab := Slabs(plan, arena, 0)[k];
    SlabIs(plan, arena, 0, k);
    CutsShare(plan, slab.start, slab.end, |plan.spans|, slab.spans[j]);
    CutCarries(plan, slab.start, slab.end, i, o);
  }

  lemma CarriedOnce(plan: SnapshotPlan, arena: nat, k: nat, j: nat, k': nat, j': nat, i: nat, o: nat)
    requires Contiguous(plan) && arena > 0 && i < |plan.spans| && o < LayerBytes(plan, i)
    requires Carries(Slabs(plan, arena, 0), k, j, i, o) && Carries(Slabs(plan, arena, 0), k', j', i, o)
    ensures k == k' && j == j'
  {
    hide Cuts, CutAt, Contiguous, Slabs, LayerStart, LayerBytes;
    CarriedIn(plan, arena, k, j, i, o);
    CarriedIn(plan, arena, k', j', i, o);
    if k < k' {
      SlabsApart(plan, arena, 0, k, k');
    } else if k' < k {
      SlabsApart(plan, arena, 0, k', k);
    } else {
      var slab := Slabs(plan, arena, 0)[k];
      SlabIs(plan, arena, 0, k);
      CutsAscend(plan, slab.start, slab.end, |plan.spans|);
    }
  }

  /** Every byte of every layer is in exactly one copy of exactly one slab. */
  lemma EachByteOnce(plan: SnapshotPlan, arena: nat, i: nat, o: nat)
    requires Contiguous(plan) && arena > 0 && i < |plan.spans| && o < LayerBytes(plan, i)
    ensures var slabs := Slabs(plan, arena, 0);
            && (exists k: nat, j: nat :: Carries(slabs, k, j, i, o))
            && (forall k: nat, j: nat, k': nat, j': nat ::
                  Carries(slabs, k, j, i, o) && Carries(slabs, k', j', i, o) ==> k == k' && j == j')
  {
    hide Cuts, CutAt, Slabs;
    LayerInside(plan, i, o);
    var slabs := Slabs(plan, arena, 0);
    var k := SlabOf(plan, arena, 0, LayerStart(plan, i) + o);
    var slab := slabs[k];
    SlabIs(plan, arena, 0, k);
    CutCarries(plan, slab.start, slab.end, i, o);
    OneCut(plan, slab.start, slab.end, i);
    CutsHold(plan, slab.start, slab.end, |plan.spans|, i);
    var j :| 0 <= j < |slab.spans| && slab.spans[j] == CutAt(plan, slab.start, slab.end, i)[0];
    assert Carries(slabs, k, j, i, o);
    forall k: nat, j: nat, k': nat, j': nat | Carries(slabs, k, j, i, o) && Carries(slabs, k', j', i, o)
      ensures k == k' && j == j'
    {
      CarriedOnce(plan, arena, k, j, k', j', i, o);
    }
  }

  lemma LayerInside(plan: SnapshotPlan, i: nat, o: nat)
    requires Contiguous(plan) && i < |plan.spans| && o < LayerBytes(plan, i)
    ensures LayerStart(plan, i) + o < PayloadSize(plan)
  {
  }
}
