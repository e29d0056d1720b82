// From the ranges of every layer to the ordered source spans of the payload,
// and the planner's main result: reading its spans in order reads exactly what
// composing the history gives.
module CudaSpans {
  import opened Common
  import opened Pages
  import opened PageDelta
  import opened PageHistory
  import opened PageHistoryTheorems
  import opened CudaSources
  import opened CudaPlan

  // ---- spans ----

  function Total(spans: seq<SourceSpan>): nat {
    if spans == [] then 0 else Total(spans[..|spans| - 1]) + spans[|spans| - 1].count
  }

  /** Bytes that the spans put into one destination. */
  function CoveredIn(spans: seq<SourceSpan>, destination: nat): nat {
    if spans == [] then 0
    else
      var last := spans[|spans| - 1];
      CoveredIn(spans[..|spans| - 1], destination) + (if last.destination == destination then last.count else 0)
  }

  /** Non-empty spans that leave no gap, neither in the payload nor in any layer. */
  predicate Coverage(spans: seq<SourceSpan>) {
    spans == []
    || var front, last := spans[..|spans| - 1], spans[|spans| - 1];
       && Coverage(front) && last.count > 0 && last.snapshotOffset == Total(front)
       && last.destinationOffset == CoveredIn(front, last.destination)
  }

  predicate SpansBounded(spans: seq<SourceSpan>, bound: nat) {
    forall k :: 0 <= k < |spans| ==> spans[k].count <= spans[k].source.size <= bound
  }

  ghost predicate SpanOk(store: Store, s: SourceSpan) {
    SourceOk(store, s.source) && s.sourceOffset + s.count <= s.source.size
  }

  ghost predicate SpansOk(store: Store, spans: seq<SourceSpan>) {
    forall k :: 0 <= k < |spans| ==> SpanOk(store, spans[k])
  }

  ghost function SpanBytes(store: Store, s: SourceSpan): Bytes
    requires SpanOk(store, s)
  {
    SourceBytes(store, s.source)[s.sourceOffset..s.sourceOffset + s.count]
  }

  /** What the spans read, in order. */
  ghost function ReadSpans(store: Store, spans: seq<SourceSpan>): Bytes
    requires SpansOk(store, spans)
  {
    if spans == [] then [] else ReadSpans(store, spans[..|spans| - 1]) + SpanBytes(store, spans[|spans| - 1])
  }

  lemma SpanAppend(store: Store, spans: seq<SourceSpan>, s: SourceSpan, bound: nat)
    requires SpansOk(store, spans) && Coverage(spans) && SpansBounded(spans, bound) && SpanOk(store, s)
    requires 0 < s.count <= s.source.size <= bound && s.snapshotOffset == Total(spans)
    requires s.destinationOffset == CoveredIn(spans, s.destination)
    ensures var all := spans + [s];
            && SpansOk(store, all) && Coverage(all) && SpansBounded(all, bound) && Total(all) == Total(spans) + s.count
            && CoveredIn(all, s.destination) == CoveredIn(spans, s.destination) + s.count
            && (forall d :: d != s.destination ==> CoveredIn(all, d) == CoveredIn(spans, d))
            && ReadSpans(store, all) == ReadSpans(store, spans) + SpanBytes(store, s)
  {
    hide SpanOk;
    assert (spans + [s])[..|spans|] == spans;
  }

  /** The state of the list while one destination is being filled. */
  ghost predicate Filling(store: Store, spans: seq<SourceSpan>, bound: nat, base: nat, destination: nat, upTo: nat) {
    && SpansOk(store, spans) && Coverage(spans) && SpansBounded(spans, bound)
    && Total(spans) == base + upTo && CoveredIn(spans, destination) == upTo
    && forall d :: d > destination ==> CoveredIn(spans, d) == 0
  }

  lemma FillingOk(store: Store, spans: seq<SourceSpan>, bound: nat, base: nat, destination: nat, upTo: nat)
    requires Filling(store, spans, bound, base, destination, upTo)
    ensures SpansOk(store, spans)
  {
  }

  function SpanOf(f: Fragment, r: LogicalRange, base: nat, destination: nat): SourceSpan
    requires FragmentInside(f) && r.sourceStart <= f.start
  {
    var offset := r.start + f.start - r.sourceStart;
    SourceSpan(f.source, f.start - f.source.start, base + offset, offset, f.end - f.start, destination)
  }

  /** Fragments inside their sources, none of them before `lo`. */
  predicate After(frags: seq<Fragment>, lo: nat) {
    forall k :: 0 <= k < |frags| ==> FragmentInside(frags[k]) && lo <= frags[k].start
  }

  ghost predicate AllCarry(store: Store, frags: seq<Fragment>, payload: Bytes, bound: nat) {
    forall k :: 0 <= k < |frags| ==> Carries(store, frags[k].source, payload) && frags[k].source.size <= bound
  }

  /** The longer list reads what the shorter one reads, and then `bytes`. */
  ghost predicate ReadsOn(store: Store, before: seq<SourceSpan>, after: seq<SourceSpan>, bytes: Bytes) {
    SpansOk(store, before) && SpansOk(store, after) && ReadSpans(store, after) == ReadSpans(store, before) + bytes
  }

  lemma ReadsOnTwice(
    store: Store, a: seq<SourceSpan>, b: seq<SourceSpan>, c: seq<SourceSpan>, payload: Bytes, lo: nat, mid: nat, hi: nat)
    requires lo <= mid <= hi <= |payload|
    requires ReadsOn(store, a, b, payload[lo..mid]) && ReadsOn(store, b, c, payload[mid..hi])
    ensures ReadsOn(store, a, c, payload[lo..hi])
  {
    hide ReadSpans, SpansOk;
    TwoSlices(payload, lo, mid, hi);
    assert ReadSpans(store, a) + payload[lo..mid] + payload[mid..hi]
           == ReadSpans(store, a) + (payload[lo..mid] + payload[mid..hi]);
  }

  function SpansFor(frags: seq<Fragment>, r: LogicalRange, base: nat, destination: nat): (spans: seq<SourceSpan>)
    requires After(frags, r.sourceStart)
    ensures |spans| == |frags|
  {
    seq(|frags|, k requires 0 <= k < |frags| => SpanOf(frags[k], r, base, destination))
  }

  lemma FillOne(
    store: Store, spans: seq<SourceSpan>, bound: nat, base: nat, destination: nat, f: Fragment, r: LogicalRange,
    payload: Bytes)
    requires r.sourceStart <= f.start && FragmentInside(f) && Carries(store, f.source, payload) && f.source.size <= bound
    requires Filling(store, spans, bound, base, destination, r.start + f.start - r.sourceStart)
    ensures var all := spans + [SpanOf(f, r, base, destination)];
            && Filling(store, all, bound, base, destination, r.start + f.end - r.sourceStart)
            && f.end <= |payload| && ReadsOn(store, spans, all, payload[f.start..f.end])
  {
    hide Coverage, CoveredIn, Total, SourceBytes, SourceOk, ReadSpans;
    var s := SpanOf(f, r, base, destination);
    FragmentRead(store, f, payload);
    SpanAppend(store, spans, s, bound);
  }

  lemma {:induction false} RunStarts(frags: seq<Fragment>, lo: nat, hi: nat)
    requires FragmentsRun(frags, lo, hi)
    ensures lo <= hi && After(frags, lo)
    decreases |frags|
  {
    if frags != [] {
      RunStarts(frags[1..], frags[0].end, hi);
      assert forall k :: 1 <= k < |frags| ==> frags[k] == frags[1..][k - 1];
    }
  }

  lemma SpansForFirst(
    frags: seq<Fragment>, r: LogicalRange, base: nat, destination: nat, spans: seq<SourceSpan>)
    requires frags != [] && After(frags, r.sourceStart)
    ensures FragmentInside(frags[0]) && r.sourceStart <= frags[0].start && After(frags[1..], r.sourceStart)
    ensures spans + SpansFor(frags, r, base, destination)
            == spans + [SpanOf(frags[0], r, base, destination)] + SpansFor(frags[1..], r, base, destination)
  {
    hide FragmentInside;
    assert forall k :: 0 <= k < |frags| - 1 ==> frags[1..][k] == frags[k + 1];
  }

  lemma RunFirst(frags: seq<Fragment>, lo: nat, hi: nat)
    requires frags != [] && FragmentsRun(frags, lo, hi)
    ensures frags[0].start == lo < frags[0].end && FragmentsRun(frags[1..], frags[0].end, hi)
  {
  }

  lemma FirstCarries(store: Store, frags: seq<Fragment>, payload: Bytes, bound: nat)
    requires frags != [] && AllCarry(store, frags, payload, bound)
    ensures Carries(store, frags[0].source, payload) && frags[0].source.size <= bound
    ensures AllCarry(store, frags[1..], payload, bound)
  {
    hide Carries;
    assert forall k :: 0 <= k < |frags| - 1 ==> frags[1..][k] == frags[k + 1];
  }

  lemma NothingMore(store: Store, spans: seq<SourceSpan>, r: LogicalRange, base: nat, destination: nat, payload: Bytes, at: nat)
    requires SpansOk(store, spans) && at <= |payload|
    ensures After([], r.sourceStart) && spans + SpansFor([], r, base, destination) == spans
    ensures ReadsOn(store, spans, spans, payload[at..at])
  {
    hide ReadSpans, SpansOk;
  }

  lemma {:induction false} FillRun(
    store: Store, spans: seq<SourceSpan>, bound: nat, base: nat, destination: nat, frags: seq<Fragment>,
    r: LogicalRange, payload: Bytes, lo: nat, hi: nat)
    requires r.sourceStart <= lo <= hi <= |payload| && FragmentsRun(frags, lo, hi)
    requires AllCarry(store, frags, payload, bound) && After(frags, r.sourceStart)
    requires Filling(store, spans, bound, base, destination, r.start + lo - r.sourceStart)
    ensures var all := spans + SpansFor(frags, r, base, destination);
            && Filling(store, all, bound, base, destination, r.start + hi - r.sourceStart)
            && ReadsOn(store, spans, all, payload[lo..hi])
    decreases |frags|
  {
    hide Filling, Carries, ReadsOn, After, AllCarry, SpansFor, SpanOf, FragmentInside;
    if frags == [] {
      FillingOk(store, spans, bound, base, destination, r.start + lo - r.sourceStart);
      NothingMore(store, spans, r, base, destination, payload, lo);
    } else {
      var f := frags[0];
      RunFirst(frags, lo, hi);
      hide FragmentsRun;
      SpansForFirst(frags, r, base, destination, spans);
      FirstCarries(store, frags, payload, bound);
      var more := spans + [SpanOf(f, r, base, destination)];
      FillOne(store, spans, bound, base, destination, f, r, payload);
      RunStarts(frags[1..], f.end, hi);
      FillRun(store, more, bound, base, destination, frags[1..], r, payload, f.end, hi);
      ReadsOnTwice(store, spans, more, spans + SpansFor(frags, r, base, destination), payload, lo, f.end, hi);
    }
  }

  // ---- one range, one layer, every layer ----

  lemma BackedRun(store: Store, r: LogicalRange, payload: Bytes, bound: nat)
    requires Backed(store, r, payload) && Bounded(r.objects, bound)
    ensures r.start <= r.end && r.sourceStart + r.end - r.start <= |payload|
    ensures var lo, hi := r.sourceStart, r.sourceStart + r.end - r.start;
            var frags := Fragments(r.objects, lo, hi);
            && FragmentsRun(frags, lo, hi) && FragmentsTo(frags, lo) == hi
            && After(frags, lo) && AllCarry(store, frags, payload, bound)
  {
    hide Carries, TiledFrom, TiledTo, Fragments;
    var lo, hi := r.sourceStart, r.sourceStart + r.end - r.start;
    var frags := Fragments(r.objects, lo, hi);
    FragmentsCover(r.objects, r.objects[0].start, lo, hi);
    RunStarts(frags, lo, hi);
    RunEnds(frags, lo, hi);
    FragmentsFrom(r.objects, lo, hi);
  }

  ghost function SplitRange(r: LogicalRange, base: nat, destination: nat): Result<seq<SourceSpan>, CudaError>
    requires r.start <= r.end
    requires After(Fragments(r.objects, r.sourceStart, r.sourceStart + r.end - r.start), r.sourceStart)
  {
    var lo, hi := r.sourceStart, r.sourceStart + r.end - r.start;
    var frags := Fragments(r.objects, lo, hi);
    if FragmentsTo(frags, lo) != hi then Err(UncoveredSpan) else Ok(SpansFor(frags, r, base, destination))
  }

  method SplitLogicalRange(r: LogicalRange, base: nat, destination: nat)
    returns (split: Result<seq<SourceSpan>, CudaError>)
    requires r.start <= r.end
    requires After(Fragments(r.objects, r.sourceStart, r.sourceStart + r.end - r.start), r.sourceStart)
    ensures split == SplitRange(r, base, destination)
  {
    var lo, hi := r.sourceStart, r.sourceStart + r.end - r.start;
    var frags, cursor := CutFragments(r.objects, lo, hi);
    if cursor != hi {
      return Err(UncoveredSpan);
    }
    split := Ok(SpansFor(frags, r, base, destination));
  }

  /** Sources that back a range never leave a part of it uncovered, and the spans
      cut from them read exactly the range's bytes, densely placed. */
  lemma SplitFills(
    store: Store, r: LogicalRange, payload: Bytes, bound: nat, base: nat, destination: nat, spans: seq<SourceSpan>)
    requires Backed(store, r, payload) && Bounded(r.objects, bound)
    requires Filling(store, spans, bound, base, destination, r.start)
    ensures r.start <= r.end && r.sourceStart + r.end - r.start <= |payload| && SpansOk(store, spans)
    ensures After(Fragments(r.objects, r.sourceStart, r.sourceStart + r.end - r.start), r.sourceStart)
    ensures var split := SplitRange(r, base, destination);
            && split.Ok? && Filling(store, spans + split.value, bound, base, destination, r.end)
            && ReadsOn(store, spans, spans + split.value, Part(r, payload))
  {
    hide *;
    BackedRun(store, r, payload, bound);
    FillingOk(store, spans, bound, base, destination, r.start);
    SplitIs(r, base, destination);
    var lo, hi := r.sourceStart, r.sourceStart + r.end - r.start;
    FillRun(store, spans, bound, base, destination, Fragments(r.objects, lo, hi), r, payload, lo, hi);
    PartIs(r, payload);
  }

  lemma SplitIs(r: LogicalRange, base: nat, destination: nat)
    requires r.start <= r.end
    requires After(Fragments(r.objects, r.sourceStart, r.sourceStart + r.end - r.start), r.sourceStart)
    requires var hi := r.sourceStart + r.end - r.start;
             FragmentsTo(Fragments(r.objects, r.sourceStart, hi), r.sourceStart) == hi
    ensures SplitRange(r, base, destination)
            == Ok(SpansFor(Fragments(r.objects, r.sourceStart, r.sourceStart + r.end - r.start), r, base, destination))
  {
  }

  lemma PartIs(r: LogicalRange, payload: Bytes)
    requires r.start <= r.end && r.sourceStart + r.end - r.start <= |payload|
    ensures Part(r, payload) == payload[r.sourceStart..r.sourceStart + r.end - r.start]
  {
  }

  /** Spans of one layer: its destination, at its own offset in the payload, read
      from nothing but these sources. */
  ghost predicate Labels(spans: seq<SourceSpan>, base: nat, destination: nat, sources: set<Source>) {
    forall k :: 0 <= k < |spans| ==>
      && spans[k].destination == destination && spans[k].snapshotOffset == base + spans[k].destinationOffset
      && spans[k].source in sources
  }

  lemma SplitLabels(r: LogicalRange, base: nat, destination: nat, sources: set<Source>)
    requires r.start <= r.end && forall k :: 0 <= k < |r.objects| ==> r.objects[k] in sources
    requires After(Fragments(r.objects, r.sourceStart, r.sourceStart + r.end - r.start), r.sourceStart)
    ensures SplitRange(r, base, destination).Ok? ==>
              Labels(SplitRange(r, base, destination).value, base, destination, sources)
  {
    var lo, hi := r.sourceStart, r.sourceStart + r.end - r.start;
    FragmentsFrom(r.objects, lo, hi);
    hide Fragments, FragmentsTo, FragmentInside;
    var frags := Fragments(r.objects, lo, hi);
    forall k | 0 <= k < |frags|
      ensures frags[k].source in sources
    {
      assert frags[k].source in r.objects;
    }
  }

  /** Spans for other destinations add nothing here. */
  lemma {:induction false} CoveredApart(before: seq<SourceSpan>, added: seq<SourceSpan>, d: nat)
    requires forall k :: 0 <= k < |added| ==> added[k].destination != d
    ensures CoveredIn(before + added, d) == CoveredIn(before, d)
  {
    if added == [] {
      assert before + added == before;
    } else {
      var front, last := added[..|added| - 1], added[|added| - 1];
      CoveredApart(before, front, d);
      assert before + added == (before + front) + [last];
      assert ((before + front) + [last])[..|before + front|] == before + front;
    }
  }

  lemma HoldsLength(store: Store, rs: seq<LogicalRange>, payloads: seq<Bytes>, at: nat)
    requires Holds(store, rs, payloads, at)
    ensures |rs| == |payloads|
  {
  }

  lemma HoldsNext(store: Store, rs: seq<LogicalRange>, payloads: seq<Bytes>, at: nat)
    requires rs != [] && Holds(store, rs, payloads, at)
    ensures |payloads| == |rs| && rs[0].start == at && Backed(store, rs[0], payloads[0])
    ensures rs[0].start <= rs[0].end && rs[0].sourceStart + rs[0].end - rs[0].start <= |payloads[0]|
    ensures Holds(store, rs[1..], payloads[1..], rs[0].end) && EndOf(rs, at) == EndOf(rs[1..], rs[0].end)
    ensures Content(store, rs, payloads, at)
            == Part(rs[0], payloads[0]) + Content(store, rs[1..], payloads[1..], rs[0].end)
  {
  }

  lemma HoldsNothing(store: Store, rs: seq<LogicalRange>, payloads: seq<Bytes>, at: nat)
    requires rs == [] && Holds(store, rs, payloads, at)
    ensures EndOf(rs, at) == at && Content(store, rs, payloads, at) == []
  {
  }

  /** The list goes on with spans of one layer. */
  ghost predicate Extends(
    before: seq<SourceSpan>, after: seq<SourceSpan>, base: nat, destination: nat, sources: set<Source>)
  {
    |before| <= |after| && after[..|before|] == before && Labels(after[|before|..], base, destination, sources)
  }

  lemma ExtendsSelf(before: seq<SourceSpan>, base: nat, destination: nat, sources: set<Source>)
    ensures Extends(before, before, base, destination, sources)
  {
  }

  lemma ExtendsOn(
    before: seq<SourceSpan>, after: seq<SourceSpan>, more: seq<SourceSpan>, base: nat, destination: nat,
    sources: set<Source>)
    requires Extends(before, after, base, destination, sources) && Labels(more, base, destination, sources)
    ensures Extends(before, after + more, base, destination, sources)
  {
    assert (after + more)[|before|..] == after[|before|..] + more;
  }

  method SplitLayer(
    rs: seq<LogicalRange>, size: nat, base: nat, destination: nat, before: seq<SourceSpan>, bound: nat,
    ghost store: Store, ghost payloads: seq<Bytes>, ghost sources: set<Source>)
    returns (r: Result<seq<SourceSpan>, CudaError>)
    requires Holds(store, rs, payloads, 0) && EndOf(rs, 0) == size && AllBounded(rs, bound) && DrawsOn(rs, sources)
    requires Filling(store, before, bound, base, destination, 0)
    ensures r.Ok? && Extends(before, r.value, base, destination, sources)
    ensures r.Ok? && Filling(store, r.value, bound, base, destination, size)
    ensures ReadSpans(store, r.value) == ReadSpans(store, before) + Content(store, rs, payloads, 0)
  {
    hide Backed, Holds, Content, EndOf, Filling, Bounded, Fragments, After, SplitRange, SpansOk, ReadSpans, Part,
         Extends, Labels;
    ExtendsSelf(before, base, destination, sources);
    var spans := before;
    var expected := 0;
    FillingOk(store, before, bound, base, destination, 0);
    HoldsLength(store, rs, payloads, 0);
    assert rs[0..] == rs && payloads[0..] == payloads;
    for j := 0 to |rs|
      invariant |payloads| == |rs| && Holds(store, rs[j..], payloads[j..], expected)
      invariant EndOf(rs[j..], expected) == size && Filling(store, spans, bound, base, destination, expected)
      invariant SpansOk(store, spans) && Extends(before, spans, base, destination, sources)
      invariant ReadSpans(store, spans) + Content(store, rs[j..], payloads[j..], expected)
                == ReadSpans(store, before) + Content(store, rs, payloads, 0)
    {
      HoldsNext(store, rs[j..], payloads[j..], expected);
      assert rs[j..][0] == rs[j] && rs[j..][1..] == rs[j + 1..] && payloads[j..][1..] == payloads[j + 1..];
      var item := rs[j];
      if item.start != expected {
        return Err(CudaError.CoverageGap);
      }
      SplitFills(store, item, payloads[j], bound, base, destination, spans);
      var split := SplitLogicalRange(item, base, destination);
      SplitLabels(item, base, destination, sources);
      ExtendsOn(before, spans, split.value, base, destination, sources);
      assert ReadSpans(store, spans) + (Part(item, payloads[j]) + Content(store, rs[j + 1..], payloads[j + 1..], item.end))
             == ReadSpans(store, spans) + Part(item, payloads[j]) + Content(store, rs[j + 1..], payloads[j + 1..], item.end);
      spans := spans + split.value;
      expected := item.end;
    }
    HoldsNothing(store, rs[|rs|..], payloads[|rs|..], expected);
    if expected != size {
      return Err(CudaError.CoverageDiffers);
    }
    r := Ok(spans);
  }

  // ---- the planner ----

  /** What the planner hands on: spans that cover the payload and every layer
      without a gap, from sources that fit the arena and the prefetch bound. */
  predicate Placeable(spans: seq<SourceSpan>, bound: nat) {
    Coverage(spans) && SpansBounded(spans, bound)
  }

  /** The spans carry the first `n` layers whole: each names its layer's own
      destination and lies at the same place in the payload and in the layer. */
  ghost predicate Places(layout: PageLayout, counts: seq<int>, spans: seq<SourceSpan>, n: nat)
    requires CountsFit(layout, counts) && n <= |layout.layers|
  {
    && (forall k :: 0 <= k < |spans| ==>
          && spans[k].destination < n
          && spans[k].snapshotOffset == LayerOffset(layout, counts, spans[k].destination) + spans[k].destinationOffset)
    && forall d :: 0 <= d < n ==> CoveredIn(spans, d) == LayerSize(layout, counts, d)
  }

  ghost predicate DrawnFrom(spans: seq<SourceSpan>, sources: set<Source>) {
    forall k :: 0 <= k < |spans| ==> spans[k].source in sources
  }

  lemma PlacesNext(
    layout: PageLayout, counts: seq<int>, before: seq<SourceSpan>, after: seq<SourceSpan>, i: nat, sources: set<Source>)
    requires CountsFit(layout, counts) && i < |layout.layers| && Places(layout, counts, before, i)
    requires DrawnFrom(before, sources)
    requires Extends(before, after, LayerOffset(layout, counts, i), i, sources)
    requires CoveredIn(after, i) == LayerSize(layout, counts, i)
    ensures Places(layout, counts, after, i + 1) && DrawnFrom(after, sources)
  {
    hide LayerOffset, LayerSize, CoveredIn;
    var added := after[|before|..];
    assert after == before + added;
    forall k | 0 <= k < |after|
      ensures after[k].destination < i + 1 && after[k].source in sources
      ensures after[k].snapshotOffset
              == LayerOffset(layout, counts, after[k].destination) + after[k].destinationOffset
    {
      if k < |before| {
        assert after[k] == before[k];
      } else {
        assert after[k] == added[k - |before|];
      }
    }
    forall d | 0 <= d < i
      ensures CoveredIn(after, d) == LayerSize(layout, counts, d)
    {
      CoveredApart(before, added, d);
    }
  }

  lemma PlacesNone(layout: PageLayout, counts: seq<int>, sources: set<Source>)
    requires CountsFit(layout, counts)
    ensures Places(layout, counts, [], 0) && DrawnFrom([], sources)
  {
  }

  lemma FillingCovers(store: Store, spans: seq<SourceSpan>, bound: nat, base: nat, destination: nat, upTo: nat)
    requires Filling(store, spans, bound, base, destination, upTo)
    ensures CoveredIn(spans, destination) == upTo
  {
  }

  lemma NextDestination(store: Store, spans: seq<SourceSpan>, bound: nat, base: nat, destination: nat, upTo: nat)
    requires Filling(store, spans, bound, base, destination, upTo)
    ensures Filling(store, spans, bound, base + upTo, destination + 1, 0)
  {
    hide Coverage, CoveredIn, Total;
  }

  lemma FillingNothing(store: Store, bound: nat)
    ensures Filling(store, [], bound, 0, 0, 0) && ReadSpans(store, []) == []
  {
  }

  method SplitLayers(
    layout: PageLayout, counts: seq<int>, resultPlan: SnapshotPlan, ranges: seq<seq<LogicalRange>>, bound: nat,
    ghost store: Store, ghost payloads: seq<seq<Bytes>>, ghost layers: seq<Bytes>, ghost sources: set<Source>)
    returns (r: Result<seq<SourceSpan>, CudaError>)
    requires LayersFit(layout, counts, layers) && |ranges| == |payloads| == |layers|
    requires resultPlan.spans == SpansOf(layout, counts, resultPlan.headerBytes, |layout.layers|)
    requires resultPlan.totalBytes == resultPlan.headerBytes + PayloadBytes(layout, counts)
    requires forall i :: 0 <= i < |ranges| ==>
               && AllBounded(ranges[i], bound) && Holds(store, ranges[i], payloads[i], 0)
               && Content(store, ranges[i], payloads[i], 0) == layers[i] && DrawsOn(ranges[i], sources)
    ensures r.Ok? && Places(layout, counts, r.value, |layout.layers|) && DrawnFrom(r.value, sources)
    ensures r.Ok? && Placeable(r.value, bound) && Total(r.value) == PayloadBytes(layout, counts)
    ensures SpansOk(store, r.value) && ReadSpans(store, r.value) == Join(layers)
  {
    hide Holds, Content, EndOf, Filling, AllBounded, LayerOffset, LayerSize, Join, SpansOk, ReadSpans, DrawsOn, Places,
         DrawnFrom, Extends;
    var spans: seq<SourceSpan> := [];
    var base := 0;
    PlacesNone(layout, counts, sources);
    FillingNothing(store, bound);
    FirstOffset(layout, counts);
    assert layers[..0] == [] && Join([]) == [] by { JoinNone(); }
    for i := 0 to |ranges|
      invariant base == LayerOffset(layout, counts, i) && Filling(store, spans, bound, base, i, 0)
      invariant SpansOk(store, spans) && ReadSpans(store, spans) == Join(layers[..i])
      invariant Places(layout, counts, spans, i) && DrawnFrom(spans, sources)
    {
      LayerNext(layout, counts, layers, i);
      ContentLength(store, ranges[i], payloads[i], 0);
      var size := resultPlan.spans[i].sourceEnd - resultPlan.spans[i].sourceStart;
      var filled := SplitLayer(ranges[i], size, base, i, spans, bound, store, payloads[i], sources);
      FillingOk(store, filled.value, bound, base, i, size);
      FillingCovers(store, filled.value, bound, base, i, size);
      PlacesNext(layout, counts, spans, filled.value, i, sources);
      NextDestination(store, filled.value, bound, base, i, size);
      spans := filled.value;
      base := base + size;
    }
    assert layers[..|layers|] == layers;
    FillingTotal(store, spans, bound, base, |ranges|);
    if base != resultPlan.totalBytes - resultPlan.headerBytes {
      return Err(CudaError.CoverageDiffers);
    }
    r := Ok(spans);
  }

  lemma FirstOffset(layout: PageLayout, counts: seq<int>)
    requires CountsFit(layout, counts)
    ensures LayerOffset(layout, counts, 0) == 0
  {
  }

  lemma JoinNone()
    ensures Join([]) == []
  {
  }

  lemma FillingTotal(store: Store, spans: seq<SourceSpan>, bound: nat, base: nat, destination: nat)
    requires Filling(store, spans, bound, base, destination, 0)
    ensures Placeable(spans, bound) && Total(spans) == base
  {
  }
}
