// Delta stages encoded straight from captured pages, with or without keeping
// the result snapshot, and the snapshot those pages complete.
module PageCapture {
  import opened Common
  import opened Pages
  import opened PageDelta
  import opened PageDeltaEncode

  /** Counts alone, where no boundary is in play. */
  function CountsOnly(baseCounts: seq<int>, resultCounts: seq<int>): StageBounds {
    StageBounds(baseCounts, resultCounts, 1, 2)
  }

  /** The captured bytes are every layer's tail pages, in layout order. */
  predicate CaptureFits(layout: PageLayout, b: StageBounds, reused: seq<int>, captured: Bytes)
    requires ValidLayout(layout) && BoundsValid(layout, b) && ReuseFits(b, reused)
  {
    TailCountsFit(layout, b, reused);
    captured != [] && PayloadBytes(layout, TailCounts(b.resultCounts, reused)) == |captured|
  }

  function CapturedTails(layout: PageLayout, b: StageBounds, reused: seq<int>, captured: Bytes): (tails: seq<Bytes>)
    requires ValidLayout(layout) && BoundsValid(layout, b) && ReuseFits(b, reused)
    requires CaptureFits(layout, b, reused, captured)
    ensures PartsFit(layout, b, reused, tails)
  {
    TailCountsFit(layout, b, reused);
    FoundLayersFit(layout, TailCounts(b.resultCounts, reused), captured, 0);
    Layers(layout, TailCounts(b.resultCounts, reused), captured, 0)
  }

  /** The result layers: reused base pages followed by the captured ones. */
  function Completed(
    layout: PageLayout, b: StageBounds, reused: seq<int>, base: Bytes, headerBytes: nat, captured: Bytes)
    : (layers: seq<Bytes>)
    requires ValidLayout(layout) && BoundsValid(layout, b) && ReuseFits(b, reused)
    requires CaptureFits(layout, b, reused, captured)
    requires CountsFit(layout, b.baseCounts) && headerBytes + PayloadBytes(layout, b.baseCounts) == |base|
    ensures LayersFit(layout, b.resultCounts, layers)
  {
    var baseLayers := Layers(layout, b.baseCounts, base, headerBytes);
    var tails := CapturedTails(layout, b, reused, captured);
    FoundLayersFit(layout, b.baseCounts, base, headerBytes);
    SpliceFits(layout, b, reused, baseLayers, tails);
    Spliced(layout, reused, baseLayers, tails)
  }

  function EncodeCapture(
    lib: Library, layout: PageLayout, base: Bytes, captured: Bytes, b: StageBounds, reused: seq<int>,
    baseSha: Option<Hash>)
    : Result<(Bytes, Bytes), PageError>
    requires ValidLayout(layout)
  {
    if !BoundsValid(layout, b) then Err(DeltaRejected)
    else if !ReuseFits(b, reused) then Err(CaptureRejected)
    else
      var plan :- PlanSnapshot(lib, layout, base, b.baseCounts, |base|);
      if !CaptureFits(layout, b, reused, captured) then Err(CaptureRejected)
      else
        var result := Snapshot(lib, layout, b.resultCounts,
                               Completed(layout, b, reused, base, plan.headerBytes, captured));
        var tails := CapturedTails(layout, b, reused, captured);
        var sha := if baseSha.Some? then baseSha.value else lib.sha(base);
        Ok((StageBytes(lib, StageHeader(lib, layout, b, sha, lib.sha(result), reused, tails), tails), result))
  }

  function Materialize(
    lib: Library, layout: PageLayout, base: Bytes, captured: Bytes, baseCounts: seq<int>, resultCounts: seq<int>,
    reused: seq<int>)
    : Result<Bytes, PageError>
    requires ValidLayout(layout)
  {
    var b := CountsOnly(baseCounts, resultCounts);
    if !BoundsValid(layout, b) || !ReuseFits(b, reused) || captured == [] then Err(CaptureRejected)
    else
      var baseLayers :- DecodeSnapshot(lib, layout, base, baseCounts);
      if !CaptureFits(layout, b, reused, captured) then Err(CaptureRejected)
      else
        var tails := CapturedTails(layout, b, reused, captured);
        DecodedFit(lib, layout, base, baseCounts);
        SpliceFits(layout, b, reused, baseLayers, tails);
        EncodeSnapshot(lib, layout, resultCounts, Spliced(layout, reused, baseLayers, tails))
  }

  /** Everything the encoder and the materializer check, in one place. */
  ghost predicate Accepts(
    lib: Library, layout: PageLayout, base: Bytes, captured: Bytes, b: StageBounds, reused: seq<int>)
    requires ValidLayout(layout)
  {
    && BoundsValid(layout, b) && ReuseFits(b, reused)
    && PlanSnapshot(lib, layout, base, b.baseCounts, |base|).Ok?
    && CaptureFits(layout, b, reused, captured)
  }

  /** The snapshot an accepted capture completes. */
  ghost function Whole(
    lib: Library, layout: PageLayout, base: Bytes, captured: Bytes, b: StageBounds, reused: seq<int>): Bytes
    requires ValidLayout(layout) && Accepts(lib, layout, base, captured, b, reused)
  {
    var headerBytes := PlanSnapshot(lib, layout, base, b.baseCounts, |base|).value.headerBytes;
    Snapshot(lib, layout, b.resultCounts, Completed(layout, b, reused, base, headerBytes, captured))
  }

  lemma EncodeAccepts(
    lib: Library, layout: PageLayout, base: Bytes, captured: Bytes, b: StageBounds, reused: seq<int>)
    requires ValidLayout(layout)
    ensures var encoded := EncodeCapture(lib, layout, base, captured, b, reused, None);
            && (encoded.Ok? <==> Accepts(lib, layout, base, captured, b, reused))
            && (encoded.Ok? ==>
                  var whole := Whole(lib, layout, base, captured, b, reused);
                  var tails := CapturedTails(layout, b, reused, captured);
                  encoded.value
                  == (StageBytes(lib, StageHeader(lib, layout, b, lib.sha(base), lib.sha(whole), reused, tails), tails),
                      whole))
  {
    hide BoundsValid, ReuseFits, PlanSnapshot, CaptureFits, Completed, CapturedTails, Snapshot, StageBytes, StageHeader;
  }

  lemma MaterializeAccepts(
    lib: Library, layout: PageLayout, base: Bytes, captured: Bytes, baseCounts: seq<int>, resultCounts: seq<int>,
    reused: seq<int>)
    requires ValidLayout(layout)
    ensures var b := CountsOnly(baseCounts, resultCounts);
            var whole := Materialize(lib, layout, base, captured, baseCounts, resultCounts, reused);
            && (whole.Ok? <==> Accepts(lib, layout, base, captured, b, reused))
            && (whole.Ok? ==> whole.value == Whole(lib, layout, base, captured, b, reused))
  {
    hide ReuseFits, PlanSnapshot, CapturedTails, Snapshot, Layers, LayersFit, LayerSize, LayerOffset;
    var b := CountsOnly(baseCounts, resultCounts);
    if Accepts(lib, layout, base, captured, b, reused) {
      var headerBytes := PlanSnapshot(lib, layout, base, baseCounts, |base|).value.headerBytes;
      assert LayersFit(layout, resultCounts, Completed(layout, b, reused, base, headerBytes, captured));
      assert CountsPositive(resultCounts);
    }
  }

  /** Boundaries play no part beyond their own order. */
  lemma BoundariesApart(
    lib: Library, layout: PageLayout, base: Bytes, captured: Bytes, b: StageBounds, reused: seq<int>)
    requires ValidLayout(layout)
    ensures var c := CountsOnly(b.baseCounts, b.resultCounts);
            && (Accepts(lib, layout, base, captured, b, reused)
                <==> 0 < b.baseBoundary < b.resultBoundary && Accepts(lib, layout, base, captured, c, reused))
            && (Accepts(lib, layout, base, captured, b, reused) ==>
                  Whole(lib, layout, base, captured, b, reused) == Whole(lib, layout, base, captured, c, reused))
  {
    hide PlanSnapshot, LayerSize, LayerOffset, Layers, TailCounts, PayloadBytes, Spliced;
    var c := CountsOnly(b.baseCounts, b.resultCounts);
    assert BoundsValid(layout, b) <==> 0 < b.baseBoundary < b.resultBoundary && BoundsValid(layout, c);
    assert ReuseFits(b, reused) <==> ReuseFits(c, reused);
  }

  /** What a capture completes: every layer of the result is the base layer's
      reused pages followed by the layer's own part of the capture, and those
      parts, one after another, are the capture. */
  lemma MaterializedLayers(
    lib: Library, layout: PageLayout, base: Bytes, captured: Bytes, baseCounts: seq<int>, resultCounts: seq<int>,
    reused: seq<int>) returns (before: seq<Bytes>, tails: seq<Bytes>)
    requires Faithful(lib) && ValidLayout(layout)
    requires Materialize(lib, layout, base, captured, baseCounts, resultCounts, reused).Ok?
    ensures DecodeSnapshot(lib, layout, base, baseCounts) == Ok(before)
    ensures |before| == |tails| == |layout.layers| && Join(tails) == captured && |reused| == layout.groups
    ensures var whole := Materialize(lib, layout, base, captured, baseCounts, resultCounts, reused).value;
            var after := DecodeSnapshot(lib, layout, whole, resultCounts);
            && after.Ok? && |after.value| == |layout.layers|
            && forall i :: 0 <= i < |layout.layers| ==>
                 && layout.layers[i].group < |reused| && 0 <= LayerSize(layout, reused, i) <= |before[i]|
                 && after.value[i] == before[i][..LayerSize(layout, reused, i)] + tails[i]
  {
    var b := CountsOnly(baseCounts, resultCounts);
    before := DecodeSnapshot(lib, layout, base, baseCounts).value;
    tails := CapturedTails(layout, b, reused, captured);
    DecodedFit(lib, layout, base, baseCounts);
    SpliceFits(layout, b, reused, before, tails);
    TailCountsFit(layout, b, reused);
    JoinOfLayers(layout, TailCounts(resultCounts, reused), captured, 0);
    assert captured[0..] == captured;
    hide LayerSize, LayerOffset, PlanSnapshot, Layers, Snapshot, Join, CapturedTails, TailCounts, PayloadBytes;
    SnapshotRoundTrip(lib, layout, resultCounts, Spliced(layout, reused, before, tails));
  }

  /** The stage encoded from a capture, applied to its base, is exactly the
      snapshot the capture completes, whichever way the digest was computed. */
  lemma CaptureRoundTrip(
    lib: Library, layout: PageLayout, base: Bytes, captured: Bytes, b: StageBounds, reused: seq<int>)
    requires Faithful(lib) && ValidLayout(layout)
    ensures var encoded := EncodeCapture(lib, layout, base, captured, b, reused, None);
            var whole := Materialize(lib, layout, base, captured, b.baseCounts, b.resultCounts, reused);
            && (encoded.Ok? <==> 0 < b.baseBoundary < b.resultBoundary && whole.Ok?)
            && (encoded.Ok? ==>
                  && whole.value == encoded.value.1
                  && ApplyDelta(lib, layout, Verify(lib, base), encoded.value.0, b)
                     == Ok(Verify(lib, whole.value)))
  {
    hide *;
    EncodeAccepts(lib, layout, base, captured, b, reused);
    MaterializeAccepts(lib, layout, base, captured, b.baseCounts, b.resultCounts, reused);
    BoundariesApart(lib, layout, base, captured, b, reused);
    if Accepts(lib, layout, base, captured, b, reused) {
      EncodedApplies(lib, layout, base, captured, b, reused);
    }
  }

  lemma EncodedApplies(
    lib: Library, layout: PageLayout, base: Bytes, captured: Bytes, b: StageBounds, reused: seq<int>)
    requires Faithful(lib) && ValidLayout(layout) && Accepts(lib, layout, base, captured, b, reused)
    ensures var whole := Whole(lib, layout, base, captured, b, reused);
            var tails := CapturedTails(layout, b, reused, captured);
            var h := StageHeader(lib, layout, b, lib.sha(base), lib.sha(whole), reused, tails);
            ApplyDelta(lib, layout, Verify(lib, base), StageBytes(lib, h, tails), b) == Ok(Verify(lib, whole))
  {
    hide ApplyDelta, StageBytes, StageHeader, PlanSnapshot, CaptureFits, Snapshot, CapturedTails, Layers, Spliced,
         LayersFit, LayerSize, PartsFit, Faithful, BoundsValid, ReuseFits;
    ApplyBuiltStage(lib, layout, Verify(lib, base), b, lib.sha(Whole(lib, layout, base, captured, b, reused)), reused,
                    CapturedTails(layout, b, reused, captured));
  }

  // ---- the encoder's loop ----

  method CopyInto(buffer: array<Byte>, at: nat, data: Bytes)
    requires at + |data| <= buffer.Length
    modifies buffer
    ensures buffer[..at] == old(buffer[..at])
    ensures buffer[at..at + |data|] == data
    ensures buffer[at + |data|..] == old(buffer[at + |data|..])
  {
    forall i | 0 <= i < |data| {
      buffer[at + i] := data[i];
    }
  }

  /** Lay one more part behind what the buffer already holds. */
  method AppendInto(buffer: array<Byte>, cursor: nat, data: Bytes, ghost done: Bytes) returns (next: nat)
    requires cursor + |data| <= buffer.Length && buffer[..cursor] == done
    modifies buffer
    ensures next == cursor + |data| && buffer[..next] == done + data
  {
    CopyInto(buffer, cursor, data);
    next := cursor + |data|;
    assert buffer[..next] == buffer[..cursor] + buffer[cursor..next];
  }

  method EncodePageDeltaFromCapture(
    lib: Library, layout: PageLayout, base: Bytes, captured: Bytes, b: StageBounds, reused: seq<int>,
    baseSha: Option<Hash>, materializeResult: bool)
    returns (r: Result<(Bytes, Option<Bytes>), PageError>)
    requires ValidLayout(layout)
    ensures match EncodeCapture(lib, layout, base, captured, b, reused, baseSha)
            case Err(error) => r == Err(error)
            case Ok((delta, result)) => r == Ok((delta, if materializeResult then Some(result) else None))
  {
    if !BoundsValid(layout, b) {
      return Err(DeltaRejected);
    }
    if !ReuseFits(b, reused) {
      return Err(CaptureRejected);
    }
    var planned := PlanPageSnapshot(lib, layout, base, b.baseCounts, |base|);
    if planned.Err? {
      return Err(planned.error);
    }
    if captured == [] {
      return Err(CaptureRejected);
    }
    TailCountsFit(layout, b, reused);
    var collected := CollectTails(layout, b, reused, captured);
    if collected.Err? {
      return Err(CaptureRejected);
    }
    var tails := collected.value;
    var header := lib.snapshotHeader(layout, b.resultCounts);
    ghost var completed := Completed(layout, b, reused, base, planned.value.headerBytes, captured);
    CompletedParts(layout, b, reused, base, planned.value.headerBytes, captured);
    LayersOfJoin(layout, b.resultCounts, header, completed);
    var resultSha, kept := DigestResult(
      lib, header, base, planned.value.spans, ReusedBytes(layout, reused), tails,
      EncodedSize(lib, layout, b.resultCounts), materializeResult, completed);
    var sha := if baseSha.Some? then baseSha.value else lib.sha(base);
    r := Ok((StageBytes(lib, StageHeader(lib, layout, b, sha, resultSha, reused, tails), tails), kept));
  }

  /** Bytes each layer reuses from the base. */
  function ReusedBytes(layout: PageLayout, reused: seq<int>): (sizes: seq<int>)
    requires CountsFit(layout, reused)
    ensures |sizes| == |layout.layers|
    ensures forall i :: 0 <= i < |sizes| ==> sizes[i] == LayerSize(layout, reused, i)
  {
    seq(|layout.layers|, i requires 0 <= i < |layout.layers| => LayerSize(layout, reused, i))
  }

  /** Cut the captured payload into layer tails; anything left or missing is refused. */
  method CollectTails(layout: PageLayout, b: StageBounds, reused: seq<int>, captured: Bytes)
    returns (r: Result<seq<Bytes>, PageError>)
    requires ValidLayout(layout) && BoundsValid(layout, b) && ReuseFits(b, reused) && captured != []
    requires CountsFit(layout, TailCounts(b.resultCounts, reused))
    ensures r == if CaptureFits(layout, b, reused, captured) then Ok(CapturedTails(layout, b, reused, captured))
                 else Err(CaptureRejected)
  {
    ghost var counts := TailCounts(b.resultCounts, reused);
    var tails: seq<Bytes> := [];
    var cursor := 0;
    assert LayerOffset(layout, counts, 0) == 0;
    hide *;
    for i := 0 to |layout.layers|
      invariant cursor == LayerOffset(layout, counts, i) <= |captured|
      invariant |tails| == i
      invariant forall j :: 0 <= j < i ==> TailIs(layout, counts, captured, j, tails[j])
    {
      var layer := layout.layers[i];
      GroupFits(layout, b, reused, i);
      var tailBytes := (b.resultCounts[layer.group] - reused[layer.group]) * layer.bytesPerPage;
      NextOffset(layout, b, reused, i, tailBytes);
      var end := cursor + tailBytes;
      if end > |captured| {
        TailsRefused(layout, b, reused, captured, i + 1);
        return Err(CaptureRejected);
      }
      NextTail(layout, counts, captured, i, cursor, end);
      tails := tails + [captured[cursor..end]];
      cursor := end;
    }
    if cursor != |captured| {
      TailsRefused(layout, b, reused, captured, |layout.layers|);
      return Err(CaptureRejected);
    }
    TailsCollected(layout, b, reused, captured, tails);
    r := Ok(tails);
  }

  lemma GroupFits(layout: PageLayout, b: StageBounds, reused: seq<int>, i: nat)
    requires ValidLayout(layout) && BoundsValid(layout, b) && ReuseFits(b, reused) && i < |layout.layers|
    ensures layout.layers[i].group < |b.resultCounts| && layout.layers[i].group < |reused|
  {
  }

  lemma NextTail(layout: PageLayout, counts: seq<int>, captured: Bytes, i: nat, start: nat, end: nat)
    requires CountsFit(layout, counts) && i < |layout.layers|
    requires start == LayerOffset(layout, counts, i) <= LayerOffset(layout, counts, i + 1) == end <= |captured|
    ensures TailIs(layout, counts, captured, i, captured[start..end])
  {
  }

  lemma TailsRefused(layout: PageLayout, b: StageBounds, reused: seq<int>, captured: Bytes, i: nat)
    requires ValidLayout(layout) && BoundsValid(layout, b) && ReuseFits(b, reused)
    requires CountsFit(layout, TailCounts(b.resultCounts, reused)) && i <= |layout.layers|
    requires var offset := LayerOffset(layout, TailCounts(b.resultCounts, reused), i);
             offset > |captured| || (i == |layout.layers| && offset != |captured|)
    ensures !CaptureFits(layout, b, reused, captured)
  {
    OffsetsGrow(layout, TailCounts(b.resultCounts, reused), i, |layout.layers|);
  }

  lemma TailsCollected(layout: PageLayout, b: StageBounds, reused: seq<int>, captured: Bytes, tails: seq<Bytes>)
    requires ValidLayout(layout) && BoundsValid(layout, b) && ReuseFits(b, reused) && captured != []
    requires CountsFit(layout, TailCounts(b.resultCounts, reused)) && |tails| == |layout.layers|
    requires LayerOffset(layout, TailCounts(b.resultCounts, reused), |tails|) == |captured|
    requires forall j :: 0 <= j < |tails| ==> TailIs(layout, TailCounts(b.resultCounts, reused), captured, j, tails[j])
    ensures CaptureFits(layout, b, reused, captured)
    ensures tails == CapturedTails(layout, b, reused, captured)
  {
    hide LayerOffset, TailCounts, BoundsValid, ReuseFits, CountsFit, ValidLayout;
  }

  ghost predicate TailIs(layout: PageLayout, counts: seq<int>, captured: Bytes, j: nat, tail: Bytes)
    requires CountsFit(layout, counts) && j < |layout.layers|
  {
    && LayerOffset(layout, counts, j) <= LayerOffset(layout, counts, j + 1) <= |captured|
    && tail == captured[LayerOffset(layout, counts, j)..LayerOffset(layout, counts, j + 1)]
  }

  lemma NextOffset(layout: PageLayout, b: StageBounds, reused: seq<int>, i: nat, tailBytes: int)
    requires ValidLayout(layout) && BoundsValid(layout, b) && ReuseFits(b, reused) && i < |layout.layers|
    requires CountsFit(layout, TailCounts(b.resultCounts, reused))
    requires var layer := layout.layers[i];
             tailBytes == (b.resultCounts[layer.group] - reused[layer.group]) * layer.bytesPerPage
    ensures var counts := TailCounts(b.resultCounts, reused);
            tailBytes >= 0 && LayerOffset(layout, counts, i + 1) == LayerOffset(layout, counts, i) + tailBytes
  {
    SizeNonNegative(layout, TailCounts(b.resultCounts, reused), i);
  }

  /** Part `i` of the result: reused base bytes, then the tail. */
  ghost predicate ResultPart(
    base: Bytes, spans: seq<PageSpan>, sizes: seq<int>, tails: seq<Bytes>, completed: seq<Bytes>, i: nat)
    requires i < |spans| == |sizes| == |tails| == |completed|
  {
    && sizes[i] >= 0 && spans[i].sourceStart + sizes[i] <= |base|
    && completed[i] == base[spans[i].sourceStart..spans[i].sourceStart + sizes[i]] + tails[i]
  }

  lemma CompletedParts(
    layout: PageLayout, b: StageBounds, reused: seq<int>, base: Bytes, headerBytes: nat, captured: Bytes)
    requires ValidLayout(layout) && BoundsValid(layout, b) && ReuseFits(b, reused)
    requires CaptureFits(layout, b, reused, captured) && CountsFit(layout, b.baseCounts) && CountsFit(layout, reused)
    requires headerBytes + PayloadBytes(layout, b.baseCounts) == |base|
    ensures var spans := SpansOf(layout, b.baseCounts, headerBytes, |layout.layers|);
            var completed := Completed(layout, b, reused, base, headerBytes, captured);
            var tails := CapturedTails(layout, b, reused, captured);
            && |spans| == |tails| == |completed| == |ReusedBytes(layout, reused)|
            && forall i :: 0 <= i < |spans| ==> ResultPart(base, spans, ReusedBytes(layout, reused), tails, completed, i)
  {
    hide LayerSize, LayerOffset;
    var spans := SpansOf(layout, b.baseCounts, headerBytes, |layout.layers|);
    var completed := Completed(layout, b, reused, base, headerBytes, captured);
    var tails := CapturedTails(layout, b, reused, captured);
    forall i | 0 <= i < |spans|
      ensures ResultPart(base, spans, ReusedBytes(layout, reused), tails, completed, i)
    {
      LayersFound(layout, b.baseCounts, base, headerBytes, i);
      ReusePlusTail(layout, b, reused, i);
      TakeOfSlice(base, headerBytes + LayerOffset(layout, b.baseCounts, i),
                  headerBytes + LayerOffset(layout, b.baseCounts, i + 1), LayerSize(layout, reused, i));
    }
  }

  /** Assemble the result in one buffer and hash it whole, or hash its parts as
      they pass. A running hash is the hash of everything it has absorbed. */
  method DigestResult(
    lib: Library, header: Bytes, base: Bytes, spans: seq<PageSpan>, sizes: seq<int>, tails: seq<Bytes>, total: nat,
    materializeResult: bool, ghost completed: seq<Bytes>)
    returns (sha: Hash, kept: Option<Bytes>)
    requires |spans| == |sizes| == |tails| == |completed| && total == |header + Join(completed)|
    requires forall i :: 0 <= i < |spans| ==> ResultPart(base, spans, sizes, tails, completed, i)
    ensures sha == lib.sha(header + Join(completed))
    ensures kept == if materializeResult then Some(header + Join(completed)) else None
  {
    assert Join([]) == [];
    hide *;
    var buffer := new Byte[if materializeResult then total else 0];
    var absorbed: Bytes := [];
    var cursor: nat := 0;
    if materializeResult {
      cursor := AppendInto(buffer, 0, header, []);
    } else {
      absorbed := header;
    }
    for i := 0 to |spans|
      invariant fresh(buffer)
      invariant materializeResult ==> buffer.Length == total && cursor <= total
      invariant (if materializeResult then buffer[..cursor] else absorbed) == header + Join(completed[..i])
    {
      PartLies(base, spans, sizes, tails, completed, i);
      var prefix := base[spans[i].sourceStart..spans[i].sourceStart + sizes[i]];
      ghost var done := header + Join(completed[..i]);
      AppendPart(header, completed, i, prefix, tails[i]);
      PartialFits(header, completed, i + 1);
      if materializeResult {
        cursor := AppendInto(buffer, cursor, prefix, done);
        cursor := AppendInto(buffer, cursor, tails[i], done + prefix);
      } else {
        absorbed := absorbed + prefix + tails[i];
      }
    }
    assert completed[..|spans|] == completed;
    if materializeResult {
      assert |buffer[..cursor]| == total;
      assert buffer[..cursor] == buffer[..];
      sha := lib.sha(buffer[..]);
      kept := Some(buffer[..]);
    } else {
      sha := lib.sha(absorbed);
      kept := None;
    }
  }

  lemma PartLies(
    base: Bytes, spans: seq<PageSpan>, sizes: seq<int>, tails: seq<Bytes>, completed: seq<Bytes>, i: nat)
    requires i < |spans| == |sizes| == |tails| == |completed| && ResultPart(base, spans, sizes, tails, completed, i)
    ensures sizes[i] >= 0 && spans[i].sourceStart + sizes[i] <= |base|
    ensures completed[i] == base[spans[i].sourceStart..spans[i].sourceStart + sizes[i]] + tails[i]
  {
  }

  lemma PartialFits(header: Bytes, parts: seq<Bytes>, n: nat)
    requires n <= |parts|
    ensures |header + Join(parts[..n])| <= |header + Join(parts)|
  {
    JoinHalves(parts, n);
  }

  method MaterializePageExtensionCapture(
    lib: Library, layout: PageLayout, base: Bytes, captured: Bytes, baseCounts: seq<int>, resultCounts: seq<int>,
    reused: seq<int>)
    returns (r: Result<Bytes, PageError>)
    requires ValidLayout(layout)
    ensures r == Materialize(lib, layout, base, captured, baseCounts, resultCounts, reused)
  {
    var b := CountsOnly(baseCounts, resultCounts);
    if !BoundsValid(layout, b) || !ReuseFits(b, reused) || captured == [] {
      return Err(CaptureRejected);
    }
    var decoded := DecodeSnapshot(lib, layout, base, baseCounts);
    if decoded.Err? {
      return Err(decoded.error);
    }
    DecodedFit(lib, layout, base, baseCounts);
    TailCountsFit(layout, b, reused);
    var collected := CollectTails(layout, b, reused, captured);
    if collected.Err? {
      return Err(CaptureRejected);
    }
    SpliceFits(layout, b, reused, decoded.value, collected.value);
    hide *;
    var resultLayers: seq<Bytes> := [];
    for i := 0 to |layout.layers|
      invariant |resultLayers| == i
      invariant forall j :: 0 <= j < i ==>
                  resultLayers[j] == decoded.value[j][..LayerSize(layout, reused, j)] + collected.value[j]
    {
      resultLayers := resultLayers + [decoded.value[i][..LayerSize(layout, reused, i)] + collected.value[i]];
    }
    SplicedIs(layout, reused, decoded.value, collected.value, resultLayers);
    r := EncodeSnapshot(lib, layout, resultCounts, resultLayers);
  }

  lemma SplicedIs(
    layout: PageLayout, reused: seq<int>, layers: seq<Bytes>, tails: seq<Bytes>, result: seq<Bytes>)
    requires CountsFit(layout, reused) && |layers| == |tails| == |layout.layers| == |result|
    requires forall i :: 0 <= i < |layers| ==> 0 <= LayerSize(layout, reused, i) <= |layers[i]|
    requires forall j :: 0 <= j < |result| ==> result[j] == layers[j][..LayerSize(layout, reused, j)] + tails[j]
    ensures result == Spliced(layout, reused, layers, tails)
  {
    hide LayerSize;
  }
}
