// Packing the ordered source spans into arena submissions.
module CudaBatches {
  import opened Common
  import opened Pages
  import opened CudaSources
  import opened CudaPlan
  import opened CudaSpans

  const MAX_SPANS: nat := 4096

  type Batch = seq<SourceSpan>

  function Paths(batch: Batch): set<Path> {
    set s | s in batch :: s.source.Path()
  }

  /** Bytes of the distinct sources a batch needs, each counted once. */
  function SourceTotal(batch: Batch): nat {
    if batch == [] then 0
    else
      var front, last := batch[..|batch| - 1], batch[|batch| - 1];
      SourceTotal(front) + (if last.source.Path() in Paths(front) then 0 else last.source.size)
  }

  /** Non-empty and within the arena, the prefetch bound and the span limit. */
  predicate BatchFits(batch: Batch, arena: int) {
    batch != [] && Total(batch) <= arena && SourceTotal(batch) <= PREFETCH_BYTES && |batch| <= MAX_SPANS
  }

  function Flatten(batches: seq<Batch>): Batch {
    if batches == [] then [] else Flatten(batches[..|batches| - 1]) + batches[|batches| - 1]
  }

  /** Batches are greedy: each was closed only because the next span would not fit. */
  predicate Greedy(batches: seq<Batch>, arena: int) {
    forall k :: 0 < k < |batches| ==> batches[k] != [] && !BatchFits(batches[k - 1] + [batches[k][0]], arena)
  }

  /** What the packer demands of its input, which the planner guarantees. */
  predicate Packable(spans: Batch, arena: int) {
    && Coverage(spans)
    && forall k :: 0 <= k < |spans| ==> spans[k].count <= arena && spans[k].source.size <= PREFETCH_BYTES
  }

  lemma {:induction false} CoveragePrefix(spans: Batch, n: nat)
    requires Coverage(spans) && n <= |spans|
    ensures Coverage(spans[..n])
    decreases |spans|
  {
    if n == |spans| {
      assert spans[..n] == spans;
    } else {
      CoveragePrefix(spans[..|spans| - 1], n);
      assert spans[..|spans| - 1][..n] == spans[..n];
    }
  }

  lemma BatchNext(batch: Batch, span: SourceSpan)
    ensures Total(batch + [span]) == Total(batch) + span.count
    ensures SourceTotal(batch + [span])
            == SourceTotal(batch) + (if span.source.Path() in Paths(batch) then 0 else span.source.size)
    ensures Paths(batch + [span]) == Paths(batch) + {span.source.Path()}
    ensures forall d :: CoveredIn(batch + [span], d)
                        == CoveredIn(batch, d) + (if span.destination == d then span.count else 0)
  {
    assert (batch + [span])[..|batch|] == batch;
  }

  lemma CoverageNext(spans: Batch, n: nat)
    requires n < |spans| && Coverage(spans[..n])
    ensures Coverage(spans[..n + 1])
            <==> (&& spans[n].count > 0 && spans[n].snapshotOffset == Total(spans[..n])
                  && spans[n].destinationOffset == CoveredIn(spans[..n], spans[n].destination))
  {
    assert spans[..n + 1][..n] == spans[..n];
  }

  lemma FlattenNext(batches: seq<Batch>, batch: Batch)
    ensures Flatten(batches + [batch]) == Flatten(batches) + batch
  {
    assert (batches + [batch])[..|batches|] == batches;
  }

  /** The batch being filled, with its running totals. */
  predicate Open(batch: Batch, bytes: nat, paths: set<Path>, sourceBytes: nat, arena: int) {
    && bytes == Total(batch) && paths == Paths(batch) && sourceBytes == SourceTotal(batch)
    && (batch != [] ==> BatchFits(batch, arena))
  }

  /** Closed batches followed by the open one spell out the first `k` spans. */
  ghost predicate Packed(batches: seq<Batch>, batch: Batch, spans: Batch, k: nat, arena: int)
    requires k <= |spans|
  {
    && Flatten(batches) + batch == spans[..k] && (batch == [] ==> batches == [])
    && (forall j :: 0 <= j < |batches| ==> BatchFits(batches[j], arena))
    && (batch != [] ==> Greedy(batches + [batch], arena))
  }

  ghost predicate Scanned(spans: Batch, k: nat, expected: nat, covered: map<nat, nat>, arena: int)
    requires k <= |spans|
  {
    && Coverage(spans[..k]) && expected == Total(spans[..k])
    && (forall d :: (if d in covered then covered[d] else 0) == CoveredIn(spans[..k], d))
    && forall j :: 0 <= j < k ==> spans[j].count <= arena
  }

  lemma ScanNext(spans: Batch, k: nat, expected: nat, covered: map<nat, nat>, arena: int)
    requires k < |spans| && Scanned(spans, k, expected, covered, arena)
    ensures var s := spans[k];
            var ok := && 0 < s.count <= arena && s.snapshotOffset == expected
                      && s.destinationOffset == (if s.destination in covered then covered[s.destination] else 0);
            && (ok ==> Scanned(spans, k + 1, expected + s.count,
                               covered[s.destination := s.destinationOffset + s.count], arena))
            && (!ok ==> !Packable(spans, arena))
  {
    hide Coverage, Total, CoveredIn;
    assert spans[..k + 1] == spans[..k] + [spans[k]];
    BatchNext(spans[..k], spans[k]);
    CoverageNext(spans, k);
    if Coverage(spans) {
      CoveragePrefix(spans, k + 1);
    }
  }

  lemma Opened(span: SourceSpan, arena: int)
    requires span.count <= arena && span.source.size <= PREFETCH_BYTES
    ensures Open([span], span.count, {span.source.Path()}, span.source.size, arena)
  {
    var none: Batch := [];
    assert none + [span] == [span];
    BatchNext(none, span);
  }

  lemma Joined(batch: Batch, bytes: nat, paths: set<Path>, sourceBytes: nat, span: SourceSpan, arena: int)
    requires Open(batch, bytes, paths, sourceBytes, arena) && batch != []
    ensures var more := if span.source.Path() in paths then 0 else span.source.size;
            var fits := bytes + span.count <= arena && sourceBytes + more <= PREFETCH_BYTES && |batch| < MAX_SPANS;
            && (fits <==> BatchFits(batch + [span], arena))
            && (fits ==> Open(batch + [span], bytes + span.count, paths + {span.source.Path()}, sourceBytes + more, arena))
  {
    hide Total, SourceTotal, Paths;
    BatchNext(batch, span);
  }

  lemma PackedMore(batches: seq<Batch>, batch: Batch, spans: Batch, k: nat, arena: int)
    requires k < |spans| && Packed(batches, batch, spans, k, arena)
    ensures batch == [] || BatchFits(batch + [spans[k]], arena) ==> Packed(batches, batch + [spans[k]], spans, k + 1, arena)
    ensures batch != [] && !BatchFits(batch + [spans[k]], arena) && BatchFits(batch, arena) ==>
              Packed(batches + [batch], [spans[k]], spans, k + 1, arena)
  {
    hide BatchFits;
    FlattenNext(batches, batch);
    assert spans[..k + 1] == spans[..k] + [spans[k]];
    assert Flatten(batches) + (batch + [spans[k]]) == Flatten(batches) + batch + [spans[k]];
    if batch != [] {
      GreedySame(batches, batch, spans[k], arena);
      GreedyClosed(batches, batch, spans[k], arena);
    }
  }

  lemma GreedySame(batches: seq<Batch>, batch: Batch, span: SourceSpan, arena: int)
    requires batch != [] && Greedy(batches + [batch], arena)
    ensures Greedy(batches + [batch + [span]], arena)
  {
    hide BatchFits;
    var before, after := batches + [batch], batches + [batch + [span]];
    forall k | 0 < k < |after|
      ensures after[k] != [] && !BatchFits(after[k - 1] + [after[k][0]], arena)
    {
      assert before[k] != [] && before[k][0] == after[k][0] && before[k - 1] == after[k - 1];
    }
  }

  lemma GreedyClosed(batches: seq<Batch>, batch: Batch, span: SourceSpan, arena: int)
    requires batch != [] && Greedy(batches + [batch], arena)
    ensures !BatchFits(batch + [span], arena) ==> Greedy(batches + [batch] + [[span]], arena)
  {
    hide BatchFits;
    var before, after := batches + [batch], batches + [batch] + [[span]];
    if !BatchFits(batch + [span], arena) {
      forall k | 0 < k < |after|
        ensures after[k] != [] && !BatchFits(after[k - 1] + [after[k][0]], arena)
      {
        if k < |before| {
          assert before[k] == after[k] && before[k - 1] == after[k - 1];
        }
      }
    }
  }

  /** Packing is an order-preserving partition within all three bounds, and it
      never refuses what the planner hands on. */
  method DeltaSubmissionBatches(spans: Batch, arena: int) returns (r: Result<seq<Batch>, CudaError>)
    ensures spans != [] && Packable(spans, arena) ==> r.Ok?
    ensures r.Ok? ==>
              && spans != [] && Coverage(spans) && (forall k :: 0 <= k < |spans| ==> spans[k].count <= arena)
              && r.value != [] && Flatten(r.value) == spans && Greedy(r.value, arena)
              && forall k :: 0 <= k < |r.value| ==> BatchFits(r.value[k], arena)
    ensures r == Err(NoSpans) <==> spans == []
  {
    hide Coverage, Total, CoveredIn, SourceTotal, Paths, BatchFits, Greedy;
    var batches: seq<Batch> := [];
    var batch: Batch := [];
    var bytes: nat, sourceBytes: nat, paths: set<Path> := 0, 0, {};
    var expected: nat, covered: map<nat, nat> := 0, map[];
    Nothing(spans, arena);
    for k := 0 to |spans|
      invariant Scanned(spans, k, expected, covered, arena)
      invariant Open(batch, bytes, paths, sourceBytes, arena) && Packed(batches, batch, spans, k, arena)
      invariant batch == [] <==> k == 0
    {
      var span := spans[k];
      ScanNext(spans, k, expected, covered, arena);
      if span.count <= 0 || span.count > arena || span.snapshotOffset != expected
         || span.destinationOffset != (if span.destination in covered then covered[span.destination] else 0) {
        return Err(FinalCoverage);
      }
      var more := if span.source.Path() in paths then 0 else span.source.size;
      PackedMore(batches, batch, spans, k, arena);
      if batch != [] {
        Joined(batch, bytes, paths, sourceBytes, span, arena);
      }
      if batch != [] && (bytes + span.count > arena || sourceBytes + more > PREFETCH_BYTES || |batch| >= MAX_SPANS) {
        batches := batches + [batch];
        batch, bytes, sourceBytes, paths := [], 0, 0, {};
        more := span.source.size;
      }
      if more > PREFETCH_BYTES {
        return Err(PrefetchBound);
      }
      if batch == [] {
        Opened(span, arena);
        assert [] + [span] == [span] && {} + {span.source.Path()} == {span.source.Path()};
      }
      batch := batch + [span];
      bytes := bytes + span.count;
      paths, sourceBytes := paths + {span.source.Path()}, sourceBytes + more;
      expected := expected + span.count;
      covered := covered[span.destination := span.destinationOffset + span.count];
    }
    if batch != [] {
      FlattenNext(batches, batch);
      batches := batches + [batch];
    }
    if batches == [] {
      return Err(NoSpans);
    }
    assert spans[..|spans|] == spans;
    r := Ok(batches);
  }

  lemma Nothing(spans: Batch, arena: int)
    ensures Scanned(spans, 0, 0, map[], arena) && Open([], 0, {}, 0, arena) && Packed([], [], spans, 0, arena)
  {
  }

  /** The planner's spans are packable under the arena they were planned for. */
  lemma PlannedSpansPack(spans: Batch, arena: nat)
    requires Placeable(spans, Min(arena, PREFETCH_BYTES))
    ensures Packable(spans, arena)
  {
    hide Coverage;
  }

  /** The packer never refuses what the planner hands on. */
  method PackPlanned(spans: Batch, arena: nat) returns (batches: seq<Batch>)
    requires Placeable(spans, Min(arena, PREFETCH_BYTES)) && spans != []
    ensures batches != [] && Flatten(batches) == spans && Greedy(batches, arena)
    ensures forall k :: 0 <= k < |batches| ==> BatchFits(batches[k], arena)
  {
    hide Coverage, Greedy, BatchFits, Flatten;
    PlannedSpansPack(spans, arena);
    var packed := DeltaSubmissionBatches(spans, arena);
    batches := packed.value;
  }
}
