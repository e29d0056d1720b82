// Encoded block-page snapshots: a header, then every layer's pages in layout
// order. Headers and hashes are parameters, so what is proved here holds for
// every hash function and every header encoding that reads back.
module Pages {
  import opened Common

  type Byte = bv8
  type Bytes = seq<Byte>
  type Hash = nat

  /** The layers of every page group in layout order, each naming its group. */
  datatype PageLayer = PageLayer(name: string, group: nat, bytesPerPage: nat)

  datatype PageLayout = PageLayout(groups: nat, layers: seq<PageLayer>)

  /** What the layout constructors enforce and offsets depend on. */
  predicate ValidLayout(layout: PageLayout) {
    && layout.layers != []
    && (forall i :: 0 <= i < |layout.layers| ==>
          layout.layers[i].group < layout.groups && layout.layers[i].bytesPerPage > 0)
    && (forall i, j :: 0 <= i < j < |layout.layers| ==> layout.layers[i].name != layout.layers[j].name)
  }

  datatype SnapshotHeader = SnapshotHeader(layoutSha: Hash, counts: seq<int>, headerBytes: nat)

  datatype TailDescriptor = TailDescriptor(name: string, bytes: int, sha: Hash)

  datatype DeltaHeader = DeltaHeader(
    layoutSha: Hash, baseSha: Hash, resultSha: Hash, baseCounts: seq<int>, resultCounts: seq<int>,
    baseBoundary: int, resultBoundary: int, reused: seq<int>, tails: seq<TailDescriptor>)

  /** The library calls: SHA-256 and the two JSON header codecs with their prefixes. */
  datatype Library = Library(
    sha: Bytes -> Hash,
    layoutSha: PageLayout -> Hash,
    snapshotHeader: (PageLayout, seq<int>) -> Bytes,
    parseSnapshot: Bytes -> Option<SnapshotHeader>,
    deltaHeader: DeltaHeader -> Bytes,
    parseDelta: Bytes -> Option<(DeltaHeader, nat)>)

  /** A canonical header reads back as what was written, whatever follows it. */
  ghost predicate Faithful(lib: Library) {
    && (forall layout, counts, rest ::
          lib.parseSnapshot(lib.snapshotHeader(layout, counts) + rest)
          == Some(SnapshotHeader(lib.layoutSha(layout), counts, |lib.snapshotHeader(layout, counts)|)))
    && (forall h, rest :: lib.parseDelta(lib.deltaHeader(h) + rest) == Some((h, |lib.deltaHeader(h)|)))
  }

  datatype PageError =
    | SnapshotRejected
    | DeltaRejected
    | IdentityDiffers
    | TailChecksum
    | ResultChecksum
    | CaptureRejected
    | NoDelta
    | PrefixCoverage
    | CoverageGap
    | CoverageDiffers
    | UnverifiedStage
    | BoundaryDiffers

  // ---- joining pieces ----

  function Join(parts: seq<Bytes>): Bytes {
    if parts == [] then [] else Join(parts[..|parts| - 1]) + parts[|parts| - 1]
  }

  lemma JoinAppend(parts: seq<Bytes>, last: Bytes)
    ensures Join(parts + [last]) == Join(parts) + last
  {
    assert (parts + [last])[..|parts|] == parts;
  }

  lemma {:induction false} JoinConcat(a: seq<Bytes>, b: seq<Bytes>)
    ensures Join(a + b) == Join(a) + Join(b)
  {
    if b == [] {
      assert a + b == a;
    } else {
      var front, last := b[..|b| - 1], b[|b| - 1];
      assert a + b == (a + front) + [last];
      assert b == front + [last];
      JoinConcat(a, front);
      JoinAppend(a + front, last);
      JoinAppend(front, last);
    }
  }

  // ---- where layers lie ----

  /** Bytes of layer `i` when its group has `counts[group]` pages. */
  function LayerSize(layout: PageLayout, counts: seq<int>, i: nat): int
    requires i < |layout.layers| && layout.layers[i].group < |counts|
  {
    counts[layout.layers[i].group] * layout.layers[i].bytesPerPage
  }

  predicate CountsFit(layout: PageLayout, counts: seq<int>) {
    ValidLayout(layout) && |counts| == layout.groups && forall g :: 0 <= g < |counts| ==> counts[g] >= 0
  }

  function LayerOffset(layout: PageLayout, counts: seq<int>, i: nat): (offset: nat)
    requires CountsFit(layout, counts) && i <= |layout.layers|
  {
    if i == 0 then 0
    else
      SizeNonNegative(layout, counts, i - 1);
      LayerOffset(layout, counts, i - 1) + LayerSize(layout, counts, i - 1)
  }

  lemma SizeNonNegative(layout: PageLayout, counts: seq<int>, i: nat)
    requires CountsFit(layout, counts) && i < |layout.layers|
    ensures LayerSize(layout, counts, i) >= 0
  {
    ProductNonNegative(counts[layout.layers[i].group], layout.layers[i].bytesPerPage);
  }

  lemma ProductNonNegative(a: int, b: int)
    requires a >= 0 && b >= 0
    ensures a * b >= 0
  {
  }

  function PayloadBytes(layout: PageLayout, counts: seq<int>): nat
    requires CountsFit(layout, counts)
  {
    LayerOffset(layout, counts, |layout.layers|)
  }

  lemma {:induction false} OffsetsGrow(layout: PageLayout, counts: seq<int>, i: nat, j: nat)
    requires CountsFit(layout, counts) && i <= j <= |layout.layers|
    ensures LayerOffset(layout, counts, i) <= LayerOffset(layout, counts, j)
    decreases j
  {
    if i < j {
      OffsetsGrow(layout, counts, i, j - 1);
      SizeNonNegative(layout, counts, j - 1);
    }
  }

  /** The layers found in a payload that starts at `start`. */
  function Layers(layout: PageLayout, counts: seq<int>, encoded: Bytes, start: nat): (layers: seq<Bytes>)
    requires CountsFit(layout, counts) && start + PayloadBytes(layout, counts) <= |encoded|
    ensures |layers| == |layout.layers|
  {
    seq(|layout.layers|, i requires 0 <= i < |layout.layers| =>
      OffsetsGrow(layout, counts, i, i + 1);
      OffsetsGrow(layout, counts, i + 1, |layout.layers|);
      encoded[start + LayerOffset(layout, counts, i)..start + LayerOffset(layout, counts, i + 1)])
  }

  predicate LayersFit(layout: PageLayout, counts: seq<int>, layers: seq<Bytes>) {
    && CountsFit(layout, counts)
    && |layers| == |layout.layers|
    && forall i :: 0 <= i < |layers| ==> |layers[i]| == LayerSize(layout, counts, i)
  }

  lemma LayersFound(layout: PageLayout, counts: seq<int>, encoded: Bytes, start: nat, i: nat)
    requires CountsFit(layout, counts) && start + PayloadBytes(layout, counts) <= |encoded|
    requires i < |layout.layers|
    ensures LayerOffset(layout, counts, i) <= LayerOffset(layout, counts, i + 1) <= PayloadBytes(layout, counts)
    ensures Layers(layout, counts, encoded, start)[i]
            == encoded[start + LayerOffset(layout, counts, i)..start + LayerOffset(layout, counts, i + 1)]
    ensures |Layers(layout, counts, encoded, start)[i]| == LayerSize(layout, counts, i)
  {
    OffsetsGrow(layout, counts, i, i + 1);
    OffsetsGrow(layout, counts, i + 1, |layout.layers|);
  }

  lemma FoundLayersFit(layout: PageLayout, counts: seq<int>, encoded: Bytes, start: nat)
    requires CountsFit(layout, counts) && start + PayloadBytes(layout, counts) <= |encoded|
    ensures LayersFit(layout, counts, Layers(layout, counts, encoded, start))
  {
    forall i | 0 <= i < |layout.layers|
      ensures |Layers(layout, counts, encoded, start)[i]| == LayerSize(layout, counts, i)
    {
      LayersFound(layout, counts, encoded, start, i);
    }
  }

  /** Joined layers lie exactly where the offsets say. */
  lemma {:induction false} JoinedPrefix(layout: PageLayout, counts: seq<int>, layers: seq<Bytes>, n: nat)
    requires LayersFit(layout, counts, layers) && n <= |layers|
    ensures |Join(layers[..n])| == LayerOffset(layout, counts, n)
  {
    if n > 0 {
      JoinedPrefix(layout, counts, layers, n - 1);
      assert layers[..n] == layers[..n - 1] + [layers[n - 1]];
      JoinAppend(layers[..n - 1], layers[n - 1]);
    }
  }

  lemma Middle(a: Bytes, b: Bytes, c: Bytes)
    ensures (a + b + c)[|a|..|a| + |b|] == b
  {
  }

  lemma JoinNext(parts: seq<Bytes>, i: nat)
    requires i < |parts|
    ensures Join(parts[..i + 1]) == Join(parts[..i]) + parts[i]
  {
    assert parts[..i + 1] == parts[..i] + [parts[i]];
    JoinAppend(parts[..i], parts[i]);
  }

  lemma JoinHalves(parts: seq<Bytes>, i: nat)
    requires i <= |parts|
    ensures Join(parts) == Join(parts[..i]) + Join(parts[i..])
  {
    assert parts == parts[..i] + parts[i..];
    JoinConcat(parts[..i], parts[i..]);
  }

  lemma JoinSplit(parts: seq<Bytes>, i: nat)
    requires i < |parts|
    ensures Join(parts) == Join(parts[..i]) + parts[i] + Join(parts[i + 1..])
    ensures Join(parts[..i + 1]) == Join(parts[..i]) + parts[i]
  {
    hide Join;
    JoinNext(parts, i);
    JoinHalves(parts, i + 1);
  }

  lemma JoinedLayer(layout: PageLayout, counts: seq<int>, layers: seq<Bytes>, i: nat)
    requires LayersFit(layout, counts, layers) && i < |layers|
    ensures LayerOffset(layout, counts, i) <= LayerOffset(layout, counts, i + 1) <= |Join(layers)|
    ensures Join(layers)[LayerOffset(layout, counts, i)..LayerOffset(layout, counts, i + 1)] == layers[i]
  {
    hide Join, LayerOffset, LayerSize;
    JoinSplit(layers, i);
    JoinedPrefix(layout, counts, layers, i);
    JoinedPrefix(layout, counts, layers, i + 1);
    Middle(Join(layers[..i]), layers[i], Join(layers[i + 1..]));
  }

  /** Decoding undoes joining. */
  lemma LayersOfJoin(layout: PageLayout, counts: seq<int>, header: Bytes, layers: seq<Bytes>)
    requires LayersFit(layout, counts, layers)
    ensures |Join(layers)| == PayloadBytes(layout, counts)
    ensures Layers(layout, counts, header + Join(layers), |header|) == layers
  {
    var n := |layers|;
    assert layers[..n] == layers;
    JoinedPrefix(layout, counts, layers, n);
    var encoded := header + Join(layers);
    forall i | 0 <= i < n
      ensures Layers(layout, counts, encoded, |header|)[i] == layers[i]
    {
      LayersFound(layout, counts, encoded, |header|, i);
      JoinedLayer(layout, counts, layers, i);
      var lo, hi := LayerOffset(layout, counts, i), LayerOffset(layout, counts, i + 1);
      assert encoded[|header| + lo..|header| + hi] == Join(layers)[lo..hi];
    }
  }

  lemma {:induction false} JoinOfLayersPrefix(layout: PageLayout, counts: seq<int>, encoded: Bytes, start: nat, n: nat)
    requires CountsFit(layout, counts) && start + PayloadBytes(layout, counts) <= |encoded|
    requires n <= |layout.layers|
    ensures LayerOffset(layout, counts, n) <= PayloadBytes(layout, counts)
    ensures Join(Layers(layout, counts, encoded, start)[..n])
            == encoded[start..start + LayerOffset(layout, counts, n)]
  {
    OffsetsGrow(layout, counts, n, |layout.layers|);
    if n > 0 {
      hide *;
      JoinOfLayersPrefix(layout, counts, encoded, start, n - 1);
      LayersFound(layout, counts, encoded, start, n - 1);
      JoinNext(Layers(layout, counts, encoded, start), n - 1);
      TwoSlices(encoded, start, start + LayerOffset(layout, counts, n - 1), start + LayerOffset(layout, counts, n));
    }
  }

  lemma JoinOfLayers(layout: PageLayout, counts: seq<int>, encoded: Bytes, start: nat)
    requires CountsFit(layout, counts) && start + PayloadBytes(layout, counts) == |encoded|
    ensures Join(Layers(layout, counts, encoded, start)) == encoded[start..]
  {
    JoinOfLayersPrefix(layout, counts, encoded, start, |layout.layers|);
    var layers := Layers(layout, counts, encoded, start);
    assert layers[..|layout.layers|] == layers;
  }

  // ---- planning a snapshot ----

  datatype PageSpan = PageSpan(
    name: string, group: nat, sourceStart: nat, sourceEnd: nat, pageCount: int, bytesPerPage: nat)

  datatype SnapshotPlan = SnapshotPlan(headerBytes: nat, totalBytes: nat, counts: seq<int>, spans: seq<PageSpan>)

  predicate CountsPositive(counts: seq<int>) {
    forall g :: 0 <= g < |counts| ==> counts[g] > 0
  }

  function SpanAt(layout: PageLayout, counts: seq<int>, headerBytes: nat, i: nat): PageSpan
    requires CountsFit(layout, counts) && i < |layout.layers|
  {
    var layer := layout.layers[i];
    PageSpan(layer.name, layer.group, headerBytes + LayerOffset(layout, counts, i),
             headerBytes + LayerOffset(layout, counts, i + 1), counts[layer.group], layer.bytesPerPage)
  }

  function SpansOf(layout: PageLayout, counts: seq<int>, headerBytes: nat, n: nat): (spans: seq<PageSpan>)
    requires CountsFit(layout, counts) && n <= |layout.layers|
    ensures |spans| == n
  {
    seq(n, i requires 0 <= i < n => SpanAt(layout, counts, headerBytes, i))
  }

  lemma SpanLies(layout: PageLayout, counts: seq<int>, headerBytes: nat, i: nat)
    requires CountsFit(layout, counts) && i < |layout.layers|
    ensures var span := SpansOf(layout, counts, headerBytes, |layout.layers|)[i];
            && span.sourceStart == headerBytes + LayerOffset(layout, counts, i)
            && span.sourceEnd == headerBytes + LayerOffset(layout, counts, i + 1)
  {
  }

  /** The header at the front of `prefix` is this layout's, with these counts. */
  predicate HeaderMatches(lib: Library, layout: PageLayout, prefix: Bytes, counts: seq<int>) {
    var h := lib.parseSnapshot(prefix);
    && CountsPositive(counts)
    && h.Some?
    && h.value.headerBytes <= |prefix|
    && h.value.layoutSha == lib.layoutSha(layout)
    && h.value.counts == counts
    && |counts| == layout.groups
  }

  function PlanSnapshot(lib: Library, layout: PageLayout, prefix: Bytes, counts: seq<int>, total: nat)
    : (r: Result<SnapshotPlan, PageError>)
    requires ValidLayout(layout)
    ensures r.Ok? ==> r.value.totalBytes == total && r.value.counts == counts && CountsFit(layout, counts)
    ensures if r.Ok? then CountsPositive(counts) else r == Err(SnapshotRejected)
    ensures r.Ok? ==> r.value.headerBytes + PayloadBytes(layout, counts) == total
    ensures r.Ok? ==> r.value.spans == SpansOf(layout, counts, r.value.headerBytes, |layout.layers|)
  {
    if !HeaderMatches(lib, layout, prefix, counts) then Err(SnapshotRejected)
    else
      var headerBytes := lib.parseSnapshot(prefix).value.headerBytes;
      if |prefix| > total || headerBytes + PayloadBytes(layout, counts) != total then Err(SnapshotRejected)
      else Ok(SnapshotPlan(headerBytes, total, counts, SpansOf(layout, counts, headerBytes, |layout.layers|)))
  }

  method PlanPageSnapshot(lib: Library, layout: PageLayout, prefix: Bytes, counts: seq<int>, total: nat)
    returns (r: Result<SnapshotPlan, PageError>)
    requires ValidLayout(layout)
    ensures r == PlanSnapshot(lib, layout, prefix, counts, total)
  {
    if !HeaderMatches(lib, layout, prefix, counts) {
      return Err(SnapshotRejected);
    }
    var headerEnd := lib.parseSnapshot(prefix).value.headerBytes;
    if total < headerEnd || |prefix| > total {
      return Err(SnapshotRejected);
    }
    var spans: seq<PageSpan> := [];
    var offset := headerEnd;
    for i := 0 to |layout.layers|
      invariant offset == headerEnd + LayerOffset(layout, counts, i) <= total
      invariant spans == SpansOf(layout, counts, headerEnd, i)
    {
      var layer := layout.layers[i];
      var count := counts[layer.group];
      SizeNonNegative(layout, counts, i);
      var end := offset + count * layer.bytesPerPage;
      if end > total {
        OffsetsGrow(layout, counts, i + 1, |layout.layers|);
        return Err(SnapshotRejected);
      }
      spans := spans + [PageSpan(layer.name, layer.group, offset, end, count, layer.bytesPerPage)];
      offset := end;
    }
    if offset != total {
      return Err(SnapshotRejected);
    }
    r := Ok(SnapshotPlan(headerEnd, total, counts, spans));
  }

  // ---- canonical snapshots ----

  function EncodedSize(lib: Library, layout: PageLayout, counts: seq<int>): nat
    requires CountsFit(layout, counts)
  {
    |lib.snapshotHeader(layout, counts)| + PayloadBytes(layout, counts)
  }

  function Snapshot(lib: Library, layout: PageLayout, counts: seq<int>, layers: seq<Bytes>): Bytes {
    lib.snapshotHeader(layout, counts) + Join(layers)
  }

  /** `encode_page_snapshot`: refuse wrong counts or lengths, then join. */
  function EncodeSnapshot(lib: Library, layout: PageLayout, counts: seq<int>, layers: seq<Bytes>)
    : Result<Bytes, PageError>
    requires ValidLayout(layout)
  {
    if |counts| == layout.groups && CountsPositive(counts) && LayersFit(layout, counts, layers)
    then Ok(Snapshot(lib, layout, counts, layers))
    else Err(SnapshotRejected)
  }

  function DecodeSnapshot(lib: Library, layout: PageLayout, encoded: Bytes, counts: seq<int>)
    : Result<seq<Bytes>, PageError>
    requires ValidLayout(layout)
  {
    var plan :- PlanSnapshot(lib, layout, encoded, counts, |encoded|);
    Ok(Layers(layout, counts, encoded, plan.headerBytes))
  }

  lemma CanonicalPlan(lib: Library, layout: PageLayout, counts: seq<int>, layers: seq<Bytes>)
    requires Faithful(lib) && CountsPositive(counts) && LayersFit(layout, counts, layers)
    ensures var encoded := Snapshot(lib, layout, counts, layers);
            var r := PlanSnapshot(lib, layout, encoded, counts, |encoded|);
            && |encoded| == EncodedSize(lib, layout, counts)
            && r.Ok? && r.value.headerBytes == |lib.snapshotHeader(layout, counts)|
  {
    LayersOfJoin(layout, counts, lib.snapshotHeader(layout, counts), layers);
  }

  /** Decoding an encoded snapshot returns its layers, and only exact ones encode. */
  lemma SnapshotRoundTrip(lib: Library, layout: PageLayout, counts: seq<int>, layers: seq<Bytes>)
    requires Faithful(lib) && ValidLayout(layout)
    ensures EncodeSnapshot(lib, layout, counts, layers).Ok? ==>
              DecodeSnapshot(lib, layout, EncodeSnapshot(lib, layout, counts, layers).value, counts) == Ok(layers)
  {
    if EncodeSnapshot(lib, layout, counts, layers).Ok? {
      CanonicalPlan(lib, layout, counts, layers);
      LayersOfJoin(layout, counts, lib.snapshotHeader(layout, counts), layers);
    }
  }
}
