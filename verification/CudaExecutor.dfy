// The placement loop: load each batch's sources, copy its spans into an arena,
// digest the previous batch meanwhile, and keep recurring sources in a bounded
// cache. Reads come from a store; a read that fails its own check ends the run.
module CudaExecutor {
  import opened Common
  import opened PageCopies
  import opened Pages
  import opened CudaSources
  import opened CudaPlan
  import opened CudaSpans
  import opened CudaBatches

  datatype Loaded = Loaded(source: Source, payload: Bytes)

  /** One submission: which arena, what it held, and where each part goes. */
  datatype Slab = Slab(arena: nat, bytes: Bytes, copies: seq<CopySpan>)

  /** The check a source must pass before its bytes are used. */
  predicate Trusted(lib: Library, store: Store, s: Source) {
    SourceOk(store, s) && lib.sha(SourceBytes(store, s)) == (if s.PageObject? then s.digest else s.sha)
  }

  // ---- an insertion-ordered cache ----

  predicate Distinct(order: seq<Path>) {
    forall i, j :: 0 <= i < j < |order| ==> order[i] != order[j]
  }

  ghost predicate Shaped(cache: map<Path, Loaded>, order: seq<Path>) {
    Distinct(order) && forall p :: p in cache <==> p in order
  }

  ghost function SizeSum(cache: map<Path, Loaded>, order: seq<Path>): nat
    requires forall p :: p in order ==> p in cache
  {
    if order == [] then 0 else cache[order[0]].source.size + SizeSum(cache, order[1..])
  }

  function Without(order: seq<Path>, p: Path): seq<Path> {
    if order == [] then [] else if order[0] == p then order[1..] else [order[0]] + Without(order[1..], p)
  }

  lemma {:induction false} WithoutShorter(order: seq<Path>, p: Path)
    requires p in order
    ensures |Without(order, p)| == |order| - 1
  {
    if order[0] != p {
      WithoutShorter(order[1..], p);
    }
  }

  lemma DistinctFirst(p: Path, rest: seq<Path>)
    requires Distinct(rest) && p !in rest
    ensures Distinct([p] + rest)
  {
  }

  lemma {:induction false} WithoutIs(order: seq<Path>, p: Path)
    requires Distinct(order)
    ensures Distinct(Without(order, p))
    ensures forall q :: q in Without(order, p) <==> q in order && q != p
  {
    if order != [] {
      WithoutIs(order[1..], p);
      assert forall q :: q in order <==> q == order[0] || q in order[1..];
      var rest := Without(order[1..], p);
      if order[0] == p {
        assert p !in order[1..];
      } else {
        assert forall q :: q in [order[0]] + rest <==> q == order[0] || q in rest;
        assert order[0] !in order[1..];
        DistinctFirst(order[0], rest);
      }
    }
  }

  lemma {:induction false} SizeWithout(cache: map<Path, Loaded>, order: seq<Path>, p: Path)
    requires Distinct(order) && p in order && forall q :: q in order ==> q in cache
    ensures forall q :: q in Without(order, p) ==> q in cache && q != p
    ensures SizeSum(cache, order) == SizeSum(cache - {p}, Without(order, p)) + cache[p].source.size
  {
    WithoutIs(order, p);
    if order[0] == p {
      SizeSame(cache, cache - {p}, order[1..]);
    } else {
      SizeWithout(cache, order[1..], p);
      var rest := Without(order[1..], p);
      assert ([order[0]] + rest)[1..] == rest;
    }
  }

  lemma {:induction false} SizeSame(a: map<Path, Loaded>, b: map<Path, Loaded>, order: seq<Path>)
    requires forall q :: q in order ==> q in a && q in b && a[q] == b[q]
    ensures SizeSum(a, order) == SizeSum(b, order)
  {
    if order != [] {
      SizeSame(a, b, order[1..]);
    }
  }

  lemma {:induction false} SizeAppend(cache: map<Path, Loaded>, order: seq<Path>, p: Path)
    requires p in cache && forall q :: q in order ==> q in cache
    ensures forall q :: q in order + [p] ==> q in cache
    ensures SizeSum(cache, order + [p]) == SizeSum(cache, order) + cache[p].source.size
  {
    if order != [] {
      SizeAppend(cache, order[1..], p);
      assert (order + [p])[1..] == order[1..] + [p];
    }
  }

  // ---- use of paths ----

  /** The last batch that uses each path. */
  function LastUse(batches: seq<Batch>, n: nat): map<Path, nat>
    requires n <= |batches|
  {
    if n == 0 then map[] else LastUse(batches, n - 1) + BatchUses(Paths(batches[n - 1]), n - 1)
  }

  function BatchUses(paths: set<Path>, k: nat): map<Path, nat> {
    map p | p in paths :: k
  }

  lemma {:induction false} LastUseIs(batches: seq<Batch>, n: nat, p: Path)
    requires n <= |batches|
    ensures p in LastUse(batches, n) <==> exists k :: 0 <= k < n && p in Paths(batches[k])
    ensures p in LastUse(batches, n) ==>
              var k := LastUse(batches, n)[p];
              k < n && p in Paths(batches[k]) && forall j :: k < j < n ==> p !in Paths(batches[j])
  {
    if n > 0 {
      LastUseIs(batches, n - 1, p);
    }
  }

  function Uses(spans: Batch, p: Path): nat {
    if spans == [] then 0
    else Uses(spans[..|spans| - 1], p) + (if spans[|spans| - 1].source.Path() == p then 1 else 0)
  }

  lemma ReadOne(store: Store, a: Batch, s: SourceSpan)
    requires SpansOk(store, a) && SpanOk(store, s)
    ensures SpansOk(store, a + [s]) && ReadSpans(store, a + [s]) == ReadSpans(store, a) + SpanBytes(store, s)
  {
    hide SpanOk, SpanBytes;
    assert (a + [s])[..|a|] == a;
  }

  lemma LastApart<T>(a: seq<T>, b: seq<T>)
    requires b != []
    ensures b == b[..|b| - 1] + [b[|b| - 1]] && a + b == (a + b[..|b| - 1]) + [b[|b| - 1]]
  {
  }

  lemma SpansSplit(store: Store, b: Batch)
    requires b != [] && SpansOk(store, b)
    ensures SpansOk(store, b[..|b| - 1]) && SpanOk(store, b[|b| - 1])
  {
    hide SpanOk;
  }

  lemma {:induction false} ReadAppend(store: Store, a: Batch, b: Batch)
    requires SpansOk(store, a) && SpansOk(store, b)
    ensures SpansOk(store, a + b) && ReadSpans(store, a + b) == ReadSpans(store, a) + ReadSpans(store, b)
  {
    if b == [] {
      assert a + b == a;
    } else {
      hide *;
      var front, last := b[..|b| - 1], b[|b| - 1];
      SpansSplit(store, b);
      ReadAppend(store, a, front);
      ReadOne(store, front, last);
      ReadOne(store, a + front, last);
      LastApart(a, b);
      Associative(ReadSpans(store, a), ReadSpans(store, front), SpanBytes(store, last));
    }
  }

  // ---- loaded sources ----

  /** Sources that share a path are the same file bytes. */
  ghost predicate PathsAgree(store: Store, sources: set<Source>) {
    forall s, t :: s in sources && t in sources && s.Path() == t.Path() ==>
      SourceOk(store, s) == SourceOk(store, t)
      && (SourceOk(store, s) ==> SourceBytes(store, s) == SourceBytes(store, t))
  }

  /** A loaded item holds what its source holds. */
  ghost predicate ItemOk(store: Store, sources: set<Source>, p: Path, item: Loaded) {
    item.source in sources && item.source.Path() == p && SourceOk(store, item.source)
    && item.payload == SourceBytes(store, item.source)
  }

  ghost predicate ItemsOk(store: Store, sources: set<Source>, items: map<Path, Loaded>) {
    forall p :: p in items ==> ItemOk(store, sources, p, items[p])
  }

  ghost predicate CacheOk(
    store: Store, sources: set<Source>, cache: map<Path, Loaded>, order: seq<Path>, bytes: int, limit: nat)
  {
    Shaped(cache, order) && ItemsOk(store, sources, cache) && bytes == SizeSum(cache, order) <= limit
  }

  lemma CacheForgets(
    store: Store, sources: set<Source>, cache: map<Path, Loaded>, order: seq<Path>, bytes: int, limit: nat, p: Path)
    requires CacheOk(store, sources, cache, order, bytes, limit) && p in cache
    ensures CacheOk(store, sources, cache - {p}, Without(order, p), bytes - cache[p].source.size, limit)
    ensures |Without(order, p)| < |order|
  {
    hide ItemOk, Without, SizeSum, Distinct;
    SizeWithout(cache, order, p);
    WithoutIs(order, p);
    WithoutShorter(order, p);
  }

  lemma CacheRetains(
    store: Store, sources: set<Source>, cache: map<Path, Loaded>, order: seq<Path>, bytes: int, limit: nat, p: Path,
    item: Loaded)
    requires CacheOk(store, sources, cache, order, bytes, limit) && p !in cache && ItemOk(store, sources, p, item)
    requires bytes + item.source.size <= limit
    ensures CacheOk(store, sources, cache[p := item], order + [p], bytes + item.source.size, limit)
  {
    hide ItemOk;
    SizeSame(cache, cache[p := item], order);
    SizeAppend(cache[p := item], order, p);
  }

  /** A tail extent that one span places whole goes straight into the arena. */
  predicate PlacedWhole(span: SourceSpan, uses: map<Path, nat>) {
    && span.source.TailExtent? && span.source.Path() in uses && uses[span.source.Path()] == 1
    && span.sourceOffset == 0 && span.count == span.source.size
  }

  /** The spans of a batch as the executor relies on them. */
  ghost predicate BatchKnown(batch: Batch, sources: set<Source>, uses: map<Path, nat>) {
    && (forall k :: 0 <= k < |batch| ==>
          batch[k].source in sources && batch[k].sourceOffset + batch[k].count <= batch[k].source.size)
    && forall i, j :: 0 <= i < |batch| && 0 <= j < |batch| ==>
         batch[i].source.Path() == batch[j].source.Path() && PlacedWhole(batch[i], uses) ==> batch[i] == batch[j]
  }

  /** A batch's sources by path, first seen first. */
  method FirstSeen(batch: Batch) returns (paths: seq<Path>, first: map<Path, Source>)
    ensures Distinct(paths) && (forall p :: p in paths <==> p in Paths(batch)) && first.Keys == Paths(batch)
    ensures forall p :: p in first ==> first[p].Path() == p && exists k :: 0 <= k < |batch| && batch[k].source == first[p]
  {
    paths, first := [], map[];
    for k := 0 to |batch|
      invariant Distinct(paths) && (forall p :: p in paths <==> p in Paths(batch[..k])) && first.Keys == Paths(batch[..k])
      invariant forall p :: p in first ==> first[p].Path() == p && exists j :: 0 <= j < k && batch[j].source == first[p]
    {
      var source := batch[k].source;
      assert batch[..k + 1] == batch[..k] + [batch[k]];
      BatchNext(batch[..k], batch[k]);
      if source.Path() !in first {
        paths := paths + [source.Path()];
        first := first[source.Path() := source];
      }
    }
    assert batch[..|batch|] == batch;
  }

  /** Add those of the given items whose paths are wanted. */
  method Present(paths: seq<Path>, items: map<Path, Loaded>, loaded0: map<Path, Loaded>, order0: seq<Path>)
    returns (loaded: map<Path, Loaded>, order: seq<Path>)
    requires forall p :: p in order0 <==> p in loaded0
    ensures forall p :: p in order <==> p in loaded
    ensures forall p :: p in loaded <==> p in loaded0 || (p in paths && p in items)
    ensures forall p :: p in loaded ==> loaded[p] == if p in paths && p in items then items[p] else loaded0[p]
  {
    loaded, order := loaded0, order0;
    for j := 0 to |paths|
      invariant forall p :: p in order <==> p in loaded
      invariant forall p :: p in loaded <==> p in loaded0 || (p in paths[..j] && p in items)
      invariant forall p :: p in loaded ==> loaded[p] == if p in paths[..j] && p in items then items[p] else loaded0[p]
    {
      var p := paths[j];
      assert forall q :: q in paths[..j + 1] <==> q in paths[..j] || q == p;
      if p in items {
        order := if p in loaded then order else order + [p];
        loaded := loaded[p := items[p]];
      }
    }
    assert paths[..|paths|] == paths;
  }

  method ChooseDirect(batch: Batch, loaded: map<Path, Loaded>, uses: map<Path, nat>) returns (direct: set<Path>)
    ensures forall p :: p in direct ==>
              p !in loaded && exists i :: 0 <= i < |batch| && batch[i].source.Path() == p && PlacedWhole(batch[i], uses)
  {
    direct := {};
    for k := 0 to |batch|
      invariant forall p :: p in direct ==>
                  p !in loaded && exists i :: 0 <= i < k && batch[i].source.Path() == p && PlacedWhole(batch[i], uses)
    {
      if batch[k].source.Path() !in loaded && PlacedWhole(batch[k], uses) {
        direct := direct + {batch[k].source.Path()};
      }
    }
  }

  /** Read and check what is neither at hand nor read in place. */
  method ReadPending(
    lib: Library, store: Store, ghost sources: set<Source>, paths: seq<Path>, first: map<Path, Source>,
    loaded0: map<Path, Loaded>, order0: seq<Path>, direct: set<Path>)
    returns (ok: bool, loaded: map<Path, Loaded>, order: seq<Path>)
    requires forall p :: p in paths ==> p in first && first[p].Path() == p && first[p] in sources
    requires ItemsOk(store, sources, loaded0) && forall p :: p in order0 <==> p in loaded0
    ensures ItemsOk(store, sources, loaded) && (forall p :: p in order <==> p in loaded)
    ensures forall p :: p in loaded ==> p in loaded0 || (p in paths && p !in direct)
    ensures ok ==> forall p :: p in paths ==> p in loaded || p in direct
    ensures forall p :: p in loaded0 ==> p in loaded
    ensures (forall p :: p in first ==> Trusted(lib, store, first[p])) ==> ok
  {
    hide SourceBytes, SourceOk;
    loaded, order := loaded0, order0;
    for j := 0 to |paths|
      invariant ItemsOk(store, sources, loaded) && (forall p :: p in order <==> p in loaded)
      invariant forall p :: p in loaded ==> p in loaded0 || (p in paths && p !in direct)
      invariant forall p :: p in paths[..j] ==> p in loaded || p in direct
      invariant forall p :: p in loaded0 ==> p in loaded
    {
      var p := paths[j];
      assert forall q :: q in paths[..j + 1] <==> q in paths[..j] || q == p;
      if p !in loaded && p !in direct {
        if !Trusted(lib, store, first[p]) {
          return false, loaded, order;
        }
        loaded, order := loaded[p := Loaded(first[p], SourceBytes(store, first[p]))], order + [p];
      }
    }
    assert paths[..|paths|] == paths;
    ok := true;
  }

  /** Where each span of a batch starts inside the arena. */
  function CopyOf(span: SourceSpan, arenaOffset: nat): CopySpan {
    CopySpan(arenaOffset, span.snapshotOffset, span.destinationOffset, span.count, span.destination)
  }

  function CopiesOf(batch: Batch): seq<CopySpan> {
    if batch == [] then []
    else CopiesOf(batch[..|batch| - 1]) + [CopyOf(batch[|batch| - 1], Total(batch[..|batch| - 1]))]
  }

  lemma LoadedSpan(store: Store, sources: set<Source>, s: SourceSpan, item: Loaded)
    requires PathsAgree(store, sources) && s.source in sources && ItemOk(store, sources, s.source.Path(), item)
    requires s.sourceOffset + s.count <= s.source.size
    ensures SpanOk(store, s) && s.sourceOffset + s.count <= |item.payload|
    ensures SpanBytes(store, s) == item.payload[s.sourceOffset..s.sourceOffset + s.count]
  {
    hide SourceBytes, SourceOk;
  }

  lemma DirectSpan(store: Store, s: SourceSpan)
    requires SourceOk(store, s.source) && s.sourceOffset == 0 && s.count == s.source.size
    ensures SpanOk(store, s) && SpanBytes(store, s) == SourceBytes(store, s.source)
  {
  }

  /** The batch is whole in one arena, span after span. */
  method FillArena(
    lib: Library, store: Store, ghost sources: set<Source>, batch: Batch, loaded: map<Path, Loaded>,
    direct: set<Path>, uses: map<Path, nat>)
    returns (ok: bool, arena: Bytes, copies: seq<CopySpan>)
    requires PathsAgree(store, sources) && BatchKnown(batch, sources, uses) && ItemsOk(store, sources, loaded)
    requires loaded.Keys + direct == Paths(batch)
    requires forall k :: 0 <= k < |batch| && batch[k].source.Path() in direct ==> PlacedWhole(batch[k], uses)
    ensures ok ==> SpansOk(store, batch) && arena == ReadSpans(store, batch) && copies == CopiesOf(batch)
    ensures (forall k :: 0 <= k < |batch| ==> Trusted(lib, store, batch[k].source)) ==> ok
  {
    hide SourceBytes, SourceOk, PathsAgree, ItemOk, SpanOk, ReadSpans, SpanBytes;
    arena, copies := [], [];
    var at := 0;
    EmptyRead(store, batch);
    for k := 0 to |batch|
      invariant SpansOk(store, batch[..k]) && arena == ReadSpans(store, batch[..k])
      invariant at == Total(batch[..k]) && copies == CopiesOf(batch[..k])
    {
      var span := batch[k];
      var data;
      assert span.source.Path() in Paths(batch);
      if span.source.Path() in direct {
        if !Trusted(lib, store, span.source) {
          return false, arena, copies;
        }
        DirectSpan(store, span);
        data := SourceBytes(store, span.source);
      } else {
        LoadedSpan(store, sources, span, loaded[span.source.Path()]);
        data := loaded[span.source.Path()].payload[span.sourceOffset..span.sourceOffset + span.count];
      }
      assert batch[..k + 1] == batch[..k] + [span] && batch[..k + 1][..k] == batch[..k];
      ReadOne(store, batch[..k], span);
      arena, copies, at := arena + data, copies + [CopyOf(span, at)], at + span.count;
    }
    assert batch[..|batch|] == batch;
    ok := true;
  }

  lemma EmptyRead(store: Store, batch: Batch)
    ensures SpansOk(store, batch[..0]) && ReadSpans(store, batch[..0]) == [] && Total(batch[..0]) == 0
    ensures CopiesOf(batch[..0]) == []
  {
  }

  // ---- whole runs ----

  lemma {:induction false} UsesSome(spans: Batch, p: Path, i: nat)
    requires i < |spans| && spans[i].source.Path() == p
    ensures Uses(spans, p) >= 1
    decreases |spans|
  {
    if i < |spans| - 1 {
      UsesSome(spans[..|spans| - 1], p, i);
    }
  }

  lemma {:induction false} UsesOnce(spans: Batch, p: Path, i: nat, j: nat)
    requires i < |spans| && j < |spans| && spans[i].source.Path() == p && spans[j].source.Path() == p
    requires Uses(spans, p) == 1
    ensures i == j
    decreases |spans|
  {
    var n := |spans| - 1;
    if i < n && j < n {
      UsesSome(spans[..n], p, i);
      UsesOnce(spans[..n], p, i, j);
    } else if i < n {
      UsesSome(spans[..n], p, i);
    } else if j < n {
      UsesSome(spans[..n], p, j);
    }
  }

  method CountUses(spans: Batch) returns (uses: map<Path, nat>)
    ensures forall p :: p in uses ==> uses[p] == Uses(spans, p)
  {
    uses := map[];
    for k := 0 to |spans|
      invariant forall p :: (if p in uses then uses[p] else 0) == Uses(spans[..k], p)
    {
      var p := spans[k].source.Path();
      assert spans[..k + 1][..k] == spans[..k];
      uses := uses[p := (if p in uses then uses[p] else 0) + 1];
    }
    assert spans[..|spans|] == spans;
  }

  lemma {:induction false} FlattenHas(batches: seq<Batch>, n: nat) returns (at: nat)
    requires n < |batches|
    ensures at + |batches[n]| <= |Flatten(batches)|
    ensures forall i :: 0 <= i < |batches[n]| ==> Flatten(batches)[at + i] == batches[n][i]
    decreases |batches|
  {
    var m := |batches| - 1;
    if n == m {
      at := |Flatten(batches[..m])|;
    } else {
      at := FlattenHas(batches[..m], n);
    }
  }

  lemma KnownBatch(batches: seq<Batch>, n: nat, sources: set<Source>, uses: map<Path, nat>)
    requires n < |batches|
    requires forall p :: p in uses ==> uses[p] == Uses(Flatten(batches), p)
    requires forall k :: 0 <= k < |Flatten(batches)| ==>
               var s := Flatten(batches)[k];
               s.source in sources && s.sourceOffset + s.count <= s.source.size
    ensures BatchKnown(batches[n], sources, uses)
    ensures forall k :: 0 <= k < |batches[n]| ==> batches[n][k] in Flatten(batches)
  {
    var at := FlattenHas(batches, n);
    var all, batch := Flatten(batches), batches[n];
    forall i | 0 <= i < |batch|
      ensures batch[i] in all
      ensures batch[i].source in sources && batch[i].sourceOffset + batch[i].count <= batch[i].source.size
    {
      assert all[at + i] == batch[i];
    }
    forall i, j | 0 <= i < |batch| && 0 <= j < |batch| && batch[i].source.Path() == batch[j].source.Path()
                  && PlacedWhole(batch[i], uses)
      ensures batch[i] == batch[j]
    {
      assert all[at + i] == batch[i] && all[at + j] == batch[j];
      UsesOnce(all, batch[i].source.Path(), at + i, at + j);
    }
  }

  /** The submissions of the first `n` batches. */
  ghost function SlabsOf(store: Store, batches: seq<Batch>, n: nat, arenaCount: nat): seq<Slab>
    requires n <= |batches| && arenaCount > 0 && forall k :: 0 <= k < n ==> SpansOk(store, batches[k])
  {
    if n == 0 then []
    else SlabsOf(store, batches, n - 1, arenaCount)
         + [Slab((n - 1) % arenaCount, ReadSpans(store, batches[n - 1]), CopiesOf(batches[n - 1]))]
  }

  /** Every batch reads, and this is what they all read. */
  ghost predicate ReadsAs(store: Store, batches: seq<Batch>, n: nat, bytes: Bytes)
    requires n <= |batches|
  {
    && (forall k :: 0 <= k < n ==> SpansOk(store, batches[k]))
    && SpansOk(store, Flatten(batches[..n])) && bytes == ReadSpans(store, Flatten(batches[..n]))
  }

  lemma ReadsNone(store: Store, batches: seq<Batch>)
    ensures ReadsAs(store, batches, 0, [])
  {
  }

  lemma ReadsNext(store: Store, batches: seq<Batch>, n: nat, bytes: Bytes)
    requires n < |batches| && ReadsAs(store, batches, n, bytes) && SpansOk(store, batches[n])
    ensures ReadsAs(store, batches, n + 1, bytes + ReadSpans(store, batches[n]))
  {
    hide SpanOk, ReadSpans;
    assert batches[..n + 1] == batches[..n] + [batches[n]];
    FlattenNext(batches[..n], batches[n]);
    ReadAppend(store, Flatten(batches[..n]), batches[n]);
  }

  /** Cached paths still have a batch to serve. */
  ghost predicate StillUsed(cache: map<Path, Loaded>, lastUse: map<Path, nat>, n: nat) {
    forall p :: p in cache ==> p in lastUse && lastUse[p] >= n
  }

  lemma StillUsedNext(
    batches: seq<Batch>, n: nat, before: map<Path, Loaded>, after: map<Path, Loaded>)
    requires n < |batches| && StillUsed(before, LastUse(batches, |batches|), n)
    requires forall p :: p in after ==> p in before || p in Paths(batches[n])
    requires Paths(batches[n]) <= LastUse(batches, |batches|).Keys
    requires forall p :: p in after && p in Paths(batches[n]) ==> LastUse(batches, |batches|)[p] != n
    ensures StillUsed(after, LastUse(batches, |batches|), n + 1)
  {
    hide Paths, LastUse;
    forall p | p in after
      ensures p in LastUse(batches, |batches|) && LastUse(batches, |batches|)[p] >= n + 1
    {
      LastUseIs(batches, |batches|, p);
    }
  }

  lemma UsedPaths(batches: seq<Batch>, n: nat)
    requires n < |batches|
    ensures Paths(batches[n]) <= LastUse(batches, |batches|).Keys
  {
    hide Paths, LastUse;
    forall p | p in Paths(batches[n])
      ensures p in LastUse(batches, |batches|)
    {
      LastUseIs(batches, |batches|, p);
    }
  }

  lemma NoneUsed(batches: seq<Batch>, cache: map<Path, Loaded>)
    requires StillUsed(cache, LastUse(batches, |batches|), |batches|)
    ensures cache == map[]
  {
    hide Paths, LastUse;
    forall p | p in cache
      ensures false
    {
      LastUseIs(batches, |batches|, p);
    }
  }

  class PageDeltaExecutor {
    const lib: Library
    const store: Store
    const arenaCount: nat
    const cacheLimit: nat
    /** Every source the plan or its prefetched objects name. */
    ghost const sources: set<Source>
    var prefetched: map<Path, Loaded>
    var cache: map<Path, Loaded>
    var cacheOrder: seq<Path>
    var cacheBytes: int
    /** What each arena holds. */
    var arenas: map<nat, Bytes>
    /** The arena submitted but not yet digested. */
    var pending: Option<nat>
    /** The bytes fed to the running digest so far. */
    var digested: Bytes
    var submitted: seq<Slab>

    ghost predicate CacheValid()
      reads this
    {
      ItemsOk(store, sources, prefetched) && CacheOk(store, sources, cache, cacheOrder, cacheBytes, cacheLimit)
    }

    ghost predicate Valid()
      reads this
    {
      && arenaCount > 0 && PathsAgree(store, sources) && CacheValid()
      && (pending.Some? ==> pending.value in arenas)
    }

    /** Digested bytes with the pending arena's, in order. */
    ghost function Fed(): Bytes
      reads this
      requires Valid()
    {
      digested + (if pending.Some? then arenas[pending.value] else [])
    }

    method HashPending()
      requires Valid()
      modifies this`pending, this`digested
      ensures Valid() && pending == None && digested == old(Fed())
    {
      if pending.None? {
        return;
      }
      digested := digested + arenas[pending.value];
      pending := None;
    }

    method Forget(p: Path)
      requires Valid() && p in cache
      modifies this`cache, this`cacheOrder, this`cacheBytes
      ensures Valid() && cache == old(cache) - {p} && cacheOrder == Without(old(cacheOrder), p)
      ensures |cacheOrder| < |old(cacheOrder)|
    {
      CacheForgets(store, sources, cache, cacheOrder, cacheBytes, cacheLimit, p);
      hide PathsAgree, ItemsOk, CacheOk, Without;
      cacheBytes := cacheBytes - cache[p].source.size;
      cache := cache - {p};
      cacheOrder := Without(cacheOrder, p);
    }

    /** Drop the oldest cached items until one more fits. */
    method MakeRoom(size: nat)
      requires Valid() && size <= cacheLimit
      modifies this`cache, this`cacheOrder, this`cacheBytes
      ensures Valid() && cacheBytes + size <= cacheLimit
      ensures forall p :: p in cache ==> p in old(cache)
    {
      hide PathsAgree, ItemsOk, Without;
      while cacheOrder != [] && cacheBytes + size > cacheLimit
        invariant Valid() && forall p :: p in cache ==> p in old(cache)
        decreases |cacheOrder|
      {
        Forget(cacheOrder[0]);
      }
    }

    /** After a batch: release a path at its last use, otherwise retain it within
        the bound. Neither changes what any path holds. */
    method Retire(p: Path, item: Loaded, last: bool)
      requires Valid() && ItemOk(store, sources, p, item)
      modifies this`prefetched, this`cache, this`cacheOrder, this`cacheBytes
      ensures Valid()
      ensures last ==> p !in cache && p !in prefetched
      ensures forall q :: q in cache ==> q in old(cache) || (q == p && !last)
      ensures forall q :: q in prefetched ==> q in old(prefetched)
    {
      hide PathsAgree, ItemOk, CacheOk;
      if last {
        prefetched := prefetched - {p};
        if p in cache {
          Forget(p);
        }
      } else if p !in prefetched && p !in cache {
        var size := item.source.size;
        if size <= cacheLimit {
          MakeRoom(size);
          CacheRetains(store, sources, cache, cacheOrder, cacheBytes, cacheLimit, p, item);
          cache := cache[p := item];
          cacheOrder := cacheOrder + [p];
          cacheBytes := cacheBytes + size;
        }
      }
    }

    /** Bring in what a batch needs: prefetched, then cached, then read. Extents
        that one span places whole are left to be read in place. */
    method LoadBatch(batch: Batch, uses: map<Path, nat>)
      returns (ok: bool, loaded: map<Path, Loaded>, order: seq<Path>, direct: set<Path>)
      requires Valid() && BatchKnown(batch, sources, uses)
      ensures ok ==> ItemsOk(store, sources, loaded) && (forall p :: p in order <==> p in loaded)
      ensures ok ==> loaded.Keys + direct == Paths(batch)
      ensures forall k :: 0 <= k < |batch| && batch[k].source.Path() in direct ==> PlacedWhole(batch[k], uses)
      ensures forall p :: p in direct ==> p !in cache && p !in prefetched
      ensures (forall k :: 0 <= k < |batch| ==> Trusted(lib, store, batch[k].source)) ==> ok
    {
      hide SourceOk, SourceBytes, PathsAgree, ItemOk, Trusted, PlacedWhole, Shaped, SizeSum;
      var paths, first := FirstSeen(batch);
      loaded, order := Present(paths, prefetched, map[], []);
      loaded, order := Present(paths, cache, loaded, order);
      direct := ChooseDirect(batch, loaded, uses);
      ok, loaded, order := ReadPending(lib, store, sources, paths, first, loaded, order, direct);
    }

    /** One batch: load, fill the next arena (digesting first if that arena is
        still undigested), digest the previous batch, submit, retire. */
    method RunBatch(index: nat, batch: Batch, uses: map<Path, nat>, lastUse: map<Path, nat>) returns (ok: bool)
      requires Valid() && BatchKnown(batch, sources, uses) && Paths(batch) <= lastUse.Keys
      modifies this
      ensures Valid()
      ensures ok ==>
                && SpansOk(store, batch) && Fed() == old(Fed()) + ReadSpans(store, batch)
                && submitted == old(submitted)
                                + [Slab(index % arenaCount, ReadSpans(store, batch), CopiesOf(batch))]
      ensures ok ==> forall p :: p in cache ==>
                (p in old(cache) || p in Paths(batch)) && (p in Paths(batch) ==> lastUse[p] != index)
      ensures (forall k :: 0 <= k < |batch| ==> Trusted(lib, store, batch[k].source)) ==> ok
    {
      hide SourceBytes, SourceOk, PathsAgree, ItemOk, SpanOk, ReadSpans, SpanBytes, CacheOk, PlacedWhole, Trusted,
           CopiesOf, Paths;
      var loaded, order, direct;
      ok, loaded, order, direct := LoadBatch(batch, uses);
      if !ok {
        return;
      }
      var arena := index % arenaCount;
      if pending == Some(arena) {
        HashPending();
      }
      var content, copies;
      ok, content, copies := FillArena(lib, store, sources, batch, loaded, direct, uses);
      if !ok {
        return;
      }
      arenas := arenas[arena := content];
      HashPending();
      submitted := submitted + [Slab(arena, content, copies)];
      pending := Some(arena);
      RetireAll(index, order, loaded, lastUse);
    }

    method RetireAll(index: nat, order: seq<Path>, loaded: map<Path, Loaded>, lastUse: map<Path, nat>)
      requires Valid() && ItemsOk(store, sources, loaded)
      requires forall p :: p in order ==> p in loaded && p in lastUse
      modifies this`prefetched, this`cache, this`cacheOrder, this`cacheBytes
      ensures Valid()
      ensures forall p :: p in cache ==> (p in old(cache) || p in order) && (p in order ==> lastUse[p] != index)
    {
      hide SourceBytes, SourceOk, PathsAgree, ItemOk, CacheOk;
      for j := 0 to |order|
        invariant Valid()
        invariant forall p :: p in cache ==> (p in old(cache) || p in order) && (p in order[..j] ==> lastUse[p] != index)
      {
        var p := order[j];
        assert forall q :: q in order[..j + 1] <==> q in order[..j] || q == p;
        Retire(p, loaded[p], lastUse[p] == index);
      }
      assert order[..|order|] == order;
    }

    constructor (
      lib: Library, store: Store, arenaCount: nat, cacheLimit: nat, prefetched: map<Path, Loaded>, header: Bytes,
      ghost sources: set<Source>)
      requires arenaCount > 0 && PathsAgree(store, sources) && ItemsOk(store, sources, prefetched)
      ensures Valid() && this.lib == lib && this.store == store && this.sources == sources
      ensures this.arenaCount == arenaCount && this.cacheLimit == cacheLimit
      ensures pending == None && digested == header && submitted == [] && cache == map[]
    {
      this.lib, this.store, this.arenaCount, this.cacheLimit, this.sources := lib, store, arenaCount, cacheLimit, sources;
      this.prefetched, cache, cacheOrder, cacheBytes := prefetched, map[], [], 0;
      arenas, pending, digested, submitted := map[], None, header, [];
    }

    /** A whole run. Eviction never changes a byte: each batch submits exactly its
        own bytes, the digest consumes header and payload once and in order, and
        nothing stays cached. When every source checks out, the run succeeds
        exactly when the payload has the promised digest. */
    method Execute(batches: seq<Batch>, resultSha: Hash) returns (ok: bool)
      requires Valid() && pending == None && submitted == [] && cache == map[]
      requires forall k :: 0 <= k < |Flatten(batches)| ==>
                 var s := Flatten(batches)[k];
                 s.source in sources && s.sourceOffset + s.count <= s.source.size
      modifies this
      ensures Valid()
      ensures ok ==>
                && (forall k :: 0 <= k < |batches| ==> SpansOk(store, batches[k])) && SpansOk(store, Flatten(batches))
                && digested == old(digested) + ReadSpans(store, Flatten(batches)) && lib.sha(digested) == resultSha
                && submitted == SlabsOf(store, batches, |batches|, arenaCount) && cache == map[]
      ensures (forall s :: s in Flatten(batches) ==> Trusted(lib, store, s.source)) ==>
                SpansOk(store, Flatten(batches))
                && (ok <==> lib.sha(old(digested) + ReadSpans(store, Flatten(batches))) == resultSha)
    {
      hide SourceBytes, SourceOk, PathsAgree, ItemOk, SpanOk, ReadSpans, SpanBytes, CacheOk, ItemsOk, PlacedWhole, Trusted,
           CopiesOf, Paths, LastUse, Flatten, Uses, BatchKnown, StillUsed, ReadsAs;
      var uses := CountUses(Flatten(batches));
      var lastUse := LastUse(batches, |batches|);
      ghost var bytes: Bytes := [];
      ReadsNone(store, batches);
      assert StillUsed(cache, lastUse, 0) by { NothingCached(lastUse); }
      for n := 0 to |batches|
        invariant Valid() && ReadsAs(store, batches, n, bytes) && Fed() == old(digested) + bytes
        invariant (forall k :: 0 <= k < n ==> SpansOk(store, batches[k]))
                  && submitted == SlabsOf(store, batches, n, arenaCount)
        invariant StillUsed(cache, lastUse, n)
      {
        KnownBatch(batches, n, sources, uses);
        UsedPaths(batches, n);
        ghost var before := cache;
        var loaded := RunBatch(n, batches[n], uses, lastUse);
        if !loaded {
          return false;
        }
        StillUsedNext(batches, n, before, cache);
        ReadsNext(store, batches, n, bytes);
        bytes := bytes + ReadSpans(store, batches[n]);
      }
      NoneUsed(batches, cache);
      ReadsAll(store, batches, bytes);
      HashPending();
      ok := lib.sha(digested) == resultSha;
    }
  }

  lemma NothingCached(lastUse: map<Path, nat>)
    ensures StillUsed(map[], lastUse, 0)
  {
  }

  lemma ReadsAll(store: Store, batches: seq<Batch>, bytes: Bytes)
    requires ReadsAs(store, batches, |batches|, bytes)
    ensures SpansOk(store, Flatten(batches)) && bytes == ReadSpans(store, Flatten(batches))
  {
    assert batches[..|batches|] == batches;
  }
}
