// Storing a rank's rows in chunks and restoring them into other blocks.
module RowRestore {
  import opened Common
  import opened Pages
  import opened RowCodec

  /** One encoded chunk: its positions and one record per kind. */
  datatype Chunk = Chunk(positions: seq<int>, records: map<nat, Bytes>)

  // ---- cutting and joining equal pieces ----

  lemma PieceEnds(i: int, n: int, a: nat)
    requires 0 <= i < n
    ensures 0 <= i * a <= (i + 1) * a <= n * a && (i + 1) * a == i * a + a
  {
  }

  /** The rows of one layer, as they are read out slot by slot. */
  function RowsAt(rows: seq<Bytes>, slots: seq<nat>): (r: seq<Bytes>)
    requires forall k :: 0 <= k < |slots| ==> slots[k] < |rows|
    ensures |r| == |slots| && forall k :: 0 <= k < |slots| ==> r[k] == rows[slots[k]]
  {
    seq(|slots|, k requires 0 <= k < |slots| => rows[slots[k]])
  }

  predicate Uniform(rows: seq<Bytes>, w: nat) {
    forall k :: 0 <= k < |rows| ==> |rows[k]| == w
  }

  lemma TimesNext(n: nat, w: nat)
    ensures n * w + w == (n + 1) * w
  {
  }

  lemma {:induction false} JoinUniform(rows: seq<Bytes>, w: nat)
    requires Uniform(rows, w)
    ensures |Join(rows)| == |rows| * w
  {
    if rows != [] {
      var n := |rows| - 1;
      JoinUniform(rows[..n], w);
      TimesNext(n, w);
      assert rows == rows[..n] + [rows[n]];
      JoinAppend(rows[..n], rows[n]);
      hide Join;
    }
  }

  /** Row `k` is where its index says. */
  lemma JoinedRow(rows: seq<Bytes>, w: nat, k: nat)
    requires Uniform(rows, w) && k < |rows|
    ensures 0 <= k * w <= (k + 1) * w <= |Join(rows)| == |rows| * w
    ensures Join(rows)[k * w..(k + 1) * w] == rows[k]
  {
    hide Join;
    JoinUniform(rows, w);
    JoinUniform(rows[..k], w);
    PieceEnds(k, |rows|, w);
    JoinSplit(rows, k);
    hide Uniform;
    Middle(Join(rows[..k]), rows[k], Join(rows[k + 1..]));
  }

  // ---- storing ----

  /** The layer has at least `i + 1` chunks of `n` rows. */
  predicate Enough(p: LayerPlan, layers: map<string, Bytes>, n: nat, i: nat) {
    p.name in layers && 0 <= i * (n * p.width) <= (i + 1) * (n * p.width) <= |layers[p.name]|
  }

  predicate AllEnough(plans: seq<LayerPlan>, layers: map<string, Bytes>, n: nat, i: nat) {
    forall j :: 0 <= j < |plans| ==> Enough(plans[j], layers, n, i)
  }

  function Piece(p: LayerPlan, layers: map<string, Bytes>, n: nat, i: nat): Bytes
    requires Enough(p, layers, n, i)
  {
    layers[p.name][i * (n * p.width)..(i + 1) * (n * p.width)]
  }

  /** The rows of chunk `i`, layer by layer. */
  function ChunkRows(plans: seq<LayerPlan>, layers: map<string, Bytes>, n: nat, i: nat): map<string, Bytes>
    requires AllEnough(plans, layers, n, i)
  {
    if plans == [] then map[]
    else
      var p := plans[|plans| - 1];
      ChunkRows(plans[..|plans| - 1], layers, n, i)[p.name := Piece(p, layers, n, i)]
  }

  lemma {:induction false} ChunkRowsAt(plans: seq<LayerPlan>, layers: map<string, Bytes>, n: nat, i: nat, j: nat)
    requires PlansOk(plans) && j < |plans| && AllEnough(plans, layers, n, i)
    ensures plans[j].name in ChunkRows(plans, layers, n, i)
    ensures ChunkRows(plans, layers, n, i)[plans[j].name] == Piece(plans[j], layers, n, i)
    decreases |plans|
  {
    if j < |plans| - 1 {
      ChunkRowsAt(plans[..|plans| - 1], layers, n, i, j);
    }
  }

  /** The chunk carries the shard's own positions. */
  predicate PositionsMatch(positions: seq<int>, n: nat, i: nat, chunk: Chunk) {
    0 <= i * n <= (i + 1) * n <= |positions| && chunk.positions == positions[i * n..(i + 1) * n]
  }

  /** Chunk `i` as it is built from a snapshot. */
  ghost predicate IsChunk(
    plans: seq<LayerPlan>, kinds: seq<nat>, positions: seq<int>, layers: map<string, Bytes>, n: nat, i: nat, chunk: Chunk)
  {
    && PositionsMatch(positions, n, i, chunk)
    && AllEnough(plans, layers, n, i)
    && forall kind :: kind in kinds ==>
         kind in chunk.records && PackRecord(plans, kind, ChunkRows(plans, layers, n, i), n) == Ok(chunk.records[kind])
  }

  ghost predicate IsStored(
    plans: seq<LayerPlan>, kinds: seq<nat>, positions: seq<int>, layers: map<string, Bytes>, n: nat, chunks: seq<Chunk>)
  {
    forall i :: 0 <= i < |chunks| ==> IsChunk(plans, kinds, positions, layers, n, i, chunks[i])
  }

  method BuildChunk(
    plans: seq<LayerPlan>, kinds: seq<nat>, positions: seq<int>, layers: map<string, Bytes>, n: nat, i: nat)
    returns (r: Result<Chunk, CodecError>)
    requires 0 <= i * n <= (i + 1) * n <= |positions| && AllEnough(plans, layers, n, i)
    ensures r.Ok? ==> IsChunk(plans, kinds, positions, layers, n, i, r.value)
    ensures (forall kind :: kind in kinds ==> PackRecord(plans, kind, ChunkRows(plans, layers, n, i), n).Ok?) ==> r.Ok?
  {
    hide PackRecord, Enough, ChunkRows;
    var rows: map<string, Bytes> := map[];
    assert plans[..0] == [];
    assert rows == ChunkRows([], layers, n, i) by { NoRows(layers, n, i); }
    for j := 0 to |plans|
      invariant AllEnough(plans[..j], layers, n, i)
      invariant rows == ChunkRows(plans[..j], layers, n, i)
    {
      RowsNext(plans, layers, n, i, j);
      rows := rows[plans[j].name := Piece(plans[j], layers, n, i)];
    }
    assert plans[..|plans|] == plans;
    var records: map<nat, Bytes> := map[];
    for k := 0 to |kinds|
      invariant forall m :: 0 <= m < k ==> kinds[m] in records && PackRecord(plans, kinds[m], rows, n) == Ok(records[kinds[m]])
    {
      var record := PackRecordRows(plans, kinds[k], rows, n);
      if record.Err? {
        return Err(record.error);
      }
      records := records[kinds[k] := record.value];
    }
    r := Ok(Chunk(positions[i * n..(i + 1) * n], records));
  }

  lemma NoRows(layers: map<string, Bytes>, n: nat, i: nat)
    ensures ChunkRows([], layers, n, i) == map[]
  {
  }

  lemma RowsNext(plans: seq<LayerPlan>, layers: map<string, Bytes>, n: nat, i: nat, j: nat)
    requires j < |plans| && AllEnough(plans, layers, n, i)
    ensures AllEnough(plans[..j], layers, n, i) && AllEnough(plans[..j + 1], layers, n, i)
    ensures Enough(plans[j], layers, n, i)
    ensures ChunkRows(plans[..j + 1], layers, n, i)
            == ChunkRows(plans[..j], layers, n, i)[plans[j].name := Piece(plans[j], layers, n, i)]
  {
    assert plans[..j + 1][..j] == plans[..j];
  }

  /** Packing never refuses rows that were cut from whole layers. */
  lemma {:induction false} PiecesPack(
    plans: seq<LayerPlan>, layers: map<string, Bytes>, n: nat, i: nat, kind: nat, rows: map<string, Bytes>)
    requires forall j :: 0 <= j < |plans| ==>
               plans[j].name in rows && |rows[plans[j].name]| == plans[j].width * n
    ensures FirstMisfit(plans, kind, rows, n).None?
  {
    if plans != [] {
      PiecesPack(plans[..|plans| - 1], layers, n, i, kind, rows);
    }
  }

  lemma PieceSize(p: LayerPlan, layers: map<string, Bytes>, n: nat, i: nat)
    requires Enough(p, layers, n, i)
    ensures |Piece(p, layers, n, i)| == p.width * n
  {
    assert (i + 1) * (n * p.width) - i * (n * p.width) == n * p.width;
  }

  lemma ChunkPacks(plans: seq<LayerPlan>, layers: map<string, Bytes>, n: nat, i: nat, kind: nat)
    requires PlansOk(plans) && AllEnough(plans, layers, n, i)
    ensures PackRecord(plans, kind, ChunkRows(plans, layers, n, i), n).Ok? <==> Contributes(plans, kind)
  {
    var rows := ChunkRows(plans, layers, n, i);
    forall j | 0 <= j < |plans|
      ensures plans[j].name in rows && |rows[plans[j].name]| == plans[j].width * n
    {
      ChunkRowsAt(plans, layers, n, i, j);
      PieceSize(plans[j], layers, n, i);
    }
    PiecesPack(plans, layers, n, i, kind, rows);
  }

  lemma WholeEnough(plans: seq<LayerPlan>, layers: map<string, Bytes>, n: nat, count: nat, i: nat)
    requires WholeLayers(plans, layers, count * n) && i < count
    ensures AllEnough(plans, layers, n, i)
  {
    forall j | 0 <= j < |plans|
      ensures Enough(plans[j], layers, n, i)
    {
      Associate(count, n, plans[j].width);
      PieceEnds(i, count, n * plans[j].width);
    }
  }

  /** A snapshot of whole rows is always stored, chunk after chunk. */
  method StoreChunks(
    plans: seq<LayerPlan>, kinds: seq<nat>, positions: seq<int>, layers: map<string, Bytes>, n: nat, count: nat)
    returns (r: Result<seq<Chunk>, CodecError>)
    requires PlansOk(plans) && KindsOk(plans, kinds) && |positions| == count * n
    requires WholeLayers(plans, layers, count * n)
    ensures r.Ok? && |r.value| == count && IsStored(plans, kinds, positions, layers, n, r.value)
  {
    hide IsChunk, PackRecord, ChunkRows, Enough, PlansOk, WholeLayers, AllEnough;
    var chunks: seq<Chunk> := [];
    for i := 0 to count
      invariant |chunks| == i && IsStored(plans, kinds, positions, layers, n, chunks)
    {
      WholeEnough(plans, layers, n, count, i);
      PieceEnds(i, count, n);
      forall kind | kind in kinds
        ensures PackRecord(plans, kind, ChunkRows(plans, layers, n, i), n).Ok?
      {
        ChunkPacks(plans, layers, n, i, kind);
      }
      var chunk := BuildChunk(plans, kinds, positions, layers, n, i);
      chunks := chunks + [chunk.value];
    }
    r := Ok(chunks);
  }

  // ---- reassembling ----

  /** The kinds a snapshot records: each once, and together all that layers have. */
  predicate KindsOk(plans: seq<LayerPlan>, kinds: seq<nat>) {
    && (forall i, j :: 0 <= i < j < |kinds| ==> kinds[i] != kinds[j])
    && (forall i :: 0 <= i < |kinds| ==> Contributes(plans, kinds[i]))
    && forall i :: 0 <= i < |plans| ==> plans[i].kind in kinds
  }

  /** How far a layer has been put together. */
  ghost predicate Gathered(p: LayerPlan, layers: map<string, Bytes>, out: map<string, Bytes>, n: nat, k: nat) {
    p.name in layers && p.name in out && 0 <= k * (n * p.width) <= |layers[p.name]|
    && out[p.name] == layers[p.name][..k * (n * p.width)]
  }

  lemma GatherNext(p: LayerPlan, layers: map<string, Bytes>, out: map<string, Bytes>, n: nat, k: nat)
    requires Gathered(p, layers, out, n, k) && Enough(p, layers, n, k)
    ensures Gathered(p, layers, out[p.name := out[p.name] + Piece(p, layers, n, k)], n, k + 1)
  {
  }

  method AppendSplit(plans: seq<LayerPlan>, kind: nat, split: map<string, Bytes>, out0: map<string, Bytes>)
    returns (out: map<string, Bytes>)
    requires PlansOk(plans) && forall i :: 0 <= i < |plans| ==> plans[i].name in out0
    requires forall i :: 0 <= i < |plans| && plans[i].kind == kind ==> plans[i].name in split
    ensures forall i :: 0 <= i < |plans| ==>
              && plans[i].name in out
              && out[plans[i].name]
                 == out0[plans[i].name] + (if plans[i].kind == kind then split[plans[i].name] else [])
  {
    out := out0;
    for j := 0 to |plans|
      invariant forall i :: 0 <= i < |plans| ==>
                  && plans[i].name in out
                  && out[plans[i].name]
                     == out0[plans[i].name] + (if i < j && plans[i].kind == kind then split[plans[i].name] else [])
    {
      if plans[j].kind == kind {
        out := out[plans[j].name := out[plans[j].name] + split[plans[j].name]];
      }
    }
  }

  /** What one stored chunk adds to each layer. */
  lemma SplitIsPiece(
    plans: seq<LayerPlan>, kinds: seq<nat>, positions: seq<int>, layers: map<string, Bytes>, n: nat, i: nat,
    chunk: Chunk, kind: nat, split: map<string, Bytes>)
    requires PlansOk(plans) && IsChunk(plans, kinds, positions, layers, n, i, chunk) && kind in kinds
    ensures kind in chunk.records && |chunk.records[kind]| == RecordSize(plans, kind, n) && Contributes(plans, kind)
    ensures Splits(plans, kind, chunk.records[kind], n, split) ==>
              forall j :: 0 <= j < |plans| && plans[j].kind == kind ==>
                plans[j].name in split && split[plans[j].name] == Piece(plans[j], layers, n, i)
  {
    var rows := ChunkRows(plans, layers, n, i);
    SplitOfPacked(plans, kind, rows, n, split);
    hide Splits, RecordSize;
    forall j | 0 <= j < |plans| && plans[j].kind == kind
      ensures plans[j].name in rows && rows[plans[j].name] == Piece(plans[j], layers, n, i)
    {
      ChunkRowsAt(plans, layers, n, i, j);
    }
  }

  /** After `i` whole chunks and the kinds `kinds[..k]` of the next. */
  ghost predicate Partly(
    plans: seq<LayerPlan>, kinds: seq<nat>, layers: map<string, Bytes>, out: map<string, Bytes>, n: nat, i: nat, k: nat)
    requires k <= |kinds|
  {
    forall j :: 0 <= j < |plans| ==>
      Gathered(plans[j], layers, out, n, if plans[j].kind in kinds[..k] then i + 1 else i)
  }

  lemma PartlyNext(
    plans: seq<LayerPlan>, kinds: seq<nat>, layers: map<string, Bytes>, before: map<string, Bytes>,
    after: map<string, Bytes>, n: nat, i: nat, k: nat, split: map<string, Bytes>)
    requires KindsOk(plans, kinds) && k < |kinds| && Partly(plans, kinds, layers, before, n, i, k)
    requires AllEnough(plans, layers, n, i)
    requires forall j :: 0 <= j < |plans| && plans[j].kind == kinds[k] ==>
               plans[j].name in split && split[plans[j].name] == Piece(plans[j], layers, n, i)
    requires forall j :: 0 <= j < |plans| ==>
               && plans[j].name in before && plans[j].name in after
               && after[plans[j].name]
                  == before[plans[j].name] + (if plans[j].kind == kinds[k] then split[plans[j].name] else [])
    ensures Partly(plans, kinds, layers, after, n, i, k + 1)
  {
    assert kinds[..k + 1] == kinds[..k] + [kinds[k]];
    assert kinds[k] !in kinds[..k];
    forall j | 0 <= j < |plans|
      ensures Gathered(plans[j], layers, after, n, if plans[j].kind in kinds[..k + 1] then i + 1 else i)
    {
      if plans[j].kind == kinds[k] {
        GatherNext(plans[j], layers, before, n, i);
      }
    }
  }

  lemma PartlyWhole(
    plans: seq<LayerPlan>, kinds: seq<nat>, layers: map<string, Bytes>, out: map<string, Bytes>, n: nat, i: nat)
    requires KindsOk(plans, kinds) && Partly(plans, kinds, layers, out, n, i, |kinds|)
    ensures Partly(plans, kinds, layers, out, n, i + 1, 0)
  {
    assert kinds[..|kinds|] == kinds;
    hide Gathered;
  }

  /** Add one chunk's records to every layer. */
  method AppendChunk(
    plans: seq<LayerPlan>, kinds: seq<nat>, chunk: Chunk, n: nat, out0: map<string, Bytes>,
    ghost positions: seq<int>, ghost layers: map<string, Bytes>, ghost i: nat, ghost stored: bool)
    returns (r: Result<map<string, Bytes>, CodecError>)
    requires PlansOk(plans) && KindsOk(plans, kinds) && forall j :: 0 <= j < |plans| ==> plans[j].name in out0
    requires stored ==> IsChunk(plans, kinds, positions, layers, n, i, chunk) && Partly(plans, kinds, layers, out0, n, i, 0)
    ensures r.Ok? ==> forall j :: 0 <= j < |plans| ==> plans[j].name in r.value
    ensures stored ==> r.Ok? && Partly(plans, kinds, layers, r.value, n, i + 1, 0)
  {
    hide Splits, PlansOk, KindsOk, Partly, RecordSize, IsChunk;
    var out := out0;
    for k := 0 to |kinds|
      invariant forall j :: 0 <= j < |plans| ==> plans[j].name in out
      invariant stored ==> Partly(plans, kinds, layers, out, n, i, k)
    {
      if stored {
        SplitIsPiece(plans, kinds, positions, layers, n, i, chunk, kinds[k], map[]);
      }
      if kinds[k] !in chunk.records {
        return Err(MissingRows);
      }
      var split := UnpackRecord(plans, kinds[k], chunk.records[kinds[k]], n);
      if split.Err? {
        return Err(split.error);
      }
      SplitNames(plans, kinds[k], chunk.records[kinds[k]], n, split.value);
      var more := AppendSplit(plans, kinds[k], split.value, out);
      if stored {
        SplitIsPiece(plans, kinds, positions, layers, n, i, chunk, kinds[k], split.value);
        ChunkEnough(plans, kinds, positions, layers, n, i, chunk);
        PartlyNext(plans, kinds, layers, out, more, n, i, k, split.value);
      }
      out := more;
    }
    if stored {
      PartlyWhole(plans, kinds, layers, out, n, i);
    }
    r := Ok(out);
  }

  lemma SplitNames(plans: seq<LayerPlan>, kind: nat, payload: Bytes, n: nat, split: map<string, Bytes>)
    requires |payload| == RecordSize(plans, kind, n) && Splits(plans, kind, payload, n, split)
    ensures forall j :: 0 <= j < |plans| && plans[j].kind == kind ==> plans[j].name in split
  {
    hide RecordSize;
  }

  lemma ChunkEnough(
    plans: seq<LayerPlan>, kinds: seq<nat>, positions: seq<int>, layers: map<string, Bytes>, n: nat, i: nat, chunk: Chunk)
    requires IsChunk(plans, kinds, positions, layers, n, i, chunk)
    ensures AllEnough(plans, layers, n, i)
  {
    hide Enough;
  }

  /** Reassembly of stored chunks returns every layer's bytes, and no chunk whose
      positions differ from the shard's is ever accepted. */
  method Reassemble(
    plans: seq<LayerPlan>, kinds: seq<nat>, positions: seq<int>, chunks: seq<Chunk>, n: nat,
    ghost layers: map<string, Bytes>)
    returns (r: Result<map<string, Bytes>, CodecError>)
    requires PlansOk(plans) && KindsOk(plans, kinds) && |positions| == |chunks| * n
    ensures r.Ok? ==> forall i :: 0 <= i < |chunks| ==> PositionsMatch(positions, n, i, chunks[i])
    ensures IsStored(plans, kinds, positions, layers, n, chunks) && WholeLayers(plans, layers, |chunks| * n) ==>
              r.Ok? && forall j :: 0 <= j < |plans| ==>
                         plans[j].name in layers && plans[j].name in r.value
                         && r.value[plans[j].name] == layers[plans[j].name]
  {
    hide IsChunk, Partly, KindsOk, PlansOk, WholeLayers;
    ghost var stored := IsStored(plans, kinds, positions, layers, n, chunks) && WholeLayers(plans, layers, |chunks| * n);
    var out: map<string, Bytes> := map name | name in Names(plans) :: [];
    NamesIn(plans);
    if stored {
      NothingGathered(plans, kinds, layers, out, n, |chunks| * n);
    }
    for i := 0 to |chunks|
      invariant forall j :: 0 <= j < |plans| ==> plans[j].name in out
      invariant forall m :: 0 <= m < i ==> PositionsMatch(positions, n, m, chunks[m])
      invariant stored ==> Partly(plans, kinds, layers, out, n, i, 0)
    {
      PieceEnds(i, |chunks|, n);
      if stored {
        ChunkPositions(plans, kinds, positions, layers, n, i, chunks[i]);
      }
      if chunks[i].positions != positions[i * n..(i + 1) * n] {
        return Err(PositionsDiffer);
      }
      var more := AppendChunk(plans, kinds, chunks[i], n, out, positions, layers, i, stored);
      if more.Err? {
        return Err(more.error);
      }
      out := more.value;
    }
    if stored {
      AllGathered(plans, kinds, layers, out, n, |chunks|);
    }
    r := Ok(out);
  }

  function Names(plans: seq<LayerPlan>): set<string> {
    if plans == [] then {} else Names(plans[..|plans| - 1]) + {plans[|plans| - 1].name}
  }

  lemma {:induction false} NamesIn(plans: seq<LayerPlan>)
    ensures forall j :: 0 <= j < |plans| ==> plans[j].name in Names(plans)
  {
    if plans != [] {
      NamesIn(plans[..|plans| - 1]);
    }
  }

  /** Every layer holds exactly `rows` rows. */
  predicate WholeLayers(plans: seq<LayerPlan>, layers: map<string, Bytes>, rows: nat) {
    forall j :: 0 <= j < |plans| ==> plans[j].name in layers && |layers[plans[j].name]| == rows * plans[j].width
  }

  lemma NothingGathered(
    plans: seq<LayerPlan>, kinds: seq<nat>, layers: map<string, Bytes>, out: map<string, Bytes>, n: nat, rows: nat)
    requires WholeLayers(plans, layers, rows)
    requires forall j :: 0 <= j < |plans| ==> plans[j].name in out && out[plans[j].name] == []
    ensures Partly(plans, kinds, layers, out, n, 0, 0)
  {
  }

  lemma ChunkPositions(
    plans: seq<LayerPlan>, kinds: seq<nat>, positions: seq<int>, layers: map<string, Bytes>, n: nat, i: nat, chunk: Chunk)
    requires IsChunk(plans, kinds, positions, layers, n, i, chunk)
    ensures PositionsMatch(positions, n, i, chunk)
  {
  }

  lemma AllGathered(
    plans: seq<LayerPlan>, kinds: seq<nat>, layers: map<string, Bytes>, out: map<string, Bytes>, n: nat, count: nat)
    requires Partly(plans, kinds, layers, out, n, count, 0) && WholeLayers(plans, layers, count * n)
    ensures forall j :: 0 <= j < |plans| ==>
              plans[j].name in layers && plans[j].name in out && out[plans[j].name] == layers[plans[j].name]
  {
    forall j | 0 <= j < |plans|
      ensures plans[j].name in layers && plans[j].name in out && out[plans[j].name] == layers[plans[j].name]
    {
      assert Gathered(plans[j], layers, out, n, count);
      Associate(count, n, plans[j].width);
    }
  }

  lemma Associate(a: nat, b: nat, c: nat)
    ensures a * (b * c) == a * b * c
  {
  }

  // ---- from old rows to new rows ----

  /** Write one value per slot, in order. */
  function Scatter(rows: seq<Bytes>, slots: seq<nat>, values: seq<Bytes>): (r: seq<Bytes>)
    requires |slots| == |values| && forall k :: 0 <= k < |slots| ==> slots[k] < |rows|
    ensures |r| == |rows|
  {
    if slots == [] then rows
    else
      var n := |slots| - 1;
      Scatter(rows, slots[..n], values[..n])[slots[n] := values[n]]
  }

  lemma {:induction false} ScatterAt(rows: seq<Bytes>, slots: seq<nat>, values: seq<Bytes>)
    requires |slots| == |values| && forall k :: 0 <= k < |slots| ==> slots[k] < |rows|
    requires forall i, j :: 0 <= i < j < |slots| ==> slots[i] != slots[j]
    ensures forall k :: 0 <= k < |slots| ==> Scatter(rows, slots, values)[slots[k]] == values[k]
    ensures forall m :: 0 <= m < |rows| && m !in slots ==> Scatter(rows, slots, values)[m] == rows[m]
  {
    if slots != [] {
      var n := |slots| - 1;
      ScatterAt(rows, slots[..n], values[..n]);
      forall k | 0 <= k < |slots|
        ensures Scatter(rows, slots, values)[slots[k]] == values[k]
      {
        if k < n {
          assert slots[..n][k] == slots[k];
        }
      }
    }
  }

  method ScatterRows(memory: array<Bytes>, slots: seq<nat>, values: seq<Bytes>)
    requires |slots| == |values| && forall k :: 0 <= k < |slots| ==> slots[k] < memory.Length
    modifies memory
    ensures memory[..] == Scatter(old(memory[..]), slots, values)
  {
    for k := 0 to |slots|
      invariant memory[..] == Scatter(old(memory[..]), slots[..k], values[..k])
    {
      assert slots[..k + 1][..k] == slots[..k] && values[..k + 1][..k] == values[..k];
      memory[slots[k]] := values[k];
    }
    assert slots[..|slots|] == slots && values[..|values|] == values;
  }

  /** A layer's reassembled bytes, row by row. */
  function SplitRows(payload: Bytes, w: nat, n: nat): (rows: seq<Bytes>)
    requires |payload| == n * w
    ensures |rows| == n
  {
    seq(n, k requires 0 <= k < n =>
      PieceEnds(k, n, w);
      payload[k * w..(k + 1) * w])
  }

  lemma SplitOfJoin(rows: seq<Bytes>, w: nat)
    requires Uniform(rows, w)
    ensures |Join(rows)| == |rows| * w && SplitRows(Join(rows), w, |rows|) == rows
  {
    JoinUniform(rows, w);
    forall k | 0 <= k < |rows|
      ensures SplitRows(Join(rows), w, |rows|)[k] == rows[k]
    {
      JoinedRow(rows, w, k);
    }
  }

  /** Every rank owns the same number of rows of a chunk-aligned span. */
  lemma OwnedWhole(span: nat, chunk: nat, degree: nat, rank: nat)
    requires chunk > 0 && degree > 0 && span > 0 && span % chunk == 0 && chunk % degree == 0 && rank < degree
    ensures |Owned(span, degree, rank)| == (span / chunk) * (chunk / degree)
  {
    var a, b := span / chunk, chunk / degree;
    assert chunk == b * degree && span == a * chunk;
    Associate(a, b, degree);
    var n := a * b;
    assert span == n * degree;
    CountWhole(n, degree, rank);
  }

  lemma CountWhole(n: nat, degree: nat, rank: nat)
    requires rank < degree && n * degree > 0
    ensures OwnedCount(n * degree, degree, rank) == n
  {
    var span := n * degree;
    assert n >= 1;
    assert span >= degree;
    var t := span - rank + degree - 1;
    assert t == n * degree + (degree - 1 - rank);
    DivExact(n, degree, degree - 1 - rank);
  }

  /** The k-th owned position is the k-th row of the shard. */
  lemma OwnedOrdinal(span: int, degree: int, rank: int, k: nat)
    requires 0 <= rank < degree && k < |Owned(span, degree, rank)|
    ensures Owned(span, degree, rank)[k] / degree == k
  {
    DivExact(k, degree, rank);
  }

  /** Where a shard's rows lie in the given blocks, in shard order. */
  predicate Placed(span: int, degree: int, rank: int, size: int, blocks: seq<nat>, slots: seq<nat>)
    requires degree > 0
  {
    Slots(Owned(span, degree, rank), blocks, size, degree) == Ok(slots)
  }

  lemma PlacedDistinct(span: int, degree: int, rank: int, size: int, blocks: seq<nat>, slots: seq<nat>)
    requires 0 <= rank < degree && Placed(span, degree, rank, size, blocks, slots)
    requires forall i, j :: 0 <= i < j < |blocks| ==> blocks[i] != blocks[j]
    ensures |slots| == |Owned(span, degree, rank)|
    ensures forall i, j :: 0 <= i < j < |slots| ==> slots[i] != slots[j]
  {
    var positions := Owned(span, degree, rank);
    forall i, j | 0 <= i < j < |slots|
      ensures slots[i] != slots[j]
    {
      OwnedOrdinal(span, degree, rank, i);
      OwnedOrdinal(span, degree, rank, j);
      assert Allocated(positions[i], blocks, size, degree) && Allocated(positions[j], blocks, size, degree);
      SlotsDistinct(blocks, size, i, j);
    }
  }

  lemma RowsAtUniform(source: seq<Bytes>, slots: seq<nat>, w: nat)
    requires Uniform(source, w) && forall k :: 0 <= k < |slots| ==> slots[k] < |source|
    ensures Uniform(RowsAt(source, slots), w) && |RowsAt(source, slots)| == |slots|
    ensures forall k :: 0 <= k < |slots| ==> RowsAt(source, slots)[k] == source[slots[k]]
  {
  }

  /** Scattering gathered rows, whatever the rank and the distinct new blocks:
      the row of a position at its old slot becomes the row at its new slot, and
      no other row of the new memory changes. */
  lemma RowsSurvive(
    span: int, degree: int, rank: int, size: int, newBlocks: seq<nat>, olds: seq<nat>, news: seq<nat>,
    source: seq<Bytes>, target: seq<Bytes>, w: nat)
    requires 0 <= rank < degree && Placed(span, degree, rank, size, newBlocks, news) && |olds| == |news|
    requires forall i, j :: 0 <= i < j < |newBlocks| ==> newBlocks[i] != newBlocks[j]
    requires Uniform(source, w)
    requires (forall k :: 0 <= k < |olds| ==> olds[k] < |source|) && forall k :: 0 <= k < |news| ==> news[k] < |target|
    ensures var payload := Join(RowsAt(source, olds));
            && |payload| == |news| * w
            && var restored := Scatter(target, news, SplitRows(payload, w, |news|));
               && (forall k :: 0 <= k < |news| ==> restored[news[k]] == source[olds[k]])
               && (forall m :: 0 <= m < |target| && m !in news ==> restored[m] == target[m])
  {
    RowsAtUniform(source, olds, w);
    hide *;
    SplitOfJoin(RowsAt(source, olds), w);
    PlacedDistinct(span, degree, rank, size, newBlocks, news);
    ScatterAt(target, news, SplitRows(Join(RowsAt(source, olds)), w, |news|));
  }

  // ---- every layer, there and back ----

  /** Every layer's rows have the layer's width and reach the slots. */
  predicate RowsReach(plans: seq<LayerPlan>, rows: map<string, seq<Bytes>>, slots: seq<nat>) {
    forall j :: 0 <= j < |plans| ==>
      && plans[j].name in rows && Uniform(rows[plans[j].name], plans[j].width)
      && forall k :: 0 <= k < |slots| ==> slots[k] < |rows[plans[j].name]|
  }

  /** The layer's rows at the slots, one after another. */
  ghost predicate GatheredFrom(p: LayerPlan, source: map<string, seq<Bytes>>, slots: seq<nat>, layers: map<string, Bytes>) {
    && p.name in source && (forall k :: 0 <= k < |slots| ==> slots[k] < |source[p.name]|)
    && p.name in layers && layers[p.name] == Join(RowsAt(source[p.name], slots))
  }

  /** Read every layer's rows out of the memory. */
  method GatherLayers(plans: seq<LayerPlan>, source: map<string, seq<Bytes>>, slots: seq<nat>)
    returns (layers: map<string, Bytes>)
    requires PlansOk(plans) && RowsReach(plans, source, slots)
    ensures forall j :: 0 <= j < |plans| ==> GatheredFrom(plans[j], source, slots, layers)
    ensures WholeLayers(plans, layers, |slots|)
  {
    hide Join, RowsAt;
    layers := map[];
    for j := 0 to |plans|
      invariant forall i :: 0 <= i < j ==> GatheredFrom(plans[i], source, slots, layers)
    {
      layers := layers[plans[j].name := Join(RowsAt(source[plans[j].name], slots))];
    }
    forall j | 0 <= j < |plans|
      ensures |layers[plans[j].name]| == |slots| * plans[j].width
    {
      JoinUniform(RowsAt(source[plans[j].name], slots), plans[j].width);
    }
  }

  /** The layers' new memories: each its own, all reaching the slots. */
  ghost predicate MemoryReaches(plans: seq<LayerPlan>, memory: map<string, array<Bytes>>, slots: seq<nat>) {
    && (forall j :: 0 <= j < |plans| ==>
          plans[j].name in memory && forall k :: 0 <= k < |slots| ==> slots[k] < memory[plans[j].name].Length)
    && forall i, j :: 0 <= i < j < |plans| ==>
         plans[i].name in memory && plans[j].name in memory ==> memory[plans[i].name] != memory[plans[j].name]
  }

  /** Write every layer's rows to their slots. */
  method ScatterLayers(
    plans: seq<LayerPlan>, layers: map<string, Bytes>, slots: seq<nat>, memory: map<string, array<Bytes>>)
    requires WholeLayers(plans, layers, |slots|) && MemoryReaches(plans, memory, slots)
    modifies memory.Values
    ensures forall j :: 0 <= j < |plans| ==>
              memory[plans[j].name][..]
              == Scatter(old(memory[plans[j].name][..]), slots,
                         SplitRows(layers[plans[j].name], plans[j].width, |slots|))
  {
    hide Scatter, SplitRows;
    for j := 0 to |plans|
      invariant forall i :: 0 <= i < j ==>
                  memory[plans[i].name][..]
                  == Scatter(old(memory[plans[i].name][..]), slots,
                             SplitRows(layers[plans[i].name], plans[i].width, |slots|))
      invariant forall i :: j <= i < |plans| ==> memory[plans[i].name][..] == old(memory[plans[i].name][..])
    {
      ScatterRows(memory[plans[j].name], slots, SplitRows(layers[plans[j].name], plans[j].width, |slots|));
    }
  }

  /** The rank owns a position of the span whose row is row `o` of its `j`-th
      block: the position with local ordinal `j * size + o`. */
  predicate OwnsRow(span: int, degree: int, rank: int, size: int, j: nat, o: nat) {
    o < size && rank + degree * (j * size + o) < span
  }

  /** Row `o` of the `j`-th block. */
  function RowIn(blocks: seq<nat>, size: nat, j: nat, o: nat): nat
    requires j < |blocks|
  {
    WidthTimes(blocks[j], size);
    blocks[j] * size + o
  }

  /** Every owned row that has a block lies below `n`. */
  ghost predicate RowsBelow(span: int, degree: int, rank: int, size: nat, blocks: seq<nat>, n: nat) {
    forall j: nat, o: nat :: j < |blocks| && OwnsRow(span, degree, rank, size, j, o) ==> RowIn(blocks, size, j, o) < n
  }

  /** `m` is where some owned row lies in these blocks. */
  ghost predicate RowHome(span: int, degree: int, rank: int, size: nat, blocks: seq<nat>, m: nat) {
    exists j: nat, o: nat :: j < |blocks| && OwnsRow(span, degree, rank, size, j, o) && RowIn(blocks, size, j, o) == m
  }

  /** What a restore leaves in one layer's memory: each owned row stands in the
      same place of its new block as it stood in of its old one, and every other
      row is what it was. */
  ghost predicate RestoredLayer(
    span: int, degree: int, rank: int, size: nat, oldBlocks: seq<nat>, newBlocks: seq<nat>, source: seq<Bytes>,
    before: seq<Bytes>, after: seq<Bytes>)
  {
    && |after| == |before|
    && (forall j: nat, o: nat :: OwnsRow(span, degree, rank, size, j, o) ==>
          && j < |oldBlocks| && RowIn(oldBlocks, size, j, o) < |source|
          && j < |newBlocks| && RowIn(newBlocks, size, j, o) < |after|
          && after[RowIn(newBlocks, size, j, o)] == source[RowIn(oldBlocks, size, j, o)])
    && forall m :: 0 <= m < |after| && !RowHome(span, degree, rank, size, newBlocks, m) ==> after[m] == before[m]
  }

  /** The k-th slot is a row the rank owns. */
  lemma SlotHome(
    span: int, degree: int, rank: int, size: nat, blocks: seq<nat>, slots: seq<nat>, k: nat) returns (j: nat, o: nat)
    requires 0 <= rank < degree && Placed(span, degree, rank, size, blocks, slots) && k < |slots|
    ensures size > 0 && k == j * size + o
    ensures j < |blocks| && OwnsRow(span, degree, rank, size, j, o) && slots[k] == RowIn(blocks, size, j, o)
  {
    var positions := Owned(span, degree, rank);
    OwnedOrdinal(span, degree, rank, k);
    assert Allocated(positions[k], blocks, size, degree);
    j, o := k / size, k % size;
    BlockIndex(|blocks|, size, k);
    assert k == j * size + o;
    OwnedLast(span, degree, rank, k);
    assert positions[k] == rank + k * degree == rank + degree * (j * size + o);
  }

  /** Every row the rank owns is one of the slots, in order. */
  lemma HomeSlot(span: int, degree: int, rank: int, size: nat, blocks: seq<nat>, slots: seq<nat>, j: nat, o: nat)
    requires 0 <= rank < degree && Placed(span, degree, rank, size, blocks, slots)
    requires OwnsRow(span, degree, rank, size, j, o)
    ensures 0 <= j * size + o < |slots| && j < |blocks| && slots[j * size + o] == RowIn(blocks, size, j, o)
  {
    var k := j * size + o;
    WidthTimes(j, size);
    MultipleUp(degree, 0, k);
    OwnedLast(span, degree, rank, k);
    assert k < |Owned(span, degree, rank)|;
    PlacedCount(Owned(span, degree, rank), blocks, size, degree);
    var j', o' := SlotHome(span, degree, rank, size, blocks, slots, k);
    SameRow(size, j, o, j', o');
  }

  lemma SameRow(size: nat, j: nat, o: nat, j': nat, o': nat)
    requires o < size && o' < size && j * size + o == j' * size + o'
    ensures j == j' && o == o'
  {
    DivExact(j, size, o);
    DivExact(j', size, o');
  }

  /** All owned rows have slots exactly if the span fits the blocks. */
  lemma SpanFits(n: nat, degree: nat, rank: nat, size: int, blocks: seq<nat>)
    requires rank < degree && n > 0
    ensures Slots(Owned(n * degree, degree, rank), blocks, size, degree).Ok?
            <==> size > 0 && n * degree <= degree * (|blocks| * size)
  {
    var positions := Owned(n * degree, degree, rank);
    MultipleUp(degree, 1, n);
    CountWhole(n, degree, rank);
    ScaleOrder(n, |blocks| * size, degree);
    hide Owned, OwnedCount;
    if size > 0 {
      forall i | 0 <= i < n
        ensures Allocated(positions[i], blocks, size, degree) <==> i < |blocks| * size
      {
        OwnedOrdinal(n * degree, degree, rank, i);
      }
      hide Allocated;
      if |blocks| * size < n {
        assert !Allocated(positions[n - 1], blocks, size, degree);
      }
    }
  }

  lemma ScaleOrder(n: int, capacity: int, degree: nat)
    requires degree > 0
    ensures n * degree <= degree * capacity <==> n <= capacity
  {
    if n <= capacity {
      MultipleUp(degree, n, capacity);
    } else {
      MultipleUp(degree, capacity + 1, n);
    }
  }

  lemma RestoredRows(
    span: int, degree: int, rank: int, size: nat, oldBlocks: seq<nat>, newBlocks: seq<nat>, olds: seq<nat>,
    news: seq<nat>, source: seq<Bytes>, before: seq<Bytes>, after: seq<Bytes>)
    requires 0 <= rank < degree && Placed(span, degree, rank, size, oldBlocks, olds)
    requires Placed(span, degree, rank, size, newBlocks, news) && |after| == |before| && |olds| == |news|
    requires forall k :: 0 <= k < |olds| ==>
               olds[k] < |source| && news[k] < |after| && after[news[k]] == source[olds[k]]
    requires forall m :: 0 <= m < |after| && m !in news ==> after[m] == before[m]
    ensures RestoredLayer(span, degree, rank, size, oldBlocks, newBlocks, source, before, after)
  {
    hide Placed, RowIn, OwnsRow;
    forall j: nat, o: nat | OwnsRow(span, degree, rank, size, j, o)
      ensures j < |oldBlocks| && RowIn(oldBlocks, size, j, o) < |source|
      ensures j < |newBlocks| && RowIn(newBlocks, size, j, o) < |after|
      ensures after[RowIn(newBlocks, size, j, o)] == source[RowIn(oldBlocks, size, j, o)]
    {
      HomeSlot(span, degree, rank, size, oldBlocks, olds, j, o);
      HomeSlot(span, degree, rank, size, newBlocks, news, j, o);
    }
    forall m | 0 <= m < |after| && !RowHome(span, degree, rank, size, newBlocks, m)
      ensures after[m] == before[m]
    {
      if m in news {
        var k :| 0 <= k < |news| && news[k] == m;
        var j, o := SlotHome(span, degree, rank, size, newBlocks, news, k);
      }
    }
  }

  /** The rows a layer must have reach every slot. */
  lemma BelowReaches(span: int, degree: int, rank: int, size: nat, blocks: seq<nat>, slots: seq<nat>, n: nat)
    requires 0 <= rank < degree && Placed(span, degree, rank, size, blocks, slots)
    requires RowsBelow(span, degree, rank, size, blocks, n)
    ensures forall k :: 0 <= k < |slots| ==> slots[k] < n
  {
    hide Placed, RowIn, OwnsRow;
    forall k | 0 <= k < |slots|
      ensures slots[k] < n
    {
      var j, o := SlotHome(span, degree, rank, size, blocks, slots, k);
    }
  }

  /** Every layer has rows of its width, wherever the rank's blocks say. */
  ghost predicate SourceReaches(
    plans: seq<LayerPlan>, source: map<string, seq<Bytes>>, span: int, degree: int, rank: int, size: nat, blocks: seq<nat>)
  {
    forall j :: 0 <= j < |plans| ==>
      && plans[j].name in source && Uniform(source[plans[j].name], plans[j].width)
      && RowsBelow(span, degree, rank, size, blocks, |source[plans[j].name]|)
  }

  /** Every layer has its own memory, wherever the rank's new blocks say. */
  ghost predicate TargetReaches(
    plans: seq<LayerPlan>, memory: map<string, array<Bytes>>, span: int, degree: int, rank: int, size: nat,
    blocks: seq<nat>)
  {
    && (forall j :: 0 <= j < |plans| ==>
          plans[j].name in memory && RowsBelow(span, degree, rank, size, blocks, memory[plans[j].name].Length))
    && forall i, j :: 0 <= i < j < |plans| ==>
         plans[i].name in memory && plans[j].name in memory ==> memory[plans[i].name] != memory[plans[j].name]
  }

  lemma BothReach(
    plans: seq<LayerPlan>, source: map<string, seq<Bytes>>, memory: map<string, array<Bytes>>, span: int, degree: int,
    rank: int, size: nat, oldBlocks: seq<nat>, newBlocks: seq<nat>, olds: seq<nat>, news: seq<nat>)
    requires 0 <= rank < degree && Placed(span, degree, rank, size, oldBlocks, olds)
    requires Placed(span, degree, rank, size, newBlocks, news)
    requires SourceReaches(plans, source, span, degree, rank, size, oldBlocks)
    requires TargetReaches(plans, memory, span, degree, rank, size, newBlocks)
    ensures RowsReach(plans, source, olds) && MemoryReaches(plans, memory, news)
  {
    hide Placed, RowsBelow, Uniform;
    forall j | 0 <= j < |plans|
      ensures forall k :: 0 <= k < |olds| ==> olds[k] < |source[plans[j].name]|
      ensures forall k :: 0 <= k < |news| ==> news[k] < memory[plans[j].name].Length
    {
      BelowReaches(span, degree, rank, size, oldBlocks, olds, |source[plans[j].name]|);
      BelowReaches(span, degree, rank, size, newBlocks, news, memory[plans[j].name].Length);
    }
  }

  /** Store, then restore, is the identity on owned rows, for every layer:
      gather, cut into chunks, pack, unpack, reassemble and scatter. Whatever the
      degree dividing the chunk length, the rank and the distinct new blocks, row
      `o` of the `j`-th old block becomes row `o` of the `j`-th new one; it fails
      exactly when the span does not fit the blocks, and then writes nothing. */
  method StoreThenRestore(
    plans: seq<LayerPlan>, kinds: seq<nat>, span: nat, chunk: nat, degree: nat, rank: nat, size: int,
    oldBlocks: seq<nat>, newBlocks: seq<nat>, source: map<string, seq<Bytes>>, memory: map<string, array<Bytes>>)
    returns (r: Result<(seq<nat>, seq<nat>), CodecError>)
    requires PlansOk(plans) && KindsOk(plans, kinds)
    requires chunk > 0 && degree > 0 && span > 0 && span % chunk == 0 && chunk % degree == 0 && rank < degree
    requires forall i, j :: 0 <= i < j < |newBlocks| ==> newBlocks[i] != newBlocks[j]
    requires size > 0 ==> SourceReaches(plans, source, span, degree, rank, size, oldBlocks)
    requires size > 0 ==> TargetReaches(plans, memory, span, degree, rank, size, newBlocks)
    modifies memory.Values
    ensures r.Ok? <==> size > 0 && span <= degree * (|oldBlocks| * size) && span <= degree * (|newBlocks| * size)
    ensures r.Ok? ==>
              forall j :: 0 <= j < |plans| ==>
                && plans[j].name in source && plans[j].name in memory
                && RestoredLayer(span, degree, rank, size, oldBlocks, newBlocks, source[plans[j].name],
                                 old(memory[plans[j].name][..]), memory[plans[j].name][..])
    ensures r.Ok? ==> |r.value.0| == |r.value.1| == |Owned(span, degree, rank)|
    ensures r.Err? ==> forall a :: a in memory.Values ==> a[..] == old(a[..])
  {
    hide Owned, Slots, Join, Scatter, SplitRows, RowsAt, IsStored, PlansOk, KindsOk, Uniform, RestoredLayer, SourceReaches,
         TargetReaches, RowOf;
    var positions := Owned(span, degree, rank);
    OwnedAre(span, degree, rank);
    WholeSpanFits(span, chunk, degree, rank, size, oldBlocks);
    WholeSpanFits(span, chunk, degree, rank, size, newBlocks);
    var olds := LocalSlots(positions, oldBlocks, size, degree);
    if olds.Err? {
      return Err(olds.error);
    }
    var news := LocalSlots(positions, newBlocks, size, degree);
    if news.Err? {
      return Err(news.error);
    }
    var n, count := chunk / degree, span / chunk;
    OwnedWhole(span, chunk, degree, rank);
    PlacedCount(positions, oldBlocks, size, degree);
    PlacedCount(positions, newBlocks, size, degree);
    assert Placed(span, degree, rank, size, oldBlocks, olds.value);
    assert Placed(span, degree, rank, size, newBlocks, news.value);
    BothReach(plans, source, memory, span, degree, rank, size, oldBlocks, newBlocks, olds.value, news.value);
    var layers := GatherLayers(plans, source, olds.value);
    var chunks := StoreChunks(plans, kinds, positions, layers, n, count);
    var whole := Reassemble(plans, kinds, positions, chunks.value, n, layers);
    SameWhole(plans, layers, whole.value, |news.value|);
    ScatterLayers(plans, whole.value, news.value, memory);
    forall j | 0 <= j < |plans|
      ensures RestoredLayer(span, degree, rank, size, oldBlocks, newBlocks, source[plans[j].name],
                            old(memory[plans[j].name][..]), memory[plans[j].name][..])
    {
      assert GatheredFrom(plans[j], source, olds.value, layers);
      RowsSurvive(span, degree, rank, size, newBlocks, olds.value, news.value, source[plans[j].name],
                  old(memory[plans[j].name][..]), plans[j].width);
      RestoredRows(span, degree, rank, size, oldBlocks, newBlocks, olds.value, news.value, source[plans[j].name],
                   old(memory[plans[j].name][..]), memory[plans[j].name][..]);
    }
    r := Ok((olds.value, news.value));
  }

  lemma WholeSpanFits(span: nat, chunk: nat, degree: nat, rank: nat, size: int, blocks: seq<nat>)
    requires chunk > 0 && degree > 0 && span > 0 && span % chunk == 0 && chunk % degree == 0 && rank < degree
    ensures Slots(Owned(span, degree, rank), blocks, size, degree).Ok?
            <==> size > 0 && span <= degree * (|blocks| * size)
  {
    var a, b := span / chunk, chunk / degree;
    assert chunk == b * degree && span == a * chunk;
    Associate(a, b, degree);
    hide Slots, Owned;
    SpanFits(a * b, degree, rank, size, blocks);
  }

  lemma OwnedAre(span: nat, degree: nat, rank: nat)
    requires degree > 0
    ensures forall i :: 0 <= i < |Owned(span, degree, rank)| ==> Owned(span, degree, rank)[i] >= 0
  {
    forall i | 0 <= i < |Owned(span, degree, rank)|
      ensures Owned(span, degree, rank)[i] >= 0
    {
      WidthTimes(degree, i);
    }
  }

  lemma PlacedCount(positions: seq<int>, blocks: seq<nat>, size: int, degree: int)
    requires degree > 0 && Slots(positions, blocks, size, degree).Ok?
    ensures |Slots(positions, blocks, size, degree).value| == |positions|
  {
  }

  lemma SameWhole(plans: seq<LayerPlan>, a: map<string, Bytes>, b: map<string, Bytes>, rows: nat)
    requires WholeLayers(plans, a, rows)
    requires forall j :: 0 <= j < |plans| ==> plans[j].name in b && plans[j].name in a && b[plans[j].name] == a[plans[j].name]
    ensures WholeLayers(plans, b, rows)
  {
  }
}
