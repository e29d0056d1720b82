// Packing a row entry's complete chunks into bounded arena slabs.
module NativeSlabs {
  import opened Common

  const U32_MAX: int := 0xFFFF_FFFF

  /** A manifest descriptor with the payload offset its file's prefix names. */
  datatype Descriptor = Descriptor(bytes: int, start: int, end: int, payload: Option<int>)

  datatype ChunkPlan = ChunkPlan(
    bytes: int, start: int, end: int, payload: int, offset: int, firstSlot: int, rows: int)

  datatype Slab = Slab(chunks: seq<ChunkPlan>, used: int)

  /** The least offset from the cursor on that aligns the payload. */
  function Aligned(cursor: int, payload: int, alignment: int): int
    requires alignment > 0
  {
    cursor + (-(cursor + payload)) % alignment
  }

  lemma AlignedIs(cursor: int, payload: int, alignment: int)
    requires alignment > 0
    ensures var x := Aligned(cursor, payload, alignment);
            cursor <= x < cursor + alignment && (x + payload) % alignment == 0
  {
    var t := cursor + payload;
    var m := (-t) % alignment;
    assert -t == alignment * ((-t) / alignment) + m;
    MultipleOf(t + m, -((-t) / alignment), alignment);
  }

  lemma MultipleOf(x: int, k: int, a: int)
    requires a > 0 && x == k * a
    ensures x % a == 0
  {
    ModOfMultiple(k, a);
  }

  lemma ModOfMultiple(k: int, a: int)
    requires a > 0
    ensures (k * a) % a == 0
  {
    var x := k * a;
    assert x == a * (x / a) + x % a;
    Gap(a, k - x / a);
  }

  lemma Gap(a: int, k: int)
    requires a > 0
    ensures k >= 1 ==> a * k >= a
    ensures k <= -1 ==> a * k <= -a
  {
  }

  /** Starting later never finds an earlier aligned offset. */
  lemma AlignedUp(low: int, high: int, payload: int, alignment: int)
    requires alignment > 0 && low <= high
    ensures Aligned(low, payload, alignment) <= Aligned(high, payload, alignment)
  {
    var x, y := Aligned(low, payload, alignment), Aligned(high, payload, alignment);
    AlignedIs(low, payload, alignment);
    AlignedIs(high, payload, alignment);
    if y < x {
      Between(x + payload, y + payload, alignment);
    }
  }

  lemma Between(x: int, y: int, a: int)
    requires a > 0 && x % a == 0 && y % a == 0 && y < x
    ensures x - y >= a
  {
    assert x == a * (x / a) && y == a * (y / a);
    assert x - y == a * (x / a - y / a);
    Gap(a, x / a - y / a);
  }

  predicate DescriptorOk(ds: seq<Descriptor>, k: nat, degree: int)
    requires k < |ds| && degree > 0
  {
    var d := ds[k];
    && 0 < d.bytes <= U32_MAX && 0 <= d.start < d.end <= U32_MAX
    && d.start == (if k == 0 then 0 else ds[k - 1].end) && (d.end - d.start) % degree == 0
    && d.payload.Some? && 0 <= d.payload.value <= d.bytes
  }

  predicate Fits(d: Descriptor, arena: int, alignment: int)
    requires alignment > 0 && d.payload.Some?
  {
    Aligned(0, d.payload.value, alignment) + d.bytes <= arena
  }

  predicate Plannable(ds: seq<Descriptor>, span: int, degree: int, arena: int, alignment: int)
    requires degree > 0 && alignment > 0
  {
    && ds != [] && ds[|ds| - 1].end == span
    && forall k :: 0 <= k < |ds| ==> DescriptorOk(ds, k, degree) && Fits(ds[k], arena, alignment)
  }

  /** Where the arena is occupied before chunk `i` of a slab. */
  function UsedBefore(chunks: seq<ChunkPlan>, i: nat): int
    requires i <= |chunks|
  {
    if i == 0 then 0 else chunks[i - 1].offset + chunks[i - 1].bytes
  }

  /** Aligned, behind the chunk before it, with the least padding. */
  predicate PlacedAt(chunks: seq<ChunkPlan>, i: nat, arena: int, alignment: int)
    requires i < |chunks| && alignment > 0
  {
    var c := chunks[i];
    && c.offset == Aligned(UsedBefore(chunks, i), c.payload, alignment) && c.bytes > 0
    && c.offset + c.bytes <= arena
  }

  predicate Placed(chunks: seq<ChunkPlan>, arena: int, alignment: int)
    requires alignment > 0
  {
    forall i :: 0 <= i < |chunks| ==> PlacedAt(chunks, i, arena, alignment)
  }

  function Flatten(slabs: seq<Slab>): seq<ChunkPlan> {
    if slabs == [] then [] else Flatten(slabs[..|slabs| - 1]) + slabs[|slabs| - 1].chunks
  }

  /** The chunk is its descriptor's, and its first slot is the exact number of
      rows before it. */
  predicate IsFor(c: ChunkPlan, d: Descriptor, degree: int)
    requires degree > 0
  {
    && c.bytes == d.bytes && c.start == d.start && c.end == d.end && d.payload == Some(c.payload)
    && c.firstSlot * degree == d.start && (c.firstSlot + c.rows) * degree == d.end
  }

  predicate SlabOk(s: Slab, arena: int, alignment: int)
    requires alignment > 0
  {
    s.chunks != [] && Placed(s.chunks, arena, alignment) && s.used == UsedBefore(s.chunks, |s.chunks|)
  }

  predicate SlabsOk(slabs: seq<Slab>, arena: int, alignment: int)
    requires alignment > 0
  {
    forall j :: 0 <= j < |slabs| ==> SlabOk(slabs[j], arena, alignment)
  }

  /** The first chunks of the list, slab after slab, are the first descriptors'. */
  ghost predicate Covers(slabs: seq<Slab>, current: seq<ChunkPlan>, ds: seq<Descriptor>, k: nat, degree: int)
    requires k <= |ds| && degree > 0
  {
    var all := Flatten(slabs) + current;
    |all| == k && forall i :: 0 <= i < k ==> IsFor(all[i], ds[i], degree)
  }

  lemma RowsOf(start: int, end: int, degree: int, first: int)
    requires degree > 0 && (end - start) % degree == 0 && first * degree == start
    ensures (first + (end - start) / degree) * degree == end
  {
    var rows := (end - start) / degree;
    assert end - start == degree * rows;
    assert (first + rows) * degree == first * degree + rows * degree;
  }

  lemma AppendPlaced(chunks: seq<ChunkPlan>, c: ChunkPlan, arena: int, alignment: int)
    requires alignment > 0 && Placed(chunks, arena, alignment)
    requires c.offset == Aligned(UsedBefore(chunks, |chunks|), c.payload, alignment) && c.bytes > 0
    requires c.offset + c.bytes <= arena
    ensures Placed(chunks + [c], arena, alignment)
    ensures UsedBefore(chunks + [c], |chunks| + 1) == c.offset + c.bytes
  {
    var all := chunks + [c];
    forall i | 0 <= i < |all|
      ensures PlacedAt(all, i, arena, alignment)
    {
      if i < |chunks| {
        assert PlacedAt(chunks, i, arena, alignment);
      }
      assert UsedBefore(all, i) == UsedBefore(chunks, i);
    }
  }

  lemma AppendCovers(
    slabs: seq<Slab>, current: seq<ChunkPlan>, ds: seq<Descriptor>, k: nat, degree: int, c: ChunkPlan)
    requires k < |ds| && degree > 0 && Covers(slabs, current, ds, k, degree) && IsFor(c, ds[k], degree)
    ensures Covers(slabs, current + [c], ds, k + 1, degree)
  {
    assert Flatten(slabs) + (current + [c]) == Flatten(slabs) + current + [c];
  }

  lemma CloseCovers(slabs: seq<Slab>, current: seq<ChunkPlan>, ds: seq<Descriptor>, k: nat, degree: int, used: int)
    requires k <= |ds| && degree > 0 && Covers(slabs, current, ds, k, degree)
    ensures Covers(slabs + [Slab(current, used)], [], ds, k, degree)
  {
    var all := slabs + [Slab(current, used)];
    assert all[..|slabs|] == slabs;
    assert Flatten(all) + [] == Flatten(slabs) + current;
  }

  /** The slabs closed so far and the one being filled. */
  ghost predicate Filling(
    slabs: seq<Slab>, current: seq<ChunkPlan>, cursor: int, ds: seq<Descriptor>, k: nat, degree: int, arena: int,
    alignment: int)
    requires k <= |ds| && degree > 0 && alignment > 0
  {
    && SlabsOk(slabs, arena, alignment) && Placed(current, arena, alignment)
    && cursor == UsedBefore(current, |current|) >= 0 && Covers(slabs, current, ds, k, degree)
    && (current == [] ==> k == 0)
  }

  /** Find room for one chunk, closing the slab when it does not fit behind. */
  method PlaceChunk(
    slabs: seq<Slab>, current: seq<ChunkPlan>, cursor: int, d: Descriptor, firstSlot: int, degree: int, arena: int,
    alignment: int, ghost ds: seq<Descriptor>, ghost k: nat)
    returns (ok: bool, slabs': seq<Slab>, current': seq<ChunkPlan>, cursor': int)
    requires degree > 0 && alignment > 0 && k < |ds| && d == ds[k] && DescriptorOk(ds, k, degree)
    requires Filling(slabs, current, cursor, ds, k, degree, arena, alignment) && firstSlot * degree == d.start
    ensures ok <==> Fits(d, arena, alignment)
    ensures ok ==> Filling(slabs', current', cursor', ds, k + 1, degree, arena, alignment)
  {
    hide Placed, IsFor, Covers, SlabsOk, Aligned;
    slabs', current', cursor' := slabs, current, cursor;
    var payload := d.payload.value;
    var offset := Aligned(cursor, payload, alignment);
    AlignedUp(0, cursor, payload, alignment);
    if current != [] && offset + d.bytes > arena {
      CloseCovers(slabs, current, ds, k, degree, cursor);
      CloseSlab(slabs, current, cursor, arena, alignment);
      slabs' := slabs + [Slab(current, cursor)];
      current', cursor' := [], 0;
      NothingPlaced(arena, alignment);
      offset := Aligned(cursor', payload, alignment);
    }
    AlignedIs(cursor', payload, alignment);
    if offset + d.bytes > arena {
      return false, slabs', current', cursor';
    }
    var c := ChunkPlan(d.bytes, d.start, d.end, payload, offset, firstSlot, (d.end - d.start) / degree);
    RowsOf(d.start, d.end, degree, firstSlot);
    PlanIsFor(c, d, degree);
    AppendPlaced(current', c, arena, alignment);
    AppendCovers(slabs', current', ds, k, degree, c);
    current', cursor' := current' + [c], offset + d.bytes;
    ok := true;
  }

  /** Planning succeeds exactly on contiguous, divisible, fitting chunks that end
      at the span. Then the slabs hold the chunks in order, aligned and apart,
      inside the arena, and the slots count the rows exactly. */
  method PlanNativeRestore(ds: seq<Descriptor>, span: int, degree: int, arena: int, alignment: int)
    returns (r: Option<seq<Slab>>)
    requires degree > 0 && arena > 0 && alignment > 0
    ensures r.Some? <==> Plannable(ds, span, degree, arena, alignment)
    ensures r.Some? ==> SlabsOk(r.value, arena, alignment) && Covers(r.value, [], ds, |ds|, degree)
  {
    hide Covers, SlabsOk, Fits, Placed, Flatten;
    if ds == [] {
      return None;
    }
    var slabs: seq<Slab> := [];
    var current: seq<ChunkPlan> := [];
    var cursor, firstSlot := 0, 0;
    Nothing(ds, degree, arena, alignment);
    for k := 0 to |ds|
      invariant firstSlot * degree == (if k == 0 then 0 else ds[k - 1].end)
      invariant forall j :: 0 <= j < k ==> DescriptorOk(ds, j, degree) && Fits(ds[j], arena, alignment)
      invariant Filling(slabs, current, cursor, ds, k, degree, arena, alignment)
    {
      if !DescriptorOk(ds, k, degree) {
        return None;
      }
      var ok;
      ok, slabs, current, cursor :=
        PlaceChunk(slabs, current, cursor, ds[k], firstSlot, degree, arena, alignment, ds, k);
      if !ok {
        return None;
      }
      RowsOf(ds[k].start, ds[k].end, degree, firstSlot);
      firstSlot := firstSlot + (ds[k].end - ds[k].start) / degree;
    }
    if ds[|ds| - 1].end != span {
      return None;
    }
    CloseCovers(slabs, current, ds, |ds|, degree, cursor);
    CloseSlab(slabs, current, cursor, arena, alignment);
    r := Some(slabs + [Slab(current, cursor)]);
  }

  lemma PlanIsFor(c: ChunkPlan, d: Descriptor, degree: int)
    requires degree > 0 && d.payload == Some(c.payload) && c.bytes == d.bytes && c.start == d.start && c.end == d.end
    requires c.firstSlot * degree == d.start && (c.firstSlot + c.rows) * degree == d.end
    ensures IsFor(c, d, degree)
  {
  }

  lemma Nothing(ds: seq<Descriptor>, degree: int, arena: int, alignment: int)
    requires degree > 0 && alignment > 0
    ensures SlabsOk([], arena, alignment) && Placed([], arena, alignment) && Covers([], [], ds, 0, degree)
  {
  }

  lemma NothingPlaced(arena: int, alignment: int)
    requires alignment > 0
    ensures Placed([], arena, alignment)
  {
  }

  lemma CloseSlab(slabs: seq<Slab>, current: seq<ChunkPlan>, used: int, arena: int, alignment: int)
    requires alignment > 0 && SlabsOk(slabs, arena, alignment) && current != [] && Placed(current, arena, alignment)
    requires used == UsedBefore(current, |current|)
    ensures SlabsOk(slabs + [Slab(current, used)], arena, alignment)
  {
    hide Placed;
  }

  /** Inside one slab, chunks are disjoint, inside the arena and aligned. */
  lemma {:induction false} ChunksApart(chunks: seq<ChunkPlan>, arena: int, alignment: int, i: nat, j: nat)
    requires alignment > 0 && Placed(chunks, arena, alignment) && i < j < |chunks|
    ensures 0 <= chunks[i].offset && chunks[i].offset + chunks[i].bytes <= chunks[j].offset
    ensures chunks[j].offset + chunks[j].bytes <= arena
    ensures (chunks[i].offset + chunks[i].payload) % alignment == 0
    ensures (chunks[j].offset + chunks[j].payload) % alignment == 0
    decreases j
  {
    assert PlacedAt(chunks, i, arena, alignment) && PlacedAt(chunks, j, arena, alignment);
    AlignedIs(UsedBefore(chunks, i), chunks[i].payload, alignment);
    AlignedIs(UsedBefore(chunks, j), chunks[j].payload, alignment);
    OffsetNonNegative(chunks, arena, alignment, j - 1);
    if i < j - 1 {
      ChunksApart(chunks, arena, alignment, i, j - 1);
    }
  }

  lemma {:induction false} OffsetNonNegative(chunks: seq<ChunkPlan>, arena: int, alignment: int, i: nat)
    requires alignment > 0 && Placed(chunks, arena, alignment) && i < |chunks|
    ensures 0 <= chunks[i].offset && chunks[i].bytes > 0
  {
    assert PlacedAt(chunks, i, arena, alignment);
    AlignedIs(UsedBefore(chunks, i), chunks[i].payload, alignment);
    if i > 0 {
      OffsetNonNegative(chunks, arena, alignment, i - 1);
    }
  }

  lemma NextSlot(c: ChunkPlan, d: ChunkPlan, x: Descriptor, y: Descriptor, degree: int)
    requires degree > 0 && IsFor(c, x, degree) && IsFor(d, y, degree) && y.start == x.end
    ensures d.firstSlot == c.firstSlot + c.rows
  {
    SameFactor(d.firstSlot, c.firstSlot + c.rows, degree);
  }

  /** The rows of all slabs together are the rank's share of the span. */
  lemma RowsTotal(slabs: seq<Slab>, ds: seq<Descriptor>, span: int, degree: int, arena: int, alignment: int)
    requires degree > 0 && alignment > 0 && Plannable(ds, span, degree, arena, alignment)
    requires Covers(slabs, [], ds, |ds|, degree)
    ensures Flatten(slabs) != []
    ensures var all := Flatten(slabs);
            var last := all[|all| - 1];
            && (last.firstSlot + last.rows) * degree == span && all[0].firstSlot == 0
            && forall i :: 0 < i < |all| ==> all[i].firstSlot == all[i - 1].firstSlot + all[i - 1].rows
  {
    var all := Flatten(slabs);
    assert all + [] == all;
    hide Flatten, Fits;
    assert IsFor(all[0], ds[0], degree) && DescriptorOk(ds, 0, degree);
    SameFactor(all[0].firstSlot, 0, degree);
    assert IsFor(all[|all| - 1], ds[|all| - 1], degree);
    forall i | 0 < i < |all|
      ensures all[i].firstSlot == all[i - 1].firstSlot + all[i - 1].rows
    {
      assert DescriptorOk(ds, i, degree);
      hide IsFor, DescriptorOk;
      NextSlot(all[i - 1], all[i], ds[i - 1], ds[i], degree);
    }
  }

  lemma SameFactor(a: int, b: int, degree: int)
    requires degree > 0 && a * degree == b * degree
    ensures a == b
  {
    assert degree * (a - b) == 0;
    Gap(degree, a - b);
  }
}
