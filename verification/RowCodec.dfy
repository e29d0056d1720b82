// Per-token rows: which positions a rank owns, where they live in its blocks,
// and how a chunk's rows are packed into one record per kind and split again.
module RowCodec {
  import opened Common
  import opened Pages

  datatype CodecError = BadSpan | BadRank | BadBlock | OverCapacity | MissingRows | RowLength | NoLayer | Truncated | Trailing
    | PositionsDiffer

  // ---- positions and slots ----

  function OwnedCount(span: int, degree: int, rank: int): int
    requires degree > 0
  {
    if rank < span then (span - rank + degree - 1) / degree else 0
  }

  lemma CountNonNegative(span: int, degree: int, rank: int)
    requires degree > 0
    ensures OwnedCount(span, degree, rank) >= 0
  {
    if rank < span {
      assert (span - rank + degree - 1) / degree >= 0;
    }
  }

  /** Every `degree`-th position from the rank on. */
  function Owned(span: int, degree: int, rank: int): (r: seq<int>)
    requires degree > 0
  {
    CountNonNegative(span, degree, rank);
    seq(OwnedCount(span, degree, rank), i requires 0 <= i < OwnedCount(span, degree, rank) => rank + i * degree)
  }

  lemma DivExact(i: int, degree: int, rank: int)
    requires 0 <= rank < degree
    ensures (rank + i * degree) / degree == i && (rank + i * degree) % degree == rank
  {
    var p := rank + i * degree;
    assert p == degree * (p / degree) + p % degree;
    assert degree * (p / degree - i) == rank - p % degree;
    MultipleGap(degree, p / degree - i);
  }

  lemma MultipleGap(degree: int, k: int)
    requires degree > 0
    ensures k >= 1 ==> degree * k >= degree
    ensures k <= -1 ==> degree * k <= -degree
  {
  }

  lemma MultipleUp(size: nat, a: int, b: int)
    requires a <= b
    ensures size * a <= size * b
  {
  }

  lemma OwnedLast(span: int, degree: int, rank: int, i: int)
    requires 0 <= rank < degree && rank < span
    ensures 0 <= i < OwnedCount(span, degree, rank) <==> 0 <= i && rank + i * degree < span
  {
    var n := OwnedCount(span, degree, rank);
    var t := span - rank + degree - 1;
    assert t == degree * n + t % degree && 0 <= t % degree < degree;
    if i < n {
      assert i * degree <= (n - 1) * degree;
    } else {
      assert i * degree >= n * degree;
    }
  }

  lemma OwnedOnly(span: int, degree: int, rank: int, p: int, i: int)
    requires 0 <= rank < degree && 0 <= i < OwnedCount(span, degree, rank) && p == rank + i * degree
    ensures 0 <= p < span && p % degree == rank
  {
    OwnedLast(span, degree, rank, i);
    DivExact(i, degree, rank);
    hide *;
    MultipleUp(degree, 0, i);
  }

  lemma OwnedSound(span: int, degree: int, rank: int, p: int)
    requires 0 <= rank < degree && p in Owned(span, degree, rank)
    ensures 0 <= p < span && p % degree == rank
  {
    CountNonNegative(span, degree, rank);
    hide OwnedCount;
    var i :| 0 <= i < |Owned(span, degree, rank)| && Owned(span, degree, rank)[i] == p;
    OwnedOnly(span, degree, rank, p, i);
  }

  lemma OwnedHas(span: int, degree: int, rank: int, i: nat)
    requires 0 <= rank < degree && rank + i * degree < span
    ensures rank + i * degree in Owned(span, degree, rank)
  {
    MultipleUp(degree, 0, i);
    OwnedLast(span, degree, rank, i);
    hide OwnedCount;
    assert Owned(span, degree, rank)[i] == rank + i * degree;
  }

  lemma Quotient(p: nat, degree: nat) returns (i: nat)
    requires degree > 0
    ensures p == p % degree + i * degree
  {
    i := p / degree;
  }

  /** The ranks' positions partition the span: a position belongs to exactly the
      rank that is its remainder. */
  lemma OwnedPartition(span: int, degree: int, rank: int, p: int)
    requires 0 <= rank < degree && 0 < span
    ensures p in Owned(span, degree, rank) <==> 0 <= p < span && p % degree == rank
  {
    hide *;
    if p in Owned(span, degree, rank) {
      OwnedSound(span, degree, rank, p);
    }
    if 0 <= p < span && p % degree == rank {
      var i := Quotient(p, degree);
      OwnedHas(span, degree, rank, i);
    }
  }

  /** The block slot of the row with this local ordinal. */
  function SlotAt(blocks: seq<nat>, size: nat, ordinal: nat): nat
    requires size > 0 && ordinal < |blocks| * size
  {
    BlockIndex(|blocks|, size, ordinal);
    blocks[ordinal / size] * size + ordinal % size
  }

  lemma BlockIndex(n: nat, size: nat, ordinal: nat)
    requires size > 0 && ordinal < n * size
    ensures 0 <= ordinal / size < n
  {
    assert ordinal == size * (ordinal / size) + ordinal % size;
    if n <= ordinal / size {
      MultipleUp(size, n, ordinal / size);
    }
  }

  /** The position has a row in the allocated blocks. */
  predicate Allocated(p: int, blocks: seq<nat>, size: nat, degree: int)
    requires degree > 0
  {
    0 <= p / degree < |blocks| * size
  }

  function SlotOf(p: int, blocks: seq<nat>, size: nat, degree: int): nat
    requires degree > 0 && size > 0 && Allocated(p, blocks, size, degree)
  {
    SlotAt(blocks, size, p / degree)
  }

  function Slots(positions: seq<int>, blocks: seq<nat>, size: int, degree: int): Result<seq<nat>, CodecError>
    requires degree > 0
  {
    if size <= 0 then Err(BadBlock)
    else if exists i :: 0 <= i < |positions| && !Allocated(positions[i], blocks, size, degree) then Err(OverCapacity)
    else Ok(SlotsOf(positions, blocks, size, degree))
  }

  function SlotsOf(positions: seq<int>, blocks: seq<nat>, size: nat, degree: int): (slots: seq<nat>)
    requires degree > 0 && size > 0
    requires forall i :: 0 <= i < |positions| ==> Allocated(positions[i], blocks, size, degree)
    ensures |slots| == |positions|
    ensures forall i :: 0 <= i < |positions| ==> slots[i] == SlotOf(positions[i], blocks, size, degree)
  {
    seq(|positions|, i requires 0 <= i < |positions| => SlotOf(positions[i], blocks, size, degree))
  }

  /** `p` is row `o` of the rank's `j`-th block: the rank's rows fill its blocks in
      order, and every `degree`-th position is one of them. */
  predicate RowOf(p: int, degree: int, size: int, j: nat, o: nat) {
    o < size && 0 <= p - degree * (j * size + o) < degree
  }

  lemma RowSlot(p: int, blocks: seq<nat>, size: nat, degree: int, j: nat, o: nat)
    requires degree > 0 && j < |blocks| && RowOf(p, degree, size, j, o)
    ensures Allocated(p, blocks, size, degree) && SlotOf(p, blocks, size, degree) == blocks[j] * size + o
  {
    var ordinal := j * size + o;
    DivExact(ordinal, degree, p - degree * ordinal);
    DivExact(j, size, o);
    MultipleUp(size, j + 1, |blocks|);
    assert p / degree == ordinal;
    assert ordinal < |blocks| * size;
  }

  lemma AllocatedExactly(p: int, blocks: seq<nat>, size: nat, degree: int)
    requires degree > 0 && p >= 0
    ensures Allocated(p, blocks, size, degree) <==> p < degree * (|blocks| * size)
  {
    var capacity := |blocks| * size;
    OrdinalUp(p, degree);
    assert p == degree * (p / degree) + p % degree;
    if p / degree < capacity {
      MultipleUp(degree, p / degree + 1, capacity);
    } else {
      MultipleUp(degree, capacity, p / degree);
    }
  }

  /** Where rows lie: positions have slots exactly if all fit the blocks, and row
      `o` of the `j`-th block lies `o` rows into that block. */
  lemma SlotsExactly(positions: seq<int>, blocks: seq<nat>, size: int, degree: int)
    requires degree > 0 && forall i :: 0 <= i < |positions| ==> positions[i] >= 0
    ensures var r := Slots(positions, blocks, size, degree);
            && (r.Ok? <==> size > 0 && forall i :: 0 <= i < |positions| ==> positions[i] < degree * (|blocks| * size))
            && (r.Ok? ==>
                  && |r.value| == |positions|
                  && forall i, j: nat, o: nat ::
                       0 <= i < |positions| && j < |blocks| && RowOf(positions[i], degree, size, j, o) ==>
                         r.value[i] == blocks[j] * size + o)
            && (r.Err? ==> (r.error == BadBlock <==> size <= 0))
  {
    if size > 0 {
      forall i | 0 <= i < |positions|
        ensures Allocated(positions[i], blocks, size, degree) <==> positions[i] < degree * (|blocks| * size)
      {
        AllocatedExactly(positions[i], blocks, size, degree);
      }
      forall i, j: nat, o: nat | 0 <= i < |positions| && j < |blocks| && RowOf(positions[i], degree, size, j, o)
        ensures Allocated(positions[i], blocks, size, degree)
        ensures SlotOf(positions[i], blocks, size, degree) == blocks[j] * size + o
      {
        RowSlot(positions[i], blocks, size, degree, j, o);
      }
      hide SlotOf, Allocated, RowOf;
    }
  }

  method LocalSlots(positions: seq<int>, blocks: seq<nat>, size: int, degree: int)
    returns (r: Result<seq<nat>, CodecError>)
    requires degree > 0 && forall i :: 0 <= i < |positions| ==> positions[i] >= 0
    ensures r == Slots(positions, blocks, size, degree)
    ensures r.Ok? <==> size > 0 && forall i :: 0 <= i < |positions| ==> positions[i] < degree * (|blocks| * size)
    ensures r.Ok? ==>
              && |r.value| == |positions|
              && forall i, j: nat, o: nat :: 0 <= i < |positions| && j < |blocks| && RowOf(positions[i], degree, size, j, o) ==>
                   r.value[i] == blocks[j] * size + o
    ensures r.Err? ==> (r.error == BadBlock <==> size <= 0)
  {
    SlotsExactly(positions, blocks, size, degree);
    if size <= 0 {
      return Err(BadBlock);
    }
    hide SlotOf, Allocated;
    var slots: seq<nat> := [];
    for i := 0 to |positions|
      invariant |slots| == i
      invariant forall j :: 0 <= j < i ==> Allocated(positions[j], blocks, size, degree)
      invariant forall j :: 0 <= j < i ==> slots[j] == SlotOf(positions[j], blocks, size, degree)
    {
      var slot := OneSlot(positions[i], blocks, size, degree);
      if slot.None? {
        return Err(OverCapacity);
      }
      slots := slots + [slot.value];
    }
    assert slots == SlotsOf(positions, blocks, size, degree);
    r := Ok(slots);
  }

  method OneSlot(p: int, blocks: seq<nat>, size: nat, degree: int) returns (slot: Option<nat>)
    requires degree > 0 && size > 0 && p >= 0
    ensures slot.Some? <==> Allocated(p, blocks, size, degree)
    ensures slot.Some? ==> slot.value == SlotOf(p, blocks, size, degree)
  {
    var capacity := |blocks| * size;
    var ordinal := p / degree;
    OrdinalUp(p, degree);
    if ordinal >= capacity {
      return None;
    }
    BlockIndex(|blocks|, size, ordinal);
    slot := Some(blocks[ordinal / size] * size + ordinal % size);
  }

  lemma OrdinalUp(p: int, degree: int)
    requires p >= 0 && degree > 0
    ensures p / degree >= 0
  {
  }

  /** Distinct blocks give distinct rows distinct slots. */
  lemma SlotsDistinct(blocks: seq<nat>, size: nat, a: nat, b: nat)
    requires size > 0 && a < |blocks| * size && b < |blocks| * size && a != b
    requires forall i, j :: 0 <= i < j < |blocks| ==> blocks[i] != blocks[j]
    ensures SlotAt(blocks, size, a) != SlotAt(blocks, size, b)
  {
    BlockIndex(|blocks|, size, a);
    BlockIndex(|blocks|, size, b);
    var x, y := blocks[a / size], blocks[b / size];
    DivExact(x, size, a % size);
    DivExact(y, size, b % size);
    assert SlotAt(blocks, size, a) == a % size + x * size && SlotAt(blocks, size, b) == b % size + y * size;
    assert a == size * (a / size) + a % size && b == size * (b / size) + b % size;
  }

  // ---- records ----

  datatype LayerPlan = LayerPlan(name: string, kind: nat, width: nat)

  predicate PlansOk(plans: seq<LayerPlan>) {
    && (forall i :: 0 <= i < |plans| ==> plans[i].width > 0)
    && forall i, j :: 0 <= i < j < |plans| ==> plans[i].name != plans[j].name
  }

  predicate Contributes(plans: seq<LayerPlan>, kind: nat) {
    exists i :: 0 <= i < |plans| && plans[i].kind == kind
  }

  /** The kind's layers one after another, in plan order. */
  function Packed(plans: seq<LayerPlan>, kind: nat, rows: map<string, Bytes>): Bytes {
    if plans == [] then []
    else
      var p := plans[|plans| - 1];
      Packed(plans[..|plans| - 1], kind, rows)
      + (if p.kind == kind && p.name in rows then rows[p.name] else [])
  }

  function PackRecord(plans: seq<LayerPlan>, kind: nat, rows: map<string, Bytes>, n: nat): Result<Bytes, CodecError> {
    if !Contributes(plans, kind) then Err(NoLayer)
    else match FirstMisfit(plans, kind, rows, n)
      case Some(error) => Err(error)
      case None => Ok(Packed(plans, kind, rows))
  }

  /** Why packing stops, at the first layer that does not fit. */
  function FirstMisfit(plans: seq<LayerPlan>, kind: nat, rows: map<string, Bytes>, n: nat): Option<CodecError> {
    if plans == [] then None
    else
      var before := FirstMisfit(plans[..|plans| - 1], kind, rows, n);
      var p := plans[|plans| - 1];
      if before.Some? || p.kind != kind then before
      else if p.name !in rows then Some(MissingRows)
      else if |rows[p.name]| != p.width * n then Some(RowLength) else None
  }

  /** Bytes of one kind over the first layers. */
  function RecordSize(plans: seq<LayerPlan>, kind: nat, n: nat): (size: nat)
  {
    if plans == [] then 0
    else
      var p := plans[|plans| - 1];
      WidthTimes(p.width, n);
      RecordSize(plans[..|plans| - 1], kind, n) + (if p.kind == kind then p.width * n else 0)
  }

  lemma WidthTimes(w: nat, n: nat)
    ensures w * n >= 0
  {
  }

  /** Layer `i`'s part of a record. */
  function RecordPart(plans: seq<LayerPlan>, kind: nat, payload: Bytes, n: nat, i: nat): Bytes
    requires i < |plans| && plans[i].kind == kind && |payload| == RecordSize(plans, kind, n)
  {
    PartEnds(plans, kind, n, i);
    payload[RecordSize(plans[..i], kind, n)..RecordSize(plans[..i + 1], kind, n)]
  }

  lemma {:induction false} PartEnds(plans: seq<LayerPlan>, kind: nat, n: nat, i: nat)
    requires i < |plans|
    ensures RecordSize(plans[..i], kind, n) <= RecordSize(plans[..i + 1], kind, n) <= RecordSize(plans, kind, n)
    decreases |plans|
  {
    assert plans[..i + 1][..i] == plans[..i];
    WidthTimes(plans[i].width, n);
    if i + 1 < |plans| {
      var front := plans[..|plans| - 1];
      assert front[..i] == plans[..i] && front[..i + 1] == plans[..i + 1];
      PartEnds(front, kind, n, i);
      WidthTimes(plans[|plans| - 1].width, n);
    } else {
      assert plans[..i + 1] == plans;
    }
  }

  /** What splitting yields: each layer of the kind with its own part. */
  predicate Splits(plans: seq<LayerPlan>, kind: nat, payload: Bytes, n: nat, out: map<string, Bytes>)
    requires |payload| == RecordSize(plans, kind, n)
  {
    && (forall i :: 0 <= i < |plans| && plans[i].kind == kind ==>
          plans[i].name in out && out[plans[i].name] == RecordPart(plans, kind, payload, n, i))
    && forall name :: name in out ==> exists i :: 0 <= i < |plans| && plans[i].kind == kind && plans[i].name == name
  }

  /** Layer `j` has its part of the payload. */
  ghost predicate HasPart(plans: seq<LayerPlan>, kind: nat, payload: Bytes, n: nat, out: map<string, Bytes>, j: nat)
    requires j < |plans|
  {
    && RecordSize(plans[..j], kind, n) <= RecordSize(plans[..j + 1], kind, n) <= |payload|
    && plans[j].name in out
    && out[plans[j].name] == payload[RecordSize(plans[..j], kind, n)..RecordSize(plans[..j + 1], kind, n)]
  }

  /** The first `m` layers have their parts of the payload, and only they. */
  ghost predicate SplitTo(plans: seq<LayerPlan>, kind: nat, payload: Bytes, n: nat, out: map<string, Bytes>, m: nat)
    requires m <= |plans|
  {
    && (forall j :: 0 <= j < m && plans[j].kind == kind ==> HasPart(plans, kind, payload, n, out, j))
    && forall name :: name in out ==> exists j :: 0 <= j < m && plans[j].kind == kind && plans[j].name == name
  }

  lemma SizeNext(plans: seq<LayerPlan>, kind: nat, n: nat, i: nat)
    requires i < |plans|
    ensures plans[i].width * n >= 0
    ensures RecordSize(plans[..i + 1], kind, n)
            == RecordSize(plans[..i], kind, n) + (if plans[i].kind == kind then plans[i].width * n else 0)
    ensures RecordSize(plans[..i + 1], kind, n) <= RecordSize(plans, kind, n)
  {
    assert plans[..i + 1][..i] == plans[..i];
    PartEnds(plans, kind, n, i);
  }

  lemma SplitSkips(plans: seq<LayerPlan>, kind: nat, payload: Bytes, n: nat, out: map<string, Bytes>, i: nat)
    requires i < |plans| && plans[i].kind != kind && SplitTo(plans, kind, payload, n, out, i)
    ensures SplitTo(plans, kind, payload, n, out, i + 1)
  {
    hide HasPart;
  }

  lemma SplitNext(
    plans: seq<LayerPlan>, kind: nat, payload: Bytes, n: nat, out: map<string, Bytes>, i: nat, offset: nat, size: nat)
    requires PlansOk(plans) && i < |plans| && plans[i].kind == kind && offset + size <= |payload|
    requires offset == RecordSize(plans[..i], kind, n) && RecordSize(plans[..i + 1], kind, n) == offset + size
    requires SplitTo(plans, kind, payload, n, out, i)
    ensures SplitTo(plans, kind, payload, n, out[plans[i].name := payload[offset..offset + size]], i + 1)
  {
    hide RecordSize;
    var more := out[plans[i].name := payload[offset..offset + size]];
    forall j | 0 <= j < i + 1 && plans[j].kind == kind
      ensures HasPart(plans, kind, payload, n, more, j)
    {
      if j < i {
        assert HasPart(plans, kind, payload, n, out, j);
      }
    }
    hide HasPart;
    forall name | name in more
      ensures exists j :: 0 <= j < i + 1 && plans[j].kind == kind && plans[j].name == name
    {
      if name == plans[i].name {
        assert plans[i].kind == kind && plans[i].name == name;
      }
    }
  }

  lemma SplitEmpty(plans: seq<LayerPlan>, kind: nat, payload: Bytes, n: nat, out: map<string, Bytes>)
    requires SplitTo(plans, kind, payload, n, out, |plans|)
    ensures out == map[] <==> !Contributes(plans, kind)
  {
    hide RecordSize;
    if out != map[] {
      var name :| name in out;
    }
  }

  lemma SplitAll(plans: seq<LayerPlan>, kind: nat, payload: Bytes, n: nat, out: map<string, Bytes>)
    requires SplitTo(plans, kind, payload, n, out, |plans|) && |payload| == RecordSize(plans, kind, n)
    ensures Splits(plans, kind, payload, n, out)
  {
    hide RecordSize;
    forall i | 0 <= i < |plans| && plans[i].kind == kind
      ensures plans[i].name in out && out[plans[i].name] == RecordPart(plans, kind, payload, n, i)
    {
      assert HasPart(plans, kind, payload, n, out, i);
    }
  }

  /** Splitting succeeds exactly on payloads of the exact size. */
  method UnpackRecord(plans: seq<LayerPlan>, kind: nat, payload: Bytes, n: nat)
    returns (r: Result<map<string, Bytes>, CodecError>)
    requires PlansOk(plans)
    ensures r.Ok? <==> Contributes(plans, kind) && |payload| == RecordSize(plans, kind, n)
    ensures r.Ok? ==> Splits(plans, kind, payload, n, r.value)
  {
    var out: map<string, Bytes> := map[];
    var offset: nat := 0;
    assert RecordSize(plans[..0], kind, n) == 0 && SplitTo(plans, kind, payload, n, out, 0);
    hide RecordSize, Splits, SplitTo, PlansOk, Contributes;
    for i := 0 to |plans|
      invariant offset == RecordSize(plans[..i], kind, n) <= |payload|
      invariant SplitTo(plans, kind, payload, n, out, i)
    {
      var plan := plans[i];
      SizeNext(plans, kind, n, i);
      if plan.kind != kind {
        SplitSkips(plans, kind, payload, n, out, i);
      } else {
        var size: nat := plan.width * n;
        if offset + size > |payload| {
          return Err(Truncated);
        }
        SplitNext(plans, kind, payload, n, out, i, offset, size);
        out := out[plan.name := payload[offset..offset + size]];
        offset := offset + size;
      }
    }
    assert plans[..|plans|] == plans;
    SplitEmpty(plans, kind, payload, n, out);
    if out == map[] {
      return Err(NoLayer);
    }
    if offset != |payload| {
      return Err(Trailing);
    }
    SplitAll(plans, kind, payload, n, out);
    r := Ok(out);
  }

  method PackRecordRows(plans: seq<LayerPlan>, kind: nat, rows: map<string, Bytes>, n: nat)
    returns (r: Result<Bytes, CodecError>)
    ensures r.Ok? <==> PackRecord(plans, kind, rows, n).Ok?
    ensures r.Ok? ==> r == PackRecord(plans, kind, rows, n)
  {
    var joined: Bytes := [];
    var any := false;
    for i := 0 to |plans|
      invariant joined == Packed(plans[..i], kind, rows) && FirstMisfit(plans[..i], kind, rows, n) == None
      invariant any <==> exists j :: 0 <= j < i && plans[j].kind == kind
    {
      var plan := plans[i];
      assert plans[..i + 1][..i] == plans[..i];
      if plan.kind == kind {
        if plan.name !in rows {
          StillMisfits(plans, kind, rows, n, i + 1);
          return Err(MissingRows);
        }
        if |rows[plan.name]| != plan.width * n {
          StillMisfits(plans, kind, rows, n, i + 1);
          return Err(RowLength);
        }
        joined := joined + rows[plan.name];
        any := true;
      }
    }
    assert plans[..|plans|] == plans;
    if !any {
      return Err(NoLayer);
    }
    r := Ok(joined);
  }

  lemma {:induction false} StillMisfits(plans: seq<LayerPlan>, kind: nat, rows: map<string, Bytes>, n: nat, m: nat)
    requires m <= |plans| && FirstMisfit(plans[..m], kind, rows, n).Some?
    ensures FirstMisfit(plans, kind, rows, n).Some?
    decreases |plans|
  {
    if m < |plans| {
      var front := plans[..|plans| - 1];
      assert front[..m] == plans[..m];
      StillMisfits(front, kind, rows, n, m);
    } else {
      assert plans[..m] == plans;
    }
  }

  lemma {:induction false} PackedParts(plans: seq<LayerPlan>, kind: nat, rows: map<string, Bytes>, n: nat, i: nat)
    requires FirstMisfit(plans, kind, rows, n).None? && i < |plans| && plans[i].kind == kind
    ensures |Packed(plans, kind, rows)| == RecordSize(plans, kind, n)
    ensures plans[i].name in rows
    ensures RecordPart(plans, kind, Packed(plans, kind, rows), n, i) == rows[plans[i].name]
    decreases |plans|
  {
    var front, last := plans[..|plans| - 1], plans[|plans| - 1];
    PackedSize(front, kind, rows, n);
    PartEnds(plans, kind, n, i);
    if i < |front| {
      PackedParts(front, kind, rows, n, i);
      PartEnds(front, kind, n, i);
      assert front[..i] == plans[..i] && front[..i + 1] == plans[..i + 1];
    } else {
      assert plans[..i] == front && plans[..i + 1] == plans;
    }
  }

  lemma {:induction false} PackedSize(plans: seq<LayerPlan>, kind: nat, rows: map<string, Bytes>, n: nat)
    requires FirstMisfit(plans, kind, rows, n).None?
    ensures |Packed(plans, kind, rows)| == RecordSize(plans, kind, n)
  {
    if plans != [] {
      PackedSize(plans[..|plans| - 1], kind, rows, n);
    }
  }

  /** A record is its layers' rows one after another, in plan order. */
  lemma {:induction false} PackedInOrder(before: seq<LayerPlan>, after: seq<LayerPlan>, kind: nat, rows: map<string, Bytes>)
    ensures Packed(before + after, kind, rows) == Packed(before, kind, rows) + Packed(after, kind, rows)
    decreases |after|
  {
    if after == [] {
      assert before + after == before;
    } else {
      var front, last := after[..|after| - 1], after[|after| - 1];
      var whole := before + after;
      assert whole[..|whole| - 1] == before + front && whole[|whole| - 1] == last;
      PackedLast(whole, kind, rows);
      PackedLast(after, kind, rows);
      PackedInOrder(before, front, kind, rows);
      hide Packed;
      assert Packed(before, kind, rows) + (Packed(front, kind, rows) + Packed([last], kind, rows))
             == Packed(before, kind, rows) + Packed(front, kind, rows) + Packed([last], kind, rows);
    }
  }

  lemma PackedLast(plans: seq<LayerPlan>, kind: nat, rows: map<string, Bytes>)
    requires plans != []
    ensures Packed(plans, kind, rows)
            == Packed(plans[..|plans| - 1], kind, rows) + Packed([plans[|plans| - 1]], kind, rows)
  {
    PackedOne(plans[|plans| - 1], kind, rows);
  }

  /** Each layer of the kind brings its rows, the others nothing. */
  lemma PackedOne(p: LayerPlan, kind: nat, rows: map<string, Bytes>)
    ensures Packed([p], kind, rows) == if p.kind == kind && p.name in rows then rows[p.name] else []
  {
    assert [p][..0] == [];
    assert Packed([p][..0], kind, rows) == [];
  }

  /** Packing succeeds exactly if the kind has a layer and every layer of the kind
      has its rows, each of its full length. */
  lemma {:induction false} PacksExactly(plans: seq<LayerPlan>, kind: nat, rows: map<string, Bytes>, n: nat)
    ensures PackRecord(plans, kind, rows, n).Ok? <==>
              && (exists i :: 0 <= i < |plans| && plans[i].kind == kind)
              && forall i :: 0 <= i < |plans| && plans[i].kind == kind ==>
                   plans[i].name in rows && |rows[plans[i].name]| == plans[i].width * n
  {
    FitsExactly(plans, kind, rows, n);
  }

  lemma {:induction false} FitsExactly(plans: seq<LayerPlan>, kind: nat, rows: map<string, Bytes>, n: nat)
    ensures FirstMisfit(plans, kind, rows, n).None? <==>
              forall i :: 0 <= i < |plans| && plans[i].kind == kind ==>
                plans[i].name in rows && |rows[plans[i].name]| == plans[i].width * n
  {
    if plans != [] {
      FitsExactly(plans[..|plans| - 1], kind, rows, n);
      assert plans == plans[..|plans| - 1] + [plans[|plans| - 1]];
    }
  }

  /** Splitting a packed record gives every layer its own rows back, and nothing else. */
  lemma SplitOfPacked(plans: seq<LayerPlan>, kind: nat, rows: map<string, Bytes>, n: nat, out: map<string, Bytes>)
    requires PlansOk(plans) && PackRecord(plans, kind, rows, n).Ok?
    ensures |PackRecord(plans, kind, rows, n).value| == RecordSize(plans, kind, n)
    ensures Splits(plans, kind, PackRecord(plans, kind, rows, n).value, n, out) ==>
              && (forall name :: name in out <==>
                    exists i :: 0 <= i < |plans| && plans[i].kind == kind && plans[i].name == name)
              && forall name :: name in out ==> name in rows && out[name] == rows[name]
  {
    PackedSize(plans, kind, rows, n);
    forall i | 0 <= i < |plans| && plans[i].kind == kind
      ensures plans[i].name in rows && RecordPart(plans, kind, Packed(plans, kind, rows), n, i) == rows[plans[i].name]
    {
      PackedParts(plans, kind, rows, n, i);
    }
  }
}
