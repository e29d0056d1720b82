// Where restored bytes come from: macro objects that tile an encoded payload,
// and tail extents cut out of them.
module CudaSources {
  import opened Common
  import opened Pages

  const PREFETCH_BYTES: nat := 256 * 1024 * 1024

  /** Cache keys: an object's file, or a tail inside the file set it starts. */
  datatype Path = ChunkPath(digest: Hash) | TailPath(digest: Hash, start: nat, end: nat)

  datatype Piece = Piece(digest: Hash, size: nat, offset: nat, length: nat)

  datatype Source =
    | PageObject(digest: Hash, size: nat, start: nat, end: nat)
    | TailExtent(digest: Hash, sha: Hash, size: nat, start: nat, end: nat, pieces: seq<Piece>)
  {
    function Path(): Path {
      if PageObject? then ChunkPath(digest) else TailPath(digest, start, end)
    }
  }

  datatype CudaError =
    | ObjectGeometry | IdentityDiffers | PrefixCoverage | CountsDiffer | CoverageGap | CoverageDiffers
    | UncoveredTail | UncoveredSpan | FinalCoverage | PrefetchBound | NoSpans | RunFailed

  // ---- objects that tile a payload ----

  datatype Descriptor = Descriptor(digest: Hash, bytes: int, start: int, end: int)

  predicate TiledFrom(objects: seq<Source>, at: nat) {
    objects == []
    || (&& objects[0].start == at && objects[0].end == at + objects[0].size && objects[0].size > 0
        && TiledFrom(objects[1..], objects[0].end))
  }

  function TiledTo(objects: seq<Source>, at: nat): nat {
    if objects == [] then at else TiledTo(objects[1..], objects[0].end)
  }

  predicate Bounded(objects: seq<Source>, bound: int) {
    forall k :: 0 <= k < |objects| ==> objects[k].size <= bound
  }

  lemma {:induction false} TiledAppend(objects: seq<Source>, at: nat, next: Source)
    requires TiledFrom(objects, at) && next.start == TiledTo(objects, at)
    requires next.size > 0 && next.end == next.start + next.size
    ensures TiledFrom(objects + [next], at) && TiledTo(objects + [next], at) == next.end
  {
    if objects == [] {
      assert TiledFrom([next], at);
    } else {
      TiledAppend(objects[1..], objects[0].end, next);
      assert (objects + [next])[1..] == objects[1..] + [next];
    }
  }

  predicate DescriptorFits(d: Descriptor, arena: int, expected: nat) {
    0 < d.bytes <= arena && d.bytes <= PREFETCH_BYTES && d.start == expected && d.end == d.start + d.bytes
  }

  /** Descriptors before `n` that follow one another end here. */
  function DescribedTo(ds: seq<Descriptor>, n: nat): int
    requires n <= |ds|
  {
    if n == 0 then 0 else ds[n - 1].end
  }

  predicate Describes(ds: seq<Descriptor>, total: int, arena: int) {
    && total > 0 && arena > 0 && ds != [] && DescribedTo(ds, |ds|) == total
    && forall k :: 0 <= k < |ds| ==> DescribedTo(ds, k) >= 0 && DescriptorFits(ds[k], arena, DescribedTo(ds, k))
  }

  /** Accepted descriptors are exactly those that tile the payload in bounded
      objects, and the objects are theirs in order. */
  method PageObjects(ds: seq<Descriptor>, total: int, arena: int) returns (r: Result<seq<Source>, CudaError>)
    ensures r.Ok? <==> Describes(ds, total, arena)
    ensures r.Err? ==> r.error == ObjectGeometry
    ensures r.Ok? ==>
              && TiledFrom(r.value, 0) && TiledTo(r.value, 0) == total
              && Bounded(r.value, arena) && Bounded(r.value, PREFETCH_BYTES)
              && |r.value| == |ds|
              && forall k :: 0 <= k < |ds| ==> r.value[k].PageObject? && r.value[k].digest == ds[k].digest
  {
    if total <= 0 || arena <= 0 {
      return Err(ObjectGeometry);
    }
    var objects: seq<Source> := [];
    var expected: nat := 0;
    for k := 0 to |ds|
      invariant expected == DescribedTo(ds, k) && |objects| == k
      invariant forall j :: 0 <= j < k ==> DescribedTo(ds, j) >= 0 && DescriptorFits(ds[j], arena, DescribedTo(ds, j))
      invariant TiledFrom(objects, 0) && TiledTo(objects, 0) == expected
      invariant Bounded(objects, arena) && Bounded(objects, PREFETCH_BYTES)
      invariant forall j :: 0 <= j < k ==> objects[j].PageObject? && objects[j].digest == ds[j].digest
    {
      var d := ds[k];
      if !DescriptorFits(d, arena, expected) {
        return Err(ObjectGeometry);
      }
      var next := PageObject(d.digest, d.bytes, d.start, d.end);
      TiledAppend(objects, 0, next);
      objects := objects + [next];
      expected := d.end;
    }
    if objects == [] || expected != total {
      return Err(ObjectGeometry);
    }
    r := Ok(objects);
  }

  // ---- what sources hold ----

  /** The files: each object's bytes under its digest. */
  type Store = Hash -> Bytes

  predicate PieceOk(store: Store, p: Piece) {
    |store(p.digest)| == p.size && p.offset + p.length <= p.size
  }

  function PieceBytes(store: Store, p: Piece): Bytes
    requires PieceOk(store, p)
  {
    store(p.digest)[p.offset..p.offset + p.length]
  }

  predicate SourceOk(store: Store, s: Source) {
    match s
    case PageObject(digest, size, _, _) => |store(digest)| == size
    case TailExtent(_, _, size, _, _, pieces) =>
      (forall k :: 0 <= k < |pieces| ==> PieceOk(store, pieces[k])) && |Gather(store, pieces)| == size
  }

  function Gather(store: Store, pieces: seq<Piece>): Bytes
    requires forall k :: 0 <= k < |pieces| ==> PieceOk(store, pieces[k])
  {
    if pieces == [] then [] else PieceBytes(store, pieces[0]) + Gather(store, pieces[1..])
  }

  function SourceBytes(store: Store, s: Source): (bytes: Bytes)
    requires SourceOk(store, s)
    ensures |bytes| == s.size
  {
    if s.PageObject? then store(s.digest) else Gather(store, s.pieces)
  }

  /** The source holds its own part of the payload. */
  ghost predicate Carries(store: Store, s: Source, payload: Bytes) {
    SourceOk(store, s) && s.start + s.size == s.end <= |payload| && SourceBytes(store, s) == payload[s.start..s.end]
  }

  ghost predicate Stored(store: Store, objects: seq<Source>) {
    forall k :: 0 <= k < |objects| ==> SourceOk(store, objects[k])
  }

  /** The payload that tiled objects spell out. */
  ghost function Encoded(store: Store, objects: seq<Source>): Bytes
    requires Stored(store, objects)
  {
    if objects == [] then []
    else Encoded(store, objects[..|objects| - 1]) + SourceBytes(store, objects[|objects| - 1])
  }

  lemma {:induction false} TiledFront(objects: seq<Source>, at: nat)
    requires objects != [] && TiledFrom(objects, at)
    ensures var last := objects[|objects| - 1];
            && TiledFrom(objects[..|objects| - 1], at) && TiledTo(objects[..|objects| - 1], at) == last.start
            && last.end == last.start + last.size == TiledTo(objects, at)
    decreases |objects|
  {
    if |objects| > 1 {
      TiledFront(objects[1..], objects[0].end);
      assert objects[..|objects| - 1][1..] == objects[1..][..|objects| - 2];
    }
  }

  lemma {:induction false} EncodedLength(store: Store, objects: seq<Source>)
    requires TiledFrom(objects, 0) && Stored(store, objects)
    ensures |Encoded(store, objects)| == TiledTo(objects, 0)
    decreases |objects|
  {
    if objects != [] {
      TiledFront(objects, 0);
      EncodedLength(store, objects[..|objects| - 1]);
    }
  }

  /** Every tiled object carries its part of what the objects spell out. */
  lemma {:induction false} TileCarries(store: Store, objects: seq<Source>, k: nat)
    requires TiledFrom(objects, 0) && Stored(store, objects)
    requires k < |objects|
    ensures Carries(store, objects[k], Encoded(store, objects))
    decreases |objects|
  {
    var n := |objects| - 1;
    var last := objects[n];
    TiledFront(objects, 0);
    EncodedLength(store, objects[..n]);
    hide SourceBytes, SourceOk, TiledFrom, TiledTo;
    if k == n {
      CarriesLast(store, last, Encoded(store, objects[..n]));
    } else {
      TileCarries(store, objects[..n], k);
      assert objects[..n][k] == objects[k];
      hide Carries;
      CarriesMore(store, objects[k], Encoded(store, objects[..n]), SourceBytes(store, last));
    }
  }

  lemma CarriesLast(store: Store, s: Source, front: Bytes)
    requires SourceOk(store, s) && s.start == |front| && s.end == s.start + s.size
    ensures Carries(store, s, front + SourceBytes(store, s))
  {
    hide SourceBytes, SourceOk;
    assert (front + SourceBytes(store, s))[s.start..s.end] == SourceBytes(store, s);
  }

  lemma CarriesMore(store: Store, s: Source, front: Bytes, more: Bytes)
    requires Carries(store, s, front)
    ensures Carries(store, s, front + more)
  {
    hide SourceBytes, SourceOk;
    assert (front + more)[s.start..s.end] == front[s.start..s.end];
  }

  // ---- cutting a byte range out of tiled sources ----

  datatype Fragment = Fragment(source: Source, start: nat, end: nat)

  /** The loop both planners share: walk the sources with a cursor and take what
      overlaps `[lo, hi)`. */
  function Fragments(objects: seq<Source>, lo: nat, hi: nat): seq<Fragment> {
    if objects == [] then []
    else
      var start, end := Max(lo, objects[0].start), Min(hi, objects[0].end);
      if start >= end then Fragments(objects[1..], lo, hi)
      else [Fragment(objects[0], start, end)] + (if end == hi then [] else Fragments(objects[1..], end, hi))
  }

  predicate FragmentInside(f: Fragment) {
    f.source.start <= f.start < f.end <= f.source.end == f.source.start + f.source.size
  }

  /** Non-empty fragments, each inside its source, following one another. */
  predicate FragmentsRun(frags: seq<Fragment>, lo: nat, hi: nat) {
    if frags == [] then lo == hi
    else frags[0].start == lo && FragmentInside(frags[0]) && FragmentsRun(frags[1..], frags[0].end, hi)
  }

  lemma {:induction false} NoFragments(objects: seq<Source>, at: nat)
    ensures Fragments(objects, at, at) == []
  {
    if objects != [] {
      NoFragments(objects[1..], at);
    }
  }

  lemma {:induction false} FragmentsFrom(objects: seq<Source>, lo: nat, hi: nat)
    ensures forall k :: 0 <= k < |Fragments(objects, lo, hi)| ==> Fragments(objects, lo, hi)[k].source in objects
  {
    if objects != [] {
      var start, end := Max(lo, objects[0].start), Min(hi, objects[0].end);
      FragmentsFrom(objects[1..], lo, hi);
      FragmentsFrom(objects[1..], end, hi);
    }
  }

  /** Tiled sources always yield the whole range. */
  lemma {:induction false} FragmentsCover(objects: seq<Source>, at: nat, lo: nat, hi: nat)
    requires TiledFrom(objects, at) && at <= lo <= hi <= TiledTo(objects, at)
    ensures FragmentsRun(Fragments(objects, lo, hi), lo, hi)
  {
    if lo == hi {
      NoFragments(objects, lo);
    } else if lo >= objects[0].end {
      FragmentsCover(objects[1..], objects[0].end, lo, hi);
    } else {
      var end := Min(hi, objects[0].end);
      if end < hi {
        FragmentsCover(objects[1..], end, end, hi);
      }
      var rest := if end == hi then [] else Fragments(objects[1..], end, hi);
      assert ([Fragment(objects[0], lo, end)] + rest)[1..] == rest;
    }
  }

  ghost predicate FragmentsOk(store: Store, frags: seq<Fragment>) {
    forall k :: 0 <= k < |frags| ==> SourceOk(store, frags[k].source) && FragmentInside(frags[k])
  }

  ghost function FragmentsBytes(store: Store, frags: seq<Fragment>): Bytes
    requires FragmentsOk(store, frags)
  {
    if frags == [] then []
    else
      var f := frags[0];
      SourceBytes(store, f.source)[f.start - f.source.start..f.end - f.source.start]
      + FragmentsBytes(store, frags[1..])
  }

  lemma FirstFragment(store: Store, frags: seq<Fragment>, payload: Bytes, lo: nat, hi: nat)
    requires frags != [] && FragmentsRun(frags, lo, hi)
    requires forall k :: 0 <= k < |frags| ==> Carries(store, frags[k].source, payload)
    ensures frags[0].start == lo && FragmentInside(frags[0]) && FragmentsRun(frags[1..], frags[0].end, hi)
    ensures Carries(store, frags[0].source, payload) && SourceOk(store, frags[0].source)
    ensures forall k :: 0 <= k < |frags[1..]| ==> Carries(store, frags[1..][k].source, payload)
    ensures FragmentsOk(store, frags[1..]) ==> FragmentsOk(store, frags)
  {
    hide SourceBytes, SourceOk;
    assert forall k :: 1 <= k < |frags| ==> frags[k] == frags[1..][k - 1];
  }

  lemma BytesFirst(store: Store, frags: seq<Fragment>)
    requires frags != [] && FragmentsOk(store, frags)
    ensures FragmentInside(frags[0]) && SourceOk(store, frags[0].source) && FragmentsOk(store, frags[1..])
    ensures FragmentsBytes(store, frags)
            == SourceBytes(store, frags[0].source)[frags[0].start - frags[0].source.start..frags[0].end - frags[0].source.start]
               + FragmentsBytes(store, frags[1..])
  {
    hide SourceBytes, SourceOk;
  }

  /** A run of fragments of a payload reads exactly that range of it. */
  lemma {:induction false} FragmentsRead(store: Store, frags: seq<Fragment>, payload: Bytes, lo: nat, hi: nat)
    requires FragmentsRun(frags, lo, hi) && forall k :: 0 <= k < |frags| ==> Carries(store, frags[k].source, payload)
    requires hi <= |payload|
    ensures FragmentsOk(store, frags) && lo <= hi
    ensures FragmentsBytes(store, frags) == payload[lo..hi]
    decreases |frags|
  {
    if frags != [] {
      hide *;
      var f := frags[0];
      FirstFragment(store, frags, payload, lo, hi);
      FragmentsRead(store, frags[1..], payload, f.end, hi);
      FragmentRead(store, f, payload);
      BytesFirst(store, frags);
      InsideOrder(f);
      TwoSlices(payload, lo, f.end, hi);
    }
  }

  lemma InsideOrder(f: Fragment)
    requires FragmentInside(f)
    ensures f.source.start <= f.start < f.end
  {
  }

  lemma FragmentRead(store: Store, f: Fragment, payload: Bytes)
    requires Carries(store, f.source, payload) && FragmentInside(f)
    ensures SourceBytes(store, f.source)[f.start - f.source.start..f.end - f.source.start] == payload[f.start..f.end]
  {
    hide SourceBytes, SourceOk;
    SliceOfSlice(payload, f.source.start, f.source.end, f.start - f.source.start, f.end - f.source.start);
  }

  /** Where the cursor stands after the loop. */
  function FragmentsTo(frags: seq<Fragment>, lo: nat): nat {
    if frags == [] then lo else frags[|frags| - 1].end
  }

  lemma {:induction false} RunEnds(frags: seq<Fragment>, lo: nat, hi: nat)
    requires FragmentsRun(frags, lo, hi)
    ensures FragmentsTo(frags, lo) == hi
  {
    if frags != [] {
      RunEnds(frags[1..], frags[0].end, hi);
    }
  }

  lemma FragmentsStep(objects: seq<Source>, k: nat, lo: nat, hi: nat)
    requires k < |objects|
    ensures var start, end := Max(lo, objects[k].start), Min(hi, objects[k].end);
            Fragments(objects[k..], lo, hi)
            == if start >= end then Fragments(objects[k + 1..], lo, hi)
               else [Fragment(objects[k], start, end)] + (if end == hi then [] else Fragments(objects[k + 1..], end, hi))
  {
    assert objects[k..][0] == objects[k] && objects[k..][1..] == objects[k + 1..];
  }

  method CutFragments(objects: seq<Source>, lo: nat, hi: nat) returns (frags: seq<Fragment>, cursor: nat)
    ensures frags == Fragments(objects, lo, hi) && cursor == FragmentsTo(frags, lo)
  {
    hide FragmentInside, Fragments;
    frags, cursor := [], lo;
    assert objects[0..] == objects;
    for k := 0 to |objects|
      invariant Fragments(objects, lo, hi) == frags + Fragments(objects[k..], cursor, hi)
      invariant cursor == FragmentsTo(frags, lo)
    {
      FragmentsStep(objects, k, cursor, hi);
      var start, end := Max(cursor, objects[k].start), Min(hi, objects[k].end);
      if start < end {
        ghost var rest := if end == hi then [] else Fragments(objects[k + 1..], end, hi);
        assert frags + ([Fragment(objects[k], start, end)] + rest) == frags + [Fragment(objects[k], start, end)] + rest;
        frags := frags + [Fragment(objects[k], start, end)];
        cursor := end;
        if cursor == hi {
          return;
        }
      }
    }
    NoObjects(objects[|objects|..], cursor, hi);
  }

  lemma NoObjects(objects: seq<Source>, lo: nat, hi: nat)
    requires objects == []
    ensures Fragments(objects, lo, hi) == []
  {
  }

  // ---- tail extents ----

  /** Where a tail lies in its stage file, with the hash its header binds. */
  datatype TailSpot = TailSpot(start: nat, end: nat, sha: Hash)

  function PieceOf(f: Fragment): Piece
    requires FragmentInside(f)
  {
    Piece(f.source.digest, f.source.size, f.start - f.source.start, f.end - f.start)
  }

  function PiecesOf(frags: seq<Fragment>): (pieces: seq<Piece>)
    requires forall k :: 0 <= k < |frags| ==> FragmentInside(frags[k])
    ensures |pieces| == |frags|
  {
    seq(|frags|, k requires 0 <= k < |frags| => assert FragmentInside(frags[k]); PieceOf(frags[k]))
  }

  lemma {:induction false} RunInside(frags: seq<Fragment>, lo: nat, hi: nat)
    requires FragmentsRun(frags, lo, hi)
    ensures forall k :: 0 <= k < |frags| ==> FragmentInside(frags[k])
  {
    if frags != [] {
      RunInside(frags[1..], frags[0].end, hi);
      assert forall k :: 1 <= k < |frags| ==> frags[k] == frags[1..][k - 1];
    }
  }

  function ExtentOf(objects: seq<Source>, t: TailSpot): Source
    requires objects != [] && TiledFrom(objects, 0) && t.start <= t.end <= TiledTo(objects, 0)
  {
    FragmentsCover(objects, 0, t.start, t.end);
    RunInside(Fragments(objects, t.start, t.end), t.start, t.end);
    TailExtent(objects[0].digest, t.sha, t.end - t.start, t.start, t.end, PiecesOf(Fragments(objects, t.start, t.end)))
  }

  lemma PieceReads(store: Store, f: Fragment)
    requires SourceOk(store, f.source) && FragmentInside(f) && f.source.PageObject?
    ensures PieceOk(store, PieceOf(f))
    ensures PieceBytes(store, PieceOf(f))
            == SourceBytes(store, f.source)[f.start - f.source.start..f.end - f.source.start]
  {
  }

  lemma PiecesRest(frags: seq<Fragment>)
    requires frags != [] && forall k :: 0 <= k < |frags| ==> FragmentInside(frags[k])
    ensures PiecesOf(frags)[0] == PieceOf(frags[0])
    ensures forall k :: 0 <= k < |frags[1..]| ==> FragmentInside(frags[1..][k])
    ensures PiecesOf(frags)[1..] == PiecesOf(frags[1..])
  {
    hide FragmentInside, PieceOf;
  }

  lemma GatherNext(store: Store, pieces: seq<Piece>)
    requires pieces != [] && PieceOk(store, pieces[0])
    requires forall k :: 0 <= k < |pieces[1..]| ==> PieceOk(store, pieces[1..][k])
    ensures forall k :: 0 <= k < |pieces| ==> PieceOk(store, pieces[k])
    ensures Gather(store, pieces) == PieceBytes(store, pieces[0]) + Gather(store, pieces[1..])
  {
    hide PieceOk, PieceBytes;
    forall k | 0 <= k < |pieces|
      ensures PieceOk(store, pieces[k])
    {
      assert k > 0 ==> pieces[k] == pieces[1..][k - 1];
    }
  }

  lemma FragmentsRest(store: Store, frags: seq<Fragment>)
    requires FragmentsOk(store, frags) && frags != []
    ensures SourceOk(store, frags[0].source) && FragmentInside(frags[0]) && FragmentsOk(store, frags[1..])
    ensures forall k :: 0 <= k < |frags| ==> FragmentInside(frags[k])
    ensures forall k :: 0 <= k < |frags[1..]| ==> frags[1..][k] == frags[k + 1]
  {
    hide SourceOk, FragmentInside;
  }

  lemma {:induction false} GatherIsFragments(store: Store, frags: seq<Fragment>)
    requires FragmentsOk(store, frags) && forall k :: 0 <= k < |frags| ==> frags[k].source.PageObject?
    ensures forall k :: 0 <= k < |frags| ==> PieceOk(store, PiecesOf(frags)[k])
    ensures Gather(store, PiecesOf(frags)) == FragmentsBytes(store, frags)
  {
    if frags == [] {
      hide SourceOk, SourceBytes, FragmentInside, FragmentsOk, PieceOk, PieceOf, PieceBytes;
    } else {
      hide *;
      FragmentsRest(store, frags);
      PieceReads(store, frags[0]);
      PiecesRest(frags);
      GatherIsFragments(store, frags[1..]);
      GatherNext(store, PiecesOf(frags));
      BytesNext(store, frags);
    }
  }

  lemma BytesNext(store: Store, frags: seq<Fragment>)
    requires frags != [] && FragmentsOk(store, frags)
    ensures FragmentsOk(store, frags[1..]) && SourceOk(store, frags[0].source) && FragmentInside(frags[0])
    ensures FragmentsBytes(store, frags)
            == SourceBytes(store, frags[0].source)
                 [frags[0].start - frags[0].source.start..frags[0].end - frags[0].source.start]
               + FragmentsBytes(store, frags[1..])
  {
    hide SourceBytes, SourceOk;
  }

  lemma ExtentGathers(store: Store, objects: seq<Source>, lo: nat, hi: nat)
    requires objects != [] && TiledFrom(objects, 0) && lo <= hi <= TiledTo(objects, 0)
    requires Stored(store, objects) && forall k :: 0 <= k < |objects| ==> objects[k].PageObject?
    ensures |Encoded(store, objects)| == TiledTo(objects, 0)
    ensures FragmentsOk(store, Fragments(objects, lo, hi))
    ensures forall k :: 0 <= k < |Fragments(objects, lo, hi)| ==> Fragments(objects, lo, hi)[k].source.PageObject?
    ensures FragmentsBytes(store, Fragments(objects, lo, hi)) == Encoded(store, objects)[lo..hi]
  {
    var frags, payload := Fragments(objects, lo, hi), Encoded(store, objects);
    EncodedLength(store, objects);
    FragmentsCover(objects, 0, lo, hi);
    FragmentsFrom(objects, lo, hi);
    hide Encoded, Fragments, FragmentsRun, TiledFrom, TiledTo, SourceOk, Carries;
    forall k | 0 <= k < |frags|
      ensures Carries(store, frags[k].source, payload) && frags[k].source.PageObject?
    {
      var j :| 0 <= j < |objects| && objects[j] == frags[k].source;
      TileCarries(store, objects, j);
    }
    FragmentsRead(store, frags, payload, lo, hi);
  }

  /** Reading an extent piece by piece gives the tail's own bytes. */
  lemma ExtentCarries(store: Store, objects: seq<Source>, t: TailSpot)
    requires objects != [] && TiledFrom(objects, 0) && t.start <= t.end <= TiledTo(objects, 0)
    requires Stored(store, objects) && forall k :: 0 <= k < |objects| ==> objects[k].PageObject?
    ensures Carries(store, ExtentOf(objects, t), Encoded(store, objects))
  {
    var frags := Fragments(objects, t.start, t.end);
    ExtentGathers(store, objects, t.start, t.end);
    hide Encoded, Fragments, TiledFrom, TiledTo, Gather, FragmentsBytes, PieceOk;
    GatherIsFragments(store, frags);
  }

  predicate ExtentSized(t: TailSpot, bound: nat) {
    t.start < t.end && t.end - t.start <= bound
  }

  /** Tail-granular sources, unless some tail is empty or beyond the bound.
      Tiled objects never leave a tail uncovered. */
  method TailExtents(objects: seq<Source>, tails: seq<TailSpot>, bound: nat)
    returns (r: Result<Option<seq<Source>>, CudaError>)
    requires objects != [] && TiledFrom(objects, 0)
    requires forall i :: 0 <= i < |tails| ==> tails[i].start <= tails[i].end <= TiledTo(objects, 0)
    ensures r.Ok?
    ensures r.value.Some? <==> forall i :: 0 <= i < |tails| ==> ExtentSized(tails[i], bound)
    ensures r.value.Some? ==>
              && |r.value.value| == |tails|
              && forall i :: 0 <= i < |tails| ==> r.value.value[i] == ExtentOf(objects, tails[i])
  {
    hide TiledFrom, TiledTo, ExtentOf;
    var extents: seq<Source> := [];
    for i := 0 to |tails|
      invariant |extents| == i
      invariant forall j :: 0 <= j < i ==> ExtentSized(tails[j], bound) && extents[j] == ExtentOf(objects, tails[j])
    {
      var t := tails[i];
      if !ExtentSized(t, bound) {
        return Ok(None);
      }
      var frags, cursor := CutFragments(objects, t.start, t.end);
      FragmentsCover(objects, 0, t.start, t.end);
      RunInside(frags, t.start, t.end);
      RunEnds(frags, t.start, t.end);
      if cursor != t.end {
        return Err(UncoveredTail);
      }
      ExtentIs(objects, t, frags);
      extents := extents + [
        TailExtent(objects[0].digest, t.sha, t.end - t.start, t.start, t.end, PiecesOf(frags))];
    }
    r := Ok(Some(extents));
  }

  lemma ExtentIs(objects: seq<Source>, t: TailSpot, frags: seq<Fragment>)
    requires objects != [] && TiledFrom(objects, 0) && t.start <= t.end <= TiledTo(objects, 0)
    requires frags == Fragments(objects, t.start, t.end)
    requires forall k :: 0 <= k < |frags| ==> FragmentInside(frags[k])
    ensures ExtentOf(objects, t)
            == TailExtent(objects[0].digest, t.sha, t.end - t.start, t.start, t.end, PiecesOf(frags))
  {
  }
}
