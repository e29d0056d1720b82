// What travels between a worker and the scheduler, and how an inventory is
// cut into checkpoint chunks.
module QuorumTypes {
  import opened Common

  const REPORT_BATCH_SIZE: nat := 64
  const DELTA_HISTORY_SIZE: nat := 64
  const PENDING_DELTA_LIMIT: nat := 64
  const RETIRED_GENERATION_LIMIT: nat := 64
  const MISSING_GENERATION := "missing-generation-field"

  /** A SHA-256 name. Sixty-four hex digits order as the numbers they spell. */
  type Digest = nat

  /** One element of a JSON list: a well-formed digest, or anything else. */
  datatype WireValue = Sha(digest: Digest) | NotSha

  datatype Delta = Delta(sequence: int, baseSequence: int, added: seq<WireValue>, removed: seq<WireValue>)

  datatype Checkpoint = Checkpoint(
    stateSequence: int, cycle: int, index: int, count: int, heldCount: int, held: seq<WireValue>)

  /** One delta-protocol report. `epoch` is None when the field is missing or malformed. */
  datatype Report = Report(
    rank: int, generation: string, epoch: Option<nat>, delta: Option<Delta>, checkpoint: Option<Checkpoint>)

  function Wire(ds: seq<Digest>): (ws: seq<WireValue>)
    ensures |ws| == |ds|
    ensures forall i :: 0 <= i < |ds| ==> ws[i] == Sha(ds[i])
  {
    seq(|ds|, i requires 0 <= i < |ds| => Sha(ds[i]))
  }

  function Elements(ds: seq<Digest>): (s: set<Digest>)
    ensures forall d :: d in s <==> d in ds
  {
    set d: Digest | d in ds
  }

  function Digests(ws: seq<WireValue>): set<Digest> {
    set w | w in ws && w.Sha? :: w.digest
  }

  /** The digests of a list in order; only meaningful when every element is one. */
  function Unwire(ws: seq<WireValue>): (ds: seq<Digest>)
    requires forall w :: w in ws ==> w.Sha?
    ensures |ds| == |ws|
    ensures forall i :: 0 <= i < |ws| ==> ds[i] == ws[i].digest
  {
    seq<Digest>(|ws|, (i: int) requires 0 <= i < |ws| => assert ws[i] in ws; ws[i].digest)
  }

  // ---- sets of digests in ascending order ----

  lemma MinExists(s: set<Digest>)
    requires s != {}
    ensures exists m :: m in s && forall y :: y in s ==> m <= y
  {
    var x :| x in s;
    if s == {x} {
    } else {
      MinExists(s - {x});
      var m :| m in s - {x} && forall y :: y in s - {x} ==> m <= y;
      assert forall y :: y in s ==> y == x || y in s - {x};
      if x <= m {
        assert x in s && forall y :: y in s ==> x <= y;
      } else {
        assert m in s && forall y :: y in s ==> m <= y;
      }
    }
  }

  function MinOf(s: set<Digest>): (m: Digest)
    requires s != {}
    ensures m in s && forall y :: y in s ==> m <= y
  {
    MinExists(s);
    var m :| m in s && forall y :: y in s ==> m <= y;
    m
  }

  function Sorted(s: set<Digest>): (r: seq<Digest>)
    ensures |r| == |s|
    ensures Elements(r) == s
    ensures Ascending(r)
  {
    if s == {} then [] else
      var m := MinOf(s);
      var rest := Sorted(s - {m});
      ConsAscending(m, rest, s);
      [m] + rest
  }

  predicate Ascending(r: seq<Digest>) {
    forall i, j :: 0 <= i < j < |r| ==> r[i] < r[j]
  }

  lemma ConsAscending(m: Digest, rest: seq<Digest>, s: set<Digest>)
    requires m in s && forall y :: y in s ==> m <= y
    requires Elements(rest) == s - {m} && Ascending(rest)
    ensures Ascending([m] + rest)
    ensures Elements([m] + rest) == s
  {
    forall i | 0 <= i < |rest|
      ensures m < rest[i]
    {
      assert rest[i] in Elements(rest);
    }
    forall x | x in s
      ensures x in [m] + rest
    {
      if x != m {
        assert x in Elements(rest);
      }
    }
    forall x | x in [m] + rest
      ensures x in s
    {
      if x != m {
        assert x in Elements(rest);
      }
    }
  }

  /** A duplicate-free list has as many elements as its set. */
  lemma {:induction false} DistinctCount(ds: seq<Digest>)
    requires forall i, j :: 0 <= i < j < |ds| ==> ds[i] != ds[j]
    ensures |Elements(ds)| == |ds|
  {
    if ds == [] {
      assert Elements(ds) == {};
    } else {
      var last := ds[|ds| - 1];
      var front := ds[..|ds| - 1];
      DistinctCount(front);
      assert ds == front + [last];
      assert last !in front;
      assert Elements(ds) == Elements(front) + {last};
    }
  }

  lemma WireDigests(ds: seq<Digest>)
    ensures Digests(Wire(ds)) == Elements(ds)
    ensures forall w :: w in Wire(ds) ==> w.Sha?
    ensures Unwire(Wire(ds)) == ds
  {
    forall d | d in ds
      ensures d in Digests(Wire(ds))
    {
      var i :| 0 <= i < |ds| && ds[i] == d;
      assert Wire(ds)[i] == Sha(d);
      assert Sha(d) in Wire(ds);
    }
  }

  /** Sorting and sending a set loses nothing. */
  lemma WireSorted(s: set<Digest>)
    ensures Digests(Wire(Sorted(s))) == s
    ensures |Wire(Sorted(s))| == |s|
  {
    WireDigests(Sorted(s));
  }

  // ---- checkpoint chunks ----

  function ChunkCount(heldCount: nat): (n: nat)
    ensures n >= 1
    ensures n == 1 || (n - 1) * REPORT_BATCH_SIZE < heldCount
    ensures heldCount <= n * REPORT_BATCH_SIZE
  {
    Max(1, (heldCount + REPORT_BATCH_SIZE - 1) / REPORT_BATCH_SIZE)
  }

  function ChunkStart(heldCount: nat, index: nat): (start: nat)
    ensures start <= heldCount
  {
    Min(heldCount, index * REPORT_BATCH_SIZE)
  }

  function Chunk(items: seq<Digest>, index: nat): (chunk: seq<Digest>)
    ensures |chunk| == Min(REPORT_BATCH_SIZE, Max(0, |items| - index * REPORT_BATCH_SIZE))
  {
    items[ChunkStart(|items|, index)..ChunkStart(|items|, index + 1)]
  }

  /** The first `n` chunks one after another. */
  function Spelled(items: seq<Digest>, n: nat): seq<Digest> {
    if n == 0 then [] else Spelled(items, n - 1) + Chunk(items, n - 1)
  }

  /** Chunks follow one another without gap or overlap, and the last one ends the list. */
  lemma {:induction false} ChunksSpell(items: seq<Digest>, n: nat)
    ensures Spelled(items, n) == items[..ChunkStart(|items|, n)]
    ensures n >= ChunkCount(|items|) ==> Spelled(items, n) == items
  {
    if n > 0 {
      ChunksSpell(items, n - 1);
      TwoSlices(items, 0, ChunkStart(|items|, n - 1), ChunkStart(|items|, n));
    }
  }

  /** Every item is in the chunk its position falls in. */
  lemma ChunksCover(items: seq<Digest>, i: nat)
    requires i < |items|
    ensures i / REPORT_BATCH_SIZE < ChunkCount(|items|)
    ensures items[i] in Chunk(items, i / REPORT_BATCH_SIZE)
  {
    var k := i / REPORT_BATCH_SIZE;
    var start := ChunkStart(|items|, k);
    assert start == k * REPORT_BATCH_SIZE <= i < ChunkStart(|items|, k + 1);
    assert Chunk(items, k)[i - start] == items[i];
  }
}
