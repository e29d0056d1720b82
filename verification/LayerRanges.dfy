// Who writes each byte of one layer after a chain of page deltas. A range says
// that bytes [start, end) of the layer come from one owner: the base snapshot
// (-1) or the tail of one stage.
module LayerRanges {
  import opened Common
  import opened Pages

  datatype Range = Range(start: nat, end: nat, owner: int, source: nat)

  const BASE: int := -1

  function Clip(r: Range, cutoff: nat): Range {
    r.(end := Min(r.end, cutoff))
  }

  /** Leading ranges that start below the cutoff. */
  function KeepCount(rs: seq<Range>, cutoff: nat): (k: nat)
    ensures k <= |rs|
    ensures forall j :: 0 <= j < k ==> rs[j].start < cutoff
    ensures k < |rs| ==> rs[k].start >= cutoff
  {
    if rs == [] || rs[0].start >= cutoff then 0 else 1 + KeepCount(rs[1..], cutoff)
  }

  function Keep(rs: seq<Range>, cutoff: nat): seq<Range> {
    seq(KeepCount(rs, cutoff), j requires 0 <= j < KeepCount(rs, cutoff) => Clip(rs[j], cutoff))
  }

  function CoveredTo(rs: seq<Range>): nat {
    if rs == [] then 0 else rs[|rs| - 1].end
  }

  /** Lay a tail of `length` bytes over the layer from `cutoff` on. */
  function Overlay(rs: seq<Range>, cutoff: nat, length: nat, stage: nat): Result<seq<Range>, PageError> {
    var kept := Keep(rs, cutoff);
    if CoveredTo(kept) != cutoff then Err(PrefixCoverage)
    else if length > 0 then Ok(kept + [Range(cutoff, cutoff + length, stage, 0)])
    else Ok(kept)
  }

  // ---- what ranges mean ----

  ghost predicate RangeOk(r: Range, base: Bytes, tails: seq<Bytes>) {
    && r.start < r.end
    && if r.owner == BASE then r.source + r.end - r.start <= |base|
       else 0 <= r.owner < |tails| && r.source == 0 && r.end - r.start <= |tails[r.owner]|
  }

  ghost function RangeBytes(r: Range, base: Bytes, tails: seq<Bytes>): Bytes
    requires RangeOk(r, base, tails)
  {
    if r.owner == BASE then base[r.source..r.source + r.end - r.start] else tails[r.owner][..r.end - r.start]
  }

  /** Non-empty ranges that follow one another from byte 0. */
  ghost predicate Dense(rs: seq<Range>, base: Bytes, tails: seq<Bytes>) {
    && (forall j :: 0 <= j < |rs| ==> RangeOk(rs[j], base, tails))
    && (forall j :: 0 <= j < |rs| ==> rs[j].start == CoveredTo(rs[..j]))
  }

  ghost function Meaning(rs: seq<Range>, base: Bytes, tails: seq<Bytes>): Bytes
    requires Dense(rs, base, tails)
  {
    if rs == [] then []
    else
      DensePrefix(rs, base, tails, |rs| - 1);
      Meaning(rs[..|rs| - 1], base, tails) + RangeBytes(rs[|rs| - 1], base, tails)
  }

  lemma DensePrefix(rs: seq<Range>, base: Bytes, tails: seq<Bytes>, n: nat)
    requires Dense(rs, base, tails) && n <= |rs|
    ensures Dense(rs[..n], base, tails)
  {
    forall j | 0 <= j < n
      ensures rs[..n][j].start == CoveredTo(rs[..n][..j])
    {
      assert rs[..n][..j] == rs[..j];
    }
  }

  lemma {:induction false} MeaningLength(rs: seq<Range>, base: Bytes, tails: seq<Bytes>)
    requires Dense(rs, base, tails)
    ensures |Meaning(rs, base, tails)| == CoveredTo(rs)
  {
    if rs != [] {
      DensePrefix(rs, base, tails, |rs| - 1);
      MeaningLength(rs[..|rs| - 1], base, tails);
    }
  }

  lemma DenseAppend(rs: seq<Range>, r: Range, base: Bytes, tails: seq<Bytes>)
    requires Dense(rs, base, tails) && RangeOk(r, base, tails) && r.start == CoveredTo(rs)
    ensures Dense(rs + [r], base, tails) && CoveredTo(rs + [r]) == r.end
    ensures Meaning(rs + [r], base, tails) == Meaning(rs, base, tails) + RangeBytes(r, base, tails)
  {
    var all := rs + [r];
    assert all[..|rs|] == rs;
    forall j | 0 <= j < |all|
      ensures all[j].start == CoveredTo(all[..j])
    {
      if j < |rs| {
        assert all[..j] == rs[..j];
      }
    }
  }

  /** Starts grow along a dense list. */
  lemma {:induction false} StartsGrow(rs: seq<Range>, base: Bytes, tails: seq<Bytes>, i: nat, j: nat)
    requires Dense(rs, base, tails) && i < j < |rs|
    ensures rs[i].end <= rs[j].start
    decreases j
  {
    assert rs[j].start == CoveredTo(rs[..j]);
    assert rs[..j][j - 1] == rs[j - 1];
    if i < j - 1 {
      StartsGrow(rs, base, tails, i, j - 1);
      assert RangeOk(rs[j - 1], base, tails);
    }
  }

  lemma DenseAt(rs: seq<Range>, base: Bytes, tails: seq<Bytes>, j: nat)
    requires Dense(rs, base, tails) && j < |rs|
    ensures RangeOk(rs[j], base, tails) && rs[j].start == CoveredTo(rs[..j])
    ensures CoveredTo(rs[..j + 1]) == rs[j].end
  {
  }

  /** The last range kept is the one the cutoff falls in. */
  lemma LastKept(rs: seq<Range>, cutoff: nat, base: Bytes, tails: seq<Bytes>)
    requires Dense(rs, base, tails) && 0 < cutoff <= CoveredTo(rs)
    ensures var k := KeepCount(rs, cutoff);
            k > 0 && rs[k - 1].start < cutoff <= rs[k - 1].end
  {
    hide KeepCount, RangeOk;
    var k := KeepCount(rs, cutoff);
    DenseAt(rs, base, tails, 0);
    if k < |rs| {
      DenseAt(rs, base, tails, k);
    }
  }

  lemma FrontUncut(rs: seq<Range>, cutoff: nat, base: Bytes, tails: seq<Bytes>, i: nat, j: nat)
    requires Dense(rs, base, tails) && i < j < |rs| && rs[j].start < cutoff
    ensures Clip(rs[i], cutoff) == rs[i]
  {
    hide Dense;
    StartsGrow(rs, base, tails, i, j);
  }

  /** A dense list is cut by leaving its front alone and clipping one range. */
  lemma KeepIsFrontAndClip(rs: seq<Range>, cutoff: nat, base: Bytes, tails: seq<Bytes>)
    requires Dense(rs, base, tails) && 0 < cutoff <= CoveredTo(rs)
    ensures var k := KeepCount(rs, cutoff);
            && k > 0 && rs[k - 1].start < cutoff <= rs[k - 1].end
            && Keep(rs, cutoff) == rs[..k - 1] + [Clip(rs[k - 1], cutoff)]
  {
    hide Dense, KeepCount, CoveredTo, Clip;
    var k := KeepCount(rs, cutoff);
    LastKept(rs, cutoff, base, tails);
    forall j | 0 <= j < k - 1
      ensures Keep(rs, cutoff)[j] == rs[j]
    {
      FrontUncut(rs, cutoff, base, tails, j, k - 1);
    }
  }

  /** Cutting keeps exactly the layer's first bytes. */
  lemma KeepMeaning(rs: seq<Range>, cutoff: nat, base: Bytes, tails: seq<Bytes>)
    requires Dense(rs, base, tails) && cutoff <= CoveredTo(rs)
    ensures Dense(Keep(rs, cutoff), base, tails) && CoveredTo(Keep(rs, cutoff)) == cutoff
    ensures cutoff <= |Meaning(rs, base, tails)|
    ensures Meaning(Keep(rs, cutoff), base, tails) == Meaning(rs, base, tails)[..cutoff]
  {
    MeaningLength(rs, base, tails);
    if cutoff == 0 {
      assert Keep(rs, cutoff) == [];
    } else {
      CutMeaning(rs, cutoff, base, tails);
    }
  }

  lemma CutMeaning(rs: seq<Range>, cutoff: nat, base: Bytes, tails: seq<Bytes>)
    requires Dense(rs, base, tails) && 0 < cutoff <= CoveredTo(rs) == |Meaning(rs, base, tails)|
    ensures Dense(Keep(rs, cutoff), base, tails) && CoveredTo(Keep(rs, cutoff)) == cutoff
    ensures Meaning(Keep(rs, cutoff), base, tails) == Meaning(rs, base, tails)[..cutoff]
  {
    hide *;
    KeepIsFrontAndClip(rs, cutoff, base, tails);
    var k := KeepCount(rs, cutoff);
    var front, last := rs[..k - 1], rs[k - 1];
    var cut := Clip(last, cutoff);
    DensePrefix(rs, base, tails, k - 1);
    MeaningLength(front, base, tails);
    DenseAt(rs, base, tails, k - 1);
    ClippedBytes(Meaning(front, base, tails), last, cutoff, base, tails);
    DenseAppend(front, cut, base, tails);
    DenseAppend(front, last, base, tails);
    assert rs[..k] == front + [last];
    MeaningPrefix(rs, base, tails, k);
    MeaningLength(rs[..k], base, tails);
    TakeOfPrefix(Meaning(rs[..k], base, tails), Meaning(rs, base, tails), cutoff);
  }

  lemma TakeOfPrefix(a: Bytes, b: Bytes, n: nat)
    requires a <= b && n <= |a|
    ensures a[..n] == b[..n]
  {
  }

  lemma ClippedBytes(front: Bytes, last: Range, cutoff: nat, base: Bytes, tails: seq<Bytes>)
    requires RangeOk(last, base, tails) && last.start < cutoff <= last.end && |front| == last.start
    ensures RangeOk(Clip(last, cutoff), base, tails)
    ensures Clip(last, cutoff).start == last.start && Clip(last, cutoff).end == cutoff
    ensures front + RangeBytes(Clip(last, cutoff), base, tails)
            == (front + RangeBytes(last, base, tails))[..cutoff]
  {
  }

  lemma {:induction false} MeaningPrefix(rs: seq<Range>, base: Bytes, tails: seq<Bytes>, n: nat)
    requires Dense(rs, base, tails) && n <= |rs| && Dense(rs[..n], base, tails)
    ensures Meaning(rs[..n], base, tails) <= Meaning(rs, base, tails)
    decreases |rs|
  {
    if n < |rs| {
      DensePrefix(rs, base, tails, |rs| - 1);
      assert rs[..|rs| - 1][..n] == rs[..n];
      MeaningPrefix(rs[..|rs| - 1], base, tails, n);
    } else {
      assert rs[..n] == rs;
    }
  }

  lemma WholeTail(r: Range, base: Bytes, tails: seq<Bytes>)
    requires RangeOk(r, base, tails) && r.owner != BASE && r.end - r.start == |tails[r.owner]|
    ensures RangeBytes(r, base, tails) == tails[r.owner]
  {
  }

  /** Overlaying a tail succeeds and means: the kept prefix, then the tail. */
  lemma OverlayMeaning(rs: seq<Range>, cutoff: nat, stage: nat, base: Bytes, tails: seq<Bytes>)
    requires Dense(rs, base, tails) && cutoff <= CoveredTo(rs) && stage < |tails|
    ensures cutoff <= |Meaning(rs, base, tails)|
    ensures var r := Overlay(rs, cutoff, |tails[stage]|, stage);
            && r.Ok? && Dense(r.value, base, tails)
            && CoveredTo(r.value) == cutoff + |tails[stage]|
            && Meaning(r.value, base, tails) == Meaning(rs, base, tails)[..cutoff] + tails[stage]
  {
    hide Keep, Meaning, Dense, RangeBytes;
    KeepMeaning(rs, cutoff, base, tails);
    if |tails[stage]| > 0 {
      var r := Range(cutoff, cutoff + |tails[stage]|, stage, 0);
      DenseAppend(Keep(rs, cutoff), r, base, tails);
      WholeTail(r, base, tails);
    } else {
      assert Meaning(rs, base, tails)[..cutoff] + tails[stage] == Meaning(rs, base, tails)[..cutoff];
    }
  }

  // ---- which tails survive ----

  /** Stage `k`'s tail still writes some byte: it is not empty and every later
      stage keeps a longer prefix than the one it starts after. */
  ghost predicate Survives(cutoffs: seq<nat>, lengths: seq<nat>, k: int) {
    if k == BASE then forall j :: 0 <= j < |cutoffs| ==> cutoffs[j] > 0
    else 0 <= k < |cutoffs| == |lengths| && lengths[k] > 0 && forall j :: k < j < |cutoffs| ==> cutoffs[j] > cutoffs[k]
  }

  ghost function StartOf(cutoffs: seq<nat>, k: int): nat
    requires BASE <= k < |cutoffs|
  {
    if k == BASE then 0 else cutoffs[k]
  }

  /** The owners are the survivors, oldest first, each once. */
  ghost predicate OwnersSurvive(rs: seq<Range>, cutoffs: seq<nat>, lengths: seq<nat>) {
    && |cutoffs| == |lengths|
    && (forall j :: 0 <= j < |rs| ==> Survives(cutoffs, lengths, rs[j].owner)
                                      && BASE <= rs[j].owner < |cutoffs|
                                      && rs[j].start == StartOf(cutoffs, rs[j].owner))
    && (forall i, j :: 0 <= i < j < |rs| ==> rs[i].owner < rs[j].owner)
    && (forall k :: BASE <= k < |cutoffs| && Survives(cutoffs, lengths, k) ==> exists j :: 0 <= j < |rs| && rs[j].owner == k)
  }

  lemma OverlayShape(rs: seq<Range>, cutoff: nat, length: nat, stage: nat)
    requires Overlay(rs, cutoff, length, stage).Ok?
    ensures var out := Overlay(rs, cutoff, length, stage).value;
            var k := KeepCount(rs, cutoff);
            && |out| == (if length > 0 then k + 1 else k)
            && (forall j :: 0 <= j < k ==> out[j].owner == rs[j].owner && out[j].start == rs[j].start)
            && (length > 0 ==> out[k].owner == stage && out[k].start == cutoff)
  {
  }

  lemma OverlaySurvivors(rs: seq<Range>, cutoffs: seq<nat>, lengths: seq<nat>, cutoff: nat, length: nat)
    requires OwnersSurvive(rs, cutoffs, lengths)
    requires forall i, j :: 0 <= i < j < |rs| ==> rs[i].start < rs[j].start
    requires Overlay(rs, cutoff, length, |cutoffs|).Ok?
    ensures OwnersSurvive(Overlay(rs, cutoff, length, |cutoffs|).value, cutoffs + [cutoff], lengths + [length])
  {
    hide Survives, StartOf, Overlay, Keep, KeepCount;
    var k := KeepCount(rs, cutoff);
    var out := Overlay(rs, cutoff, length, |cutoffs|).value;
    OverlayShape(rs, cutoff, length, |cutoffs|);
    KeptSurvive(rs, cutoffs, lengths, cutoff, length, k);
    SurvivorsKept(rs, cutoffs, lengths, cutoff, length, k, out);
    if length > 0 {
      NewestSurvives(cutoffs, lengths, cutoff, length);
    }
  }

  lemma NewestSurvives(cutoffs: seq<nat>, lengths: seq<nat>, cutoff: nat, length: nat)
    requires |cutoffs| == |lengths| && length > 0
    ensures Survives(cutoffs + [cutoff], lengths + [length], |cutoffs|)
    ensures StartOf(cutoffs + [cutoff], |cutoffs|) == cutoff
  {
  }

  lemma KeptSurvive(
    rs: seq<Range>, cutoffs: seq<nat>, lengths: seq<nat>, cutoff: nat, length: nat, k: nat)
    requires OwnersSurvive(rs, cutoffs, lengths) && k <= |rs|
    requires forall j :: 0 <= j < k ==> rs[j].start < cutoff
    ensures forall j :: 0 <= j < k ==>
              && Survives(cutoffs + [cutoff], lengths + [length], rs[j].owner)
              && BASE <= rs[j].owner < |cutoffs|
              && rs[j].start == StartOf(cutoffs + [cutoff], rs[j].owner)
  {
  }

  lemma SurvivorsKept(
    rs: seq<Range>, cutoffs: seq<nat>, lengths: seq<nat>, cutoff: nat, length: nat, k: nat, out: seq<Range>)
    requires OwnersSurvive(rs, cutoffs, lengths) && k <= |rs|
    requires forall i, j :: 0 <= i < j < |rs| ==> rs[i].start < rs[j].start
    requires k < |rs| ==> rs[k].start >= cutoff
    requires |out| == if length > 0 then k + 1 else k
    requires forall j :: 0 <= j < k ==> out[j].owner == rs[j].owner
    requires length > 0 ==> out[k].owner == |cutoffs|
    ensures forall o :: BASE <= o < |cutoffs| + 1 && Survives(cutoffs + [cutoff], lengths + [length], o) ==>
              exists j :: 0 <= j < |out| && out[j].owner == o
  {
    var n := |cutoffs|;
    var c, l := cutoffs + [cutoff], lengths + [length];
    forall o | BASE <= o < n + 1 && Survives(c, l, o)
      ensures exists j :: 0 <= j < |out| && out[j].owner == o
    {
      if o == n {
        assert out[k].owner == n;
      } else {
        assert c[n] > StartOf(c, o);
        SurvivedEarlier(cutoffs, lengths, cutoff, length, o);
        var j :| 0 <= j < |rs| && rs[j].owner == o;
        assert rs[j].start == StartOf(cutoffs, o) < cutoff;
        assert out[j].owner == o;
      }
    }
  }

  lemma SurvivedEarlier(cutoffs: seq<nat>, lengths: seq<nat>, cutoff: nat, length: nat, o: int)
    requires BASE <= o < |cutoffs| == |lengths| && Survives(cutoffs + [cutoff], lengths + [length], o)
    ensures Survives(cutoffs, lengths, o) && StartOf(cutoffs, o) == StartOf(cutoffs + [cutoff], o)
  {
    var c := cutoffs + [cutoff];
    assert forall j :: 0 <= j < |cutoffs| ==> c[j] == cutoffs[j];
  }
}
