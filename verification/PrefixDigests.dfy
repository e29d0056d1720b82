// Prefix digests over tokens and media: one pass over the tokens gives every
// prefix the digest it would get alone, and the hashed bytes are unambiguous.
module PrefixDigests {
  import opened Common
  import opened Pages

  /** A media feature with its UTF-8 identity and placeholder range. */
  datatype Feature = Feature(modality: Bytes, identifier: Bytes, offset: nat, length: nat)

  /** The struct packings: a 32-bit word, and a feature's two 64-bit and two
      32-bit fields. */
  datatype Packing = Packing(word: nat -> Bytes, head: (nat, nat, nat, nat) -> Bytes, domain: Bytes)

  const U32: nat := 0x1_0000_0000
  const U64: nat := 0x1_0000_0000_0000_0000

  predicate HeadRange(a: nat, b: nat, c: nat, d: nat) {
    a < U64 && b < U64 && c < U32 && d < U32
  }

  /** Fixed-width little-endian fields determine their values. */
  ghost predicate Exact(p: Packing) {
    && p.domain != []
    && (forall x :: |p.word(x)| == 4)
    && (forall x: nat, y: nat :: x < U32 && y < U32 && p.word(x) == p.word(y) ==> x == y)
    && (forall a, b, c, d :: |p.head(a, b, c, d)| == 24)
    && (forall a: nat, b: nat, c: nat, d: nat, e: nat, f: nat, g: nat, h: nat ::
          p.head(a, b, c, d) == p.head(e, f, g, h) ==>
            HeadRange(a, b, c, d) && HeadRange(e, f, g, h) ==> a == e && b == f && c == g && d == h)
  }

  predicate TokensOk(tokens: seq<int>) {
    forall i :: 0 <= i < |tokens| ==> 0 <= tokens[i] < U32
  }

  predicate FeatureOk(f: Feature) {
    && f.modality != [] && f.identifier != [] && f.length > 0
    && |f.modality| < U32 && |f.identifier| < U32 && f.offset + f.length < U64
  }

  function EndOf(features: seq<Feature>, n: nat): nat
    requires n <= |features|
  {
    if n == 0 then 0 else features[n - 1].offset + features[n - 1].length
  }

  predicate FeatureAt(features: seq<Feature>, tokens: nat, i: nat)
    requires i < |features|
  {
    FeatureOk(features[i]) && EndOf(features, i) <= features[i].offset && features[i].offset + features[i].length <= tokens
  }

  /** Ordered, disjoint and inside the prompt. */
  predicate FeaturesOk(features: seq<Feature>, tokens: nat) {
    forall i :: 0 <= i < |features| ==> FeatureAt(features, tokens, i)
  }

  method ValidateFeatures(features: seq<Feature>, tokens: nat) returns (ok: bool)
    ensures ok == FeaturesOk(features, tokens)
  {
    var previousEnd := 0;
    for i := 0 to |features|
      invariant previousEnd == EndOf(features, i) && forall j :: 0 <= j < i ==> FeatureAt(features, tokens, j)
    {
      var end := features[i].offset + features[i].length;
      if !FeatureOk(features[i]) || features[i].offset < previousEnd || end > tokens {
        assert !FeatureAt(features, tokens, i);
        return false;
      }
      previousEnd := end;
    }
    ok := true;
  }

  // ---- the hashed bytes ----

  function TokenBytes(p: Packing, tokens: seq<int>): Bytes
    requires TokensOk(tokens)
  {
    if tokens == [] then [] else TokenBytes(p, tokens[..|tokens| - 1]) + p.word(tokens[|tokens| - 1])
  }

  /** Features whose range starts inside the prefix. */
  function Active(features: seq<Feature>, count: nat): seq<Feature> {
    if features == [] then []
    else
      var last := features[|features| - 1];
      Active(features[..|features| - 1], count) + (if last.offset < count then [last] else [])
  }

  function FeatureBytes(p: Packing, f: Feature): Bytes {
    p.head(f.offset, f.length, |f.modality|, |f.identifier|) + f.modality + f.identifier
  }

  function MediaList(p: Packing, features: seq<Feature>): Bytes {
    if features == [] then [] else FeatureBytes(p, features[0]) + MediaList(p, features[1..])
  }

  function Media(p: Packing, active: seq<Feature>): Bytes {
    if active == [] then [] else p.domain + p.word(|active|) + MediaList(p, active)
  }

  function Preimage(p: Packing, salt: Bytes, tokens: seq<int>, features: seq<Feature>, count: nat): Bytes
    requires TokensOk(tokens) && count <= |tokens|
  {
    salt + [0] + TokenBytes(p, tokens[..count]) + Media(p, Active(features, count))
  }

  /** `context_prefix_digest`, for validated features. */
  function PrefixDigest(
    p: Packing, sha: Bytes -> Hash, salt: Bytes, tokens: seq<int>, features: seq<Feature>, count: nat): Hash
    requires TokensOk(tokens) && count <= |tokens|
  {
    sha(Preimage(p, salt, tokens, features, count))
  }

  // ---- one pass ----

  lemma {:induction false} TokenBytesSplit(p: Packing, tokens: seq<int>, m: nat)
    requires TokensOk(tokens) && m <= |tokens|
    ensures TokensOk(tokens[..m]) && TokensOk(tokens[m..])
    ensures TokenBytes(p, tokens) == TokenBytes(p, tokens[..m]) + TokenBytes(p, tokens[m..])
    decreases |tokens|
  {
    if m == |tokens| {
      assert tokens[..m] == tokens && tokens[m..] == [];
    } else {
      var front := tokens[..|tokens| - 1];
      TokenBytesSplit(p, front, m);
      assert front[..m] == tokens[..m] && front[m..] == tokens[m..][..|tokens| - m - 1];
    }
  }

  predicate BoundaryAt(boundaries: seq<int>, chunk: nat, tokens: nat, i: nat)
    requires i < |boundaries|
  {
    && 0 < boundaries[i] <= tokens && chunk > 0 && boundaries[i] % chunk == 0
    && (if i == 0 then 0 else boundaries[i - 1]) < boundaries[i]
  }

  predicate BoundariesOk(boundaries: seq<int>, chunk: nat, tokens: nat) {
    forall i :: 0 <= i < |boundaries| ==> BoundaryAt(boundaries, chunk, tokens, i)
  }

  method ValidateBoundaries(boundaries: seq<int>, chunk: nat, tokens: nat) returns (ok: bool)
    requires chunk > 0
    ensures ok == BoundariesOk(boundaries, chunk, tokens)
  {
    var previous := 0;
    for i := 0 to |boundaries|
      invariant previous == (if i == 0 then 0 else boundaries[i - 1])
      invariant forall j :: 0 <= j < i ==> BoundaryAt(boundaries, chunk, tokens, j)
    {
      if boundaries[i] <= 0 || boundaries[i] % chunk != 0 || boundaries[i] <= previous || boundaries[i] > tokens {
        assert !BoundaryAt(boundaries, chunk, tokens, i);
        return false;
      }
      previous := boundaries[i];
    }
    ok := true;
  }

  /** Feeding the next tokens extends the digest state from one prefix to the next. */
  lemma FeedNext(p: Packing, salt: Bytes, tokens: seq<int>, done: nat, boundary: nat)
    requires TokensOk(tokens) && done <= boundary <= |tokens|
    ensures TokensOk(tokens[..done]) && TokensOk(tokens[done..boundary]) && TokensOk(tokens[..boundary])
    ensures salt + [0] + TokenBytes(p, tokens[..done]) + TokenBytes(p, tokens[done..boundary])
            == salt + [0] + TokenBytes(p, tokens[..boundary])
  {
    var prefix := tokens[..boundary];
    assert prefix[..done] == tokens[..done] && prefix[done..] == tokens[done..boundary];
    TokenBytesSplit(p, prefix, done);
    hide TokenBytes;
    assert salt + [0] + TokenBytes(p, tokens[..done]) + TokenBytes(p, tokens[done..boundary])
           == salt + [0] + (TokenBytes(p, tokens[..done]) + TokenBytes(p, tokens[done..boundary]));
  }

  /** One boundary's digest, from the state the previous boundary left. */
  lemma DigestNext(
    p: Packing, sha: Bytes -> Hash, salt: Bytes, tokens: seq<int>, features: seq<Feature>, done: nat, boundary: nat,
    fed: Bytes)
    requires TokensOk(tokens) && done <= boundary <= |tokens| && TokensOk(tokens[..done])
    requires fed == salt + [0] + TokenBytes(p, tokens[..done])
    ensures TokensOk(tokens[done..boundary]) && TokensOk(tokens[..boundary])
    ensures var next := fed + TokenBytes(p, tokens[done..boundary]);
            && next == salt + [0] + TokenBytes(p, tokens[..boundary])
            && sha(next + Media(p, Active(features, boundary))) == PrefixDigest(p, sha, salt, tokens, features, boundary)
  {
    hide TokenBytes, Media, Active, TokensOk;
    FeedNext(p, salt, tokens, done, boundary);
  }

  lemma BoundaryNext(boundaries: seq<int>, chunk: nat, tokens: nat, i: nat)
    requires BoundariesOk(boundaries, chunk, tokens) && i < |boundaries|
    ensures BoundaryAt(boundaries, chunk, tokens, i)
    ensures 0 <= (if i == 0 then 0 else boundaries[i - 1]) < boundaries[i] <= tokens
  {
    if i > 0 {
      assert BoundaryAt(boundaries, chunk, tokens, i - 1);
    }
  }

  method DigestPass(
    p: Packing, sha: Bytes -> Hash, salt: Bytes, tokens: seq<int>, features: seq<Feature>, boundaries: seq<int>,
    chunk: nat)
    returns (result: seq<(int, Hash)>)
    requires TokensOk(tokens) && BoundariesOk(boundaries, chunk, |tokens|)
    ensures |result| == |boundaries|
    ensures forall i :: 0 <= i < |boundaries| ==>
              BoundaryAt(boundaries, chunk, |tokens|, i)
              && result[i] == (boundaries[i], PrefixDigest(p, sha, salt, tokens, features, boundaries[i]))
  {
    hide TokenBytes, Media, Active, TokensOk, PrefixDigest, BoundariesOk;
    var fed := salt + [0];
    var done: nat := 0;
    result := [];
    NothingFed(p, salt, tokens);
    for i := 0 to |boundaries|
      invariant done == (if i == 0 then 0 else boundaries[i - 1]) <= |tokens|
      invariant TokensOk(tokens[..done]) && fed == salt + [0] + TokenBytes(p, tokens[..done])
      invariant |result| == i
      invariant forall j :: 0 <= j < i ==>
                  BoundaryAt(boundaries, chunk, |tokens|, j)
                  && result[j] == (boundaries[j], PrefixDigest(p, sha, salt, tokens, features, boundaries[j]))
    {
      BoundaryNext(boundaries, chunk, |tokens|, i);
      var boundary := boundaries[i];
      DigestNext(p, sha, salt, tokens, features, done, boundary, fed);
      fed := fed + TokenBytes(p, tokens[done..boundary]);
      result := result + [(boundary, sha(fed + Media(p, Active(features, boundary))))];
      done := boundary;
    }
  }

  lemma NothingFed(p: Packing, salt: Bytes, tokens: seq<int>)
    requires TokensOk(tokens)
    ensures TokensOk(tokens[..0]) && salt + [0] == salt + [0] + TokenBytes(p, tokens[..0])
  {
  }

  /** Each digest of the single pass is the digest of that prefix alone. */
  method ChunkPrefixDigests(
    p: Packing, sha: Bytes -> Hash, salt: Bytes, tokens: seq<int>, features: seq<Feature>, boundaries: seq<int>,
    chunk: nat)
    returns (r: Option<seq<(int, Hash)>>)
    ensures r.Some? <==>
              TokensOk(tokens) && chunk > 0 && BoundariesOk(boundaries, chunk, |tokens|) && FeaturesOk(features, |tokens|)
    ensures r.Some? ==>
              && |r.value| == |boundaries|
              && forall i :: 0 <= i < |boundaries| ==>
                   BoundaryAt(boundaries, chunk, |tokens|, i)
                   && r.value[i] == (boundaries[i], PrefixDigest(p, sha, salt, tokens, features, boundaries[i]))
  {
    hide BoundariesOk, FeaturesOk, PrefixDigest;
    if chunk == 0 || !TokensOk(tokens) {
      return None;
    }
    var ordered := ValidateBoundaries(boundaries, chunk, |tokens|);
    if !ordered {
      return None;
    }
    var valid := ValidateFeatures(features, |tokens|);
    if !valid {
      return None;
    }
    var result := DigestPass(p, sha, salt, tokens, features, boundaries, chunk);
    r := Some(result);
  }

  // ---- unambiguity ----

  lemma {:induction false} TokenLength(p: Packing, tokens: seq<int>)
    requires Exact(p) && TokensOk(tokens)
    ensures |TokenBytes(p, tokens)| == 4 * |tokens|
  {
    if tokens != [] {
      TokenLength(p, tokens[..|tokens| - 1]);
    }
  }

  lemma {:induction false} TokensUnique(p: Packing, a: seq<int>, b: seq<int>)
    requires Exact(p) && TokensOk(a) && TokensOk(b) && |a| == |b| && TokenBytes(p, a) == TokenBytes(p, b)
    ensures a == b
  {
    if a != [] {
      var n := |a| - 1;
      TokenLength(p, a[..n]);
      TokenLength(p, b[..n]);
      EqualParts(TokenBytes(p, a[..n]), p.word(a[n]), TokenBytes(p, b[..n]), p.word(b[n]));
      TokensUnique(p, a[..n], b[..n]);
      assert a == a[..n] + [a[n]] && b == b[..n] + [b[n]];
    }
  }

  lemma EqualParts(a: Bytes, b: Bytes, c: Bytes, d: Bytes)
    requires a + b == c + d && |a| == |c|
    ensures a == c && b == d
  {
    assert a == (a + b)[..|a|] && c == (c + d)[..|c|];
    assert b == (a + b)[|a|..] && d == (c + d)[|c|..];
  }

  lemma FeatureUnique(p: Packing, f: Feature, g: Feature, restF: Bytes, restG: Bytes)
    requires Exact(p) && FeatureOk(f) && FeatureOk(g)
    requires FeatureBytes(p, f) + restF == FeatureBytes(p, g) + restG
    ensures f == g && restF == restG
  {
    var hf, hg :=
      p.head(f.offset, f.length, |f.modality|, |f.identifier|), p.head(g.offset, g.length, |g.modality|, |g.identifier|);
    assert FeatureBytes(p, f) + restF == hf + (f.modality + (f.identifier + restF));
    assert FeatureBytes(p, g) + restG == hg + (g.modality + (g.identifier + restG));
    EqualParts(hf, f.modality + (f.identifier + restF), hg, g.modality + (g.identifier + restG));
    HeadUnique(p, f, g);
    EqualParts(f.modality, f.identifier + restF, g.modality, g.identifier + restG);
    EqualParts(f.identifier, restF, g.identifier, restG);
  }

  lemma HeadUnique(p: Packing, f: Feature, g: Feature)
    requires Exact(p) && FeatureOk(f) && FeatureOk(g)
    requires p.head(f.offset, f.length, |f.modality|, |f.identifier|) == p.head(g.offset, g.length, |g.modality|, |g.identifier|)
    ensures f.offset == g.offset && f.length == g.length
    ensures |f.modality| == |g.modality| && |f.identifier| == |g.identifier|
  {
  }

  lemma {:induction false} ListUnique(p: Packing, a: seq<Feature>, b: seq<Feature>)
    requires Exact(p) && |a| == |b| && MediaList(p, a) == MediaList(p, b)
    requires forall i :: 0 <= i < |a| ==> FeatureOk(a[i]) && FeatureOk(b[i])
    ensures a == b
  {
    if a != [] {
      hide Exact, FeatureBytes;
      FeatureUnique(p, a[0], b[0], MediaList(p, a[1..]), MediaList(p, b[1..]));
      ListUnique(p, a[1..], b[1..]);
      assert a == [a[0]] + a[1..] && b == [b[0]] + b[1..];
    }
  }

  lemma MediaUnique(p: Packing, a: seq<Feature>, b: seq<Feature>)
    requires Exact(p) && Media(p, a) == Media(p, b) && |a| < U32 && |b| < U32
    requires (forall i :: 0 <= i < |a| ==> FeatureOk(a[i])) && forall i :: 0 <= i < |b| ==> FeatureOk(b[i])
    ensures a == b
  {
    if a != [] && b != [] {
      var x, y := MediaList(p, a), MediaList(p, b);
      hide MediaList;
      assert Media(p, a) == p.domain + (p.word(|a|) + x) && Media(p, b) == p.domain + (p.word(|b|) + y);
      EqualParts(p.domain, p.word(|a|) + x, p.domain, p.word(|b|) + y);
      EqualParts(p.word(|a|), x, p.word(|b|), y);
      ListUnique(p, a, b);
    }
  }

  lemma {:induction false} ActiveOk(features: seq<Feature>, count: nat)
    requires forall i :: 0 <= i < |features| ==> FeatureOk(features[i])
    ensures |Active(features, count)| <= |features|
    ensures forall i :: 0 <= i < |Active(features, count)| ==> FeatureOk(Active(features, count)[i])
  {
    if features != [] {
      ActiveOk(features[..|features| - 1], count);
    }
  }

  lemma PartsUnique(p: Packing, salt: Bytes, ta: Bytes, ma: Bytes, tb: Bytes, mb: Bytes)
    requires salt + [0] + ta + ma == salt + [0] + tb + mb && |ta| == |tb|
    ensures ta == tb && ma == mb
  {
    assert salt + [0] + ta + ma == (salt + [0]) + (ta + ma);
    assert salt + [0] + tb + mb == (salt + [0]) + (tb + mb);
    EqualParts(salt + [0], ta + ma, salt + [0], tb + mb);
    EqualParts(ta, ma, tb, mb);
  }

  lemma FeaturesEach(features: seq<Feature>, tokens: nat)
    requires FeaturesOk(features, tokens)
    ensures forall i :: 0 <= i < |features| ==> FeatureOk(features[i])
  {
    hide FeatureOk;
    forall i | 0 <= i < |features|
      ensures FeatureOk(features[i])
    {
      assert FeatureAt(features, tokens, i);
    }
  }

  // ---- which media a prefix covers ----

  /** Validated features stand one behind the other. */
  lemma {:induction false} FeaturesAscend(features: seq<Feature>, tokens: nat, i: nat, j: nat)
    requires FeaturesOk(features, tokens) && i < j < |features|
    ensures features[i].offset < features[j].offset
  {
    assert FeatureAt(features, tokens, j - 1) && FeatureAt(features, tokens, j);
    if i < j - 1 {
      FeaturesAscend(features, tokens, i, j - 1);
    }
  }

  /** Exactly the first `n` features start below `count`. */
  predicate FirstBelow(features: seq<Feature>, count: nat, n: nat) {
    n <= |features| && forall i :: 0 <= i < |features| ==> (features[i].offset < count <==> i < n)
  }

  lemma OneMoreBelow(features: seq<Feature>, tokens: nat, count: nat, m: nat) returns (n: nat)
    requires FeaturesOk(features, tokens) && features != []
    requires FirstBelow(features[..|features| - 1], count, m)
    ensures FirstBelow(features, count, n)
    ensures n == if features[|features| - 1].offset < count then |features| else m
    ensures features[|features| - 1].offset < count ==> m == |features| - 1
  {
    var front, last := features[..|features| - 1], |features| - 1;
    forall i | 0 <= i < last
      ensures features[i] == front[i] && features[i].offset < features[last].offset
    {
      FeaturesAscend(features, tokens, i, last);
    }
    if last > 0 {
      assert features[last - 1] == front[last - 1] && features[last - 1].offset < features[last].offset;
    }
    n := if features[last].offset < count then last + 1 else m;
    hide FeaturesOk;
  }

  /** A prefix covers exactly the features that start inside it, even if they end
      beyond it: the leading ones, in order. */
  lemma {:induction false} ActiveExactly(features: seq<Feature>, tokens: nat, count: nat) returns (n: nat)
    requires FeaturesOk(features, tokens)
    ensures FirstBelow(features, count, n) && Active(features, count) == features[..n]
    ensures forall f :: f in Active(features, count) <==> f in features && f.offset < count
  {
    hide *;
    NoneActive(count);
    n := 0;
    if features != [] {
      var front := features[..|features| - 1];
      FrontOk(features, tokens);
      var m := ActiveExactly(front, tokens, count);
      n := OneMoreBelow(features, tokens, count, m);
      StartsInside(front, count, m);
      ActiveNext(features, count, m);
    }
    StartsInside(features, count, n);
  }

  lemma NoneActive(count: nat)
    ensures FirstBelow([], count, 0) && Active([], count) == []
  {
  }

  lemma ActiveNext(features: seq<Feature>, count: nat, m: nat)
    requires features != [] && m <= |features| - 1
    requires Active(features[..|features| - 1], count) == features[..|features| - 1][..m]
    requires features[|features| - 1].offset < count ==> m == |features| - 1
    ensures Active(features, count) == features[..if features[|features| - 1].offset < count then |features| else m]
  {
    hide *;
    var front, last := features[..|features| - 1], features[|features| - 1];
    ActiveUnfolded(features, count);
    assert features == front + [last];
    if last.offset < count {
      assert front[..m] == front;
    } else {
      assert features[..m] == front[..m] && front[..m] + [] == front[..m];
    }
  }

  lemma ActiveUnfolded(features: seq<Feature>, count: nat)
    requires features != []
    ensures Active(features, count)
            == Active(features[..|features| - 1], count)
               + (if features[|features| - 1].offset < count then [features[|features| - 1]] else [])
  {
  }

  lemma FrontOk(features: seq<Feature>, tokens: nat)
    requires FeaturesOk(features, tokens) && features != []
    ensures FeaturesOk(features[..|features| - 1], tokens)
  {
    hide FeatureOk;
    var front := features[..|features| - 1];
    forall i | 0 <= i < |front|
      ensures FeatureAt(front, tokens, i)
    {
      assert FeatureAt(features, tokens, i);
    }
  }

  lemma StartsInside(features: seq<Feature>, count: nat, n: nat)
    requires FirstBelow(features, count, n)
    ensures n <= |features|
    ensures forall f :: f in features[..n] <==> f in features && f.offset < count
  {
    forall f | f in features && f.offset < count
      ensures f in features[..n]
    {
      var i :| 0 <= i < |features| && features[i] == f;
      assert features[..n][i] == f;
    }
  }

  predicate Ascending(features: seq<Feature>) {
    forall i, j :: 0 <= i < j < |features| ==> features[i].offset < features[j].offset
  }

  function Members(features: seq<Feature>): set<Feature> {
    set f | f in features
  }

  /** Ascending lists of the same features are the same list. */
  lemma {:induction false} SameFeatures(a: seq<Feature>, b: seq<Feature>)
    requires Ascending(a) && Ascending(b) && Members(a) == Members(b)
    ensures a == b
  {
    if a == [] || b == [] {
      NoMembers(a);
      NoMembers(b);
    } else {
      SameLast(a, b);
      LastApart(a);
      LastApart(b);
      hide Members, Ascending;
      SameFeatures(a[..|a| - 1], b[..|b| - 1]);
      assert a == a[..|a| - 1] + [a[|a| - 1]] && b == b[..|b| - 1] + [b[|b| - 1]];
    }
  }

  lemma NoMembers(a: seq<Feature>)
    ensures Members(a) == {} <==> a == []
  {
    if a != [] {
      assert a[0] in Members(a);
    }
  }

  lemma LastHighest(a: seq<Feature>, f: Feature)
    requires Ascending(a) && f in Members(a)
    ensures a != [] && f.offset <= a[|a| - 1].offset && (f.offset == a[|a| - 1].offset ==> f == a[|a| - 1])
  {
  }

  lemma SameLast(a: seq<Feature>, b: seq<Feature>)
    requires Ascending(a) && Ascending(b) && Members(a) == Members(b) && a != [] && b != []
    ensures a[|a| - 1] == b[|b| - 1]
  {
    LastHighest(a, b[|b| - 1]);
    LastHighest(b, a[|a| - 1]);
  }

  lemma LastApart(a: seq<Feature>)
    requires Ascending(a) && a != []
    ensures Ascending(a[..|a| - 1]) && Members(a[..|a| - 1]) == Members(a) - {a[|a| - 1]}
  {
    var front, last := a[..|a| - 1], a[|a| - 1];
    assert a == front + [last];
    assert last !in front;
  }

  /** The same list is covered exactly if the same features start inside. */
  lemma SameActive(featuresA: seq<Feature>, tokensA: nat, featuresB: seq<Feature>, tokensB: nat, count: nat)
    requires FeaturesOk(featuresA, tokensA) && FeaturesOk(featuresB, tokensB)
    ensures Active(featuresA, count) == Active(featuresB, count)
            <==> forall f: Feature :: f.offset < count ==> (f in featuresA <==> f in featuresB)
  {
    var m := ActiveExactly(featuresA, tokensA, count);
    var n := ActiveExactly(featuresB, tokensB, count);
    var x, y := Active(featuresA, count), Active(featuresB, count);
    hide Active, FeaturesOk;
    if forall f: Feature :: f.offset < count ==> (f in featuresA <==> f in featuresB) {
      forall i, j | 0 <= i < j < |x|
        ensures x[i].offset < x[j].offset
      {
        FeaturesAscend(featuresA, tokensA, i, j);
      }
      forall i, j | 0 <= i < j < |y|
        ensures y[i].offset < y[j].offset
      {
        FeaturesAscend(featuresB, tokensB, i, j);
      }
      assert Members(x) == Members(y);
      SameFeatures(x, y);
    } else {
      var f: Feature :| f.offset < count && !(f in featuresA <==> f in featuresB);
      assert f in x <==> f !in y;
    }
  }

  /** With one salt and one token count, equal hashed bytes mean equal leading
      tokens and the same features starting inside the prefix, however long any
      identifier is. */
  lemma PreimageUnambiguous(
    p: Packing, salt: Bytes, count: nat, tokensA: seq<int>, featuresA: seq<Feature>, tokensB: seq<int>,
    featuresB: seq<Feature>)
    requires Exact(p) && TokensOk(tokensA) && TokensOk(tokensB) && count <= |tokensA| && count <= |tokensB|
    requires FeaturesOk(featuresA, |tokensA|) && FeaturesOk(featuresB, |tokensB|)
    requires |featuresA| < U32 && |featuresB| < U32
    ensures Preimage(p, salt, tokensA, featuresA, count) == Preimage(p, salt, tokensB, featuresB, count)
            <==> && tokensA[..count] == tokensB[..count]
                 && forall f: Feature :: f.offset < count ==> (f in featuresA <==> f in featuresB)
  {
    hide *;
    SameActive(featuresA, |tokensA|, featuresB, |tokensB|, count);
    PreimageParts(p, salt, count, tokensA, featuresA, tokensB, featuresB);
  }

  lemma PreimageParts(
    p: Packing, salt: Bytes, count: nat, tokensA: seq<int>, featuresA: seq<Feature>, tokensB: seq<int>,
    featuresB: seq<Feature>)
    requires Exact(p) && TokensOk(tokensA) && TokensOk(tokensB) && count <= |tokensA| && count <= |tokensB|
    requires FeaturesOk(featuresA, |tokensA|) && FeaturesOk(featuresB, |tokensB|)
    requires |featuresA| < U32 && |featuresB| < U32
    ensures Preimage(p, salt, tokensA, featuresA, count) == Preimage(p, salt, tokensB, featuresB, count)
            <==> tokensA[..count] == tokensB[..count] && Active(featuresA, count) == Active(featuresB, count)
  {
    hide Exact, TokenBytes, Media, FeaturesOk, Active, FeatureOk;
    var a, b := tokensA[..count], tokensB[..count];
    var x, y := Active(featuresA, count), Active(featuresB, count);
    if Preimage(p, salt, tokensA, featuresA, count) == Preimage(p, salt, tokensB, featuresB, count) {
      FeaturesEach(featuresA, |tokensA|);
      FeaturesEach(featuresB, |tokensB|);
      ActiveOk(featuresA, count);
      ActiveOk(featuresB, count);
      TokenLength(p, a);
      TokenLength(p, b);
      PartsUnique(p, salt, TokenBytes(p, a), Media(p, x), TokenBytes(p, b), Media(p, y));
      TokensUnique(p, a, b);
      MediaUnique(p, x, y);
    }
  }
}
