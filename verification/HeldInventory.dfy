// The worker's set of offered digests with a revision that moves exactly when
// the contents do.
module HeldInventory {
  import opened Common
  import opened QuorumTypes

  /** The law every mutator obeys, as a function of the contents before and after. */
  function NextRevision(revision: nat, before: set<Digest>, after: set<Digest>): nat {
    if before == after then revision else revision + 1
  }

  class Inventory {
    var values: set<Digest>
    var revision: nat

    constructor (initial: set<Digest>)
      ensures values == initial && revision == 0
    {
      values := initial;
      revision := 0;
    }

    method Add(value: Digest)
      modifies this
      ensures values == old(values) + {value}
      ensures revision == NextRevision(old(revision), old(values), values)
    {
      var before := |values|;
      values := values + {value};
      if |values| != before {
        revision := revision + 1;
      } else {
        SameSize(old(values), values);
      }
    }

    method Discard(value: Digest)
      modifies this
      ensures values == old(values) - {value}
      ensures revision == NextRevision(old(revision), old(values), values)
    {
      var before := |values|;
      values := values - {value};
      if |values| != before {
        revision := revision + 1;
      } else {
        SameSize(values, old(values));
      }
    }

    /** Fails, changing nothing, when the value is missing. */
    method Remove(value: Digest) returns (found: bool)
      modifies this
      ensures found == (value in old(values))
      ensures values == old(values) - {value}
      ensures revision == NextRevision(old(revision), old(values), values)
    {
      found := value in values;
      if !found {
        assert values - {value} == values;
        return;
      }
      values := values - {value};
      revision := revision + 1;
    }

    method Pop() returns (popped: Option<Digest>)
      modifies this
      ensures popped.None? <==> old(values) == {}
      ensures popped.Some? ==> popped.value in old(values) && values == old(values) - {popped.value}
      ensures popped.None? ==> values == old(values)
      ensures revision == NextRevision(old(revision), old(values), values)
    {
      if values == {} {
        return None;
      }
      var value :| value in values;
      values := values - {value};
      revision := revision + 1;
      popped := Some(value);
    }

    method Clear()
      modifies this
      ensures values == {}
      ensures revision == NextRevision(old(revision), old(values), values)
    {
      if values != {} {
        values := {};
        revision := revision + 1;
      }
    }

    method Update(others: seq<set<Digest>>)
      modifies this
      ensures values == old(values) + UnionOf(others)
      ensures revision == NextRevision(old(revision), old(values), values)
    {
      var before := |values|;
      for i := 0 to |others|
        invariant values == old(values) + UnionOf(others[..i]) && revision == old(revision)
      {
        values := values + others[i];
        assert others[..i + 1][..i] == others[..i];
      }
      assert others[..|others|] == others;
      if |values| != before {
        revision := revision + 1;
      } else {
        SameSize(old(values), values);
      }
    }

    method DifferenceUpdate(others: seq<set<Digest>>)
      modifies this
      ensures values == old(values) - UnionOf(others)
      ensures revision == NextRevision(old(revision), old(values), values)
    {
      var before := |values|;
      for i := 0 to |others|
        invariant values == old(values) - UnionOf(others[..i]) && revision == old(revision)
      {
        values := values - others[i];
        assert others[..i + 1][..i] == others[..i];
      }
      assert others[..|others|] == others;
      if |values| != before {
        revision := revision + 1;
      } else {
        SameSize(values, old(values));
      }
    }

    method IntersectionUpdate(others: seq<set<Digest>>)
      modifies this
      ensures forall d :: d in values <==> d in old(values) && forall s :: s in others ==> d in s
      ensures revision == NextRevision(old(revision), old(values), values)
    {
      var before := |values|;
      for i := 0 to |others|
        invariant forall d :: d in values <==> d in old(values) && forall s :: s in others[..i] ==> d in s
        invariant revision == old(revision)
      {
        values := values * others[i];
        assert others[..i + 1] == others[..i] + [others[i]];
      }
      assert others[..|others|] == others;
      if |values| != before {
        revision := revision + 1;
      } else {
        SameSize(values, old(values));
      }
    }

    method SymmetricDifferenceUpdate(other: set<Digest>)
      modifies this
      ensures values == (old(values) - other) + (other - old(values))
      ensures revision == NextRevision(old(revision), old(values), values)
    {
      if other != {} {
        var d :| d in other;
        values := (values - other) + (other - values);
        assert d in values <==> d !in old(values);
        revision := revision + 1;
      } else {
        assert (values - other) + (other - values) == values;
      }
    }

    method Copy() returns (snapshot: set<Digest>)
      ensures snapshot == values
    {
      snapshot := values;
    }
  }

  function UnionOf(sets: seq<set<Digest>>): set<Digest> {
    if sets == [] then {} else UnionOf(sets[..|sets| - 1]) + sets[|sets| - 1]
  }

  /** Comparing sizes is enough to notice a change when one set contains the other. */
  lemma SameSize(small: set<Digest>, large: set<Digest>)
    requires small <= large
    ensures |small| == |large| <==> small == large
  {
    assert large == small + (large - small);
  }
}
