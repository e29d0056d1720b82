// Ownership of capture source blocks: every live lease holds one reference on
// each of its blocks until every physical rank has acknowledged its read.
module CaptureLeases {
  import opened Common

  type Block = int
  type Rank = int
  type Job = nat

  datatype ReadLease = ReadLease(blocks: seq<Block>, completed: set<Rank>, quarantined: bool)

  /** Reference counts of the pool's blocks and the leases taken on them. */
  datatype Ledger = Ledger(
    ranks: int, maxJobs: int, refs: seq<int>, leases: map<Job, ReadLease>, sequence: Job, disabled: bool)

  datatype Grant = Declined | BadSource | Granted(job: Job)

  datatype Ack = Unknown | BadRank | Pending | Released

  predicate Unique<T(==)>(s: seq<T>) {
    forall i, j :: 0 <= i < j < |s| ==> s[i] != s[j]
  }

  lemma {:induction false} DedupeIs(ids: seq<int>)
    ensures Unique(Dedupe(ids)) && forall b :: b in Dedupe(ids) <==> b in ids
  {
    if ids != [] {
      DedupeIs(ids[..|ids| - 1]);
      assert forall b :: b in ids <==> b in ids[..|ids| - 1] || b == ids[|ids| - 1];
    }
  }

  /** Add `delta` to the count of every listed block. */
  function Counted(refs: seq<int>, blocks: seq<Block>, delta: int): (r: seq<int>)
    ensures |r| == |refs|
  {
    seq(|refs|, b requires 0 <= b < |refs| => if b in blocks then refs[b] + delta else refs[b])
  }

  predicate SourceOk(k: Ledger, ids: seq<int>, proven: set<int>) {
    ids != [] && forall b :: b in ids ==> 0 < b < |k.refs| && b in proven
  }

  function Reserve(k: Ledger, ids: seq<int>, proven: set<int>): (Ledger, Grant) {
    if k.disabled || |k.leases| >= k.maxJobs then (k, Declined)
    else if !SourceOk(k, ids, proven) then (k, BadSource)
    else
      var blocks := Dedupe(ids);
      var job := k.sequence + 1;
      (k.(refs := Counted(k.refs, blocks, 1), sequence := job, leases := k.leases[job := ReadLease(blocks, {}, false)]),
       Granted(job))
  }

  function Elements(ranks: seq<Rank>): (s: set<Rank>)
    ensures forall r :: r in s <==> r in ranks
  {
    set r | r in ranks
  }

  predicate RanksOk(k: Ledger, ranks: seq<Rank>) {
    forall r :: r in ranks ==> 0 <= r < k.ranks
  }

  function Complete(k: Ledger, job: Job, ranks: seq<Rank>): (Ledger, Ack) {
    if job !in k.leases then (k, Unknown)
    else if !RanksOk(k, ranks) then (k, BadRank)
    else
      var lease := k.leases[job];
      var completed := lease.completed + Elements(ranks);
      if |completed| != k.ranks then (k.(leases := k.leases[job := lease.(completed := completed)]), Pending)
      else (k.(refs := Counted(k.refs, lease.blocks, -1), leases := k.leases - {job}), Released)
  }

  function Quarantine(k: Ledger, job: Job, ranks: seq<Rank>): (Ledger, Ack) {
    if job !in k.leases then (k, Unknown)
    else if !RanksOk(k, ranks) then (k, BadRank)
    else (k.(disabled := true, leases := k.leases[job := k.leases[job].(quarantined := true)]), Pending)
  }

  // ---- conservation ----

  /** Live leases that name a block. */
  function Holders(k: Ledger, b: Block): set<Job> {
    set j | j in k.leases && b in k.leases[j].blocks
  }

  predicate LeaseOk(k: Ledger, job: Job)
    requires job in k.leases
  {
    var lease := k.leases[job];
    && 0 < job <= k.sequence && Unique(lease.blocks) && lease.blocks != []
    && (forall b :: b in lease.blocks ==> 0 < b < |k.refs|)
    && (forall r :: r in lease.completed ==> 0 <= r < k.ranks) && |lease.completed| < k.ranks
  }

  /** Every count is what others hold plus one for each live lease. */
  ghost predicate Conserved(k: Ledger, outside: seq<int>) {
    && k.ranks > 0 && k.maxJobs > 0 && |outside| == |k.refs| && |k.leases| <= k.maxJobs
    && (forall j :: j in k.leases ==> LeaseOk(k, j))
    && forall b :: 0 <= b < |k.refs| ==> k.refs[b] == outside[b] + |Holders(k, b)|
  }

  /** A new lease joins the holders of exactly its blocks. */
  lemma HoldersWith(k: Ledger, n: Ledger, job: Job, lease: ReadLease, b: Block)
    requires job !in k.leases && n.leases == k.leases[job := lease]
    ensures |Holders(n, b)| == |Holders(k, b)| + (if b in lease.blocks then 1 else 0)
  {
    if b in lease.blocks {
      assert Holders(n, b) == Holders(k, b) + {job};
    } else {
      assert Holders(n, b) == Holders(k, b);
    }
  }

  lemma ReserveConserves(k: Ledger, ids: seq<int>, proven: set<int>, outside: seq<int>)
    requires Conserved(k, outside)
    ensures Conserved(Reserve(k, ids, proven).0, outside)
  {
    hide Holders, Dedupe, Unique;
    var (n, grant) := Reserve(k, ids, proven);
    if grant.Granted? {
      GrantedLeases(k, ids, proven);
      assert grant.job !in k.leases;
      hide LeaseOk;
      forall b | 0 <= b < |n.refs|
        ensures n.refs[b] == outside[b] + |Holders(n, b)|
      {
        HoldersWith(k, n, grant.job, n.leases[grant.job], b);
      }
    }
  }

  lemma GrantedLeases(k: Ledger, ids: seq<int>, proven: set<int>)
    requires (forall j :: j in k.leases ==> LeaseOk(k, j)) && k.ranks > 0
    requires Reserve(k, ids, proven).1.Granted?
    ensures var n := Reserve(k, ids, proven).0;
            (forall j :: j in n.leases ==> LeaseOk(n, j)) && |n.leases| <= k.maxJobs
  {
    var (n, grant) := Reserve(k, ids, proven);
    DedupeIs(ids);
    OneMoreLease(k.leases, grant.job, n.leases[grant.job]);
    forall j | j in n.leases
      ensures LeaseOk(n, j)
    {
      if j != grant.job {
        assert LeaseOk(k, j);
      }
    }
  }

  lemma OneMoreLease(leases: map<Job, ReadLease>, job: Job, lease: ReadLease)
    ensures |leases[job := lease]| <= |leases| + 1
  {
    assert leases[job := lease].Keys == leases.Keys + {job};
    assert |leases[job := lease]| == |leases[job := lease].Keys| && |leases| == |leases.Keys|;
  }

  lemma CompleteConserves(k: Ledger, job: Job, ranks: seq<Rank>, outside: seq<int>)
    requires Conserved(k, outside)
    ensures Conserved(Complete(k, job, ranks).0, outside)
    ensures Complete(k, job, ranks).1 == Released <==>
              job in k.leases && RanksOk(k, ranks)
              && forall r :: 0 <= r < k.ranks ==> r in k.leases[job].completed || r in ranks
  {
    if job in k.leases && RanksOk(k, ranks) {
      assert LeaseOk(k, job);
      var completed := k.leases[job].completed + Elements(ranks);
      AllRanks(completed, k.ranks);
      assert forall r :: r in completed <==> r in k.leases[job].completed || r in ranks;
      var (n, ack) := Complete(k, job, ranks);
      if ack == Released {
        ReleaseConserves(k, job, outside);
      } else {
        RecordConserves(k, job, k.leases[job].(completed := completed), outside);
      }
    }
  }

  function Range(n: nat): (s: set<Rank>)
    ensures |s| == n && forall r :: r in s <==> 0 <= r < n
  {
    if n == 0 then {} else Range(n - 1) + {n - 1}
  }

  /** A set of ranks has full size exactly when it holds every rank. */
  lemma AllRanks(s: set<Rank>, n: nat)
    requires forall r :: r in s ==> 0 <= r < n
    ensures |s| <= n && (|s| == n <==> forall r :: 0 <= r < n ==> r in s)
  {
    SubsetSize(s, Range(n));
    if forall r :: 0 <= r < n ==> r in s {
      assert s == Range(n);
    } else {
      var r :| 0 <= r < n && r !in s;
      SubsetSize(s, Range(n) - {r});
    }
  }

  lemma SubsetSize<T>(a: set<T>, b: set<T>)
    requires a <= b
    ensures |a| <= |b|
  {
    assert b == a + (b - a);
  }

  /** Dropping a lease takes it out of the holders of exactly its blocks. */
  lemma HoldersWithout(k: Ledger, n: Ledger, job: Job, b: Block)
    requires job in k.leases && n.leases == k.leases - {job}
    ensures |Holders(n, b)| == |Holders(k, b)| - (if b in k.leases[job].blocks then 1 else 0)
  {
    if b in k.leases[job].blocks {
      assert Holders(n, b) == Holders(k, b) - {job} && job in Holders(k, b);
    } else {
      assert Holders(n, b) == Holders(k, b);
    }
  }

  lemma FewerLeases(leases: map<Job, ReadLease>, job: Job)
    ensures |leases - {job}| <= |leases|
  {
    var left := leases - {job};
    assert left.Keys == leases.Keys - {job} && |left| == |left.Keys| && |leases| == |leases.Keys|;
    SubsetSize(left.Keys, leases.Keys);
  }

  lemma ReleaseConserves(k: Ledger, job: Job, outside: seq<int>)
    requires Conserved(k, outside) && job in k.leases
    ensures Conserved(k.(refs := Counted(k.refs, k.leases[job].blocks, -1), leases := k.leases - {job}), outside)
  {
    hide Holders, Unique;
    var blocks := k.leases[job].blocks;
    var n := k.(refs := Counted(k.refs, blocks, -1), leases := k.leases - {job});
    FewerLeases(k.leases, job);
    forall j | j in n.leases
      ensures LeaseOk(n, j)
    {
      assert LeaseOk(k, j);
    }
    hide LeaseOk;
    forall b | 0 <= b < |n.refs|
      ensures n.refs[b] == outside[b] + |Holders(n, b)|
    {
      HoldersWithout(k, n, job, b);
    }
  }

  /** Writing down acknowledgements or quarantine moves no reference. */
  lemma RecordConserves(k: Ledger, job: Job, lease: ReadLease, outside: seq<int>)
    requires Conserved(k, outside) && job in k.leases && lease.blocks == k.leases[job].blocks
    requires (forall r :: r in lease.completed ==> 0 <= r < k.ranks) && |lease.completed| < k.ranks
    ensures Conserved(k.(leases := k.leases[job := lease]), outside)
    ensures Conserved(k.(leases := k.leases[job := lease], disabled := true), outside)
  {
    var n := k.(leases := k.leases[job := lease]);
    assert n.leases.Keys == k.leases.Keys && |n.leases| == |n.leases.Keys|;
    forall j | j in n.leases
      ensures LeaseOk(n, j)
    {
      assert LeaseOk(k, j) && LeaseOk(k, job);
    }
    forall b | 0 <= b < |n.refs|
      ensures Holders(n, b) == Holders(k, b)
    {
    }
    assert Conserved(n, outside);
    var d := n.(disabled := true);
    assert forall j :: j in d.leases ==> LeaseOk(n, j) && LeaseOk(d, j);
    assert forall b :: 0 <= b < |d.refs| ==> Holders(d, b) == Holders(n, b);
  }

  lemma QuarantineConserves(k: Ledger, job: Job, ranks: seq<Rank>, outside: seq<int>)
    requires Conserved(k, outside)
    ensures Conserved(Quarantine(k, job, ranks).0, outside)
  {
    if job in k.leases {
      assert LeaseOk(k, job);
      RecordConserves(k, job, k.leases[job].(quarantined := true), outside);
    }
  }

  // ---- what each call does ----

  /** The lease is the only one to differ. */
  ghost predicate OthersKept(k: Ledger, n: Ledger, job: Job) {
    forall j :: j != job ==> (j in n.leases <==> j in k.leases) && (j in k.leases ==> n.leases[j] == k.leases[j])
  }

  /** The counts of exactly these blocks have moved by `delta`. */
  predicate MovedBy(k: Ledger, n: Ledger, blocks: seq<Block>, delta: int) {
    && |n.refs| == |k.refs|
    && forall b :: 0 <= b < |k.refs| ==> n.refs[b] == k.refs[b] + if b in blocks then delta else 0
  }

  /** A reservation is declined exactly when reading is disabled or all lease
      places are taken. Otherwise it is granted exactly when it names blocks, each
      a proven one inside the pool, and then one new lease holds each of them once. */
  lemma GrantExactly(k: Ledger, ids: seq<int>, proven: set<int>, outside: seq<int>)
    requires Conserved(k, outside)
    ensures var (n, g) := Reserve(k, ids, proven);
            && (g == Declined <==> k.disabled || |k.leases| >= k.maxJobs)
            && (g.Granted? <==>
                  && !k.disabled && |k.leases| < k.maxJobs && ids != []
                  && forall i :: 0 <= i < |ids| ==> 0 < ids[i] < |k.refs| && ids[i] in proven)
            && (!g.Granted? ==> n == k)
            && (g.Granted? ==>
                  && g.job !in k.leases && g.job in n.leases && OthersKept(k, n, g.job)
                  && Unique(n.leases[g.job].blocks) && (forall b :: b in n.leases[g.job].blocks <==> b in ids)
                  && n.leases[g.job].completed == {} && !n.leases[g.job].quarantined && !n.disabled
                  && MovedBy(k, n, ids, 1))
  {
    assert forall j :: j in k.leases ==> LeaseOk(k, j);
    DedupeIs(ids);
    SourceExactly(k, ids, proven);
    hide Dedupe, Unique, Conserved, SourceOk;
  }

  lemma SourceExactly(k: Ledger, ids: seq<int>, proven: set<int>)
    ensures SourceOk(k, ids, proven)
            <==> ids != [] && forall i :: 0 <= i < |ids| ==> 0 < ids[i] < |k.refs| && ids[i] in proven
  {
    if forall i :: 0 <= i < |ids| ==> 0 < ids[i] < |k.refs| && ids[i] in proven {
      forall b | b in ids
        ensures 0 < b < |k.refs| && b in proven
      {
        var i :| 0 <= i < |ids| && ids[i] == b;
      }
    }
    if SourceOk(k, ids, proven) {
      forall i | 0 <= i < |ids|
        ensures 0 < ids[i] < |k.refs| && ids[i] in proven
      {
        assert ids[i] in ids;
      }
    }
  }

  /** An acknowledgement adds its ranks to the lease's and touches nothing else,
      until every rank is there: then the lease ends and its references go back. */
  lemma CompleteExactly(k: Ledger, job: Job, ranks: seq<Rank>, outside: seq<int>)
    requires Conserved(k, outside) && job in k.leases && forall i :: 0 <= i < |ranks| ==> 0 <= ranks[i] < k.ranks
    ensures var (n, ack) := Complete(k, job, ranks);
            && n.disabled == k.disabled && n.sequence == k.sequence && OthersKept(k, n, job)
            && (ack == Pending || ack == Released)
            && (ack == Pending ==>
                  && n.refs == k.refs && job in n.leases && n.leases[job].blocks == k.leases[job].blocks
                  && n.leases[job].quarantined == k.leases[job].quarantined
                  && forall r :: r in n.leases[job].completed <==> r in k.leases[job].completed || r in ranks)
            && (ack == Released ==> job !in n.leases && MovedBy(k, n, k.leases[job].blocks, -1))
  {
    hide Conserved, Unique;
  }

  /** A failed read keeps its blocks pinned and ends all further reservations. */
  lemma QuarantineExactly(k: Ledger, job: Job, ranks: seq<Rank>)
    requires job in k.leases && forall i :: 0 <= i < |ranks| ==> 0 <= ranks[i] < k.ranks
    ensures var n := Quarantine(k, job, ranks).0;
            && n.disabled && n.refs == k.refs && OthersKept(k, n, job)
            && job in n.leases && n.leases[job] == k.leases[job].(quarantined := true)
            && forall ids, proven :: Reserve(n, ids, proven) == (n, Declined)
  {
  }

  // ---- whole runs ----

  datatype Step =
    | SReserve(ids: seq<int>, proven: set<int>)
    | SComplete(job: Job, ranks: seq<Rank>)
    | SQuarantine(job: Job, ranks: seq<Rank>)
    | SOutside(block: Block, delta: int)

  /** The ledger, what others hold, and the jobs whose blocks were given back. */
  datatype World = World(k: Ledger, outside: seq<int>, released: seq<Job>)

  function Next(w: World, s: Step): World
    requires |w.outside| == |w.k.refs|
  {
    match s
    case SReserve(ids, proven) => w.(k := Reserve(w.k, ids, proven).0)
    case SComplete(job, ranks) =>
      var (k, ack) := Complete(w.k, job, ranks);
      w.(k := k, released := if ack == Released then w.released + [job] else w.released)
    case SQuarantine(job, ranks) => w.(k := Quarantine(w.k, job, ranks).0)
    case SOutside(b, delta) =>
      if b < 0 || b >= |w.outside| then w
      else w.(k := w.k.(refs := w.k.refs[b := w.k.refs[b] + delta]), outside := w.outside[b := w.outside[b] + delta])
  }

  ghost predicate WorldOk(w: World) {
    && Conserved(w.k, w.outside) && Unique(w.released)
    && forall i :: 0 <= i < |w.released| ==> w.released[i] !in w.k.leases && 0 < w.released[i] <= w.k.sequence
  }

  lemma OutsideConserves(k: Ledger, outside: seq<int>, b: Block, delta: int)
    requires Conserved(k, outside) && 0 <= b < |outside|
    ensures Conserved(k.(refs := k.refs[b := k.refs[b] + delta]), outside[b := outside[b] + delta])
  {
    var n := k.(refs := k.refs[b := k.refs[b] + delta]);
    forall j | j in n.leases
      ensures LeaseOk(n, j)
    {
      assert LeaseOk(k, j);
    }
    assert forall c :: 0 <= c < |n.refs| ==> Holders(n, c) == Holders(k, c);
  }

  lemma NextOk(w: World, s: Step)
    requires WorldOk(w)
    ensures WorldOk(Next(w, s))
  {
    hide Conserved, Reserve, Complete, Quarantine;
    assert |w.outside| == |w.k.refs| by { Sizes(w.k, w.outside); }
    match s
    case SReserve(ids, proven) =>
      ReserveConserves(w.k, ids, proven, w.outside);
      ReserveJobs(w.k, ids, proven);
    case SComplete(job, ranks) =>
      CompleteConserves(w.k, job, ranks, w.outside);
      CompleteJobs(w.k, job, ranks, w.outside);
    case SQuarantine(job, ranks) =>
      QuarantineConserves(w.k, job, ranks, w.outside);
      QuarantineJobs(w.k, job, ranks);
    case SOutside(b, delta) =>
      if 0 <= b < |w.outside| {
        OutsideConserves(w.k, w.outside, b, delta);
      }
  }

  lemma Sizes(k: Ledger, outside: seq<int>)
    requires Conserved(k, outside)
    ensures |outside| == |k.refs|
  {
  }

  lemma ReserveJobs(k: Ledger, ids: seq<int>, proven: set<int>)
    ensures var n := Reserve(k, ids, proven).0;
            n.sequence >= k.sequence && forall j :: j in n.leases ==> j in k.leases || j > k.sequence
  {
  }

  lemma CompleteJobs(k: Ledger, job: Job, ranks: seq<Rank>, outside: seq<int>)
    requires Conserved(k, outside)
    ensures var (n, ack) := Complete(k, job, ranks);
            && n.sequence == k.sequence && n.leases.Keys <= k.leases.Keys
            && (ack == Released ==> job in k.leases && job !in n.leases && 0 < job <= k.sequence)
  {
    if job in k.leases {
      assert LeaseOk(k, job);
    }
  }

  lemma QuarantineJobs(k: Ledger, job: Job, ranks: seq<Rank>)
    ensures var n := Quarantine(k, job, ranks).0;
            n.sequence == k.sequence && n.leases.Keys == k.leases.Keys
  {
  }

  function Run(w: World, steps: seq<Step>): World
    requires |w.outside| == |w.k.refs|
  {
    if steps == [] then w
    else
      var before := Run(w, steps[..|steps| - 1]);
      if |before.outside| == |before.k.refs| then Next(before, steps[|steps| - 1]) else before
  }

  /** In every run of reservations, acknowledgements, quarantines and outside
      traffic: each count is what others hold plus the live leases naming the
      block, at most `maxJobs` leases live, and no lease is released twice. */
  lemma {:induction false} LeasesConserve(w: World, steps: seq<Step>)
    requires WorldOk(w)
    ensures |w.outside| == |w.k.refs| && WorldOk(Run(w, steps))
  {
    if steps != [] {
      LeasesConserve(w, steps[..|steps| - 1]);
      NextOk(Run(w, steps[..|steps| - 1]), steps[|steps| - 1]);
    }
  }

  // ---- the object ----

  class CaptureReadLeases {
    const ranks: int
    const maxJobs: int
    /** The pool's reference counts. */
    var refs: seq<int>
    var leases: map<Job, ReadLease>
    var sequence: Job
    var disabled: bool

    function View(): Ledger
      reads this
    {
      Ledger(ranks, maxJobs, refs, leases, sequence, disabled)
    }

    constructor (ranks: int, maxJobs: int, refs: seq<int>)
      requires ranks > 0 && maxJobs > 0
      ensures View() == Ledger(ranks, maxJobs, refs, map[], 0, false) && Conserved(View(), refs)
    {
      this.ranks, this.maxJobs, this.refs := ranks, maxJobs, refs;
      leases, sequence, disabled := map[], 0, false;
      new;
      assert forall b :: 0 <= b < |refs| ==> Holders(View(), b) == {};
    }

    /** Does the engine still wait for a read that can complete? */
    method Busy() returns (busy: bool)
      ensures busy <==> exists j :: j in leases && !leases[j].quarantined
    {
      busy := exists j :: j in leases && !leases[j].quarantined;
    }

    method ReserveBlocks(ids: seq<int>, proven: set<int>) returns (g: Grant)
      modifies this
      ensures (View(), g) == Reserve(old(View()), ids, proven)
    {
      if disabled || |leases| >= maxJobs {
        return Declined;
      }
      if !SourceOk(View(), ids, proven) {
        return BadSource;
      }
      var blocks: seq<Block> := [];
      for i := 0 to |ids|
        invariant blocks == Dedupe(ids[..i])
      {
        assert ids[..i + 1][..i] == ids[..i];
        if ids[i] !in blocks {
          blocks := blocks + [ids[i]];
        }
      }
      assert ids[..|ids|] == ids;
      DedupeIs(ids);
      CountAll(blocks, 1);
      sequence := sequence + 1;
      leases := leases[sequence := ReadLease(blocks, {}, false)];
      g := Granted(sequence);
    }

    /** `touch` and `free_blocks`: one reference per listed block. */
    method CountAll(blocks: seq<Block>, delta: int)
      requires Unique(blocks) && forall b :: b in blocks ==> 0 <= b < |refs|
      modifies this`refs
      ensures refs == Counted(old(refs), blocks, delta)
    {
      for i := 0 to |blocks|
        invariant refs == Counted(old(refs), blocks[..i], delta)
      {
        assert blocks[i] in blocks && blocks[i] !in blocks[..i] && blocks[..i + 1] == blocks[..i] + [blocks[i]];
        refs := refs[blocks[i] := refs[blocks[i]] + delta];
      }
      assert blocks[..|blocks|] == blocks;
    }

    method CompleteRead(job: Job, ranks: seq<Rank>) returns (ack: Ack)
      requires job in leases ==> LeaseOk(View(), job)
      modifies this
      ensures (View(), ack) == Complete(old(View()), job, ranks)
    {
      if job !in leases {
        return Unknown;
      }
      if !RanksOk(View(), ranks) {
        return BadRank;
      }
      var lease := leases[job];
      var completed := lease.completed + Elements(ranks);
      if |completed| != this.ranks {
        leases := leases[job := lease.(completed := completed)];
        return Pending;
      }
      CountAll(lease.blocks, -1);
      leases := leases - {job};
      ack := Released;
    }

    method QuarantineRead(job: Job, ranks: seq<Rank>) returns (ack: Ack)
      modifies this
      ensures (View(), ack) == Quarantine(old(View()), job, ranks)
    {
      if job !in leases {
        return Unknown;
      }
      if !RanksOk(View(), ranks) {
        return BadRank;
      }
      leases := leases[job := leases[job].(quarantined := true)];
      disabled := true;
      ack := Pending;
    }
  }
}
