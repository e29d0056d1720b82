// Copies out of a filled arena into page buffers.
module PageCopies {
  import opened Common
  import opened Pages

  datatype CopySpan = CopySpan(
    arenaOffset: nat, snapshotOffset: nat, destinationOffset: nat, bytes: nat, destination: nat)

  /** One copy from the arena into a page buffer. */
  predicate CopyFits(pages: seq<Bytes>, arena: Bytes, c: CopySpan) {
    && c.destination < |pages| && c.destinationOffset + c.bytes <= |pages[c.destination]|
    && c.arenaOffset + c.bytes <= |arena|
  }

  function Copied(pages: seq<Bytes>, arena: Bytes, c: CopySpan): seq<Bytes>
    requires CopyFits(pages, arena, c)
  {
    var page := pages[c.destination];
    pages[c.destination :=
      page[..c.destinationOffset] + arena[c.arenaOffset..c.arenaOffset + c.bytes]
      + page[c.destinationOffset + c.bytes..]]
  }

  /** A slab's copies one after another; one that is out of bounds refuses the slab. */
  function Submit(pages: seq<Bytes>, arena: Bytes, spans: seq<CopySpan>): Option<seq<Bytes>> {
    if spans == [] then Some(pages)
    else
      match Submit(pages, arena, spans[..|spans| - 1])
      case None => None
      case Some(before) =>
        if CopyFits(before, arena, spans[|spans| - 1]) then Some(Copied(before, arena, spans[|spans| - 1])) else None
  }

  lemma SubmitMore(pages: seq<Bytes>, arena: Bytes, spans: seq<CopySpan>, c: CopySpan)
    ensures Submit(pages, arena, spans + [c])
            == match Submit(pages, arena, spans)
               case None => None
               case Some(before) => if CopyFits(before, arena, c) then Some(Copied(before, arena, c)) else None
  {
    hide CopyFits, Copied;
    assert (spans + [c])[..|spans|] == spans;
  }

  /** Filling the next stretch of a buffer behind what it already holds. */
  lemma FillOn(page: Bytes, layer: Bytes, from: nat, to: nat)
    requires from <= to <= |layer| == |page| && page[..from] == layer[..from]
    ensures var after := page[..from] + layer[from..to] + page[to..];
            |after| == |page| && after[..to] == layer[..to]
  {
    assert layer[..from] + layer[from..to] == layer[..to];
  }
}
