/** The tiles a declared meld stands for in the interface
    (get_meld_tiles, src/gui/state/melds.rs). */
module GuiMeldTiles {
  import opened Tiles
  import opened HandTypes
  import opened InputTypes

  /** Up to three consecutive ranks of one suit from a suited start, cut off
      at rank 9. */
  function RunLength(t: Hai): nat
    requires t.Suhai?
  {
    if t.number <= 7 then 3 else 10 - t.number
  }

  /** A triplet is three copies of its tile and a quad four; a sequence is
      its run of consecutive ranks (fewer than three from an 8 or a 9); a
      sequence declared on an honor is just that honor. */
  function MeldTiles(m: OpenMeldInput): seq<Hai>
  {
    var t := m.representativeTile;
    match m.mentsuType
    case Koutsu => [t, t, t]
    case Kantsu => [t, t, t, t]
    case Shuntsu =>
      if t.Suhai? then seq(RunLength(t), i requires 0 <= i < RunLength(t) => Suhai(t.number + i, t.suit))
      else [t]
  }

  method GetMeldTiles(m: OpenMeldInput) returns (tiles: seq<Hai>)
    ensures tiles == MeldTiles(m)
  {
    tiles := [];
    var t := m.representativeTile;
    match m.mentsuType {
      case Shuntsu =>
        var startIdx := TileToIndex(t);
        if startIdx < SUHAI_TILES_COUNT {
          var suitBase := (startIdx / TILES_PER_SUHAI) * TILES_PER_SUHAI;
          SuhaiIndex(t);
          assert suitBase == SuitOffset(t.suit);
          for i := 0 to 3
            invariant |tiles| == if i <= RunLength(t) then i else RunLength(t)
            invariant forall k :: 0 <= k < |tiles| ==> tiles[k] == Suhai(t.number + k, t.suit)
          {
            var idx := startIdx + i;
            if idx < suitBase + TILES_PER_SUHAI {
              var u := Suhai(t.number + i, t.suit);
              IndexToTileOfIndex(u);
              tiles := tiles + [IndexToTile(idx)];
            }
          }
        } else {
          tiles := tiles + [t];
        }
      case Koutsu =>
        for i := 0 to 3
          invariant tiles == seq(i, _ => t)
        {
          tiles := tiles + [t];
        }
      case Kantsu =>
        for i := 0 to 4
          invariant tiles == seq(i, _ => t)
        {
          tiles := tiles + [t];
        }
    }
  }

  /** Every meld starts with its representative tile and has one to four
      tiles; triplets and quads consist of it alone, three or four times; a
      suited sequence climbs one rank per tile in the same suit. */
  lemma MeldTilesShape(m: OpenMeldInput)
    ensures var ts, t := MeldTiles(m), m.representativeTile;
      && 1 <= |ts| <= 4 && ts[0] == t
      && (m.mentsuType == Koutsu ==> |ts| == 3 && forall k :: 0 <= k < |ts| ==> ts[k] == t)
      && (m.mentsuType == Kantsu ==> |ts| == 4 && forall k :: 0 <= k < |ts| ==> ts[k] == t)
      && (m.mentsuType == Shuntsu && t.Suhai? ==>
            |ts| == (if t.number <= 7 then 3 else 10 - t.number) &&
            forall k :: 0 <= k < |ts| ==> ts[k].Suhai? && ts[k].suit == t.suit && ts[k].number == t.number + k)
      && (m.mentsuType == Shuntsu && !t.Suhai? ==> ts == [t])
  {
  }
}
