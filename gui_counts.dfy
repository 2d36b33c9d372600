/** The tiles of the composed hand still free for melds: the hand's counts
    less the declared open melds and closed quads
    (get_active_hand_counts, src/gui/state/utils.rs). */
module GuiCounts {
  import opened Tiles
  import opened HandTypes
  import opened InputTypes
  import opened HandOrganizer
  import opened GuiMeldTiles

  /** One copy of t taken out, if there is one. */
  function Decrement(c: Counts, t: Hai): Counts
  {
    var k := TileToIndex(t);
    if c[k] > 0 then c[k := c[k] - 1] else c
  }

  /** The tiles taken out one at a time, in order. */
  function RemoveTiles(c: Counts, ts: seq<Hai>): Counts
  {
    if ts == [] then c else Decrement(RemoveTiles(c, ts[..|ts| - 1]), ts[|ts| - 1])
  }

  /** Four copies of t taken out, leaving zero if fewer remain. */
  function RemoveQuad(c: Counts, t: Hai): Counts
  {
    var k := TileToIndex(t);
    c[k := if c[k] >= 4 then c[k] - 4 else 0]
  }

  function RemoveQuads(c: Counts, kans: seq<Hai>): Counts
  {
    if kans == [] then c else RemoveQuad(RemoveQuads(c, kans[..|kans| - 1]), kans[|kans| - 1])
  }

  /** The tiles of all declared melds, meld by meld. */
  function AllMeldTiles(ms: seq<OpenMeldInput>): seq<Hai>
  {
    if ms == [] then [] else AllMeldTiles(ms[..|ms| - 1]) + MeldTiles(ms[|ms| - 1])
  }

  /** The spec of get_active_hand_counts. */
  function ActiveCounts(handTiles: seq<Hai>, openMelds: seq<OpenMeldInput>, closedKans: seq<Hai>): Counts
  {
    RemoveQuads(RemoveTiles(CountTiles(handTiles), AllMeldTiles(openMelds)), closedKans)
  }

  /** Subtraction that stops at zero. */
  function Monus(a: nat, b: nat): nat
  {
    if a >= b then a - b else 0
  }

  method GetActiveHandCounts(handTiles: seq<Hai>, openMelds: seq<OpenMeldInput>, closedKans: seq<Hai>)
    returns (r: Counts)
    ensures r == ActiveCounts(handTiles, openMelds, closedKans)
  {
    var counts := CountHand(handTiles);
    TakeMelds(counts, openMelds);
    TakeQuads(counts, closedKans);
    r := counts[..];
  }

  /** The second loop: the tiles of every open meld, in order. */
  method TakeMelds(counts: array<nat>, openMelds: seq<OpenMeldInput>)
    requires counts.Length == TILE_COUNT
    modifies counts
    ensures counts[..] == RemoveTiles(old(counts[..]), AllMeldTiles(openMelds))
  {
    ghost var before: Counts := counts[..];
    for i := 0 to |openMelds|
      invariant counts[..] == RemoveTiles(before, AllMeldTiles(openMelds[..i]))
    {
      var tiles := GetMeldTiles(openMelds[i]);
      TakeTiles(counts, tiles);
      MeldTilesStep(before, openMelds, i);
    }
    assert openMelds[..|openMelds|] == openMelds;
  }

  /** Taking out the first i + 1 melds is taking out the first i, then the next. */
  lemma MeldTilesStep(c: Counts, ms: seq<OpenMeldInput>, i: nat)
    requires i < |ms|
    ensures RemoveTiles(c, AllMeldTiles(ms[..i + 1])) == RemoveTiles(RemoveTiles(c, AllMeldTiles(ms[..i])), MeldTiles(ms[i]))
  {
    assert ms[..i + 1][..i] == ms[..i];
    RemoveTilesAppend(c, AllMeldTiles(ms[..i]), MeldTiles(ms[i]));
  }

  /** The first loop: one count per tile of the hand. */
  method CountHand(handTiles: seq<Hai>) returns (counts: array<nat>)
    ensures fresh(counts) && counts.Length == TILE_COUNT
    ensures counts[..] == CountTiles(handTiles)
  {
    counts := new nat[TILE_COUNT](_ => 0);
    for i := 0 to |handTiles|
      invariant counts[..] == CountTiles(handTiles[..i])
    {
      assert handTiles[..i + 1][..i] == handTiles[..i];
      var k := TileToIndex(handTiles[i]);
      counts[k] := counts[k] + 1;
    }
    assert handTiles[..|handTiles|] == handTiles;
  }

  /** The last loop: four copies per closed quad, stopping at zero. */
  method TakeQuads(counts: array<nat>, closedKans: seq<Hai>)
    requires counts.Length == TILE_COUNT
    modifies counts
    ensures counts[..] == RemoveQuads(old(counts[..]), closedKans)
  {
    ghost var before := counts[..];
    for i := 0 to |closedKans|
      invariant counts[..] == RemoveQuads(before, closedKans[..i])
    {
      assert closedKans[..i + 1][..i] == closedKans[..i];
      var k := TileToIndex(closedKans[i]);
      if counts[k] >= 4 {
        counts[k] := counts[k] - 4;
      } else {
        counts[k] := 0;
      }
    }
    assert closedKans[..|closedKans|] == closedKans;
  }

  /** The inner loop over one meld's tiles. */
  method TakeTiles(counts: array<nat>, tiles: seq<Hai>)
    requires counts.Length == TILE_COUNT
    modifies counts
    ensures counts[..] == RemoveTiles(old(counts[..]), tiles)
  {
    ghost var before := counts[..];
    for j := 0 to |tiles|
      invariant counts[..] == RemoveTiles(before, tiles[..j])
    {
      assert tiles[..j + 1][..j] == tiles[..j];
      var k := TileToIndex(tiles[j]);
      if counts[k] > 0 {
        counts[k] := counts[k] - 1;
      }
    }
    assert tiles[..|tiles|] == tiles;
  }

  // ---------------------------------------------------------------------
  // Properties
  // ---------------------------------------------------------------------

  lemma {:induction false} RemoveTilesAppend(c: Counts, a: seq<Hai>, b: seq<Hai>)
    ensures RemoveTiles(c, a + b) == RemoveTiles(RemoveTiles(c, a), b)
    decreases |b|
  {
    if b == [] {
      assert a + b == a;
    } else {
      assert (a + b)[..|a + b| - 1] == a + b[..|b| - 1];
      RemoveTilesAppend(c, a, b[..|b| - 1]);
    }
  }

  /** Taking tiles out one at a time never goes below zero and, whatever
      the order, leaves each count less the tile's multiplicity, stopping
      at zero. */
  lemma {:induction false} RemoveTilesCount(c: Counts, ts: seq<Hai>, k: nat)
    requires k < TILE_COUNT
    ensures RemoveTiles(c, ts)[k] == Monus(c[k], multiset(ts)[IndexToTile(k)])
    decreases |ts|
  {
    if ts != [] {
      var init, last := ts[..|ts| - 1], ts[|ts| - 1];
      assert ts == init + [last];
      RemoveTilesCount(c, init, k);
      if TileToIndex(last) == k {
        IndexToTileOfIndex(last);
      } else {
        assert last != IndexToTile(k);
      }
    }
  }

  /** Each closed quad takes four copies of its tile, stopping at zero. */
  lemma {:induction false} RemoveQuadsCount(c: Counts, kans: seq<Hai>, k: nat)
    requires k < TILE_COUNT
    ensures RemoveQuads(c, kans)[k] == Monus(c[k], 4 * multiset(kans)[IndexToTile(k)])
    decreases |kans|
  {
    if kans != [] {
      var init, last := kans[..|kans| - 1], kans[|kans| - 1];
      assert kans == init + [last];
      RemoveQuadsCount(c, init, k);
      if TileToIndex(last) == k {
        IndexToTileOfIndex(last);
      } else {
        assert last != IndexToTile(k);
      }
    }
  }

  /** Each free count is the hand's count of that tile less its copies in
      the open melds and four per closed quad, never below zero. */
  lemma {:induction false} ActiveCountsSpec(handTiles: seq<Hai>, openMelds: seq<OpenMeldInput>, closedKans: seq<Hai>, k: nat)
    requires k < TILE_COUNT
    ensures ActiveCounts(handTiles, openMelds, closedKans)[k] ==
      Monus(CountTiles(handTiles)[k], CountTiles(AllMeldTiles(openMelds))[k] + 4 * CountTiles(closedKans)[k])
  {
    var c, tiles := CountTiles(handTiles), AllMeldTiles(openMelds);
    assert ActiveCounts(handTiles, openMelds, closedKans) == RemoveQuads(RemoveTiles(c, tiles), closedKans);
    ComposedCount(c, tiles, closedKans, k);
  }

  lemma ComposedCount(c: Counts, tiles: seq<Hai>, kans: seq<Hai>, k: nat)
    requires k < TILE_COUNT
    ensures RemoveQuads(RemoveTiles(c, tiles), kans)[k] ==
      Monus(c[k], CountTiles(tiles)[k] + 4 * CountTiles(kans)[k])
  {
    RemoveTilesCountTiles(c, tiles, k);
    RemoveQuadsCountTiles(RemoveTiles(c, tiles), kans, k);
    MonusMonus(c[k], CountTiles(tiles)[k], 4 * CountTiles(kans)[k]);
  }

  /** The free counts never exceed what the hand holds, tile by tile. */
  lemma ActiveCountsBound(handTiles: seq<Hai>, openMelds: seq<OpenMeldInput>, closedKans: seq<Hai>, k: nat)
    requires k < TILE_COUNT
    ensures ActiveCounts(handTiles, openMelds, closedKans)[k] <= multiset(handTiles)[IndexToTile(k)]
  {
    ActiveCountsSpec(handTiles, openMelds, closedKans, k);
    MonusMonus(CountTiles(handTiles)[k], CountTiles(AllMeldTiles(openMelds))[k] + 4 * CountTiles(closedKans)[k], 0);
    CountTilesMultiplicity(handTiles, k);
  }

  lemma RemoveTilesCountTiles(c: Counts, ts: seq<Hai>, k: nat)
    requires k < TILE_COUNT
    ensures RemoveTiles(c, ts)[k] == Monus(c[k], CountTiles(ts)[k])
  {
    RemoveTilesCount(c, ts, k);
    CountTilesMultiplicity(ts, k);
  }

  lemma RemoveQuadsCountTiles(c: Counts, kans: seq<Hai>, k: nat)
    requires k < TILE_COUNT
    ensures RemoveQuads(c, kans)[k] == Monus(c[k], 4 * CountTiles(kans)[k])
  {
    RemoveQuadsCount(c, kans, k);
    CountTilesMultiplicity(kans, k);
  }

  lemma MonusMonus(a: nat, x: nat, y: nat)
    ensures Monus(Monus(a, x), y) == Monus(a, x + y) && Monus(a, x) <= a
  {
  }
}
