/** Which melds the interface lets the user declare, given the tiles still
    free (can_form_meld and the candidate lists, src/gui/state/melds.rs).
    The source methods read only the hand, the open melds and the closed
    quads of the interface state, so they take those three values here. */
module GuiMelds {
  import opened Tiles
  import opened HandTypes
  import opened InputTypes
  import opened HandOrganizer
  import opened GuiMeldTiles
  import opened GuiCounts

  // ---------------------------------------------------------------------
  // can_form_meld
  // ---------------------------------------------------------------------

  /** The tiles taken from the counts one at a time, front to back, failing
      at the first that is not there. */
  function CanTake(c: Counts, ts: seq<Hai>): bool
    decreases |ts|
  {
    if ts == [] then true
    else
      var k := TileToIndex(ts[0]);
      c[k] > 0 && CanTake(c[k := c[k] - 1], ts[1..])
  }

  /** The meld can be formed from the tiles left free by the hand's other
      declarations. */
  function MeldAvailable(handTiles: seq<Hai>, openMelds: seq<OpenMeldInput>, closedKans: seq<Hai>,
                         meld: OpenMeldInput): bool
  {
    CanTake(ActiveCounts(handTiles, openMelds, closedKans), MeldTiles(meld))
  }

  method CanFormMeld(handTiles: seq<Hai>, openMelds: seq<OpenMeldInput>, closedKans: seq<Hai>,
                     meld: OpenMeldInput)
    returns (ok: bool)
    ensures ok == MeldAvailable(handTiles, openMelds, closedKans, meld)
  {
    var available := GetActiveHandCounts(handTiles, openMelds, closedKans);
    var handCounts := new nat[TILE_COUNT](k requires 0 <= k < TILE_COUNT => available[k]);
    assert handCounts[..] == available;
    var tiles := GetMeldTiles(meld);
    ok := TakeAll(handCounts, tiles);
  }

  /** The loop of can_form_meld: each tile taken from the counts in turn,
      stopping with false at the first one missing. */
  method TakeAll(handCounts: array<nat>, tiles: seq<Hai>) returns (ok: bool)
    requires handCounts.Length == TILE_COUNT
    modifies handCounts
    ensures ok == CanTake(old(handCounts[..]), tiles)
  {
    ghost var start := handCounts[..];
    for j := 0 to |tiles|
      invariant CanTake(start, tiles) == CanTake(handCounts[..], tiles[j..])
    {
      assert tiles[j..][0] == tiles[j] && tiles[j..][1..] == tiles[j + 1..];
      var idx := TileToIndex(tiles[j]);
      if handCounts[idx] > 0 {
        handCounts[idx] := handCounts[idx] - 1;
      } else {
        return false;
      }
    }
    return true;
  }

  // ---------------------------------------------------------------------
  // The candidate lists
  // ---------------------------------------------------------------------

  /** A triplet for every tile among the first n with three or more free,
      in index order. */
  function PonsUpTo(c: Counts, n: nat): seq<OpenMeldInput>
    requires n <= TILE_COUNT
  {
    if n == 0 then []
    else PonsUpTo(c, n - 1) + (if c[n - 1] >= 3 then [OpenMeldInput(Koutsu, IndexToTile(n - 1), false)] else [])
  }

  /** The tiles among the first n with exactly four free, in index order. */
  function KansUpTo(c: Counts, n: nat): seq<Hai>
    requires n <= TILE_COUNT
  {
    if n == 0 then []
    else KansUpTo(c, n - 1) + (if c[n - 1] == 4 then [IndexToTile(n - 1)] else [])
  }

  /** The suit blocks the sequence search walks through. */
  const SUIT_OFFSETS: seq<nat> := [0, TILES_PER_SUHAI, TILES_PER_SUHAI * 2]

  /** A sequence for every one of the first n starting ranks of the suit at
      offset whose three tiles are all free. */
  function ChiisInSuit(c: Counts, offset: nat, n: nat): seq<OpenMeldInput>
    requires offset <= TILES_PER_SUHAI * 2 && n <= MAX_SHUNTSU_START
  {
    if n == 0 then []
    else
      var idx := offset + n - 1;
      ChiisInSuit(c, offset, n - 1)
        + (if c[idx] > 0 && c[idx + 1] > 0 && c[idx + 2] > 0
           then [OpenMeldInput(Shuntsu, IndexToTile(idx), false)] else [])
  }

  /** The sequences of the first s suits. */
  function ChiisUpTo(c: Counts, s: nat): seq<OpenMeldInput>
    requires s <= |SUIT_OFFSETS|
  {
    if s == 0 then [] else ChiisUpTo(c, s - 1) + ChiisInSuit(c, SUIT_OFFSETS[s - 1], MAX_SHUNTSU_START)
  }

  method GetAllPossiblePons(handTiles: seq<Hai>, openMelds: seq<OpenMeldInput>, closedKans: seq<Hai>)
    returns (pons: seq<OpenMeldInput>)
    ensures pons == PonsUpTo(ActiveCounts(handTiles, openMelds, closedKans), TILE_COUNT)
  {
    var available := GetActiveHandCounts(handTiles, openMelds, closedKans);
    pons := [];
    for i := 0 to TILE_COUNT
      invariant pons == PonsUpTo(available, i)
    {
      if available[i] >= 3 {
        var tile := IndexToTile(i);
        pons := pons + [OpenMeldInput(Koutsu, tile, false)];
      }
    }
  }

  method GetAllPossibleChiis(handTiles: seq<Hai>, openMelds: seq<OpenMeldInput>, closedKans: seq<Hai>)
    returns (chiis: seq<OpenMeldInput>)
    ensures chiis == ChiisUpTo(ActiveCounts(handTiles, openMelds, closedKans), |SUIT_OFFSETS|)
  {
    var available := GetActiveHandCounts(handTiles, openMelds, closedKans);
    chiis := [];
    for s := 0 to |SUIT_OFFSETS|
      invariant chiis == ChiisUpTo(available, s)
    {
      chiis := PushChiisOfSuit(available, SUIT_OFFSETS[s], chiis);
    }
  }

  /** The inner loop of get_all_possible_chiis over the starting ranks of
      one suit. */
  method PushChiisOfSuit(available: Counts, suitOffset: nat, chiis: seq<OpenMeldInput>)
    returns (r: seq<OpenMeldInput>)
    requires suitOffset <= TILES_PER_SUHAI * 2
    ensures r == chiis + ChiisInSuit(available, suitOffset, MAX_SHUNTSU_START)
  {
    r := chiis;
    for startNum := 0 to MAX_SHUNTSU_START
      invariant r == chiis + ChiisInSuit(available, suitOffset, startNum)
    {
      var idx1 := suitOffset + startNum;
      var idx2 := idx1 + 1;
      var idx3 := idx1 + 2;
      if available[idx1] > 0 && available[idx2] > 0 && available[idx3] > 0 {
        var tile := IndexToTile(idx1);
        r := r + [OpenMeldInput(Shuntsu, tile, false)];
      }
    }
  }

  method GetAllPossibleKans(handTiles: seq<Hai>, openMelds: seq<OpenMeldInput>, closedKans: seq<Hai>)
    returns (kans: seq<Hai>)
    ensures kans == KansUpTo(ActiveCounts(handTiles, openMelds, closedKans), TILE_COUNT)
  {
    var available := GetActiveHandCounts(handTiles, openMelds, closedKans);
    kans := [];
    for i := 0 to TILE_COUNT
      invariant kans == KansUpTo(available, i)
    {
      if available[i] == 4 {
        var tile := IndexToTile(i);
        kans := kans + [tile];
      }
    }
  }

  // ---------------------------------------------------------------------
  // Properties of can_form_meld
  // ---------------------------------------------------------------------

  /** Taking the tiles in turn succeeds exactly when no tile is wanted more
      often than it is free, whatever the order. */
  lemma {:induction false} CanTakeIff(c: Counts, ts: seq<Hai>)
    ensures CanTake(c, ts) <==> forall t :: multiset(ts)[t] <= c[TileToIndex(t)]
    decreases |ts|
  {
    if ts != [] {
      var t0, rest := ts[0], ts[1..];
      var i := TileToIndex(t0);
      assert ts == [t0] + rest;
      assert multiset(ts) == multiset{t0} + multiset(rest);
      if c[i] == 0 {
        assert multiset(ts)[t0] > c[TileToIndex(t0)];
      } else {
        var c' := c[i := c[i] - 1];
        CanTakeIff(c', rest);
        if CanTake(c, ts) {
          forall t
            ensures multiset(ts)[t] <= c[TileToIndex(t)]
          {
            assert multiset(rest)[t] <= c'[TileToIndex(t)];
            if t != t0 {
              if TileToIndex(t) == i {
                TileToIndexInjective(t, t0);
              }
            }
          }
        } else {
          var t :| multiset(rest)[t] > c'[TileToIndex(t)];
          if t != t0 && TileToIndex(t) == i {
            TileToIndexInjective(t, t0);
          }
          assert multiset(ts)[t] > c[TileToIndex(t)];
        }
      }
    }
  }

  /** n copies of one tile can be taken exactly when n are free. */
  lemma {:induction false} CanTakeCopies(c: Counts, t: Hai, n: nat)
    ensures CanTake(c, seq(n, _ => t)) <==> c[TileToIndex(t)] >= n
    decreases n
  {
    if n > 0 {
      var k := TileToIndex(t);
      assert seq(n, _ => t)[0] == t && seq(n, _ => t)[1..] == seq(n - 1, _ => t);
      if c[k] > 0 {
        CanTakeCopies(c[k := c[k] - 1], t, n - 1);
      }
    }
  }

  /** Three tiles at distinct indices can be taken exactly when each is free. */
  lemma CanTakeThree(c: Counts, a: Hai, b: Hai, d: Hai)
    requires TileToIndex(a) != TileToIndex(b) && TileToIndex(a) != TileToIndex(d) && TileToIndex(b) != TileToIndex(d)
    ensures CanTake(c, [a, b, d]) <==> c[TileToIndex(a)] > 0 && c[TileToIndex(b)] > 0 && c[TileToIndex(d)] > 0
  {
    var ia, ib, id := TileToIndex(a), TileToIndex(b), TileToIndex(d);
    assert [a, b, d][1..] == [b, d] && [b, d][1..] == [d] && [d][1..] == [];
    if c[ia] > 0 {
      var c1 := c[ia := c[ia] - 1];
      assert CanTake(c, [a, b, d]) == CanTake(c1, [b, d]);
      if c1[ib] > 0 {
        var c2 := c1[ib := c1[ib] - 1];
        assert CanTake(c1, [b, d]) == CanTake(c2, [d]);
        assert CanTake(c2, [d]) == (c2[id] > 0);
      }
    }
  }

  /** A triplet or a quad can be formed exactly when three or four copies
      of its tile are free; a suited sequence from rank 7 or lower exactly
      when each of its three tiles is free. */
  lemma MeldAvailableIff(handTiles: seq<Hai>, openMelds: seq<OpenMeldInput>, closedKans: seq<Hai>,
                         meld: OpenMeldInput)
    ensures var c, t := ActiveCounts(handTiles, openMelds, closedKans), meld.representativeTile;
      && (meld.mentsuType == Koutsu ==> (MeldAvailable(handTiles, openMelds, closedKans, meld) <==> c[TileToIndex(t)] >= 3))
      && (meld.mentsuType == Kantsu ==> (MeldAvailable(handTiles, openMelds, closedKans, meld) <==> c[TileToIndex(t)] >= 4))
      && (meld.mentsuType == Shuntsu && t.Suhai? && t.number <= 7 ==>
            (MeldAvailable(handTiles, openMelds, closedKans, meld) <==>
               var i := TileToIndex(t); c[i] > 0 && c[i + 1] > 0 && c[i + 2] > 0))
  {
    var c, t := ActiveCounts(handTiles, openMelds, closedKans), meld.representativeTile;
    match meld.mentsuType {
      case Koutsu =>
        assert MeldTiles(meld) == seq(3, _ => t);
        CanTakeCopies(c, t, 3);
      case Kantsu =>
        assert MeldTiles(meld) == seq(4, _ => t);
        CanTakeCopies(c, t, 4);
      case Shuntsu =>
        if t.Suhai? && t.number <= 7 {
          var run := MeldTiles(meld);
          assert run == [t, Suhai(t.number + 1, t.suit), Suhai(t.number + 2, t.suit)];
          CanTakeThree(c, t, Suhai(t.number + 1, t.suit), Suhai(t.number + 2, t.suit));
        }
    }
  }

  // ---------------------------------------------------------------------
  // Properties of the candidate lists
  // ---------------------------------------------------------------------

  /** Representative tiles strictly increasing by index: in index order,
      each once. */
  predicate MeldsIncreasing(ms: seq<OpenMeldInput>)
  {
    forall i, j :: 0 <= i < j < |ms| ==> TileToIndex(ms[i].representativeTile) < TileToIndex(ms[j].representativeTile)
  }

  predicate TilesIncreasing(ts: seq<Hai>)
  {
    forall i, j :: 0 <= i < j < |ts| ==> TileToIndex(ts[i]) < TileToIndex(ts[j])
  }

  /** The triplets offered are exactly the closed-triplet inputs on tiles
      with three or more free, each once, in index order. */
  lemma PonsUpToSpec(c: Counts, n: nat)
    requires n <= TILE_COUNT
    ensures forall m :: m in PonsUpTo(c, n) <==>
      m.mentsuType == Koutsu && !m.isAddedKan &&
      TileToIndex(m.representativeTile) < n && c[TileToIndex(m.representativeTile)] >= 3
    ensures MeldsIncreasing(PonsUpTo(c, n))
  {
    PonsUpToMembers(c, n);
    PonsUpToIncreasing(c, n);
  }

  lemma {:induction false} PonsUpToMembers(c: Counts, n: nat)
    requires n <= TILE_COUNT
    ensures forall m :: m in PonsUpTo(c, n) <==>
      m.mentsuType == Koutsu && !m.isAddedKan &&
      TileToIndex(m.representativeTile) < n && c[TileToIndex(m.representativeTile)] >= 3
  {
    if n > 0 {
      PonsUpToMembers(c, n - 1);
      forall m: OpenMeldInput
        ensures m in PonsUpTo(c, n) <==>
          m.mentsuType == Koutsu && !m.isAddedKan &&
          TileToIndex(m.representativeTile) < n && c[TileToIndex(m.representativeTile)] >= 3
      {
        IndexToTileOfIndex(m.representativeTile);
      }
    }
  }

  lemma {:induction false} PonsUpToIncreasing(c: Counts, n: nat)
    requires n <= TILE_COUNT
    ensures MeldsIncreasing(PonsUpTo(c, n))
  {
    if n > 0 {
      PonsUpToMembers(c, n - 1);
      PonsUpToIncreasing(c, n - 1);
      var ps, prev := PonsUpTo(c, n), PonsUpTo(c, n - 1);
      forall i, j | 0 <= i < j < |ps|
        ensures TileToIndex(ps[i].representativeTile) < TileToIndex(ps[j].representativeTile)
      {
        assert ps[i] == prev[i] by {
          assert i < |prev|;
        }
        if j < |prev| {
          assert ps[j] == prev[j];
          assert TileToIndex(prev[i].representativeTile) < TileToIndex(prev[j].representativeTile);
        } else {
          assert prev[i] in prev;
          assert TileToIndex(prev[i].representativeTile) < n - 1;
          assert ps[j].representativeTile == IndexToTile(n - 1);
          assert TileToIndex(ps[j].representativeTile) == n - 1;
        }
      }
    }
  }

  /** The quads offered are exactly the tiles with four free, each once, in
      index order. */
  lemma KansUpToSpec(c: Counts, n: nat)
    requires n <= TILE_COUNT
    ensures forall t :: t in KansUpTo(c, n) <==> TileToIndex(t) < n && c[TileToIndex(t)] == 4
    ensures TilesIncreasing(KansUpTo(c, n))
  {
    KansUpToMembers(c, n);
    KansUpToIncreasing(c, n);
  }

  lemma {:induction false} KansUpToMembers(c: Counts, n: nat)
    requires n <= TILE_COUNT
    ensures forall t :: t in KansUpTo(c, n) <==> TileToIndex(t) < n && c[TileToIndex(t)] == 4
  {
    if n > 0 {
      KansUpToMembers(c, n - 1);
      forall t: Hai
        ensures t in KansUpTo(c, n) <==> TileToIndex(t) < n && c[TileToIndex(t)] == 4
      {
        IndexToTileOfIndex(t);
      }
    }
  }

  lemma {:induction false} KansUpToIncreasing(c: Counts, n: nat)
    requires n <= TILE_COUNT
    ensures TilesIncreasing(KansUpTo(c, n))
  {
    if n > 0 {
      KansUpToMembers(c, n - 1);
      KansUpToIncreasing(c, n - 1);
      var ks, prev := KansUpTo(c, n), KansUpTo(c, n - 1);
      forall i, j | 0 <= i < j < |ks|
        ensures TileToIndex(ks[i]) < TileToIndex(ks[j])
      {
        assert ks[i] == prev[i] by {
          assert i < |prev|;
        }
        if j < |prev| {
          assert ks[j] == prev[j];
        } else {
          assert prev[i] in prev;
          assert ks[j] == IndexToTile(n - 1);
        }
      }
    }
  }

  /** Within one suit the sequences offered are exactly the open-sequence
      inputs whose start lies among the first n ranks of that suit and whose
      three tiles are free, in index order. */
  lemma ChiisInSuitSpec(c: Counts, offset: nat, n: nat)
    requires offset <= TILES_PER_SUHAI * 2 && n <= MAX_SHUNTSU_START
    ensures forall m :: m in ChiisInSuit(c, offset, n) <==>
      m.mentsuType == Shuntsu && !m.isAddedKan &&
      offset <= TileToIndex(m.representativeTile) < offset + n &&
      (var i := TileToIndex(m.representativeTile); c[i] > 0 && c[i + 1] > 0 && c[i + 2] > 0)
    ensures MeldsIncreasing(ChiisInSuit(c, offset, n))
  {
    ChiisInSuitMembers(c, offset, n);
    ChiisInSuitIncreasing(c, offset, n);
  }

  lemma {:induction false} ChiisInSuitMembers(c: Counts, offset: nat, n: nat)
    requires offset <= TILES_PER_SUHAI * 2 && n <= MAX_SHUNTSU_START
    ensures forall m :: m in ChiisInSuit(c, offset, n) <==>
      m.mentsuType == Shuntsu && !m.isAddedKan &&
      offset <= TileToIndex(m.representativeTile) < offset + n &&
      (var i := TileToIndex(m.representativeTile); c[i] > 0 && c[i + 1] > 0 && c[i + 2] > 0)
  {
    if n > 0 {
      ChiisInSuitMembers(c, offset, n - 1);
      var idx := offset + n - 1;
      var tail := if c[idx] > 0 && c[idx + 1] > 0 && c[idx + 2] > 0
        then [OpenMeldInput(Shuntsu, IndexToTile(idx), false)] else [];
      assert ChiisInSuit(c, offset, n) == ChiisInSuit(c, offset, n - 1) + tail;
      forall m: OpenMeldInput
        ensures m in ChiisInSuit(c, offset, n) <==>
          m.mentsuType == Shuntsu && !m.isAddedKan &&
          offset <= TileToIndex(m.representativeTile) < offset + n &&
          (var i := TileToIndex(m.representativeTile); c[i] > 0 && c[i + 1] > 0 && c[i + 2] > 0)
      {
        IndexToTileOfIndex(m.representativeTile);
        assert m in tail <==> m == OpenMeldInput(Shuntsu, IndexToTile(idx), false) && c[idx] > 0 && c[idx + 1] > 0 && c[idx + 2] > 0;
      }
    }
  }

  lemma {:induction false} ChiisInSuitBelow(c: Counts, offset: nat, n: nat)
    requires offset <= TILES_PER_SUHAI * 2 && n <= MAX_SHUNTSU_START
    ensures forall m :: m in ChiisInSuit(c, offset, n) ==> TileToIndex(m.representativeTile) < offset + n
  {
    if n > 0 {
      ChiisInSuitBelow(c, offset, n - 1);
    }
  }

  lemma {:induction false} ChiisInSuitIncreasing(c: Counts, offset: nat, n: nat)
    requires offset <= TILES_PER_SUHAI * 2 && n <= MAX_SHUNTSU_START
    ensures MeldsIncreasing(ChiisInSuit(c, offset, n))
  {
    if n > 0 {
      ChiisInSuitBelow(c, offset, n - 1);
      ChiisInSuitIncreasing(c, offset, n - 1);
      var idx := offset + n - 1;
      var tail := if c[idx] > 0 && c[idx + 1] > 0 && c[idx + 2] > 0
        then [OpenMeldInput(Shuntsu, IndexToTile(idx), false)] else [];
      var cs, prev := ChiisInSuit(c, offset, n), ChiisInSuit(c, offset, n - 1);
      assert cs == prev + tail;
      forall i, j | 0 <= i < j < |cs|
        ensures TileToIndex(cs[i].representativeTile) < TileToIndex(cs[j].representativeTile)
      {
        assert cs[i] == prev[i] by {
          assert i < |prev|;
        }
        if j < |prev| {
          assert cs[j] == prev[j];
        } else {
          assert prev[i] in prev;
          assert TileToIndex(prev[i].representativeTile) < idx;
          assert cs[j] == tail[0];
        }
      }
    }
  }

  /** Across the first s suits the sequences offered start on an index of
      one of those suits whose remainder on 9 is below 7, with all three
      tiles free, in index order. */
  lemma {:induction false} ChiisUpToSpec(c: Counts, s: nat)
    requires s <= |SUIT_OFFSETS|
    ensures forall m :: m in ChiisUpTo(c, s) <==>
      m.mentsuType == Shuntsu && !m.isAddedKan && TileToIndex(m.representativeTile) < TILES_PER_SUHAI * s &&
      TileToIndex(m.representativeTile) % TILES_PER_SUHAI < MAX_SHUNTSU_START &&
      (var i := TileToIndex(m.representativeTile); c[i] > 0 && c[i + 1] > 0 && c[i + 2] > 0)
    ensures MeldsIncreasing(ChiisUpTo(c, s))
  {
    if s > 0 {
      ChiisUpToSpec(c, s - 1);
      var offset := SUIT_OFFSETS[s - 1];
      assert offset == TILES_PER_SUHAI * (s - 1);
      ChiisInSuitSpec(c, offset, MAX_SHUNTSU_START);
      var cs, prev, block := ChiisUpTo(c, s), ChiisUpTo(c, s - 1), ChiisInSuit(c, offset, MAX_SHUNTSU_START);
      forall m: OpenMeldInput
        ensures m in cs <==>
          m.mentsuType == Shuntsu && !m.isAddedKan && TileToIndex(m.representativeTile) < TILES_PER_SUHAI * s &&
          TileToIndex(m.representativeTile) % TILES_PER_SUHAI < MAX_SHUNTSU_START &&
          (var i := TileToIndex(m.representativeTile); c[i] > 0 && c[i + 1] > 0 && c[i + 2] > 0)
      {
        var i := TileToIndex(m.representativeTile);
        BlockIndex(i, s - 1);
      }
      forall i, j | 0 <= i < j < |cs|
        ensures TileToIndex(cs[i].representativeTile) < TileToIndex(cs[j].representativeTile)
      {
        if j < |prev| {
          assert cs[i] == prev[i] && cs[j] == prev[j];
        } else if i < |prev| {
          assert cs[i] == prev[i] && prev[i] in prev;
          assert cs[j] == block[j - |prev|] && block[j - |prev|] in block;
        } else {
          assert cs[i] == block[i - |prev|] && cs[j] == block[j - |prev|];
        }
      }
    }
  }

  /** An index below the next block is in the earlier blocks or in the
      block at 9b, by quotient and remainder on 9. */
  lemma BlockIndex(i: nat, b: nat)
    requires b < 3
    ensures i < TILES_PER_SUHAI * (b + 1) && i % TILES_PER_SUHAI < MAX_SHUNTSU_START <==>
      (i < TILES_PER_SUHAI * b && i % TILES_PER_SUHAI < MAX_SHUNTSU_START) ||
      (TILES_PER_SUHAI * b <= i < TILES_PER_SUHAI * b + MAX_SHUNTSU_START)
  {
  }

  /** A suited index's remainder on 9 is its rank less one, so the
      sequences offered start on a suited tile of rank 7 or lower. */
  lemma ChiisSpec(c: Counts)
    ensures forall m :: m in ChiisUpTo(c, |SUIT_OFFSETS|) <==>
      m.mentsuType == Shuntsu && !m.isAddedKan &&
      m.representativeTile.Suhai? && m.representativeTile.number <= 7 &&
      (var i := TileToIndex(m.representativeTile); c[i] > 0 && c[i + 1] > 0 && c[i + 2] > 0)
  {
    ChiisUpToSpec(c, |SUIT_OFFSETS|);
    forall m: OpenMeldInput
      ensures m in ChiisUpTo(c, |SUIT_OFFSETS|) <==>
        m.mentsuType == Shuntsu && !m.isAddedKan &&
        m.representativeTile.Suhai? && m.representativeTile.number <= 7 &&
        (var i := TileToIndex(m.representativeTile); c[i] > 0 && c[i + 1] > 0 && c[i + 2] > 0)
    {
      if m.representativeTile.Suhai? {
        SuhaiIndex(m.representativeTile);
      }
    }
  }

  /** What the interface offers matches what it accepts: a triplet or a
      sequence is offered exactly when it can be formed (sequences only from
      suited tiles of rank 7 or lower), each once. */
  lemma OffersAreFormable(handTiles: seq<Hai>, openMelds: seq<OpenMeldInput>, closedKans: seq<Hai>,
                          meld: OpenMeldInput)
    ensures var c := ActiveCounts(handTiles, openMelds, closedKans);
      meld in PonsUpTo(c, TILE_COUNT) <==>
        meld.mentsuType == Koutsu && !meld.isAddedKan && MeldAvailable(handTiles, openMelds, closedKans, meld)
    ensures var c, t := ActiveCounts(handTiles, openMelds, closedKans), meld.representativeTile;
      meld in ChiisUpTo(c, |SUIT_OFFSETS|) <==>
        meld.mentsuType == Shuntsu && !meld.isAddedKan && t.Suhai? && t.number <= 7 &&
        MeldAvailable(handTiles, openMelds, closedKans, meld)
  {
    var c := ActiveCounts(handTiles, openMelds, closedKans);
    PonsUpToSpec(c, TILE_COUNT);
    ChiisSpec(c);
    MeldAvailableIff(handTiles, openMelds, closedKans, meld);
  }
}
