/** The interface's scoring step (calculate_score_result and
    get_max_akadora_count, src/gui/state/calculation.rs): the hand handed to
    the engine is rebuilt from the free counts in index order, and a failed
    calculation is retried with each open meld that holds the winning tile
    taken back into the hand. */
module GuiCalculation {
  import opened Wrappers
  import opened Tiles
  import opened HandTypes
  import opened GameTypes
  import opened InputTypes
  import opened ScoringTypes
  import opened HandOrganizer
  import opened GuiMeldTiles
  import opened GuiCounts
  import opened GuiTypes
  import opened YakuCheck
  import opened AgariPipeline

  // ---------------------------------------------------------------------
  // The hand rebuilt from counts
  // ---------------------------------------------------------------------

  /** On Ron the winning tile is not part of the concealed hand: one copy
      leaves the counts, if there is one. */
  function RonAdjusted(c: Counts, winningTile: Hai, agariType: AgariType): Counts
  {
    if agariType == Ron then Decrement(c, winningTile) else c
  }

  function Copies(t: Hai, n: nat): seq<Hai>
  {
    seq(n, _ => t)
  }

  /** The tiles of the first n kinds, each repeated as often as counted. */
  function ExpandUpTo(c: Counts, n: nat): seq<Hai>
    requires n <= TILE_COUNT
  {
    if n == 0 then [] else ExpandUpTo(c, n - 1) + Copies(IndexToTile(n - 1), c[n - 1])
  }

  function Expand(c: Counts): seq<Hai>
  {
    ExpandUpTo(c, |c|)
  }

  method ExpandCounts(counts: Counts) returns (handTiles: seq<Hai>)
    ensures handTiles == Expand(counts)
  {
    handTiles := [];
    for i := 0 to TILE_COUNT
      invariant handTiles == ExpandUpTo(counts, i)
    {
      var count := counts[i];
      var tile := IndexToTile(i);
      ghost var before := handTiles;
      for j := 0 to count
        invariant handTiles == before + Copies(tile, j)
      {
        assert Copies(tile, j + 1) == Copies(tile, j) + [tile];
        handTiles := handTiles + [tile];
      }
    }
  }

  /** The concealed hand calculate_score_result gives the engine. */
  function ScoringHand(handTiles: seq<Hai>, openMelds: seq<OpenMeldInput>, closedKans: seq<Hai>,
                       winningTile: Hai, agariType: AgariType): seq<Hai>
  {
    Expand(RonAdjusted(ActiveCounts(handTiles, openMelds, closedKans), winningTile, agariType))
  }

  /** Tiles ordered by their index, as the interface keeps its hand. */
  predicate IndexSorted(ts: seq<Hai>)
  {
    forall i, j :: 0 <= i < j < |ts| ==> TileToIndex(ts[i]) <= TileToIndex(ts[j])
  }

  lemma {:induction false} CopiesCount(t: Hai, n: nat, u: Hai)
    ensures multiset(Copies(t, n))[u] == if u == t then n else 0
  {
    if n > 0 {
      assert Copies(t, n) == Copies(t, n - 1) + [t];
      CopiesCount(t, n - 1, u);
    }
  }

  lemma CopiesBag(t: Hai, k: nat)
    ensures multiset(Copies(t, k)) == multiset{}[t := k]
  {
    forall u
      ensures multiset(Copies(t, k))[u] == multiset{}[t := k][u]
    {
      CopiesCount(t, k, u);
    }
  }

  lemma TileAtIndex(u: Hai, i: nat)
    requires i < TILE_COUNT
    ensures u == IndexToTile(i) <==> TileToIndex(u) == i
  {
    IndexToTileOfIndex(u);
  }

  /** The tiles of the first n kinds as a bag. */
  ghost function ExpandBag(c: Counts, n: nat): multiset<Hai>
    requires n <= TILE_COUNT
  {
    if n == 0 then multiset{} else ExpandBag(c, n - 1) + multiset{}[IndexToTile(n - 1) := c[n - 1]]
  }

  lemma {:induction false} ExpandUpToBag(c: Counts, n: nat)
    requires n <= TILE_COUNT
    ensures multiset(ExpandUpTo(c, n)) == ExpandBag(c, n)
  {
    if n > 0 {
      var a, b := ExpandUpTo(c, n - 1), Copies(IndexToTile(n - 1), c[n - 1]);
      ExpandUpToBag(c, n - 1);
      CopiesBag(IndexToTile(n - 1), c[n - 1]);
      calc {
        multiset(ExpandUpTo(c, n));
        multiset(a + b);
        multiset(a) + multiset(b);
        ExpandBag(c, n);
      }
    }
  }

  lemma {:induction false} ExpandBagCount(c: Counts, n: nat, u: Hai)
    requires n <= TILE_COUNT
    ensures ExpandBag(c, n)[u] == if TileToIndex(u) < n then c[TileToIndex(u)] else 0
  {
    if n > 0 {
      ExpandBagCount(c, n - 1, u);
      TileAtIndex(u, n - 1);
    }
  }

  lemma ExpandUpToCount(c: Counts, n: nat, u: Hai)
    requires n <= TILE_COUNT
    ensures multiset(ExpandUpTo(c, n))[u] == if TileToIndex(u) < n then c[TileToIndex(u)] else 0
  {
    ExpandUpToBag(c, n);
    ExpandBagCount(c, n, u);
  }

  lemma {:induction false} ExpandUpToSorted(c: Counts, n: nat)
    requires n <= TILE_COUNT
    ensures IndexSorted(ExpandUpTo(c, n))
    ensures forall i :: 0 <= i < |ExpandUpTo(c, n)| ==> TileToIndex(ExpandUpTo(c, n)[i]) < n
  {
    if n > 0 {
      ExpandUpToSorted(c, n - 1);
      var a, b := ExpandUpTo(c, n - 1), Copies(IndexToTile(n - 1), c[n - 1]);
      assert ExpandUpTo(c, n) == a + b;
      forall i | 0 <= i < |b|
        ensures TileToIndex(b[i]) == n - 1
      {
      }
    }
  }

  /** The rebuilt hand holds each tile exactly as often as counted, so
      counting it gives the counts back; and it is in index order. */
  lemma ExpandInverse(c: Counts)
    ensures forall u :: multiset(Expand(c))[u] == c[TileToIndex(u)]
    ensures CountTiles(Expand(c)) == c
    ensures IndexSorted(Expand(c))
  {
    forall u
      ensures multiset(Expand(c))[u] == c[TileToIndex(u)]
    {
      ExpandUpToCount(c, TILE_COUNT, u);
    }
    forall k | 0 <= k < TILE_COUNT
      ensures CountTiles(Expand(c))[k] == c[k]
    {
      CountTilesMultiplicity(Expand(c), k);
      ExpandUpToCount(c, TILE_COUNT, IndexToTile(k));
    }
    ExpandUpToSorted(c, TILE_COUNT);
  }

  /** The hand given to the engine counts exactly the free tiles less, on
      Ron, the winning tile, and is in index order. */
  lemma ScoringHandSpec(handTiles: seq<Hai>, openMelds: seq<OpenMeldInput>, closedKans: seq<Hai>,
                        winningTile: Hai, agariType: AgariType)
    ensures CountTiles(ScoringHand(handTiles, openMelds, closedKans, winningTile, agariType)) ==
      RonAdjusted(ActiveCounts(handTiles, openMelds, closedKans), winningTile, agariType)
    ensures IndexSorted(ScoringHand(handTiles, openMelds, closedKans, winningTile, agariType))
  {
    ExpandInverse(RonAdjusted(ActiveCounts(handTiles, openMelds, closedKans), winningTile, agariType));
  }

  lemma RonAdjustedAt(c: Counts, winningTile: Hai, agariType: AgariType, k: nat)
    requires k < TILE_COUNT
    ensures RonAdjusted(c, winningTile, agariType)[k] == Monus(c[k], RonLoss(winningTile, agariType, k))
  {
  }

  /** The one copy of kind k a Ron win takes out of the concealed hand. */
  function RonLoss(winningTile: Hai, agariType: AgariType, k: nat): nat
  {
    if agariType == Ron && TileToIndex(winningTile) == k then 1 else 0
  }

  // ---------------------------------------------------------------------
  // The hand built by the CalculateScore message (src/gui/update.rs)
  // ---------------------------------------------------------------------

  /** The first occurrence of t taken out; the tiles unchanged if there is
      none. */
  function RemoveFirst(ts: seq<Hai>, t: Hai): seq<Hai>
  {
    if ts == [] then []
    else if ts[0] == t then ts[1..]
    else [ts[0]] + RemoveFirst(ts[1..], t)
  }

  /** The first occurrence of each of xs taken out in turn. */
  function RemoveEach(ts: seq<Hai>, xs: seq<Hai>): seq<Hai>
  {
    if xs == [] then ts else RemoveFirst(RemoveEach(ts, xs[..|xs| - 1]), xs[|xs| - 1])
  }

  /** Four copies of each closed quad's tile, quad by quad. */
  function KanTiles(closedKans: seq<Hai>): seq<Hai>
  {
    if closedKans == [] then []
    else KanTiles(closedKans[..|closedKans| - 1]) + Copies(closedKans[|closedKans| - 1], 4)
  }

  /** The concealed hand of the CalculateScore message: the composed hand
      less each open meld's tiles, four copies per closed quad and, on
      Ron, the winning tile, each removal taking a first occurrence. */
  function ArmHand(handTiles: seq<Hai>, openMelds: seq<OpenMeldInput>, closedKans: seq<Hai>,
                   winningTile: Hai, agariType: AgariType): seq<Hai>
  {
    RemoveDeclared(handTiles, AllMeldTiles(openMelds), closedKans, winningTile, agariType)
  }

  function RemoveDeclared(handTiles: seq<Hai>, meldTiles: seq<Hai>, closedKans: seq<Hai>,
                          winningTile: Hai, agariType: AgariType): seq<Hai>
  {
    var h := RemoveEach(RemoveEach(handTiles, meldTiles), KanTiles(closedKans));
    if agariType == Ron then RemoveFirst(h, winningTile) else h
  }

  /** Taking out the first t takes one copy of t out of the multiset, and
      one tile out of the hand when t is in it; an absent t changes
      nothing. */
  lemma RemoveFirstSpec(ts: seq<Hai>, t: Hai)
    ensures multiset(RemoveFirst(ts, t)) == multiset(ts) - multiset{t}
    ensures t !in ts ==> RemoveFirst(ts, t) == ts
    ensures t in ts ==> |RemoveFirst(ts, t)| == |ts| - 1
  {
    RemoveFirstMultiset(ts, t);
    if t !in ts {
      RemoveFirstAbsent(ts, t);
    }
  }

  lemma {:induction false} RemoveFirstMultiset(ts: seq<Hai>, t: Hai)
    ensures multiset(RemoveFirst(ts, t)) == multiset(ts) - multiset{t}
    decreases |ts|
  {
    if ts != [] {
      assert ts == [ts[0]] + ts[1..];
      RemoveFirstMultiset(ts[1..], t);
    }
  }

  lemma {:induction false} RemoveFirstAbsent(ts: seq<Hai>, t: Hai)
    requires t !in ts
    ensures RemoveFirst(ts, t) == ts
    decreases |ts|
  {
    if ts != [] {
      assert ts == [ts[0]] + ts[1..];
      RemoveFirstAbsent(ts[1..], t);
    }
  }

  lemma {:induction false} RemoveEachSpec(ts: seq<Hai>, xs: seq<Hai>)
    ensures multiset(RemoveEach(ts, xs)) == multiset(ts) - multiset(xs)
    decreases |xs|
  {
    if xs != [] {
      var init, last := xs[..|xs| - 1], xs[|xs| - 1];
      assert xs == init + [last];
      RemoveEachSpec(ts, init);
      RemoveFirstSpec(RemoveEach(ts, init), last);
      assert multiset(xs) == multiset(init) + multiset{last};
    }
  }

  lemma {:induction false} KanTilesCount(closedKans: seq<Hai>, u: Hai)
    ensures multiset(KanTiles(closedKans))[u] == 4 * multiset(closedKans)[u]
    decreases |closedKans|
  {
    if closedKans != [] {
      var init, last := closedKans[..|closedKans| - 1], closedKans[|closedKans| - 1];
      assert closedKans == init + [last];
      KanTilesCount(init, u);
      CopiesCount(last, 4, u);
    }
  }

  lemma RemoveDeclaredCount(handTiles: seq<Hai>, meldTiles: seq<Hai>, closedKans: seq<Hai>,
                            winningTile: Hai, agariType: AgariType, k: nat)
    requires k < TILE_COUNT
    ensures CountTiles(RemoveDeclared(handTiles, meldTiles, closedKans, winningTile, agariType))[k] ==
      Monus(Monus(CountTiles(handTiles)[k], CountTiles(meldTiles)[k] + 4 * CountTiles(closedKans)[k]),
            RonLoss(winningTile, agariType, k))
  {
    var u := IndexToTile(k);
    RemoveDeclaredMultiplicity(handTiles, meldTiles, closedKans, winningTile, agariType, u);
    CountTilesMultiplicity(handTiles, k);
    CountTilesMultiplicity(meldTiles, k);
    CountTilesMultiplicity(closedKans, k);
    CountTilesMultiplicity(RemoveDeclared(handTiles, meldTiles, closedKans, winningTile, agariType), k);
    if agariType == Ron && TileToIndex(winningTile) == k {
      IndexToTileOfIndex(winningTile);
    }
  }

  /** The same count, as multiplicities of one tile. */
  lemma RemoveDeclaredMultiplicity(handTiles: seq<Hai>, meldTiles: seq<Hai>, closedKans: seq<Hai>,
                                   winningTile: Hai, agariType: AgariType, u: Hai)
    ensures multiset(RemoveDeclared(handTiles, meldTiles, closedKans, winningTile, agariType))[u] ==
      Monus(Monus(multiset(handTiles)[u], multiset(meldTiles)[u] + 4 * multiset(closedKans)[u]),
            if agariType == Ron && winningTile == u then 1 else 0)
  {
    var h0 := RemoveEach(handTiles, meldTiles);
    var h := RemoveEach(h0, KanTiles(closedKans));
    RemoveEachCount(handTiles, meldTiles, u);
    RemoveEachCount(h0, KanTiles(closedKans), u);
    KanTilesCount(closedKans, u);
    MonusMonus(multiset(handTiles)[u], multiset(meldTiles)[u], 4 * multiset(closedKans)[u]);
    if agariType == Ron {
      RemoveFirstCount(h, winningTile, u);
    }
  }

  lemma RemoveEachCount(ts: seq<Hai>, xs: seq<Hai>, u: Hai)
    ensures multiset(RemoveEach(ts, xs))[u] == Monus(multiset(ts)[u], multiset(xs)[u])
  {
    RemoveEachSpec(ts, xs);
  }

  lemma RemoveFirstCount(ts: seq<Hai>, t: Hai, u: Hai)
    ensures multiset(RemoveFirst(ts, t))[u] == Monus(multiset(ts)[u], if u == t then 1 else 0)
  {
    RemoveFirstSpec(ts, t);
  }

  /** Equal counts mean equal multisets of tiles. */
  lemma SameCounts(a: seq<Hai>, b: seq<Hai>)
    requires CountTiles(a) == CountTiles(b)
    ensures multiset(a) == multiset(b)
  {
    forall u
      ensures multiset(a)[u] == multiset(b)[u]
    {
      CountAt(a, u);
      CountAt(b, u);
    }
  }

  lemma CountAt(ts: seq<Hai>, u: Hai)
    ensures CountTiles(ts)[TileToIndex(u)] == multiset(ts)[u]
  {
    IndexToTileOfIndex(u);
    CountTilesMultiplicity(ts, TileToIndex(u));
  }

  /** The CalculateScore message and calculate_score_result hand the engine
      the same tiles, in whatever order. */
  lemma ArmHandAgrees(handTiles: seq<Hai>, openMelds: seq<OpenMeldInput>, closedKans: seq<Hai>,
                      winningTile: Hai, agariType: AgariType)
    ensures multiset(ArmHand(handTiles, openMelds, closedKans, winningTile, agariType)) ==
      multiset(ScoringHand(handTiles, openMelds, closedKans, winningTile, agariType))
  {
    var arm := ArmHand(handTiles, openMelds, closedKans, winningTile, agariType);
    var scoring := ScoringHand(handTiles, openMelds, closedKans, winningTile, agariType);
    forall k | 0 <= k < TILE_COUNT
      ensures CountTiles(arm)[k] == CountTiles(scoring)[k]
    {
      ArmCountAt(handTiles, openMelds, closedKans, winningTile, agariType, k);
    }
    SameCounts(arm, scoring);
  }

  lemma ArmCountAt(handTiles: seq<Hai>, openMelds: seq<OpenMeldInput>, closedKans: seq<Hai>,
                   winningTile: Hai, agariType: AgariType, k: nat)
    requires k < TILE_COUNT
    ensures CountTiles(ArmHand(handTiles, openMelds, closedKans, winningTile, agariType))[k] ==
      CountTiles(ScoringHand(handTiles, openMelds, closedKans, winningTile, agariType))[k]
  {
    ArmCountIs(handTiles, openMelds, closedKans, winningTile, agariType, k);
    ScoringCountAt(handTiles, openMelds, closedKans, winningTile, agariType, k);
  }

  /** The interface's construction holds, in slot k, the active count less
      the Ron tile. */
  lemma {:induction false} ArmCountIs(handTiles: seq<Hai>, openMelds: seq<OpenMeldInput>, closedKans: seq<Hai>,
                                      winningTile: Hai, agariType: AgariType, k: nat)
    requires k < TILE_COUNT
    ensures CountTiles(ArmHand(handTiles, openMelds, closedKans, winningTile, agariType))[k] ==
      Monus(ActiveCounts(handTiles, openMelds, closedKans)[k], RonLoss(winningTile, agariType, k))
  {
    RemoveDeclaredActive(handTiles, AllMeldTiles(openMelds), closedKans, winningTile, agariType, k);
  }

  lemma {:induction false} RemoveDeclaredActive(handTiles: seq<Hai>, meldTiles: seq<Hai>, closedKans: seq<Hai>,
                                                winningTile: Hai, agariType: AgariType, k: nat)
    requires k < TILE_COUNT
    ensures CountTiles(RemoveDeclared(handTiles, meldTiles, closedKans, winningTile, agariType))[k] ==
      Monus(RemoveQuads(RemoveTiles(CountTiles(handTiles), meldTiles), closedKans)[k], RonLoss(winningTile, agariType, k))
  {
    RemoveDeclaredCount(handTiles, meldTiles, closedKans, winningTile, agariType, k);
    ComposedCount(CountTiles(handTiles), meldTiles, closedKans, k);
  }

  /** The count-vector construction holds the active count, less the Ron tile. */
  lemma ScoringCountAt(handTiles: seq<Hai>, openMelds: seq<OpenMeldInput>, closedKans: seq<Hai>,
                       winningTile: Hai, agariType: AgariType, k: nat)
    requires k < TILE_COUNT
    ensures CountTiles(ScoringHand(handTiles, openMelds, closedKans, winningTile, agariType))[k] ==
      Monus(ActiveCounts(handTiles, openMelds, closedKans)[k], RonLoss(winningTile, agariType, k))
  {
    var c := ActiveCounts(handTiles, openMelds, closedKans);
    ScoringHandSpec(handTiles, openMelds, closedKans, winningTile, agariType);
    RonAdjustedAt(c, winningTile, agariType, k);
  }

  /** The hand is kept in index order, so the two constructions give the
      engine not just the same tiles but the same sequence. */
  lemma ArmHandIsScoringHand(handTiles: seq<Hai>, openMelds: seq<OpenMeldInput>, closedKans: seq<Hai>,
                             winningTile: Hai, agariType: AgariType)
    requires IndexSorted(handTiles)
    ensures ArmHand(handTiles, openMelds, closedKans, winningTile, agariType) ==
      ScoringHand(handTiles, openMelds, closedKans, winningTile, agariType)
  {
    var h0 := RemoveEach(handTiles, AllMeldTiles(openMelds));
    var h := RemoveEach(h0, KanTiles(closedKans));
    RemoveEachSorted(handTiles, AllMeldTiles(openMelds));
    RemoveEachSorted(h0, KanTiles(closedKans));
    RemoveFirstSorted(h, winningTile);
    ArmHandAgrees(handTiles, openMelds, closedKans, winningTile, agariType);
    ScoringHandSpec(handTiles, openMelds, closedKans, winningTile, agariType);
    SortedUnique(ArmHand(handTiles, openMelds, closedKans, winningTile, agariType),
                 ScoringHand(handTiles, openMelds, closedKans, winningTile, agariType));
  }

  lemma {:induction false} RemoveFirstSorted(ts: seq<Hai>, t: Hai)
    requires IndexSorted(ts)
    ensures IndexSorted(RemoveFirst(ts, t))
    decreases |ts|
  {
    if ts != [] && ts[0] != t {
      var rest := RemoveFirst(ts[1..], t);
      RemoveFirstSorted(ts[1..], t);
      RemoveFirstWithin(ts[1..], t);
      assert forall x :: x in rest ==> TileToIndex(ts[0]) <= TileToIndex(x);
      assert RemoveFirst(ts, t) == [ts[0]] + rest;
    }
  }

  lemma {:induction false} RemoveFirstWithin(ts: seq<Hai>, t: Hai)
    ensures forall x :: x in RemoveFirst(ts, t) ==> x in ts
    decreases |ts|
  {
    if ts != [] && ts[0] != t {
      RemoveFirstWithin(ts[1..], t);
    }
  }

  lemma {:induction false} RemoveEachSorted(ts: seq<Hai>, xs: seq<Hai>)
    requires IndexSorted(ts)
    ensures IndexSorted(RemoveEach(ts, xs))
    decreases |xs|
  {
    if xs != [] {
      RemoveEachSorted(ts, xs[..|xs| - 1]);
      RemoveFirstSorted(RemoveEach(ts, xs[..|xs| - 1]), xs[|xs| - 1]);
    }
  }

  /** Index order leaves one arrangement of a multiset of tiles. */
  lemma {:induction false} SortedUnique(a: seq<Hai>, b: seq<Hai>)
    requires IndexSorted(a) && IndexSorted(b) && multiset(a) == multiset(b)
    ensures a == b
    decreases |a|
  {
    assert |a| == |multiset(a)| == |multiset(b)| == |b|;
    if a != [] {
      var x, y := a[0], b[0];
      assert x in multiset(b) && y in multiset(a);
      SortedHeadIsLeast(b, x);
      SortedHeadIsLeast(a, y);
      TileToIndexInjective(x, y);
      SameHeadTails(a, b);
      SortedTail(a);
      SortedTail(b);
      SortedUnique(a[1..], b[1..]);
      assert a == [x] + a[1..] && b == [x] + b[1..];
    }
  }

  /** Taking the same first element off two sequences with one bag of
      elements leaves tails with one bag. */
  lemma SameHeadTails(a: seq<Hai>, b: seq<Hai>)
    requires a != [] && b != [] && a[0] == b[0] && multiset(a) == multiset(b)
    ensures multiset(a[1..]) == multiset(b[1..])
  {
    assert a == [a[0]] + a[1..] && b == [b[0]] + b[1..];
    assert multiset(a) == multiset{a[0]} + multiset(a[1..]);
    assert multiset(b) == multiset{b[0]} + multiset(b[1..]);
    assert multiset(a[1..]) == multiset(a) - multiset{a[0]};
    assert multiset(b[1..]) == multiset(b) - multiset{b[0]};
  }

  lemma SortedHeadIsLeast(s: seq<Hai>, x: Hai)
    requires IndexSorted(s) && x in s
    ensures TileToIndex(s[0]) <= TileToIndex(x)
  {
    var j :| 0 <= j < |s| && s[j] == x;
    if j > 0 {
      assert TileToIndex(s[0]) <= TileToIndex(s[j]);
    }
  }

  lemma SortedTail(s: seq<Hai>)
    requires IndexSorted(s) && s != []
    ensures IndexSorted(s[1..])
  {
    forall i, j | 0 <= i < j < |s[1..]|
      ensures TileToIndex(s[1..][i]) <= TileToIndex(s[1..][j])
    {
      assert s[1..][i] == s[i + 1] && s[1..][j] == s[j + 1];
    }
  }

  // ---------------------------------------------------------------------
  // Retrying with a meld taken back
  // ---------------------------------------------------------------------

  /** The input tried when the first calculation fails: the i-th open
      meld's tiles join the hand, a first copy of the winning tile leaves
      it, and the meld is no longer declared. Everything else is kept,
      including the closed-hand flag computed for the original melds. */
  function AltInput(input: UserInput, i: nat): UserInput
    requires i < |input.openMelds|
  {
    input.(handTiles := RemoveFirst(input.handTiles + MeldTiles(input.openMelds[i]), input.winningTile),
           openMelds := input.openMelds[..i] + input.openMelds[i + 1..])
  }

  /** Taking the i-th meld back is tried, because it holds the winning
      tile, and succeeds. */
  ghost predicate Recovers(input: UserInput, i: nat)
    requires i < |input.openMelds| && |input.closedKans| + |input.openMelds| <= 4
  {
    input.winningTile in MeldTiles(input.openMelds[i]) && Agari(AltInput(input, i)).Ok?
  }

  /** Which melds recover, in declaration order. */
  ghost function Recoveries(input: UserInput): (ok: seq<bool>)
    requires |input.closedKans| + |input.openMelds| <= 4
    ensures |ok| == |input.openMelds|
    ensures forall i :: 0 <= i < |ok| ==> ok[i] == Recovers(input, i)
  {
    seq(|input.openMelds|, i requires 0 <= i < |input.openMelds| => Recovers(input, i))
  }

  /** What each meld's retraction gives. */
  ghost function Retries(input: UserInput): (rs: seq<Result<AgariResult>>)
    requires |input.closedKans| + |input.openMelds| <= 4
    ensures |rs| == |input.openMelds|
    ensures forall i :: 0 <= i < |rs| ==> rs[i] == Agari(AltInput(input, i))
  {
    seq(|input.openMelds|, i requires 0 <= i < |input.openMelds| => Agari(AltInput(input, i)))
  }

  /** Attempts from the i-th on, in order: the first that succeeds is
      kept, and the fallback stands if none does. */
  function FirstRecovered<R>(ok: seq<bool>, rs: seq<R>, i: nat, fallback: R): R
    requires |ok| == |rs| && i <= |ok|
    decreases |ok| - i
  {
    if i == |ok| then fallback
    else if ok[i] then rs[i]
    else FirstRecovered(ok, rs, i + 1, fallback)
  }

  /** The melds from the i-th on tried in order; the first success is
      kept, and the fallback stands if none succeeds. */
  ghost function RetryFrom(input: UserInput, i: nat, fallback: Result<AgariResult>): Result<AgariResult>
    requires i <= |input.openMelds| && |input.closedKans| + |input.openMelds| <= 4
  {
    FirstRecovered(Recoveries(input), Retries(input), i, fallback)
  }

  /** The result calculate_score_result keeps. */
  ghost function BestAgari(input: UserInput): Result<AgariResult>
    requires |input.closedKans| + |input.openMelds| <= 4
  {
    var first := Agari(input);
    if first.Ok? then first else RetryFrom(input, 0, first)
  }

  method BestAgariResult(input: UserInput) returns (best: Result<AgariResult>)
    requires |input.closedKans| + |input.openMelds| <= 4
    ensures best == BestAgari(input)
  {
    best := CalculateAgari(input);
    if best.Err? {
      ghost var first := best;
      ghost var ok, rs := Recoveries(input), Retries(input);
      var baseOpenMelds := input.openMelds;
      for i := 0 to |baseOpenMelds|
        invariant best == first
        invariant FirstRecovered(ok, rs, 0, first) == FirstRecovered(ok, rs, i, first)
      {
        var meldTiles := GetMeldTiles(baseOpenMelds[i]);
        if input.winningTile in meldTiles {
          var altHandTiles := RemoveFirst(input.handTiles + meldTiles, input.winningTile);
          var altOpenMelds := baseOpenMelds[..i] + baseOpenMelds[i + 1..];
          var altInput := input.(handTiles := altHandTiles, openMelds := altOpenMelds);
          assert altInput == AltInput(input, i);
          var res := CalculateAgari(altInput);
          if res.Ok? {
            return res;
          }
        }
      }
    }
  }

  lemma RetryFromSpec(input: UserInput, i: nat, fallback: Result<AgariResult>)
    requires i <= |input.openMelds| && |input.closedKans| + |input.openMelds| <= 4
    ensures var r := RetryFrom(input, i, fallback);
      || (r == fallback && forall j :: i <= j < |input.openMelds| ==> !Recovers(input, j))
      || (exists j :: i <= j < |input.openMelds| && Recovers(input, j) && r == Agari(AltInput(input, j)) &&
            forall l :: i <= l < j ==> !Recovers(input, l))
  {
    FirstRecoveredSpec(Recoveries(input), Retries(input), i, fallback);
  }

  /** The attempts from `i` on keep the fallback when none succeeds, and
      otherwise the first success. */
  lemma FirstRecoveredSpec<R>(ok: seq<bool>, rs: seq<R>, i: nat, fallback: R)
    requires |ok| == |rs| && i <= |ok|
    ensures var r := FirstRecovered(ok, rs, i, fallback);
      || (r == fallback && forall j :: i <= j < |ok| ==> !ok[j])
      || (exists j :: i <= j < |ok| && ok[j] && r == rs[j] && forall l :: i <= l < j ==> !ok[l])
  {
    if forall j :: i <= j < |ok| ==> !ok[j] {
      FirstRecoveredNone(ok, rs, i, fallback);
    } else {
      var j := FirstTrue(ok, i);
      FirstRecoveredAt(ok, rs, i, j, fallback);
    }
  }

  /** With no success from `i` on, the fallback is kept. */
  lemma {:induction false} FirstRecoveredNone<R>(ok: seq<bool>, rs: seq<R>, i: nat, fallback: R)
    requires |ok| == |rs| && i <= |ok|
    requires forall j :: i <= j < |ok| ==> !ok[j]
    ensures FirstRecovered(ok, rs, i, fallback) == fallback
    decreases |ok| - i
  {
    if i < |ok| {
      FirstRecoveredNone(ok, rs, i + 1, fallback);
    }
  }

  /** The first success from `i` on. */
  lemma {:induction false} FirstTrue(ok: seq<bool>, i: nat) returns (j: nat)
    requires i <= |ok| && exists j :: i <= j < |ok| && ok[j]
    ensures i <= j < |ok| && ok[j]
    ensures forall l :: i <= l < j ==> !ok[l]
    decreases |ok| - i
  {
    if ok[i] {
      j := i;
    } else {
      j := FirstTrue(ok, i + 1);
    }
  }

  /** When the j-th attempt is the first from `i` on to succeed, it decides the result. */
  lemma {:induction false} FirstRecoveredAt<R>(ok: seq<bool>, rs: seq<R>, i: nat, j: nat, fallback: R)
    requires |ok| == |rs| && i <= j < |ok|
    requires ok[j] && forall l :: i <= l < j ==> !ok[l]
    ensures FirstRecovered(ok, rs, i, fallback) == rs[j]
    decreases j - i
  {
    if i < j {
      FirstRecoveredAt(ok, rs, i + 1, j, fallback);
    }
  }

  /** A first success is kept. Otherwise the melds holding the winning tile
      are taken back one at a time, in order, and the first success is the
      result; a failure is reported only when the first calculation and
      every retry fail, and then it is the first calculation's error. */
  lemma BestAgariSpec(input: UserInput)
    requires |input.closedKans| + |input.openMelds| <= 4
    ensures Agari(input).Ok? ==> BestAgari(input) == Agari(input)
    ensures BestAgari(input).Ok? <==>
      Agari(input).Ok? || exists i :: 0 <= i < |input.openMelds| && Recovers(input, i)
    ensures BestAgari(input).Err? ==> BestAgari(input) == Agari(input)
    ensures Agari(input).Err? && BestAgari(input).Ok? ==>
      exists i :: 0 <= i < |input.openMelds| && Recovers(input, i) &&
        BestAgari(input) == Agari(AltInput(input, i)) &&
        forall j :: 0 <= j < i ==> !Recovers(input, j)
  {
    if Agari(input).Err? {
      RetryFromSpec(input, 0, Agari(input));
    }
  }

  /** The retried hand keeps every tile: it holds the meld's tiles less the
      one winning tile, and the meld is dropped from the declarations. */
  lemma AltInputSpec(input: UserInput, i: nat)
    requires i < |input.openMelds| && input.winningTile in MeldTiles(input.openMelds[i])
    ensures multiset(AltInput(input, i).handTiles) + multiset{input.winningTile} ==
      multiset(input.handTiles) + multiset(MeldTiles(input.openMelds[i]))
    ensures |AltInput(input, i).handTiles| + 1 == |input.handTiles| + |MeldTiles(input.openMelds[i])|
    ensures multiset(AltInput(input, i).openMelds) + multiset{input.openMelds[i]} == multiset(input.openMelds)
  {
    var joined := input.handTiles + MeldTiles(input.openMelds[i]);
    RemoveFirstSpec(joined, input.winningTile);
    assert input.winningTile in multiset(joined);
    DropOne(input.openMelds, i);
  }

  lemma DropOne(ms: seq<OpenMeldInput>, i: nat)
    requires i < |ms|
    ensures multiset(ms[..i] + ms[i + 1..]) + multiset{ms[i]} == multiset(ms)
  {
    assert ms == ms[..i] + [ms[i]] + ms[i + 1..];
  }

  /** What a kept result can be: a failure only with one of the engine's
      three messages, a success only with at least one han. */
  lemma BestAgariOutcome(input: UserInput)
    requires |input.closedKans| + |input.openMelds| <= 4
    ensures BestAgari(input).Err? ==> BestAgari(input).error in {CHI_ERROR, NO_PAIR_ERROR, NO_YAKU_FOUND}
    ensures BestAgari(input).Ok? ==> BestAgari(input).value.han >= 1
  {
    BestAgariSpec(input);
    AgariSpec(input);
    if Agari(input).Err? && BestAgari(input).Ok? {
      var i :| 0 <= i < |input.openMelds| && Recovers(input, i) && BestAgari(input) == Agari(AltInput(input, i));
      AgariSpec(AltInput(input, i));
    }
  }

  // ---------------------------------------------------------------------
  // calculate_score_result
  // ---------------------------------------------------------------------

  /** The interface state after calculate_score_result: without a winning
      tile nothing changes; otherwise the hand is rebuilt from the free
      counts, the kept result is shown and the result phase begins. The
      source's engine panics on more than four declared melds, hence the
      precondition. */
  ghost function ScoredState(g: GuiData): GuiData
    requires g.winningTile.Some? ==> |g.closedKans| + |g.openMelds| <= 4
  {
    match g.winningTile
    case None => g
    case Some(w) =>
      var hand := ScoringHand(g.handTiles, g.openMelds, g.closedKans, w, g.settings.agariType);
      g.(scoreResult := Some(ShownResult(BestAgari(BuildInput(g, hand, w)))), phase := Result)
  }

  /** A shown failure is "Error: " and one of the engine's messages; a
      shown success scores at least one han. */
  lemma ScoredStateSpec(g: GuiData)
    requires g.winningTile.Some? ==> |g.closedKans| + |g.openMelds| <= 4
    ensures g.winningTile.None? ==> ScoredState(g) == g
    ensures g.winningTile.Some? ==>
      && ScoredState(g).phase == Result && ScoredState(g).scoreResult.Some?
      && (ScoredState(g).scoreResult.value.Err? ==>
            ScoredState(g).scoreResult.value.error in
              {"Error: " + CHI_ERROR, "Error: " + NO_PAIR_ERROR, "Error: " + NO_YAKU_FOUND})
      && (ScoredState(g).scoreResult.value.Ok? ==> ScoredState(g).scoreResult.value.value.han >= 1)
  {
    if g.winningTile.Some? {
      var w := g.winningTile.value;
      BestAgariOutcome(BuildInput(g, ScoringHand(g.handTiles, g.openMelds, g.closedKans, w, g.settings.agariType), w));
    }
  }

  // ---------------------------------------------------------------------
  // get_max_akadora_count
  // ---------------------------------------------------------------------

  /** The tiles whose fives are counted: the composed hand, the winning
      tile if chosen, the open melds' tiles and four per closed quad. */
  function FiveSources(handTiles: seq<Hai>, winningTile: Option<Hai>, openMelds: seq<OpenMeldInput>,
                       closedKans: seq<Hai>): seq<Hai>
  {
    handTiles + (if winningTile.Some? then [winningTile.value] else []) + AllMeldTiles(openMelds) + KanTiles(closedKans)
  }

  function Fives(ts: seq<Hai>, s: Suit): nat
  {
    multiset(ts)[Suhai(5, s)]
  }

  function Min(a: nat, b: nat): nat
  {
    if a <= b then a else b
  }

  /** The set holds one red five of characters, two of circles and one of
      bamboo, so no suit can claim more red fives than that or than it has
      fives. */
  function MaxAkadora(ts: seq<Hai>): (n: nat)
    ensures n == Min(Fives(ts, Manzu), 1) + Min(Fives(ts, Pinzu), 2) + Min(Fives(ts, Souzu), 1)
    ensures n <= 4 && n <= Fives(ts, Manzu) + Fives(ts, Pinzu) + Fives(ts, Souzu)
    ensures n == 4 <==> Fives(ts, Manzu) >= 1 && Fives(ts, Pinzu) >= 2 && Fives(ts, Souzu) >= 1
  {
    var m, p, s := Fives(ts, Manzu), Fives(ts, Pinzu), Fives(ts, Souzu);
    var maxM := if m > 0 then 1 else 0;
    var maxP := if p >= 2 then 2 else p;
    var maxS := if s > 0 then 1 else 0;
    maxM + maxP + maxS
  }

  method GetMaxAkadoraCount(handTiles: seq<Hai>, winningTile: Option<Hai>, openMelds: seq<OpenMeldInput>,
                            closedKans: seq<Hai>)
    returns (n: nat)
    ensures n == MaxAkadora(FiveSources(handTiles, winningTile, openMelds, closedKans))
  {
    var countM, countP, countS := CountFives(handTiles, winningTile, openMelds, closedKans);
    var maxM := if countM > 0 then 1 else 0;
    var maxP := if countP >= 2 then 2 else countP;
    var maxS := if countS > 0 then 1 else 0;
    n := maxM + maxP + maxS;
  }

  /** The counting part: the fives of each suit among all the sources. */
  method CountFives(handTiles: seq<Hai>, winningTile: Option<Hai>, openMelds: seq<OpenMeldInput>,
                    closedKans: seq<Hai>)
    returns (countM: nat, countP: nat, countS: nat)
    ensures countM == Fives(FiveSources(handTiles, winningTile, openMelds, closedKans), Manzu)
    ensures countP == Fives(FiveSources(handTiles, winningTile, openMelds, closedKans), Pinzu)
    ensures countS == Fives(FiveSources(handTiles, winningTile, openMelds, closedKans), Souzu)
  {
    ghost var w: seq<Hai> := if winningTile.Some? then [winningTile.value] else [];
    countM, countP, countS := CheckTiles(handTiles, 0, 0, 0);
    if winningTile.Some? {
      countM, countP, countS := CheckTile(winningTile.value, countM, countP, countS);
      FivesSingle(winningTile.value);
    }
    countM, countP, countS := CheckMelds(openMelds, countM, countP, countS);
    countM, countP, countS := CheckQuads(closedKans, countM, countP, countS);
    FivesConcat(handTiles, w, AllMeldTiles(openMelds), KanTiles(closedKans));
  }

  /** The fives of four joined lists are the fives of each. */
  lemma FivesConcat(a: seq<Hai>, b: seq<Hai>, c: seq<Hai>, d: seq<Hai>)
    ensures Fives(a + b + c + d, Manzu) == Fives(a, Manzu) + Fives(b, Manzu) + Fives(c, Manzu) + Fives(d, Manzu)
    ensures Fives(a + b + c + d, Pinzu) == Fives(a, Pinzu) + Fives(b, Pinzu) + Fives(c, Pinzu) + Fives(d, Pinzu)
    ensures Fives(a + b + c + d, Souzu) == Fives(a, Souzu) + Fives(b, Souzu) + Fives(c, Souzu) + Fives(d, Souzu)
  {
    assert multiset(a + b + c + d) == multiset(a) + multiset(b) + multiset(c) + multiset(d);
  }

  /** One tile is a five of its own suit or of none. */
  lemma FivesSingle(t: Hai)
    ensures Fives([t], Manzu) == if t == Suhai(5, Manzu) then 1 else 0
    ensures Fives([t], Pinzu) == if t == Suhai(5, Pinzu) then 1 else 0
    ensures Fives([t], Souzu) == if t == Suhai(5, Souzu) then 1 else 0
  {
  }

  /** The loop over the open melds' tiles. */
  method CheckMelds(openMelds: seq<OpenMeldInput>, countM: nat, countP: nat, countS: nat) returns (m: nat, p: nat, s: nat)
    ensures m == countM + Fives(AllMeldTiles(openMelds), Manzu)
    ensures p == countP + Fives(AllMeldTiles(openMelds), Pinzu)
    ensures s == countS + Fives(AllMeldTiles(openMelds), Souzu)
  {
    m, p, s := countM, countP, countS;
    for i := 0 to |openMelds|
      invariant m == countM + Fives(AllMeldTiles(openMelds[..i]), Manzu)
      invariant p == countP + Fives(AllMeldTiles(openMelds[..i]), Pinzu)
      invariant s == countS + Fives(AllMeldTiles(openMelds[..i]), Souzu)
    {
      assert openMelds[..i + 1][..i] == openMelds[..i];
      var tiles := GetMeldTiles(openMelds[i]);
      m, p, s := CheckTiles(tiles, m, p, s);
    }
    assert openMelds[..|openMelds|] == openMelds;
  }

  /** The loop over the closed quads. */
  method CheckQuads(closedKans: seq<Hai>, countM: nat, countP: nat, countS: nat) returns (m: nat, p: nat, s: nat)
    ensures m == countM + Fives(KanTiles(closedKans), Manzu)
    ensures p == countP + Fives(KanTiles(closedKans), Pinzu)
    ensures s == countS + Fives(KanTiles(closedKans), Souzu)
  {
    m, p, s := countM, countP, countS;
    for i := 0 to |closedKans|
      invariant m == countM + Fives(KanTiles(closedKans[..i]), Manzu)
      invariant p == countP + Fives(KanTiles(closedKans[..i]), Pinzu)
      invariant s == countS + Fives(KanTiles(closedKans[..i]), Souzu)
    {
      assert closedKans[..i + 1][..i] == closedKans[..i];
      m, p, s := CheckQuad(closedKans[i], m, p, s);
    }
    assert closedKans[..|closedKans|] == closedKans;
  }

  /** The loop over a list of tiles: each five adds one to its suit. */
  method CheckTiles(tiles: seq<Hai>, countM: nat, countP: nat, countS: nat) returns (m: nat, p: nat, s: nat)
    ensures m == countM + Fives(tiles, Manzu) && p == countP + Fives(tiles, Pinzu) && s == countS + Fives(tiles, Souzu)
  {
    m, p, s := countM, countP, countS;
    for i := 0 to |tiles|
      invariant m == countM + Fives(tiles[..i], Manzu)
      invariant p == countP + Fives(tiles[..i], Pinzu)
      invariant s == countS + Fives(tiles[..i], Souzu)
    {
      assert tiles[..i + 1] == tiles[..i] + [tiles[i]];
      m, p, s := CheckTile(tiles[i], m, p, s);
    }
    assert tiles[..|tiles|] == tiles;
  }

  /** The loop over one closed quad: its tile seen four times. */
  method CheckQuad(kan: Hai, countM: nat, countP: nat, countS: nat) returns (m: nat, p: nat, s: nat)
    ensures m == countM + Fives(Copies(kan, 4), Manzu)
    ensures p == countP + Fives(Copies(kan, 4), Pinzu)
    ensures s == countS + Fives(Copies(kan, 4), Souzu)
  {
    m, p, s := countM, countP, countS;
    for j := 0 to 4
      invariant m == countM + Fives(Copies(kan, j), Manzu)
      invariant p == countP + Fives(Copies(kan, j), Pinzu)
      invariant s == countS + Fives(Copies(kan, j), Souzu)
    {
      assert Copies(kan, j + 1) == Copies(kan, j) + [kan];
      m, p, s := CheckTile(kan, m, p, s);
    }
  }

  /** One tile seen: a five adds one to its suit's count. */
  method CheckTile(t: Hai, countM: nat, countP: nat, countS: nat) returns (m: nat, p: nat, s: nat)
    ensures m == countM + (if t == Suhai(5, Manzu) then 1 else 0)
    ensures p == countP + (if t == Suhai(5, Pinzu) then 1 else 0)
    ensures s == countS + (if t == Suhai(5, Souzu) then 1 else 0)
  {
    m, p, s := countM, countP, countS;
    if t.Suhai? && t.number == 5 {
      match t.suit {
        case Manzu => m := m + 1;
        case Pinzu => p := p + 1;
        case Souzu => s := s + 1;
      }
    }
  }

  /** Each suit's fives come from the hand, the winning tile, the open
      melds and four per closed quad of the five. */
  lemma FiveSourcesCount(handTiles: seq<Hai>, winningTile: Option<Hai>, openMelds: seq<OpenMeldInput>,
                         closedKans: seq<Hai>, s: Suit)
    ensures Fives(FiveSources(handTiles, winningTile, openMelds, closedKans), s) ==
      Fives(handTiles, s) + (if winningTile == Some(Suhai(5, s)) then 1 else 0) +
      Fives(AllMeldTiles(openMelds), s) + 4 * Fives(closedKans, s)
  {
    KanTilesCount(closedKans, Suhai(5, s));
  }
}
