/** Shared helpers of the yaku checkers (src/implements/yaku_checkers/utils.rs):
    the dora successor, tile and group lists of a hand, meld counters and the
    seven-pairs recognizer. */
module YakuUtils {
  import opened Tiles
  import opened HandTypes
  import opened GameTypes
  import opened Wrappers

  // ---------------------------------------------------------------------
  // Dora successor
  // ---------------------------------------------------------------------

  /** The tile an indicator points at: the next rank in the same suit (nine
      wraps to one), the next wind, the next dragon. */
  function DoraOf(indicator: Hai): (d: Hai)
    ensures indicator.Kazehai? <==> d.Kazehai?
    ensures indicator.Sangenhai? <==> d.Sangenhai?
    ensures indicator.Suhai? ==> d.Suhai? && d.suit == indicator.suit
  {
    match indicator
    case Suhai(n, s) => if n == 9 then Suhai(1, s) else Suhai(n + 1, s)
    case Kazehai(k) =>
      Kazehai(match k case Ton => Nan case Nan => Shaa case Shaa => Pei case Pei => Ton)
    case Sangenhai(d) =>
      Sangenhai(match d case Haku => Hatsu case Hatsu => Chun case Chun => Haku)
  }

  /** Length of the successor cycle a tile lies on. */
  function CycleLength(t: Hai): nat
  {
    if t.Suhai? then TILES_PER_SUHAI else if t.Kazehai? then 4 else 3
  }

  /** Position of a tile on its cycle. */
  function CyclePos(t: Hai): nat
  {
    match t
    case Suhai(n, _) => n - 1
    case Kazehai(k) => KazeOffset(k)
    case Sangenhai(d) => SangenOffset(d)
  }

  /** Two tiles on the same cycle: same suit, or both winds, or both dragons. */
  predicate SameCycle(a: Hai, b: Hai)
  {
    (a.Suhai? && b.Suhai? && a.suit == b.suit)
    || (a.Kazehai? && b.Kazehai?)
    || (a.Sangenhai? && b.Sangenhai?)
  }

  /** The successor applied k times. */
  function DoraIterate(t: Hai, k: nat): Hai
  {
    if k == 0 then t else DoraOf(DoraIterate(t, k - 1))
  }

  /** One successor step advances the cycle position by one, modulo the cycle length. */
  lemma DoraStep(t: Hai)
    ensures SameCycle(DoraOf(t), t)
    ensures CyclePos(DoraOf(t)) == (CyclePos(t) + 1) % CycleLength(t)
  {
  }

  lemma ModSucc(a: nat, len: nat)
    requires len == 3 || len == 4 || len == 9
    ensures ((a % len) + 1) % len == (a + 1) % len
  {
    if len == 3 {
    } else if len == 4 {
    } else {
    }
  }

  lemma {:induction false} DoraIteratePos(t: Hai, k: nat)
    ensures SameCycle(DoraIterate(t, k), t)
    ensures CyclePos(DoraIterate(t, k)) == (CyclePos(t) + k) % CycleLength(t)
  {
    if k > 0 {
      DoraIteratePos(t, k - 1);
      var u := DoraIterate(t, k - 1);
      DoraStep(u);
      var len := CycleLength(t);
      assert CycleLength(u) == len;
      assert CyclePos(u) == (CyclePos(t) + (k - 1)) % len;
      ModSucc(CyclePos(t) + (k - 1), len);
    }
  }

  /** A tile is fixed by its cycle and its position on it. */
  lemma CyclePosInjective(a: Hai, b: Hai)
    requires SameCycle(a, b) && CyclePos(a) == CyclePos(b)
    ensures a == b
  {
  }

  /** Suited ranks step 1..9 and back to 1, the winds Ton→Nan→Shaa→Pei→Ton,
      the dragons Haku→Hatsu→Chun→Haku: after 9, 4 or 3 steps a tile returns
      to itself and not earlier. */
  lemma DoraCycle(t: Hai)
    ensures DoraIterate(t, CycleLength(t)) == t
    ensures forall k :: 0 < k < CycleLength(t) ==> DoraIterate(t, k) != t
  {
    DoraIteratePos(t, CycleLength(t));
    CyclePosInjective(DoraIterate(t, CycleLength(t)), t);
    forall k | 0 < k < CycleLength(t)
      ensures DoraIterate(t, k) != t
    {
      DoraIteratePos(t, k);
    }
  }

  /** The suited successor spelled out: rank n+1, and 1 after 9. */
  lemma DoraOfSuhai(t: Hai)
    requires t.Suhai?
    ensures DoraOf(t) == Suhai(if t.number == 9 then 1 else t.number + 1, t.suit)
  {
  }

  // ---------------------------------------------------------------------
  // Green tiles
  // ---------------------------------------------------------------------

  /** Sou 2, 3, 4, 6, 8 and the green dragon. */
  predicate IsGreenTile(t: Hai)
  {
    match t
    case Suhai(n, s) => s == Souzu && (n == 2 || n == 3 || n == 4 || n == 6 || n == 8)
    case Sangenhai(d) => d == Hatsu
    case Kazehai(_) => false
  }

  /** Exactly six of the 34 kinds are green. */
  lemma GreenTileIndices()
    ensures forall i :: 0 <= i < TILE_COUNT ==>
      (IsGreenTile(IndexToTile(i)) <==> i in {19, 20, 21, 23, 25, 32})
  {
  }

  // ---------------------------------------------------------------------
  // Tiles and groups of an ordinary hand
  // ---------------------------------------------------------------------

  predicate IsKoutsuOrKantsu(m: Mentsu)
  {
    m.mentsuType == Koutsu || m.mentsuType == Kantsu
  }

  /** The tiles a meld holds: three slots, or four for a quad. */
  function MeldTiles(m: Mentsu): (ts: seq<Hai>)
    ensures |ts| == if m.mentsuType == Kantsu then 4 else 3
    ensures ts[0] == m.tiles[0]
  {
    if m.mentsuType == Kantsu then m.tiles[0..4] else m.tiles[0..3]
  }

  /** Tiles of the first n melds, in meld order. */
  function MeldsTiles(ms: seq<Mentsu>, n: nat): seq<Hai>
    requires n <= |ms|
  {
    if n == 0 then [] else MeldsTiles(ms, n - 1) + MeldTiles(ms[n - 1])
  }

  /** Quads among the first n melds. */
  function QuadCount(ms: seq<Mentsu>, n: nat): nat
    requires n <= |ms|
  {
    if n == 0 then 0 else QuadCount(ms, n - 1) + (if ms[n - 1].mentsuType == Kantsu then 1 else 0)
  }

  /** Triplets (not quads) among the first n melds. */
  function TripletCount(ms: seq<Mentsu>, n: nat): nat
    requires n <= |ms|
  {
    if n == 0 then 0 else TripletCount(ms, n - 1) + (if ms[n - 1].mentsuType == Koutsu then 1 else 0)
  }

  /** get_all_tiles: the pair twice, then each meld's tiles. */
  function AllTiles(h: AgariHand): seq<Hai>
  {
    [h.atama.0, h.atama.1] + MeldsTiles(h.mentsu, 4)
  }

  lemma {:induction false} MeldsTilesLength(ms: seq<Mentsu>, n: nat)
    requires n <= |ms|
    ensures |MeldsTiles(ms, n)| == 3 * n + QuadCount(ms, n)
  {
    if n > 0 {
      MeldsTilesLength(ms, n - 1);
    }
  }

  /** A hand lists 14 tiles plus one per quad. */
  lemma AllTilesLength(h: AgariHand)
    ensures |AllTiles(h)| == STANDARD_HAND_SIZE + QuadCount(h.mentsu, 4)
  {
    MeldsTilesLength(h.mentsu, 4);
  }

  /** Every listed tile is the pair tile or a tile of some meld, and every
      meld's tiles are listed. */
  lemma {:induction false} MeldsTilesMember(ms: seq<Mentsu>, n: nat, t: Hai)
    requires n <= |ms|
    ensures t in MeldsTiles(ms, n) <==> exists j :: 0 <= j < n && t in MeldTiles(ms[j])
  {
    if n > 0 {
      MeldsTilesMember(ms, n - 1, t);
      if t in MeldTiles(ms[n - 1]) {
        assert t in MeldsTiles(ms, n);
      }
    }
  }

  method GetAllTiles(h: AgariHand) returns (tiles: seq<Hai>)
    ensures tiles == AllTiles(h)
  {
    tiles := [h.atama.0, h.atama.1];
    var i := 0;
    while i < 4
      invariant 0 <= i <= 4
      invariant tiles == [h.atama.0, h.atama.1] + MeldsTiles(h.mentsu, i)
    {
      var m := h.mentsu[i];
      match m.mentsuType {
        case Shuntsu => tiles := tiles + m.tiles[0..3];
        case Koutsu => tiles := tiles + m.tiles[0..3];
        case Kantsu => tiles := tiles + m.tiles[0..4];
      }
      i := i + 1;
    }
  }

  /** Groups of the first n melds, one per meld. */
  function MeldGroups(ms: seq<Mentsu>, n: nat): (gs: seq<seq<Hai>>)
    requires n <= |ms|
    ensures |gs| == n
    ensures forall k :: 0 <= k < n ==> gs[k] == MeldTiles(ms[k])
  {
    if n == 0 then [] else MeldGroups(ms, n - 1) + [MeldTiles(ms[n - 1])]
  }

  /** get_all_groups: the pair as a two-tile group, then one group per meld. */
  function AllGroups(h: AgariHand): seq<seq<Hai>>
  {
    [[h.atama.0, h.atama.1]] + MeldGroups(h.mentsu, 4)
  }

  /** Concatenation of groups. */
  function Concat(gs: seq<seq<Hai>>): seq<Hai>
  {
    if gs == [] then [] else Concat(gs[..|gs| - 1]) + gs[|gs| - 1]
  }

  lemma {:induction false} ConcatMeldGroups(ms: seq<Mentsu>, n: nat)
    requires n <= |ms|
    ensures Concat(MeldGroups(ms, n)) == MeldsTiles(ms, n)
  {
    if n > 0 {
      var gs := MeldGroups(ms, n);
      ConcatMeldGroups(ms, n - 1);
      assert gs[..n - 1] == MeldGroups(ms, n - 1);
      assert Concat(gs[..n - 1]) == MeldsTiles(ms, n - 1);
      assert gs[n - 1] == MeldTiles(ms[n - 1]);
      assert Concat(gs) == Concat(gs[..n - 1]) + gs[n - 1];
    }
  }

  lemma ConcatFront(g: seq<Hai>, gs: seq<seq<Hai>>)
    ensures Concat([g] + gs) == g + Concat(gs)
    decreases |gs|
  {
    if gs != [] {
      assert ([g] + gs)[..|gs|] == [g] + gs[..|gs| - 1];
      ConcatFront(g, gs[..|gs| - 1]);
    }
  }

  /** Five groups, the pair first and then the melds in order; flattened
      they are exactly the tile list of the hand. */
  lemma AllGroupsShape(h: AgariHand)
    ensures |AllGroups(h)| == 5
    ensures AllGroups(h)[0] == [h.atama.0, h.atama.1]
    ensures forall k :: 0 <= k < 4 ==> AllGroups(h)[k + 1] == MeldTiles(h.mentsu[k])
    ensures Concat(AllGroups(h)) == AllTiles(h)
  {
    ConcatFront([h.atama.0, h.atama.1], MeldGroups(h.mentsu, 4));
    ConcatMeldGroups(h.mentsu, 4);
  }

  method GetAllGroups(h: AgariHand) returns (groups: seq<seq<Hai>>)
    ensures groups == AllGroups(h)
  {
    groups := [[h.atama.0, h.atama.1]];
    var i := 0;
    while i < 4
      invariant 0 <= i <= 4
      invariant groups == [[h.atama.0, h.atama.1]] + MeldGroups(h.mentsu, i)
    {
      var m := h.mentsu[i];
      match m.mentsuType {
        case Shuntsu => groups := groups + [m.tiles[0..3]];
        case Koutsu => groups := groups + [m.tiles[0..3]];
        case Kantsu => groups := groups + [m.tiles[0..4]];
      }
      i := i + 1;
    }
  }

  /** The sequences of a meld list, in order (the shuntsu list of the check
      context). */
  function ShuntsuList(ms: seq<Mentsu>): (r: seq<Mentsu>)
    ensures forall m :: m in r <==> m in ms && m.mentsuType == Shuntsu
    ensures |r| <= |ms|
  {
    if ms == [] then []
    else
      var last := ms[|ms| - 1];
      ShuntsuList(ms[..|ms| - 1]) + (if last.mentsuType == Shuntsu then [last] else [])
  }

  /** The triplets and quads of a meld list, in order. */
  function KoutsuList(ms: seq<Mentsu>): (r: seq<Mentsu>)
    ensures forall m :: m in r <==> m in ms && IsKoutsuOrKantsu(m)
    ensures |r| <= |ms|
  {
    if ms == [] then []
    else
      var last := ms[|ms| - 1];
      KoutsuList(ms[..|ms| - 1]) + (if IsKoutsuOrKantsu(last) then [last] else [])
  }

  /** A list of sequences has no triplet or quad. */
  lemma {:induction false} KoutsuListOfSequences(ms: seq<Mentsu>)
    requires forall k :: 0 <= k < |ms| ==> ms[k].mentsuType == Shuntsu
    ensures KoutsuList(ms) == []
    decreases |ms|
  {
    if ms != [] {
      KoutsuListOfSequences(ms[..|ms| - 1]);
    }
  }

  /** Dragon triplets and quads among the first n melds. */
  function DragonTriplets(ms: seq<Mentsu>, n: nat): nat
    requires n <= |ms|
  {
    if n == 0 then 0
    else DragonTriplets(ms, n - 1) + (if IsKoutsuOrKantsu(ms[n - 1]) && ms[n - 1].tiles[0].Sangenhai? then 1 else 0)
  }

  /** Wind triplets and quads among the first n melds. */
  function WindTriplets(ms: seq<Mentsu>, n: nat): nat
    requires n <= |ms|
  {
    if n == 0 then 0
    else WindTriplets(ms, n - 1) + (if IsKoutsuOrKantsu(ms[n - 1]) && ms[n - 1].tiles[0].Kazehai? then 1 else 0)
  }

  /** Honor triplets are triplets: dragon and wind counts together are at most
      the triplets and quads. */
  lemma {:induction false} HonorTripletsBound(ms: seq<Mentsu>, n: nat)
    requires n <= |ms|
    ensures DragonTriplets(ms, n) + WindTriplets(ms, n) <= TripletCount(ms, n) + QuadCount(ms, n)
  {
    if n > 0 {
      HonorTripletsBound(ms, n - 1);
    }
  }

  /** The tiles of the seven pairs, each pair tile twice. */
  function PairTiles(ps: seq<(Hai, Hai)>): (ts: seq<Hai>)
    ensures |ts| == 2 * |ps|
  {
    if ps == [] then [] else PairTiles(ps[..|ps| - 1]) + [ps[|ps| - 1].0, ps[|ps| - 1].1]
  }

  /** get_all_tiles_from_structure. */
  function StructureTiles(s: HandStructure): seq<Hai>
  {
    match s
    case YonmentsuIchiatama(hand) => AllTiles(hand)
    case Chiitoitsu(pairs, _, _) => PairTiles(pairs)
    case KokushiMusou(tiles, atama, _, _) => tiles + [atama.0]
    case ChuurenPoutou(hand, _) => AllTiles(hand)
  }

  /** Seven pairs and thirteen orphans list 14 tiles; an ordinary hand 14
      plus its quads. */
  lemma StructureTilesLength(s: HandStructure)
    ensures !s.Chiitoitsu? && !s.KokushiMusou? ==> |StructureTiles(s)| == STANDARD_HAND_SIZE + QuadCount(s.hand.mentsu, 4)
    ensures s.Chiitoitsu? || s.KokushiMusou? ==> |StructureTiles(s)| == STANDARD_HAND_SIZE
  {
    if s.YonmentsuIchiatama? || s.ChuurenPoutou? {
      AllTilesLength(s.hand);
    }
  }

  // ---------------------------------------------------------------------
  // Dora count
  // ---------------------------------------------------------------------

  /** Occurrences of t in ts. */
  function Occurrences(ts: seq<Hai>, t: Hai): nat
  {
    multiset(ts)[t]
  }

  /** count_dora: for each indicator (repeats included), the number of tiles
      equal to the tile it points at. */
  function DoraCount(tiles: seq<Hai>, indicators: seq<Hai>): nat
  {
    if indicators == [] then 0
    else
      var last := indicators[|indicators| - 1];
      DoraCount(tiles, indicators[..|indicators| - 1]) + Occurrences(tiles, DoraOf(last))
  }

  /** Indicator lists add up: the count for two lists is the sum of their counts. */
  lemma {:induction false} DoraCountAppend(tiles: seq<Hai>, a: seq<Hai>, b: seq<Hai>)
    ensures DoraCount(tiles, a + b) == DoraCount(tiles, a) + DoraCount(tiles, b)
    decreases |b|
  {
    if b != [] {
      assert (a + b)[..|a + b| - 1] == a + b[..|b| - 1];
      assert (a + b)[|a + b| - 1] == b[|b| - 1];
      DoraCountAppend(tiles, a, b[..|b| - 1]);
    } else {
      assert a + b == a;
    }
  }

  /** Each indicator credits at most every tile once. */
  lemma {:induction false} DoraCountBound(tiles: seq<Hai>, indicators: seq<Hai>)
    ensures DoraCount(tiles, indicators) <= |indicators| * |tiles|
    decreases |indicators|
  {
    if indicators != [] {
      var n := |indicators|;
      DoraCountBound(tiles, indicators[..n - 1]);
      assert |multiset(tiles)| == |tiles|;
      assert Occurrences(tiles, DoraOf(indicators[n - 1])) <= |tiles|;
      assert (n - 1) * |tiles| + |tiles| == n * |tiles|;
    }
  }

  /** The count depends on the tiles only through their multiset, so the
      order of the tile list does not matter. */
  lemma {:induction false} DoraCountPermutation(tiles: seq<Hai>, other: seq<Hai>, indicators: seq<Hai>)
    requires multiset(tiles) == multiset(other)
    ensures DoraCount(tiles, indicators) == DoraCount(other, indicators)
    decreases |indicators|
  {
    if indicators != [] {
      DoraCountPermutation(tiles, other, indicators[..|indicators| - 1]);
    }
  }

  method CountDora(allTiles: seq<Hai>, indicators: seq<Hai>) returns (count: nat)
    ensures count == DoraCount(allTiles, indicators)
  {
    count := 0;
    var k := 0;
    while k < |indicators|
      invariant 0 <= k <= |indicators|
      invariant count == DoraCount(allTiles, indicators[..k])
    {
      var dora := DoraOf(indicators[k]);
      ghost var base := count;
      var j := 0;
      while j < |allTiles|
        invariant 0 <= j <= |allTiles|
        invariant count == base + Occurrences(allTiles[..j], dora)
      {
        assert allTiles[..j + 1] == allTiles[..j] + [allTiles[j]];
        if allTiles[j] == dora {
          count := count + 1;
        }
        j := j + 1;
      }
      assert allTiles[..j] == allTiles;
      assert indicators[..k + 1][..k] == indicators[..k];
      k := k + 1;
    }
    assert indicators[..k] == indicators;
  }

  // ---------------------------------------------------------------------
  // Meld counters
  // ---------------------------------------------------------------------

  lemma {:induction false} MeldCountsBound(ms: seq<Mentsu>, n: nat)
    requires n <= |ms|
    ensures TripletCount(ms, n) + QuadCount(ms, n) <= n
  {
    if n > 0 {
      MeldCountsBound(ms, n - 1);
    }
  }

  /** count_koutsu_kantsu: (triplets, quads) over the four melds. */
  method CountKoutsuKantsu(h: AgariHand) returns (koutsu: nat, kantsu: nat)
    ensures koutsu == TripletCount(h.mentsu, 4) && kantsu == QuadCount(h.mentsu, 4)
    ensures koutsu + kantsu <= 4
  {
    MeldCountsBound(h.mentsu, 4);
    koutsu, kantsu := 0, 0;
    var i := 0;
    while i < 4
      invariant 0 <= i <= 4
      invariant koutsu == TripletCount(h.mentsu, i) && kantsu == QuadCount(h.mentsu, i)
    {
      match h.mentsu[i].mentsuType {
        case Koutsu => koutsu := koutsu + 1;
        case Kantsu => kantsu := kantsu + 1;
        case Shuntsu =>
      }
      i := i + 1;
    }
  }

  /** A meld that counts as a concealed triplet: a closed quad, or a closed
      triplet not completed on the discard. */
  predicate ConcealedTriplet(m: Mentsu, agariHai: Hai, agariType: AgariType)
  {
    && !m.isMinchou
    && (m.mentsuType == Kantsu
        || (m.mentsuType == Koutsu && !(agariType == Ron && m.tiles[0] == agariHai)))
  }

  /** Closed triplets and quads among the first n melds. */
  function ConcealedCount(ms: seq<Mentsu>, agariHai: Hai, agariType: AgariType, n: nat): nat
    requires n <= |ms|
  {
    if n == 0 then 0
    else
      var one := if ConcealedTriplet(ms[n - 1], agariHai, agariType) then 1 else 0;
      ConcealedCount(ms, agariHai, agariType, n - 1) + one
  }

  /** At most the number of triplets and quads, so at most four; on Tsumo it is
      exactly the closed triplets and quads. */
  lemma {:induction false} ConcealedCountBound(ms: seq<Mentsu>, agariHai: Hai, agariType: AgariType, n: nat)
    requires n <= |ms|
    ensures ConcealedCount(ms, agariHai, agariType, n) <= TripletCount(ms, n) + QuadCount(ms, n) <= n
    ensures agariType == Tsumo ==> ConcealedCount(ms, agariHai, agariType, n) == ClosedTripletCount(ms, n)
  {
    MeldCountsBound(ms, n);
    if n > 0 {
      ConcealedCountBound(ms, agariHai, agariType, n - 1);
    }
  }

  /** Triplets and quads that are not marked open, among the first n melds. */
  function ClosedTripletCount(ms: seq<Mentsu>, n: nat): nat
    requires n <= |ms|
  {
    if n == 0 then 0
    else ClosedTripletCount(ms, n - 1) + (if !ms[n - 1].isMinchou && IsKoutsuOrKantsu(ms[n - 1]) then 1 else 0)
  }

  /** count_concealed_koutsu. */
  method CountConcealedKoutsu(h: AgariHand, agariType: AgariType) returns (count: nat)
    ensures count == ConcealedCount(h.mentsu, h.agariHai, agariType, 4)
    ensures count <= 4
  {
    ConcealedCountBound(h.mentsu, h.agariHai, agariType, 4);
    count := 0;
    var i := 0;
    while i < 4
      invariant 0 <= i <= 4
      invariant count == ConcealedCount(h.mentsu, h.agariHai, agariType, i)
    {
      var m := h.mentsu[i];
      if !m.isMinchou {
        if m.mentsuType == Koutsu {
          if !(agariType == Ron && m.tiles[0] == h.agariHai) {
            count := count + 1;
          }
        } else if m.mentsuType == Kantsu {
          count := count + 1;
        }
      }
      i := i + 1;
    }
  }

  // ---------------------------------------------------------------------
  // Seven pairs
  // ---------------------------------------------------------------------

  /** Scan of the first n slots: the pairs found so far, in index order, or
      None as soon as a slot holds a count other than 0 or 2. */
  function PairScan(c: Counts, n: nat): Option<seq<(Hai, Hai)>>
    requires n <= TILE_COUNT
  {
    if n == 0 then Some([])
    else match PairScan(c, n - 1)
      case None => None
      case Some(ps) =>
        if c[n - 1] == 0 then Some(ps)
        else if c[n - 1] == 2 then Some(ps + [(IndexToTile(n - 1), IndexToTile(n - 1))])
        else None
  }

  /** Nonzero slots among the first n. */
  function NonzeroSlots(c: Counts, n: nat): nat
    requires n <= TILE_COUNT
  {
    if n == 0 then 0 else NonzeroSlots(c, n - 1) + (if c[n - 1] > 0 then 1 else 0)
  }

  /** check_chiitoitsu: seven pairs, all tanki. */
  function CheckChiitoitsu(c: Counts, agariHai: Hai): Option<HandStructure>
  {
    match PairScan(c, TILE_COUNT)
    case None => None
    case Some(ps) =>
      if |ps| == CHIITOITSU_PAIR_COUNT then Some(HandStructure.Chiitoitsu(ps, agariHai, Tanki)) else None
  }

  /** The pairs found are exactly the slots with count 2, in increasing index
      order, and the scan fails exactly when some slot has a count other than
      0 or 2. */
  ghost predicate PairList(c: Counts, n: nat, ps: seq<(Hai, Hai)>)
    requires n <= TILE_COUNT
  {
    && |ps| == NonzeroSlots(c, n)
    && (forall k :: 0 <= k < |ps| ==>
          ps[k].0 == ps[k].1 && TileToIndex(ps[k].0) < n && c[TileToIndex(ps[k].0)] == 2)
    && (forall k, l :: 0 <= k < l < |ps| ==> TileToIndex(ps[k].0) < TileToIndex(ps[l].0))
    && (forall i :: 0 <= i < n && c[i] == 2 ==> exists k :: 0 <= k < |ps| && ps[k].0 == IndexToTile(i))
  }

  lemma {:induction false} PairScanSomeIff(c: Counts, n: nat)
    requires n <= TILE_COUNT
    ensures PairScan(c, n).Some? <==> forall i :: 0 <= i < n ==> c[i] == 0 || c[i] == 2
  {
    if n > 0 {
      PairScanSomeIff(c, n - 1);
    }
  }

  /** A slot with count 0 leaves the pair list as it is. */
  lemma EmptySlotKeeps(c: Counts, n: nat, ps: seq<(Hai, Hai)>)
    requires 0 < n <= TILE_COUNT && c[n - 1] == 0 && PairList(c, n - 1, ps)
    ensures PairList(c, n, ps)
  {
  }

  /** A slot with count 2 appends its pair at the end. */
  lemma PairSlotAppends(c: Counts, n: nat, ps: seq<(Hai, Hai)>)
    requires 0 < n <= TILE_COUNT && c[n - 1] == 2 && PairList(c, n - 1, ps)
    ensures PairList(c, n, ps + [(IndexToTile(n - 1), IndexToTile(n - 1))])
  {
    AppendedPairsAreTwos(c, n, ps);
    AppendedPairsIncrease(c, n, ps);
    AppendedPairsCover(c, n, ps);
  }

  lemma AppendedPairsAreTwos(c: Counts, n: nat, ps: seq<(Hai, Hai)>)
    requires 0 < n <= TILE_COUNT && c[n - 1] == 2 && PairList(c, n - 1, ps)
    ensures var qs := ps + [(IndexToTile(n - 1), IndexToTile(n - 1))];
      forall k :: 0 <= k < |qs| ==> qs[k].0 == qs[k].1 && TileToIndex(qs[k].0) < n && c[TileToIndex(qs[k].0)] == 2
  {
    var qs := ps + [(IndexToTile(n - 1), IndexToTile(n - 1))];
    forall k | 0 <= k < |qs|
      ensures qs[k].0 == qs[k].1 && TileToIndex(qs[k].0) < n && c[TileToIndex(qs[k].0)] == 2
    {
      if k < |ps| {
        assert qs[k] == ps[k];
      }
    }
  }

  lemma AppendedPairsIncrease(c: Counts, n: nat, ps: seq<(Hai, Hai)>)
    requires 0 < n <= TILE_COUNT && c[n - 1] == 2 && PairList(c, n - 1, ps)
    ensures var qs := ps + [(IndexToTile(n - 1), IndexToTile(n - 1))];
      forall k, l :: 0 <= k < l < |qs| ==> TileToIndex(qs[k].0) < TileToIndex(qs[l].0)
  {
    var qs := ps + [(IndexToTile(n - 1), IndexToTile(n - 1))];
    forall k, l | 0 <= k < l < |qs|
      ensures TileToIndex(qs[k].0) < TileToIndex(qs[l].0)
    {
      assert qs[k] == ps[k];
      if l < |ps| {
        assert qs[l] == ps[l];
      }
    }
  }

  lemma AppendedPairsCover(c: Counts, n: nat, ps: seq<(Hai, Hai)>)
    requires 0 < n <= TILE_COUNT && c[n - 1] == 2 && PairList(c, n - 1, ps)
    ensures var qs := ps + [(IndexToTile(n - 1), IndexToTile(n - 1))];
      forall i :: 0 <= i < n && c[i] == 2 ==> exists k :: 0 <= k < |qs| && qs[k].0 == IndexToTile(i)
  {
    var qs := ps + [(IndexToTile(n - 1), IndexToTile(n - 1))];
    forall i | 0 <= i < n && c[i] == 2
      ensures exists k :: 0 <= k < |qs| && qs[k].0 == IndexToTile(i)
    {
      if i < n - 1 {
        var k :| 0 <= k < |ps| && ps[k].0 == IndexToTile(i);
        assert qs[k] == ps[k];
      } else {
        assert qs[|qs| - 1].0 == IndexToTile(i);
      }
    }
  }

  lemma {:induction false} PairScanList(c: Counts, n: nat)
    requires n <= TILE_COUNT && PairScan(c, n).Some?
    ensures PairList(c, n, PairScan(c, n).value)
  {
    if n > 0 {
      var r := PairScan(c, n - 1);
      assert r.Some?;
      PairScanList(c, n - 1);
      if c[n - 1] == 0 {
        EmptySlotKeeps(c, n, r.value);
      } else {
        PairSlotAppends(c, n, r.value);
      }
    }
  }

  /** Seven pairs is recognized exactly when every nonzero count is 2 and
      seven slots are nonzero; a four-of-a-kind rejects the hand. */
  lemma CheckChiitoitsuIff(c: Counts, agariHai: Hai)
    ensures CheckChiitoitsu(c, agariHai).Some? <==>
      (forall i :: 0 <= i < TILE_COUNT ==> c[i] == 0 || c[i] == 2)
      && NonzeroSlots(c, TILE_COUNT) == CHIITOITSU_PAIR_COUNT
  {
    PairScanSomeIff(c, TILE_COUNT);
    if PairScan(c, TILE_COUNT).Some? {
      PairScanList(c, TILE_COUNT);
    }
  }

  /** A recognized seven-pairs hand: the count-2 slots in index order, the
      winning tile kept, and a tanki wait. */
  lemma CheckChiitoitsuShape(c: Counts, agariHai: Hai)
    requires CheckChiitoitsu(c, agariHai).Some?
    ensures var s := CheckChiitoitsu(c, agariHai).value;
      s.Chiitoitsu? && s.machi == Tanki && s.agariHai == agariHai && PairList(c, TILE_COUNT, s.pairs)
  {
    PairScanList(c, TILE_COUNT);
  }

  lemma {:induction false} PairScanNoneStays(c: Counts, n: nat, m: nat)
    requires n <= m <= TILE_COUNT && PairScan(c, n).None?
    ensures PairScan(c, m).None?
    decreases m - n
  {
    if n < m {
      PairScanNoneStays(c, n + 1, m);
    }
  }

  method FindChiitoitsu(counts: Counts, agariHai: Hai) returns (r: Option<HandStructure>)
    ensures r == CheckChiitoitsu(counts, agariHai)
  {
    var pairCount := 0;
    var pairs: seq<(Hai, Hai)> := [];
    var idx := 0;
    while idx < TILE_COUNT
      invariant 0 <= idx <= TILE_COUNT
      invariant PairScan(counts, idx) == Some(pairs) && pairCount == |pairs|
    {
      var count := counts[idx];
      if count > 0 {
        if count == 2 {
          pairCount := pairCount + 1;
          var tile := IndexToTile(idx);
          pairs := pairs + [(tile, tile)];
        } else {
          PairScanNoneStays(counts, idx + 1, TILE_COUNT);
          return None;
        }
      }
      idx := idx + 1;
    }
    if pairCount == CHIITOITSU_PAIR_COUNT {
      var ps: Pairs7 := pairs;
      r := Some(HandStructure.Chiitoitsu(ps, agariHai, Tanki));
    } else {
      r := None;
    }
  }
}
