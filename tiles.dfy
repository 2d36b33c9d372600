/** The tile vocabulary: the 34 tile kinds, their canonical index and the
    rank classes the yaku rules are phrased in (src/implements/types/tiles.rs). */
module Tiles {

  datatype Suit = Manzu | Pinzu | Souzu

  datatype Kaze = Ton | Nan | Shaa | Pei

  datatype Sangenpai = Haku | Hatsu | Chun

  /** Rank of a suited tile. The source stores it in a u8; only 1..9 is meaningful. */
  type Rank = n: nat | 1 <= n <= 9 witness 1

  /** A tile. The source nests honors as Jihai::Kaze / Jihai::Sangen; here the
      two honor kinds are constructors of their own. */
  datatype Hai =
    | Suhai(number: Rank, suit: Suit)
    | Kazehai(kaze: Kaze)
    | Sangenhai(sangen: Sangenpai)

  const TILE_COUNT: nat := 34
  const SUHAI_TILES_COUNT: nat := 27
  const TILES_PER_SUHAI: nat := 9
  const MAX_SHUNTSU_START: nat := 7
  const CHIITOITSU_PAIR_COUNT: nat := 7
  const STANDARD_HAND_SIZE: nat := 14

  /** A simple (chunchanpai): suited rank 2..8. */
  predicate IsSimple(t: Hai)
  {
    t.Suhai? && 2 <= t.number <= 8
  }

  /** A terminal (rouotuhai): suited rank 1 or 9. */
  predicate IsTerminal(t: Hai)
  {
    t.Suhai? && (t.number == 1 || t.number == 9)
  }

  /** An honor tile: wind or dragon. */
  predicate IsJihai(t: Hai)
  {
    !t.Suhai?
  }

  /** A terminal or honor. Every tile is exactly one of simple and yaochuu. */
  predicate IsYaochuu(t: Hai): (r: bool)
    ensures r != IsSimple(t)
    ensures r ==> IsTerminal(t) || IsJihai(t)
  {
    IsTerminal(t) || IsJihai(t)
  }

  function SuitOffset(s: Suit): nat
  {
    match s
    case Manzu => 0
    case Pinzu => TILES_PER_SUHAI
    case Souzu => TILES_PER_SUHAI * 2
  }

  function KazeOffset(k: Kaze): nat
  {
    match k
    case Ton => 0
    case Nan => 1
    case Shaa => 2
    case Pei => 3
  }

  function SangenOffset(d: Sangenpai): nat
  {
    match d
    case Haku => 0
    case Hatsu => 1
    case Chun => 2
  }

  /** Canonical index: the suits fill 0..26 in blocks of nine by rank,
      the winds 27..30 and the dragons 31..33. */
  function TileToIndex(t: Hai): (i: nat)
    ensures i < TILE_COUNT
    ensures t.Suhai? <==> i < SUHAI_TILES_COUNT
    ensures t.Suhai? ==> i == SuitOffset(t.suit) + t.number - 1
    ensures t.Kazehai? <==> SUHAI_TILES_COUNT <= i < SUHAI_TILES_COUNT + 4
    ensures t.Sangenhai? <==> SUHAI_TILES_COUNT + 4 <= i
  {
    match t
    case Suhai(n, s) => SuitOffset(s) + (n - 1)
    case Kazehai(k) => SUHAI_TILES_COUNT + KazeOffset(k)
    case Sangenhai(d) => SUHAI_TILES_COUNT + 4 + SangenOffset(d)
  }

  /** A suited tile's index splits into its suit block and its rank. */
  lemma SuhaiIndex(t: Hai)
    requires t.Suhai?
    ensures TileToIndex(t) % TILES_PER_SUHAI == t.number - 1
    ensures TileToIndex(t) / TILES_PER_SUHAI == SuitOffset(t.suit) / TILES_PER_SUHAI
  {
  }

  /** Inverse of TileToIndex; the source panics on an index of 34 or more. */
  function IndexToTile(index: nat): (t: Hai)
    requires index < TILE_COUNT
    ensures TileToIndex(t) == index
  {
    if index <= 8 then Suhai(index + 1, Manzu)
    else if index <= 17 then Suhai((index - TILES_PER_SUHAI) + 1, Pinzu)
    else if index <= 26 then Suhai((index - TILES_PER_SUHAI * 2) + 1, Souzu)
    else if index == 27 then Kazehai(Ton)
    else if index == 28 then Kazehai(Nan)
    else if index == 29 then Kazehai(Shaa)
    else if index == 30 then Kazehai(Pei)
    else if index == 31 then Sangenhai(Haku)
    else if index == 32 then Sangenhai(Hatsu)
    else Sangenhai(Chun)
  }

  /** The mapping is a bijection on the 34 kinds: no two tiles share an index. */
  lemma TileToIndexInjective(a: Hai, b: Hai)
    requires TileToIndex(a) == TileToIndex(b)
    ensures a == b
  {
  }

  /** Round trip in the other direction: decoding an index restores the tile. */
  lemma IndexToTileOfIndex(t: Hai)
    ensures IndexToTile(TileToIndex(t)) == t
  {
    TileToIndexInjective(IndexToTile(TileToIndex(t)), t);
  }

  /** Index of the tile one rank higher in the same suit. */
  lemma NextRankIndex(i: nat)
    requires i < SUHAI_TILES_COUNT && i % TILES_PER_SUHAI < 8
    ensures IndexToTile(i + 1) == Suhai(IndexToTile(i).number + 1, IndexToTile(i).suit)
  {
    var t := IndexToTile(i);
    var u := Suhai(t.number + 1, t.suit);
    assert TileToIndex(u) == i + 1;
    IndexToTileOfIndex(u);
  }
}
