/** Melds, waits and the shapes a winning hand is organized into
    (src/implements/types/hand.rs). */
module HandTypes {
  import opened Tiles

  datatype MentsuType = Shuntsu | Koutsu | Kantsu

  /** The fixed four-slot tile array of a meld. A triplet repeats its tile in
      all four slots; a sequence repeats its third tile in the fourth. */
  type Tiles4 = s: seq<Hai> | |s| == 4
    witness [Kazehai(Ton), Kazehai(Ton), Kazehai(Ton), Kazehai(Ton)]

  /** A meld; `isMinchou` marks it as open (called or completed by Ron). */
  datatype Mentsu = Mentsu(mentsuType: MentsuType, isMinchou: bool, tiles: Tiles4)

  datatype Machi =
    | Ryanmen
    | Tanki
    | Penchan
    | Kanchan
    | Shanpon
    | KokushiIchimen
    | KokushiJusanmen

  /** Exactly four melds. */
  type Mentsu4 = s: seq<Mentsu> | |s| == 4
    witness var m := Mentsu(Koutsu, false, [Kazehai(Ton), Kazehai(Ton), Kazehai(Ton), Kazehai(Ton)]); [m, m, m, m]

  /** Four melds and one pair, with the winning tile and the wait it completed. */
  datatype AgariHand = AgariHand(mentsu: Mentsu4, atama: (Hai, Hai), agariHai: Hai, machi: Machi)

  /** A tile-count vector indexed by TileToIndex. */
  type Counts = c: seq<nat> | |c| == TILE_COUNT witness seq(TILE_COUNT, _ => 0)

  /** What the organizer produces: a four-melds-one-pair reading, or the raw
      counts for the seven-pairs and thirteen-orphans checks. */
  datatype HandOrganization =
    | YonmentsuIchiatama(hand: AgariHand)
    | Irregular(counts: Counts, agariHai: Hai)

  type Pairs7 = s: seq<(Hai, Hai)> | |s| == CHIITOITSU_PAIR_COUNT
    witness seq(CHIITOITSU_PAIR_COUNT, _ => (Kazehai(Ton), Kazehai(Ton)))

  type Tiles13 = s: seq<Hai> | |s| == 13 witness seq(13, _ => Kazehai(Ton))

  /** The structure the yaku evaluator works on. */
  datatype HandStructure =
    | YonmentsuIchiatama(hand: AgariHand)
    | Chiitoitsu(pairs: Pairs7, agariHai: Hai, machi: Machi)
    | KokushiMusou(tiles: Tiles13, atama: (Hai, Hai), agariHai: Hai, machi: Machi)
    | ChuurenPoutou(hand: AgariHand, isJunsei: bool)
}
