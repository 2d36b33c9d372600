/** The fu of a winning hand (src/implements/score_calculator/fu.rs). */
module FuCalc {
  import opened Tiles
  import opened HandTypes
  import opened GameTypes
  import opened YakuTypes
  import opened ScoringTypes

  /** FU_TABLE_KOUTSU and FU_TABLE_KANTSU, indexed by [open][yaochuu]. */
  const FU_TABLE_KOUTSU: seq<seq<nat>> := [[4, 8], [2, 4]]
  const FU_TABLE_KANTSU: seq<seq<nat>> := [[16, 32], [8, 16]]

  /** A flag as a table index (the source's `as usize`). */
  function Index(b: bool): nat
  {
    if b then 1 else 0
  }

  /** The fu of one meld: looked up by openness and by whether its first
      tile is a terminal or an honor; sequences give none. */
  function MeldFu(m: Mentsu): nat
  {
    var row, col := Index(m.isMinchou), Index(IsYaochuu(m.tiles[0]));
    match m.mentsuType
    case Koutsu => FU_TABLE_KOUTSU[row][col]
    case Kantsu => FU_TABLE_KANTSU[row][col]
    case Shuntsu => 0
  }

  /** The meld fu of the first n melds. */
  function MeldsFu(ms: seq<Mentsu>, n: nat): nat
    requires n <= |ms|
  {
    if n == 0 then 0 else MeldsFu(ms, n - 1) + MeldFu(ms[n - 1])
  }

  /** get_pair_fu: a dragon pair gives 2; a wind pair 2 for the round wind
      and 2 more for the seat wind; anything else none. */
  function PairFu(t: Hai, player: PlayerContext, game: GameContext): nat
  {
    match t
    case Sangenhai(_) => FU_PAIR_DRAGON
    case Kazehai(k) =>
      (if k == game.bakaze then FU_PAIR_WIND else 0) + (if k == player.jikaze then FU_PAIR_WIND else 0)
    case Suhai(_, _) => 0
  }

  /** The wait: 2 for a closed, edge or single wait, none for an open or a
      double-pair wait. */
  function WaitFu(machi: Machi): nat
  {
    if machi == Kanchan || machi == Penchan || machi == Tanki then FU_PAIR_SINGLE_WAIT else 0
  }

  /** The way of winning: 2 on tsumo, 10 on a closed ron, none on an open ron. */
  function AgariFu(player: PlayerContext, agariType: AgariType): nat
  {
    if agariType == Tsumo then FU_TSUMO else if player.isMenzen then FU_MENZEN_RON else 0
  }

  /** Rounded up to the next multiple of 10. */
  function RoundUp10(n: nat): nat
  {
    (n + FU_ROUND_UP - 1) / FU_ROUND_UP * FU_ROUND_UP
  }

  /** The fu of four melds and a pair, before rounding. */
  function RawFu(h: AgariHand, player: PlayerContext, game: GameContext, agariType: AgariType): nat
  {
    FU_BASE + AgariFu(player, agariType) + MeldsFu(h.mentsu, 4) + PairFu(h.atama.0, player, game) + WaitFu(h.machi)
  }

  /** calculate_fu. */
  function Fu(s: HandStructure, ys: seq<Yaku>, player: PlayerContext, game: GameContext, agariType: AgariType): nat
  {
    if Yaku.Chiitoitsu in ys then FU_CHIITOITSU
    else if Pinfu in ys then (if agariType == Tsumo then FU_PINFU_TSUMO else FU_PINFU_RON)
    else
      match s
      case YonmentsuIchiatama(h) => RoundUp10(RawFu(h, player, game, agariType))
      case ChuurenPoutou(h, _) => RoundUp10(RawFu(h, player, game, agariType))
      case Chiitoitsu(_, _, _) => FU_CHIITOITSU
      case KokushiMusou(_, _, _, _) => 0
  }

  method CalculateFu(s: HandStructure, ys: seq<Yaku>, player: PlayerContext, game: GameContext,
                     agariType: AgariType)
    returns (fu: nat)
    ensures fu == Fu(s, ys, player, game, agariType)
  {
    if Yaku.Chiitoitsu in ys {
      return FU_CHIITOITSU;
    }
    if Pinfu in ys {
      return if agariType == Tsumo then FU_PINFU_TSUMO else FU_PINFU_RON;
    }
    fu := FU_BASE;
    var hand: AgariHand;
    match s {
      case YonmentsuIchiatama(h) => hand := h;
      case ChuurenPoutou(h, _) => hand := h;
      case Chiitoitsu(_, _, _) => return FU_CHIITOITSU;
      case KokushiMusou(_, _, _, _) => return 0;
    }
    if agariType == Tsumo {
      fu := fu + FU_TSUMO;
    } else if player.isMenzen {
      fu := fu + FU_MENZEN_RON;
    }
    var i := 0;
    while i < 4
      invariant 0 <= i <= 4
      invariant fu == FU_BASE + AgariFu(player, agariType) + MeldsFu(hand.mentsu, i)
    {
      var m := hand.mentsu[i];
      var isOpen, isYaochuu := m.isMinchou, IsYaochuu(m.tiles[0]);
      match m.mentsuType {
        case Koutsu => fu := fu + FU_TABLE_KOUTSU[Index(isOpen)][Index(isYaochuu)];
        case Kantsu => fu := fu + FU_TABLE_KANTSU[Index(isOpen)][Index(isYaochuu)];
        case Shuntsu =>
      }
      assert fu == FU_BASE + AgariFu(player, agariType) + MeldsFu(hand.mentsu, i + 1);
      i := i + 1;
    }
    fu := fu + PairFu(hand.atama.0, player, game);
    if hand.machi == Kanchan || hand.machi == Penchan || hand.machi == Tanki {
      fu := fu + FU_PAIR_SINGLE_WAIT;
    }
    assert fu == RawFu(hand, player, game, agariType);
    fu := (fu + FU_ROUND_UP - 1) / FU_ROUND_UP * FU_ROUND_UP;
  }

  // ---------------------------------------------------------------------
  // Properties
  // ---------------------------------------------------------------------

  /** The meld table: a closed triplet doubles an open one, a quad is four
      triplets, a terminal or honor doubles a simple; an open simple
      triplet is worth 2. Sequences are worth nothing. */
  lemma MeldFuTable(open: bool, t: Hai, t4: Tiles4)
    requires t4[0] == t
    ensures var koutsu := MeldFu(Mentsu(Koutsu, open, t4));
      && MeldFu(Mentsu(Kantsu, open, t4)) == 4 * koutsu
      && MeldFu(Mentsu(Koutsu, false, t4)) == 2 * MeldFu(Mentsu(Koutsu, true, t4))
      && MeldFu(Mentsu(Koutsu, true, t4)) == (if IsYaochuu(t) then 4 else 2)
      && MeldFu(Mentsu(Shuntsu, open, t4)) == 0
  {
  }

  /** Each meld is worth at most 32 (a closed terminal or honor quad). */
  lemma {:induction false} MeldsFuBound(ms: seq<Mentsu>, n: nat)
    requires n <= |ms|
    ensures MeldsFu(ms, n) <= 32 * n
  {
    if n > 0 {
      MeldsFuBound(ms, n - 1);
      var m := ms[n - 1];
      assert MeldFu(m) <= 32;
    }
  }

  /** The pair: a dragon 2, a wind 2 per matching wind (4 for a double
      wind), a suited tile nothing; never more than 4. */
  lemma PairFuValues(t: Hai, player: PlayerContext, game: GameContext)
    ensures t.Sangenhai? ==> PairFu(t, player, game) == 2
    ensures t.Suhai? ==> PairFu(t, player, game) == 0
    ensures t.Kazehai? ==>
      PairFu(t, player, game) == (if t.kaze == game.bakaze then 2 else 0) + (if t.kaze == player.jikaze then 2 else 0)
    ensures t.Kazehai? && t.kaze == game.bakaze && t.kaze == player.jikaze ==> PairFu(t, player, game) == 4
    ensures PairFu(t, player, game) <= 4
  {
  }

  /** Rounding up to 10: a multiple of 10, no less than the input and less
      than 10 above it. */
  lemma RoundUp10Spec(n: nat)
    ensures RoundUp10(n) % 10 == 0 && n <= RoundUp10(n) < n + 10
  {
    var q := (n + 9) / 10;
    assert q * 10 <= n + 9 < q * 10 + 10;
  }

  /** A four-melds-one-pair hand without chiitoitsu or pinfu in its list
      scores a multiple of 10 between 20 and 170 (so it fits the source's
      byte-wide result): 20 base, at most 10 for the way of winning, 128 for
      the melds, 4 for the pair and 2 for the wait. */
  lemma HandFuBounds(s: HandStructure, ys: seq<Yaku>, player: PlayerContext, game: GameContext, agariType: AgariType)
    requires s.YonmentsuIchiatama? || s.ChuurenPoutou?
    requires Yaku.Chiitoitsu !in ys && Pinfu !in ys
    ensures var fu := Fu(s, ys, player, game, agariType);
      fu % 10 == 0 && 20 <= fu <= 170
  {
    var h := s.hand;
    var raw := RawFu(h, player, game, agariType);
    MeldsFuBound(h.mentsu, 4);
    PairFuValues(h.atama.0, player, game);
    RoundUp10Spec(raw);
    assert Fu(s, ys, player, game, agariType) == RoundUp10(raw);
    assert 20 <= raw <= 164;
    assert RoundUp10(raw) <= 170 by {
      assert RoundUp10(raw) < raw + 10 <= 174;
    }
  }

  /** The fixed answers: seven pairs in the list gives 25; else pinfu gives
      20 on tsumo and 30 on ron; else a seven-pairs structure 25 and a
      thirteen-orphans structure 0. */
  lemma FixedFu(s: HandStructure, ys: seq<Yaku>, player: PlayerContext, game: GameContext, agariType: AgariType)
    ensures Yaku.Chiitoitsu in ys ==> Fu(s, ys, player, game, agariType) == 25
    ensures Yaku.Chiitoitsu !in ys && Pinfu in ys ==>
      Fu(s, ys, player, game, agariType) == (if agariType == Tsumo then 20 else 30)
    ensures Yaku.Chiitoitsu !in ys && Pinfu !in ys && s.Chiitoitsu? ==> Fu(s, ys, player, game, agariType) == 25
    ensures Yaku.Chiitoitsu !in ys && Pinfu !in ys && s.KokushiMusou? ==> Fu(s, ys, player, game, agariType) == 0
  {
  }

  /** The general count has no floor beyond the base: an open hand won by
      ron on an open wait, with only sequences and a plain pair, scores 20,
      while the same hand closed scores 30 and won by tsumo scores 30. */
  lemma NoFuHand(h: AgariHand, player: PlayerContext, game: GameContext, agariType: AgariType)
    requires forall k :: 0 <= k < 4 ==> h.mentsu[k].mentsuType == Shuntsu
    requires h.atama.0.Suhai? && h.machi == Ryanmen
    ensures RoundUp10(RawFu(h, player, game, agariType)) ==
      (if agariType == Ron && !player.isMenzen then 20 else 30)
  {
    assert MeldsFu(h.mentsu, 4) == 0 by {
      assert MeldsFu(h.mentsu, 1) == 0;
      assert MeldsFu(h.mentsu, 2) == 0;
      assert MeldsFu(h.mentsu, 3) == 0;
    }
  }
}
