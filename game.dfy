/** Per-player and per-round context of a win (the `game` types of
    src/implements/types.rs). */
module GameTypes {
  import opened Tiles

  datatype AgariType = Tsumo | Ron

  datatype PlayerContext = PlayerContext(
    jikaze: Kaze,
    isOya: bool,
    isRiichi: bool,
    isDaburuRiichi: bool,
    isIppatsu: bool,
    isMenzen: bool)

  datatype GameContext = GameContext(
    bakaze: Kaze,
    honba: nat,
    doraIndicators: seq<Hai>,
    uradoraIndicators: seq<Hai>,
    numAkadora: nat,
    isTenhou: bool,
    isChiihou: bool,
    isRenhou: bool,
    isHaitei: bool,
    isHoutei: bool,
    isRinshan: bool,
    isChankan: bool)
}
