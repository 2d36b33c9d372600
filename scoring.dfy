/** Fu constants, limit tiers and the result record
    (src/implements/types/scoring.rs). */
module ScoringTypes {
  import opened Wrappers
  import opened YakuTypes
  import opened GameTypes

  const FU_CHIITOITSU: nat := 25
  const FU_PINFU_TSUMO: nat := 20
  const FU_PINFU_RON: nat := 30
  const FU_BASE: nat := 20
  const FU_MENZEN_RON: nat := 10
  const FU_TSUMO: nat := 2
  const FU_PAIR_SINGLE_WAIT: nat := 2
  const FU_PAIR_WIND: nat := 2
  const FU_PAIR_DRAGON: nat := 2
  const FU_ROUND_UP: nat := 10

  datatype HandLimit = Mangan | Haneman | Baiman | Sanbaiman | Yakuman

  datatype AgariResult = AgariResult(
    han: nat,
    fu: nat,
    yakuList: seq<Yaku>,
    numAkadora: nat,
    limitName: Option<HandLimit>,
    oyaPayment: nat,
    koPayment: nat,
    totalPayment: nat,
    honba: nat,
    agariType: AgariType,
    isOya: bool)
}
