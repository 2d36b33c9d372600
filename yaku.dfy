/** The yaku vocabulary (src/implements/types/yaku.rs). The dragon yakuhai
    is split into one variant per dragon, as the yakuhai checker and the han
    table use it. */
module YakuTypes {

  datatype Yaku =
    // 1 han
    | Riichi | Ippatsu | MenzenTsumo | Pinfu | Iipeikou | HaiteiRaoyue | HouteiRaoyui
    | RinshanKaihou | Chankan | Tanyao | YakuhaiJikaze | YakuhaiBakaze
    | YakuhaiHaku | YakuhaiHatsu | YakuhaiChun
    // 2 han
    | DaburuRiichi | Chiitoitsu | SanshokuDoujun | Ittsu | Chanta | Toitoi | Sanankou
    | SanshokuDoukou | Sankantsu | Shousangen | Honroutou
    // 3 han
    | Ryanpeikou | Junchan | Honitsu
    // 6 han
    | Chinitsu
    // yakuman
    | Tenhou | Chiihou | Renhou | Daisangen | Suuankou | Daisuushi | Shousuushi
    | Tsuuiisou | Chinroutou | Ryuuiisou | Suukantsu | KokushiMusou | ChuurenPoutou
    | SuuankouTanki | KokushiMusouJusanmen | JunseiChuurenPoutou
    // dora credits (not yaku)
    | Dora | UraDora | AkaDora
}
