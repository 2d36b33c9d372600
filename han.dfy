/** The han of a yaku list (src/implements/score_calculator/han.rs). */
module HanCalc {
  import opened YakuTypes
  import opened Points

  /** get_han_value: the han of one entry; six entries lose one han on an
      open hand, dora credits are worth one each, yakuman nothing. */
  function HanValue(y: Yaku, isMenzen: bool): nat
  {
    match y
    case Riichi => 1
    case Ippatsu => 1
    case MenzenTsumo => 1
    case Pinfu => 1
    case Iipeikou => 1
    case HaiteiRaoyue => 1
    case HouteiRaoyui => 1
    case RinshanKaihou => 1
    case Chankan => 1
    case Tanyao => 1
    case YakuhaiJikaze => 1
    case YakuhaiBakaze => 1
    case YakuhaiHaku => 1
    case YakuhaiHatsu => 1
    case YakuhaiChun => 1
    case DaburuRiichi => 2
    case Chiitoitsu => 2
    case Toitoi => 2
    case Sanankou => 2
    case SanshokuDoukou => 2
    case Sankantsu => 2
    case Shousangen => 2
    case Honroutou => 2
    case SanshokuDoujun => if isMenzen then 2 else 1
    case Ittsu => if isMenzen then 2 else 1
    case Chanta => if isMenzen then 2 else 1
    case Ryanpeikou => 3
    case Junchan => if isMenzen then 3 else 2
    case Honitsu => if isMenzen then 3 else 2
    case Chinitsu => if isMenzen then 6 else 5
    case Dora => 1
    case UraDora => 1
    case AkaDora => 1
    case _ => 0
  }

  /** calculate_han: the values summed over the list. */
  function Han(ys: seq<Yaku>, isMenzen: bool): nat
  {
    if ys == [] then 0 else Han(ys[..|ys| - 1], isMenzen) + HanValue(ys[|ys| - 1], isMenzen)
  }

  /** The entries whose value drops on an open hand (kuisagari). */
  predicate Kuisagari(y: Yaku)
  {
    y == SanshokuDoujun || y == Ittsu || y == Chanta || y == Junchan || y == Honitsu || y == Chinitsu
  }

  /** Number of kuisagari entries in a list. */
  function KuisagariCount(ys: seq<Yaku>): nat
  {
    if ys == [] then 0 else KuisagariCount(ys[..|ys| - 1]) + (if Kuisagari(ys[|ys| - 1]) then 1 else 0)
  }

  /** An open hand loses exactly one han on each kuisagari entry and on
      nothing else: 2 to 1, 3 to 2, 6 to 5. */
  lemma HanValueOpen(y: Yaku)
    ensures HanValue(y, true) == HanValue(y, false) + (if Kuisagari(y) then 1 else 0)
  {
    if Kuisagari(y) {
      KuisagariValues(y);
    }
  }

  /** The kuisagari entries are the two-, three- and six-han entries of a
      closed hand. */
  lemma KuisagariValues(y: Yaku)
    requires Kuisagari(y)
    ensures HanValue(y, true) == HanValue(y, false) + 1
    ensures HanValue(y, true) == 2 || HanValue(y, true) == 3 || HanValue(y, true) == 6
  {
  }

  /** Every entry is worth between one and six han, except the yakuman,
      which are worth none (they are counted by weight instead). */
  lemma HanValueRange(y: Yaku, isMenzen: bool)
    ensures HanValue(y, isMenzen) == 0 <==> YakumanValue(y) > 0
    ensures HanValue(y, isMenzen) <= 6
  {
  }

  lemma {:induction false} HanAppend(a: seq<Yaku>, b: seq<Yaku>, isMenzen: bool)
    ensures Han(a + b, isMenzen) == Han(a, isMenzen) + Han(b, isMenzen)
    decreases |b|
  {
    if b == [] {
      assert a + b == a;
    } else {
      assert (a + b)[..|a + b| - 1] == a + b[..|b| - 1];
      HanAppend(a, b[..|b| - 1], isMenzen);
    }
  }

  /** For the same list, the closed hand's han is the open hand's plus one
      per kuisagari entry, so never lower. */
  lemma {:induction false} HanMenzenOpen(ys: seq<Yaku>)
    ensures Han(ys, true) == Han(ys, false) + KuisagariCount(ys)
    ensures Han(ys, true) >= Han(ys, false)
    decreases |ys|
  {
    if ys != [] {
      HanMenzenOpen(ys[..|ys| - 1]);
      HanValueOpen(ys[|ys| - 1]);
    }
  }

  /** A list without yakuman is worth at least one han per entry and at
      most six. */
  lemma {:induction false} HanBounds(ys: seq<Yaku>, isMenzen: bool)
    requires forall y :: y in ys ==> YakumanValue(y) == 0
    ensures |ys| <= Han(ys, isMenzen) <= 6 * |ys|
    decreases |ys|
  {
    if ys != [] {
      assert ys[|ys| - 1] in ys;
      assert forall y :: y in ys[..|ys| - 1] ==> y in ys;
      HanBounds(ys[..|ys| - 1], isMenzen);
      HanValueRange(ys[|ys| - 1], isMenzen);
    }
  }
}
