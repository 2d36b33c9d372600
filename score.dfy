/** The payment matrix and the final result
    (src/implements/score_calculator/mod.rs). */
module ScoreCalc {
  import opened Wrappers
  import opened GameTypes
  import opened YakuTypes
  import opened ScoringTypes
  import opened YakuCheck
  import opened Points
  import opened HanCalc
  import opened FuCalc

  /** What the winner receives: (from the dealer on a non-dealer tsumo, or
      from each player on a dealer tsumo; from each non-dealer on a
      non-dealer tsumo; in total). Tsumo pays 100 per honba counter from
      each of the three payers, ron 300 from the discarder. */
  function Payments(basic: nat, isOya: bool, agariType: AgariType, honba: nat): (nat, nat, nat)
  {
    var tsumoBonus, ronBonus := honba * 100, honba * 300;
    match (isOya, agariType)
    case (true, Tsumo) =>
      var p := RoundUp100(basic * 2);
      (p, 0, (p + tsumoBonus) * 3)
    case (false, Tsumo) =>
      var oyaP, koP := RoundUp100(basic * 2), RoundUp100(basic * 1);
      (oyaP, koP, (oyaP + tsumoBonus) + (koP + tsumoBonus) * 2)
    case (true, Ron) => (0, 0, RoundUp100(basic * 6) + ronBonus)
    case (false, Ron) => (0, 0, RoundUp100(basic * 4) + ronBonus)
  }

  /** calculate_score: a list with yakuman scores 13 han and 8000 basic
      points per yakuman weight, with no red-five credit; any other list
      scores its han and fu through the basic-point tiers. */
  function CalculateScore(yr: YakuResult, player: PlayerContext, game: GameContext, agariType: AgariType)
    : (r: AgariResult)
    ensures r.fu == Fu(yr.handStructure, yr.yakuList, player, game, agariType)
    ensures r.yakuList == yr.yakuList && r.honba == game.honba && r.agariType == agariType && r.isOya == player.isOya
  {
    var numYakuman := YakumanCount(yr.yakuList);
    var fu := Fu(yr.handStructure, yr.yakuList, player, game, agariType);
    if numYakuman > 0 then
      var (oya, ko, total) := Payments(8000 * numYakuman, player.isOya, agariType, game.honba);
      AgariResult(13 * numYakuman, fu, yr.yakuList, 0, Some(HandLimit.Yakuman), oya, ko, total,
                  game.honba, agariType, player.isOya)
    else
      var han := Han(yr.yakuList, player.isMenzen);
      var (basic, limit) := BasicPoints(han, fu);
      var (oya, ko, total) := Payments(basic, player.isOya, agariType, game.honba);
      AgariResult(han, fu, yr.yakuList, yr.numAkadora, limit, oya, ko, total, game.honba, agariType, player.isOya)
  }

  // ---------------------------------------------------------------------
  // Properties of the payment matrix
  // ---------------------------------------------------------------------

  /** The rounded amount as a count of hundreds. */
  lemma RoundUp100Hundreds(n: nat) returns (q: nat)
    ensures RoundUp100(n) == 100 * q && n <= 100 * q
  {
    q := (n + 99) / 100;
    RoundUp100Least(n);
  }

  /** Rounding up never passes a multiple of 100 that covers the amount. */
  lemma RoundUp100Below(n: nat, q: nat)
    requires n <= 100 * q
    ensures RoundUp100(n) <= 100 * q
  {
    RoundUp100Least(n);
    assert (100 * q) % 100 == 0;
  }

  lemma HundredsMod(x: nat, t: nat)
    requires x == 100 * t
    ensures x % 100 == 0
  {
  }

  /** Every payment is a whole number of hundreds. */
  lemma PaymentsHundreds(basic: nat, isOya: bool, agariType: AgariType, honba: nat)
    ensures var (oya, ko, total) := Payments(basic, isOya, agariType, honba);
      oya % 100 == 0 && ko % 100 == 0 && total % 100 == 0
  {
    var (oya, ko, total) := Payments(basic, isOya, agariType, honba);
    var q2 := RoundUp100Hundreds(basic * 2);
    var q1 := RoundUp100Hundreds(basic * 1);
    match (isOya, agariType) {
      case (true, Tsumo) =>
        HundredsMod(oya, q2);
        HundredsMod(total, 3 * q2 + 3 * honba);
      case (false, Tsumo) =>
        HundredsMod(oya, q2);
        HundredsMod(ko, q1);
        HundredsMod(total, q2 + 2 * q1 + 3 * honba);
      case (true, Ron) =>
        var q6 := RoundUp100Hundreds(basic * 6);
        HundredsMod(total, q6 + 3 * honba);
      case (false, Ron) =>
        var q4 := RoundUp100Hundreds(basic * 4);
        HundredsMod(total, q4 + 3 * honba);
    }
  }

  /** The honba counters add exactly 300 per counter to the total and leave
      the individual shares alone. */
  lemma PaymentsHonba(basic: nat, isOya: bool, agariType: AgariType, honba: nat)
    ensures var (oya, ko, total) := Payments(basic, isOya, agariType, honba);
      var (oya0, ko0, total0) := Payments(basic, isOya, agariType, 0);
      oya == oya0 && ko == ko0 && total == total0 + 300 * honba
  {
  }

  /** Who pays what: a dealer tsumo is three equal shares of twice the
      basic points, a non-dealer tsumo one dealer share of twice and two
      shares of once, a ron one payment of six (dealer) or four times the
      basic points, each rounded up to 100. */
  lemma PaymentShares(basic: nat, isOya: bool, agariType: AgariType, honba: nat)
    ensures var (oya, ko, total) := Payments(basic, isOya, agariType, honba);
      && (agariType == Tsumo && isOya ==> ko == 0 && oya == RoundUp100(2 * basic) && total == 3 * oya + 300 * honba)
      && (agariType == Tsumo && !isOya ==>
            oya == RoundUp100(2 * basic) && ko == RoundUp100(basic) && total == oya + 2 * ko + 300 * honba)
      && (agariType == Ron ==>
            oya == 0 && ko == 0 && total == RoundUp100((if isOya then 6 else 4) * basic) + 300 * honba)
  {
  }

  /** Rounding each share up never pays less than rounding the total once:
      a tsumo is worth at least the ron of the same hand. */
  lemma TsumoCoversRon(basic: nat, isOya: bool, honba: nat)
    ensures Payments(basic, isOya, Tsumo, honba).2 >= Payments(basic, isOya, Ron, honba).2
  {
    var q2 := RoundUp100Hundreds(basic * 2);
    if isOya {
      RoundUp100Below(basic * 6, 3 * q2);
    } else {
      var q1 := RoundUp100Hundreds(basic * 1);
      RoundUp100Below(basic * 4, q2 + 2 * q1);
    }
  }

  /** The dealer's total is never below a non-dealer's for the same hand. */
  lemma DealerCoversNonDealer(basic: nat, agariType: AgariType, honba: nat)
    ensures Payments(basic, true, agariType, honba).2 >= Payments(basic, false, agariType, honba).2
  {
    RoundUp100Monotone(basic * 1, basic * 2);
    RoundUp100Monotone(basic * 4, basic * 6);
  }

  /** More basic points never lower any payment. */
  lemma PaymentsMonotone(b1: nat, b2: nat, isOya: bool, agariType: AgariType, honba: nat)
    requires b1 <= b2
    ensures var (o1, k1, t1) := Payments(b1, isOya, agariType, honba);
      var (o2, k2, t2) := Payments(b2, isOya, agariType, honba);
      o1 <= o2 && k1 <= k2 && t1 <= t2
  {
    RoundUp100Monotone(b1 * 1, b2 * 1);
    RoundUp100Monotone(b1 * 2, b2 * 2);
    RoundUp100Monotone(b1 * 4, b2 * 4);
    RoundUp100Monotone(b1 * 6, b2 * 6);
  }

  /** The standard limit payments: a mangan is 8000 on a non-dealer ron,
      12000 on a dealer ron, 2000/4000 on a non-dealer tsumo and 4000 all
      on a dealer tsumo; a single yakuman is four mangan. */
  lemma LimitPayments(honba: nat)
    ensures Payments(2000, false, Ron, honba) == (0, 0, 8000 + 300 * honba)
    ensures Payments(2000, true, Ron, honba) == (0, 0, 12000 + 300 * honba)
    ensures Payments(2000, false, Tsumo, honba) == (4000, 2000, 8000 + 300 * honba)
    ensures Payments(2000, true, Tsumo, honba) == (4000, 0, 12000 + 300 * honba)
    ensures Payments(8000, false, Ron, honba) == (0, 0, 32000 + 300 * honba)
    ensures Payments(8000, true, Ron, honba) == (0, 0, 48000 + 300 * honba)
  {
  }

  /** A two-han, twenty-fu non-dealer tsumo (pinfu tsumo): 320 basic
      points, paid 700 by the dealer and 400 by each other player. */
  lemma PinfuTsumoExample()
    ensures BasicPoints(2, 20) == (320, None)
    ensures Payments(320, false, Tsumo, 0) == (700, 400, 1500)
  {
    assert Pow2(4) == 16;
  }

  // ---------------------------------------------------------------------
  // Properties of the result
  // ---------------------------------------------------------------------

  /** A list carrying yakuman is scored purely on its yakuman weight n:
      13n han, the yakuman limit, 8000n basic points and no red-five
      credit. */
  lemma YakumanScore(yr: YakuResult, player: PlayerContext, game: GameContext, agariType: AgariType)
    requires YakumanCount(yr.yakuList) > 0
    ensures var r := CalculateScore(yr, player, game, agariType);
      var n := YakumanCount(yr.yakuList);
      && r.han == 13 * n && r.limitName == Some(HandLimit.Yakuman) && r.numAkadora == 0
      && (r.oyaPayment, r.koPayment, r.totalPayment) == Payments(8000 * n, player.isOya, agariType, game.honba)
  {
  }

  /** Any other list is scored on its han for the player's openness and its
      fu, keeps the red-five credit, and is paid on the tiered basic points
      (at most 8000); it reaches the yakuman limit only by counting 13 han. */
  lemma RegularScore(yr: YakuResult, player: PlayerContext, game: GameContext, agariType: AgariType)
    requires YakumanCount(yr.yakuList) == 0
    ensures var r := CalculateScore(yr, player, game, agariType);
      var (basic, limit) := BasicPoints(r.han, r.fu);
      && r.han == Han(yr.yakuList, player.isMenzen)
      && r.limitName == limit && r.numAkadora == yr.numAkadora
      && (r.oyaPayment, r.koPayment, r.totalPayment) == Payments(basic, player.isOya, agariType, game.honba)
      && basic <= 8000
      && (r.limitName == Some(HandLimit.Yakuman) <==> r.han >= 13)
  {
    var r := CalculateScore(yr, player, game, agariType);
    BasicPointsLimits(r.han, r.fu);
  }

  /** For a fixed fu, a regular hand with more han is never paid less. */
  lemma MoreHanPaysMore(h1: nat, h2: nat, fu: nat, isOya: bool, agariType: AgariType, honba: nat)
    requires h1 <= h2
    ensures Payments(BasicPoints(h1, fu).0, isOya, agariType, honba).2
         <= Payments(BasicPoints(h2, fu).0, isOya, agariType, honba).2
  {
    BasicPointsMonotoneHan(h1, h2, fu);
    PaymentsMonotone(BasicPoints(h1, fu).0, BasicPoints(h2, fu).0, isOya, agariType, honba);
  }
}
