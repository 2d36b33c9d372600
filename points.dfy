/** Basic points, the hundred rounding and the yakuman count
    (src/implements/score_calculator.rs, lines 321-383). */
module Points {
  import opened Wrappers
  import opened YakuTypes
  import opened YakuOrder
  import opened ScoringTypes

  // ---------------------------------------------------------------------
  // Basic points
  // ---------------------------------------------------------------------

  /** 2 to the k (the source's `1 << k`). */
  function Pow2(k: nat): (r: nat)
    ensures r >= 1
  {
    if k == 0 then 1 else 2 * Pow2(k - 1)
  }

  /** The basic points of each limit. */
  function LimitPoints(l: HandLimit): nat
  {
    match l
    case Mangan => 2000
    case Haneman => 3000
    case Baiman => 4000
    case Sanbaiman => 6000
    case Yakuman => 8000
  }

  /** calculate_basic_points: the limits from five han up, fu times 2 to the
      (han + 2) below, promoted to mangan from 2000 points. */
  function BasicPoints(han: nat, fu: nat): (nat, Option<HandLimit>)
  {
    if han >= 13 then (8000, Some(Yakuman))
    else if han >= 11 then (6000, Some(Sanbaiman))
    else if han >= 8 then (4000, Some(Baiman))
    else if han >= 6 then (3000, Some(Haneman))
    else if han == 5 then (2000, Some(Mangan))
    else
      var basic := fu * Pow2(han + 2);
      if basic >= 2000 then (2000, Some(Mangan)) else (basic, None)
  }

  /** A limited hand scores its limit's points; an unlimited one is a hand
      under five han whose fu times 2 to the (han + 2) stays below 2000, and
      scores exactly that. The points never exceed 8000. */
  lemma BasicPointsLimits(han: nat, fu: nat)
    ensures var (basic, limit) := BasicPoints(han, fu);
      && basic <= 8000
      && (limit.Some? ==> basic == LimitPoints(limit.value))
      && (limit.None? <==> han < 5 && fu * Pow2(han + 2) < 2000)
      && (limit.None? ==> basic == fu * Pow2(han + 2))
      && (limit == Some(Yakuman) <==> han >= 13)
      && (limit == Some(Sanbaiman) <==> 11 <= han <= 12)
      && (limit == Some(Baiman) <==> 8 <= han <= 10)
      && (limit == Some(Haneman) <==> 6 <= han <= 7)
      && (limit == Some(Mangan) <==> han == 5 || (han < 5 && fu * Pow2(han + 2) >= 2000))
  {
  }

  lemma {:induction false} Pow2Monotone(a: nat, b: nat)
    requires a <= b
    ensures Pow2(a) <= Pow2(b)
    decreases b
  {
    if a < b {
      Pow2Monotone(a, b - 1);
    }
  }

  lemma MulMonotone(x: nat, y: nat, k: nat)
    requires y <= k
    ensures x * y <= x * k
  {
  }

  /** More han never scores fewer basic points, for any fu. */
  lemma BasicPointsMonotoneHan(h1: nat, h2: nat, fu: nat)
    requires h1 <= h2
    ensures BasicPoints(h1, fu).0 <= BasicPoints(h2, fu).0
  {
    if h2 < 5 {
      Pow2Monotone(h1 + 2, h2 + 2);
      MulMonotone(fu, Pow2(h1 + 2), Pow2(h2 + 2));
    }
  }

  /** More fu never scores fewer basic points, for any han. */
  lemma BasicPointsMonotoneFu(han: nat, f1: nat, f2: nat)
    requires f1 <= f2
    ensures BasicPoints(han, f1).0 <= BasicPoints(han, f2).0
  {
    if han < 5 {
      MulMonotone(Pow2(han + 2), f1, f2);
      assert f1 * Pow2(han + 2) <= f2 * Pow2(han + 2);
    }
  }

  // ---------------------------------------------------------------------
  // Rounding
  // ---------------------------------------------------------------------

  /** round_up_100. */
  function RoundUp100(n: nat): nat
  {
    (n + 99) / 100 * 100
  }

  /** The least multiple of 100 that is at least n. */
  lemma RoundUp100Least(n: nat)
    ensures RoundUp100(n) % 100 == 0 && n <= RoundUp100(n) < n + 100
    ensures forall m: nat :: m % 100 == 0 && n <= m ==> RoundUp100(n) <= m
  {
    var q := (n + 99) / 100;
    assert q * 100 <= n + 99 < q * 100 + 100;
    forall m: nat | m % 100 == 0 && n <= m
      ensures RoundUp100(n) <= m
    {
      var k := m / 100;
      assert m == k * 100;
      assert (q - 1) * 100 < n;
    }
  }

  /** Rounding keeps multiples of 100 and never lowers a larger amount. */
  lemma RoundUp100Monotone(a: nat, b: nat)
    requires a <= b
    ensures RoundUp100(a) <= RoundUp100(b)
    ensures a % 100 == 0 ==> RoundUp100(a) == a
  {
    RoundUp100Least(a);
    RoundUp100Least(b);
  }

  // ---------------------------------------------------------------------
  // Yakuman count
  // ---------------------------------------------------------------------

  /** The yakuman weight of an entry: 2 for the three double forms, 1 for
      the thirteen single yakuman, 0 for everything else. */
  function YakumanValue(y: Yaku): nat
  {
    match y
    case SuuankouTanki => 2
    case KokushiMusouJusanmen => 2
    case JunseiChuurenPoutou => 2
    case Tenhou => 1
    case Chiihou => 1
    case Renhou => 1
    case Daisangen => 1
    case Suuankou => 1
    case Daisuushi => 1
    case Shousuushi => 1
    case Tsuuiisou => 1
    case Chinroutou => 1
    case Ryuuiisou => 1
    case Suukantsu => 1
    case KokushiMusou => 1
    case ChuurenPoutou => 1
    case _ => 0
  }

  /** count_yakuman: the weights summed over the list. */
  function YakumanCount(ys: seq<Yaku>): nat
  {
    if ys == [] then 0 else YakumanCount(ys[..|ys| - 1]) + YakumanValue(ys[|ys| - 1])
  }

  /** The weighted entries are exactly those the checkers push after all
      regular yaku (positions 30..45 of the push order). */
  lemma YakumanValueOrd(y: Yaku)
    ensures YakumanValue(y) > 0 <==> Ord(y) >= 30
    ensures YakumanValue(y) <= 2
  {
  }

  lemma {:induction false} YakumanCountAppend(a: seq<Yaku>, b: seq<Yaku>)
    ensures YakumanCount(a + b) == YakumanCount(a) + YakumanCount(b)
    decreases |b|
  {
    if b == [] {
      assert a + b == a;
    } else {
      assert (a + b)[..|a + b| - 1] == a + b[..|b| - 1];
      YakumanCountAppend(a, b[..|b| - 1]);
    }
  }

  /** The count is zero exactly when no entry is a yakuman, and lies
      between the number of yakuman entries and twice that. */
  lemma {:induction false} YakumanCountZero(ys: seq<Yaku>)
    ensures YakumanCount(ys) == 0 <==> forall y :: y in ys ==> Ord(y) < 30
    ensures (forall y :: y in ys ==> Ord(y) >= 30) ==> |ys| <= YakumanCount(ys) <= 2 * |ys|
    decreases |ys|
  {
    if ys != [] {
      var init, last := ys[..|ys| - 1], ys[|ys| - 1];
      assert ys == init + [last];
      YakumanCountZero(init);
      YakumanValueOrd(last);
      assert forall y :: y in ys <==> y in init || y == last;
    }
  }
}
