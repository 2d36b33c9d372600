/** Nine gates (src/implements/yaku_checkers/yakuman/chuuren.rs): a closed
    one-suit hand holding 1112345678999 of its suit plus one more tile. */
module ChuurenCheck {
  import opened Tiles
  import opened HandTypes
  import opened Wrappers
  import opened YakuUtils
  import opened ColorCheck

  /** Copies of each rank the shape needs: three terminals, one of each
      middle rank. */
  function Required(num: nat): nat
  {
    if num == 1 || num == 9 then 3 else 1
  }

  /** Copies of each rank of suit s among the tiles (slot r is rank r+1). */
  function RankCounts(ts: seq<Hai>, s: Suit): (c: seq<nat>)
    ensures |c| == TILES_PER_SUHAI
  {
    seq(TILES_PER_SUHAI, r requires 0 <= r < TILES_PER_SUHAI => Occurrences(ts, Suhai(r + 1, s)))
  }

  /** Ranks among the first n slots holding one copy more than required. */
  function ExtraCount(c: seq<nat>, n: nat): nat
    requires n <= |c|
  {
    if n == 0 then 0
    else ExtraCount(c, n - 1) + (if c[n - 1] == Required(n) + 1 then 1 else 0)
  }

  /** Every slot at its requirement or one above, among the first n. */
  predicate WithinShape(c: seq<nat>, n: nat)
    requires n <= |c|
  {
    forall r :: 0 <= r < n ==> Required(r + 1) <= c[r] <= Required(r + 1) + 1
  }

  /** The nine-gates count shape: every rank at its requirement or one above,
      and exactly one rank above. */
  predicate NineGates(c: seq<nat>)
    requires |c| == TILES_PER_SUHAI
  {
    WithinShape(c, TILES_PER_SUHAI) && ExtraCount(c, TILES_PER_SUHAI) == 1
  }

  /** check_chuuren as a statement: None unless the hand is one closed suit
      with the nine-gates shape; Some(true) when the winning tile is the rank
      held once more than required. */
  function ChuurenResult(h: AgariHand): Option<bool>
  {
    var ts := AllTiles(h);
    var chin := CheckChinitsu(ts);
    if !chin.0 then None
    else if exists k :: 0 <= k < 4 && h.mentsu[k].isMinchou then None
    else
      var suit := chin.1.value;
      var c := RankCounts(ts, suit);
      if !NineGates(c) then None
      else
        var a := h.agariHai;
        Some(a.Suhai? && a.suit == suit && c[a.number - 1] == Required(a.number) + 1)
  }

  lemma ExtraCountGrows(c: seq<nat>, m: nat, n: nat)
    requires m <= n <= |c|
    ensures ExtraCount(c, m) <= ExtraCount(c, n)
    decreases n - m
  {
    if m < n {
      ExtraCountGrows(c, m + 1, n);
    }
  }

  /** With one extra rank in all nine, any two extra ranks are the same. */
  lemma {:induction false} ExtraUnique(c: seq<nat>, n: nat, a: nat, b: nat)
    requires n <= |c| && ExtraCount(c, n) <= 1
    requires a < n && c[a] == Required(a + 1) + 1
    requires b < n && c[b] == Required(b + 1) + 1
    ensures a == b
  {
    if a != n - 1 && b != n - 1 {
      ExtraUnique(c, n - 1, a, b);
    } else if a != n - 1 || b != n - 1 {
      var other := if a == n - 1 then b else a;
      ExtraCountItem(c, n - 1, other);
    }
  }

  /** An extra rank among the first n counts at least once. */
  lemma {:induction false} ExtraCountItem(c: seq<nat>, n: nat, a: nat)
    requires a < n <= |c| && c[a] == Required(a + 1) + 1
    ensures ExtraCount(c, n) >= 1
  {
    if a < n - 1 {
      ExtraCountItem(c, n - 1, a);
    }
  }

  /** Total copies among the first n slots. */
  function SlotSum(c: seq<nat>, n: nat): nat
    requires n <= |c|
  {
    if n == 0 then 0 else SlotSum(c, n - 1) + c[n - 1]
  }

  /** Copies the shape needs among the first n ranks. */
  function RequiredSum(n: nat): nat
  {
    if n == 0 then 0 else RequiredSum(n - 1) + Required(n)
  }

  /** Within the shape, the total is the requirement plus the extras. */
  lemma {:induction false} ShapeSum(c: seq<nat>, n: nat)
    requires n <= |c| && WithinShape(c, n)
    ensures SlotSum(c, n) == RequiredSum(n) + ExtraCount(c, n)
  {
    if n > 0 {
      ShapeSum(c, n - 1);
    }
  }

  /** Counting one more tile raises exactly the slot of its rank, if it is
      of suit s. */
  lemma {:induction false} RankSumSnoc(ts: seq<Hai>, t: Hai, s: Suit, n: nat)
    requires n <= TILES_PER_SUHAI
    ensures SlotSum(RankCounts(ts + [t], s), n) ==
      SlotSum(RankCounts(ts, s), n) + (if t.Suhai? && t.suit == s && t.number <= n then 1 else 0)
  {
    if n > 0 {
      RankSumSnoc(ts, t, s, n - 1);
      assert multiset(ts + [t]) == multiset(ts) + multiset{t};
    }
  }

  /** When every tile is of suit s, the rank counts add up to the tile count. */
  lemma {:induction false} RankSumAll(ts: seq<Hai>, s: Suit)
    requires forall i :: 0 <= i < |ts| ==> ts[i].Suhai? && ts[i].suit == s
    ensures SlotSum(RankCounts(ts, s), TILES_PER_SUHAI) == |ts|
  {
    if ts == [] {
      assert forall r :: 0 <= r < TILES_PER_SUHAI ==> RankCounts(ts, s)[r] == 0;
      ZeroSum(RankCounts(ts, s), TILES_PER_SUHAI);
    } else {
      var init, last := ts[..|ts| - 1], ts[|ts| - 1];
      assert ts == init + [last];
      RankSumAll(init, s);
      RankSumSnoc(init, last, s, TILES_PER_SUHAI);
    }
  }

  lemma {:induction false} ZeroSum(c: seq<nat>, n: nat)
    requires n <= |c| && forall r :: 0 <= r < n ==> c[r] == 0
    ensures SlotSum(c, n) == 0
  {
    if n > 0 {
      ZeroSum(c, n - 1);
    }
  }

  /** Any nine-gates result needs a chinitsu hand without open melds, of
      exactly fourteen tiles (3 + 7 + 3 + 1), hence without quads. */
  lemma ChuurenShape(h: AgariHand)
    requires ChuurenResult(h).Some?
    ensures CheckChinitsu(AllTiles(h)).0
    ensures forall k :: 0 <= k < 4 ==> !h.mentsu[k].isMinchou
    ensures |AllTiles(h)| == STANDARD_HAND_SIZE && QuadCount(h.mentsu, 4) == 0
  {
    var ts := AllTiles(h);
    var chin := CheckChinitsu(ts);
    var c := RankCounts(ts, chin.1.value);
    RankSumAll(ts, chin.1.value);
    ShapeSum(c, TILES_PER_SUHAI);
    assert RequiredSum(TILES_PER_SUHAI) == 13;
    AllTilesLength(h);
  }

  /** Pure nine gates: without the winning tile the hand is exactly
      1112345678999 of its suit, the nine-sided wait. */
  lemma JunseiPureShape(h: AgariHand)
    requires ChuurenResult(h) == Some(true)
    ensures var ts := AllTiles(h);
      var suit := CheckChinitsu(ts).1.value;
      var a := h.agariHai;
      a.Suhai? && a.suit == suit &&
      forall q :: 0 <= q < TILES_PER_SUHAI ==>
        RankCounts(ts, suit)[q] == Required(q + 1) + (if q + 1 == a.number then 1 else 0)
  {
    var ts := AllTiles(h);
    var c := RankCounts(ts, CheckChinitsu(ts).1.value);
    var a := h.agariHai;
    forall q | 0 <= q < TILES_PER_SUHAI
      ensures c[q] == Required(q + 1) + (if q + 1 == a.number then 1 else 0)
    {
      if q + 1 != a.number && c[q] != Required(q + 1) {
        ExtraUnique(c, TILES_PER_SUHAI, q, a.number - 1);
      }
    }
  }

  /** Impure nine gates: the winning tile's rank is held exactly as often as
      the shape requires, so the extra copy was already in the hand (for a
      hand that holds its winning tile, as every organised hand does). */
  lemma ImpureExtraBeforeWin(h: AgariHand)
    requires ChuurenResult(h) == Some(false) && h.agariHai in AllTiles(h)
    ensures var ts := AllTiles(h);
      var suit := CheckChinitsu(ts).1.value;
      var a := h.agariHai;
      a.Suhai? && a.suit == suit && RankCounts(ts, suit)[a.number - 1] == Required(a.number)
  {
    var ts := AllTiles(h);
    var chin := CheckChinitsu(ts);
    var k :| 0 <= k < |ts| && ts[k] == h.agariHai;
    assert WithinShape(RankCounts(ts, chin.1.value), TILES_PER_SUHAI);
  }

  /** The counting loop of check_chuuren: a nine-slot array of the ranks
      of suit s among the tiles. */
  method CountRanks(allTiles: seq<Hai>, suit: Suit) returns (counts: array<nat>)
    ensures fresh(counts) && counts[..] == RankCounts(allTiles, suit)
  {
    counts := new nat[TILES_PER_SUHAI](_ => 0);
    var j := 0;
    while j < |allTiles|
      invariant 0 <= j <= |allTiles| && counts.Length == TILES_PER_SUHAI
      invariant forall q :: 0 <= q < TILES_PER_SUHAI ==> counts[q] == Occurrences(allTiles[..j], Suhai(q + 1, suit))
    {
      var t := allTiles[j];
      assert allTiles[..j + 1] == allTiles[..j] + [t];
      assert multiset(allTiles[..j + 1]) == multiset(allTiles[..j]) + multiset{t};
      match t {
        case Suhai(n, s) =>
          if s == suit {
            counts[n - 1] := counts[n - 1] + 1;
          }
        case Kazehai(_) =>
        case Sangenhai(_) =>
      }
      j := j + 1;
    }
    assert allTiles[..j] == allTiles;
  }

  /** The scanning loop of check_chuuren: whether the counts have the
      nine-gates shape and, if so, the one rank held an extra time. */
  method ScanShape(counts: array<nat>) returns (ok: bool, extraTileNum: nat)
    requires counts.Length == TILES_PER_SUHAI
    ensures ok == NineGates(counts[..])
    ensures ok ==> 1 <= extraTileNum <= TILES_PER_SUHAI
    ensures ok ==> forall q :: 0 <= q < TILES_PER_SUHAI ==> (counts[q] == Required(q + 1) + 1 <==> q + 1 == extraTileNum)
  {
    ghost var c := counts[..];
    var hasExtra := false;
    extraTileNum := 0;
    var i := 0;
    while i < TILES_PER_SUHAI
      invariant 0 <= i <= TILES_PER_SUHAI
      invariant WithinShape(c, i) && ExtraCount(c, i) <= 1
      invariant hasExtra <==> ExtraCount(c, i) == 1
      invariant hasExtra ==> 1 <= extraTileNum <= i && c[extraTileNum - 1] == Required(extraTileNum) + 1
    {
      var num := i + 1;
      var requiredCount := if num == 1 || num == 9 then 3 else 1;
      assert requiredCount == Required(num) && counts[i] == c[i];
      if counts[i] < requiredCount {
        return false, 0;
      }
      if counts[i] == requiredCount + 1 {
        if hasExtra {
          ExtraCountGrows(c, i + 1, TILES_PER_SUHAI);
          return false, 0;
        }
        hasExtra := true;
        extraTileNum := num;
      } else if counts[i] > requiredCount + 1 {
        return false, 0;
      }
      assert WithinShape(c, i + 1);
      i := i + 1;
    }
    ok := hasExtra;
    if ok {
      forall q | 0 <= q < TILES_PER_SUHAI && c[q] == Required(q + 1) + 1
        ensures q + 1 == extraTileNum
      {
        ExtraUnique(c, TILES_PER_SUHAI, q, extraTileNum - 1);
      }
    }
  }

  /** check_chuuren: None unless the hand is one closed suit whose rank
      counts have the nine-gates shape; then whether the winning tile is the
      extra rank. */
  method CheckChuuren(h: AgariHand) returns (r: Option<bool>)
    ensures r == ChuurenResult(h)
  {
    var allTiles := GetAllTiles(h);
    var chin := CheckChinitsu(allTiles);
    if !chin.0 {
      return None;
    }
    var suit := chin.1.value;
    if !(forall k :: 0 <= k < 4 ==> !h.mentsu[k].isMinchou) {
      return None;
    }
    var counts := CountRanks(allTiles, suit);
    var ok, extraTileNum := ScanShape(counts);
    if !ok {
      return None;
    }
    var a := h.agariHai;
    r := Some(a.Suhai? && a.suit == suit && a.number == extraTileNum);
    assert a.Suhai? && a.suit == suit ==> counts[a.number - 1] == RankCounts(allTiles, suit)[a.number - 1];
  }
}
