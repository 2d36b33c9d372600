/** The yakuman checkers (src/implements/yaku_checkers/yakuman/mod.rs):
    the game-state yakuman, the yakuman of an ordinary hand, all-honors
    seven pairs, and the double-yakuman overrides. */
module YakumanCheck {
  import opened Tiles
  import opened HandTypes
  import opened GameTypes
  import opened Wrappers
  import opened YakuTypes
  import opened YakuOrder
  import opened YakuUtils
  import opened ChuurenCheck

  // ---------------------------------------------------------------------
  // Game-state yakuman
  // ---------------------------------------------------------------------

  function GameStatePattern(): (p: seq<Yaku>)
    ensures |p| == 3 && Increasing(p) && Ord(p[0]) == 30 && Ord(p[2]) == 32
  {
    var p := [Tenhou, Chiihou, Renhou];
    assert forall i :: 0 <= i < 3 ==> Ord(p[i]) == 30 + i;
    p
  }

  function GameStateFlags(game: GameContext): (f: seq<bool>)
    ensures |f| == 3
  {
    [game.isTenhou, game.isChiihou, game.isRenhou]
  }

  /** check_game_state_yakuman: the declared first-turn wins. */
  function GameStateYakuman(game: GameContext): seq<Yaku>
  {
    Pushes(GameStatePattern(), GameStateFlags(game), 3)
  }

  method CheckGameStateYakuman(player: PlayerContext, game: GameContext) returns (yaku: seq<Yaku>)
    ensures yaku == GameStateYakuman(game)
  {
    yaku := Opt(game.isTenhou, Tenhou);
    yaku := yaku + Opt(game.isChiihou, Chiihou);
    yaku := yaku + Opt(game.isRenhou, Renhou);
    Unroll3(GameStatePattern(), GameStateFlags(game));
  }

  /** Each first-turn yakuman is listed exactly when the game declares it,
      each at most once, and nothing else is listed. */
  lemma GameStateEntries(game: GameContext)
    ensures var ys := GameStateYakuman(game);
      && (Tenhou in ys <==> game.isTenhou)
      && (Chiihou in ys <==> game.isChiihou)
      && (Renhou in ys <==> game.isRenhou)
      && Increasing(ys) && |ys| <= 3
      && forall y :: y in ys ==> 30 <= Ord(y) <= 32
  {
    var p, f := GameStatePattern(), GameStateFlags(game);
    PushesMember(p, f, 3, 0);
    PushesMember(p, f, 3, 1);
    PushesMember(p, f, 3, 2);
    PushesLength(p, f, 3);
    PushesIncreasing(p, f, 3);
  }

  // ---------------------------------------------------------------------
  // Yakuman of an ordinary hand
  // ---------------------------------------------------------------------

  /** Every tile an honor (tsuuiisou). */
  predicate AllJihai(ts: seq<Hai>)
  {
    forall i :: 0 <= i < |ts| ==> IsJihai(ts[i])
  }

  /** Every tile a terminal (chinroutou). */
  predicate AllTerminal(ts: seq<Hai>)
  {
    forall i :: 0 <= i < |ts| ==> IsTerminal(ts[i])
  }

  /** Every tile green (ryuuiisou). */
  predicate AllGreen(ts: seq<Hai>)
  {
    forall i :: 0 <= i < |ts| ==> IsGreenTile(ts[i])
  }

  /** Push positions of the yakuman entries, a few at a time (each group
      is cheap to evaluate on its own). */
  lemma TileYakumanOrds()
    ensures Ord(Tsuuiisou) == 33 && Ord(Chinroutou) == 34 && Ord(Ryuuiisou) == 35
  {
  }

  lemma MeldYakumanOrds()
    ensures Ord(Suukantsu) == 36 && Ord(SuuankouTanki) == 37 && Ord(Suuankou) == 38
  {
  }

  lemma HonorYakumanOrds()
    ensures Ord(Daisangen) == 39 && Ord(Daisuushi) == 40 && Ord(Shousuushi) == 41
  {
  }

  lemma ChuurenYakumanOrds()
    ensures Ord(JunseiChuurenPoutou) == 42 && Ord(Yaku.ChuurenPoutou) == 43
  {
  }

  /** The order check_standard_yakuman pushes in. */
  function StandardYakumanPattern(): (p: seq<Yaku>)
    ensures |p| == 11 && Increasing(p) && Ord(p[0]) == 33 && Ord(p[10]) == 43
  {
    var p := [Tsuuiisou, Chinroutou, Ryuuiisou, Suukantsu, SuuankouTanki, Suuankou,
              Daisangen, Daisuushi, Shousuushi, JunseiChuurenPoutou, Yaku.ChuurenPoutou];
    TileYakumanOrds();
    MeldYakumanOrds();
    HonorYakumanOrds();
    ChuurenYakumanOrds();
    assert forall i :: 0 <= i < 11 ==> Ord(p[i]) == 33 + i;
    p
  }

  /** The condition of each push, from what the checker reads off the hand:
      its tiles, quads, concealed triplets, wait, dragon and wind triplets,
      whether the pair is a wind, and check_chuuren's answer. */
  function YakumanFlags(ts: seq<Hai>, quads: nat, concealed: nat, machi: Machi, dragons: nat, winds: nat,
                        windPair: bool, chuuren: Option<bool>): (f: seq<bool>)
    ensures |f| == 11
  {
    [AllJihai(ts), AllTerminal(ts), AllGreen(ts),
     quads == 4,
     concealed == 4 && machi == Tanki, concealed == 4 && machi != Tanki,
     dragons == 3,
     winds == 4, winds != 4 && winds == 3 && windPair,
     chuuren == Some(true), chuuren == Some(false)]
  }

  function StandardYakumanFlags(h: AgariHand, agariType: AgariType): (f: seq<bool>)
    ensures |f| == 11
  {
    YakumanFlags(AllTiles(h), QuadCount(h.mentsu, 4), ConcealedCount(h.mentsu, h.agariHai, agariType, 4), h.machi,
                 DragonTriplets(h.mentsu, 4), WindTriplets(h.mentsu, 4), h.atama.0.Kazehai?, ChuurenResult(h))
  }

  /** check_standard_yakuman: the yakuman found, and check_chuuren's
      answer passed on for the hand structure. */
  function StandardYakuman(h: AgariHand, agariType: AgariType): (seq<Yaku>, Option<bool>)
  {
    (Pushes(StandardYakumanPattern(), StandardYakumanFlags(h, agariType), 11), ChuurenResult(h))
  }

  /** The tile loop of check_standard_yakuman: the three all-tiles flags. */
  method TileFlags(allTiles: seq<Hai>) returns (isTsuuiisou: bool, isChinroutou: bool, isRyuuiisou: bool)
    ensures isTsuuiisou == AllJihai(allTiles)
    ensures isChinroutou == AllTerminal(allTiles)
    ensures isRyuuiisou == AllGreen(allTiles)
  {
    isTsuuiisou, isChinroutou, isRyuuiisou := true, true, true;
    var j := 0;
    while j < |allTiles|
      invariant 0 <= j <= |allTiles|
      invariant isTsuuiisou == AllJihai(allTiles[..j])
      invariant isChinroutou == AllTerminal(allTiles[..j])
      invariant isRyuuiisou == AllGreen(allTiles[..j])
    {
      var tile := allTiles[j];
      assert forall i :: 0 <= i < j ==> allTiles[..j + 1][i] == allTiles[..j][i];
      if !IsJihai(tile) {
        isTsuuiisou := false;
      }
      if !IsTerminal(tile) {
        isChinroutou := false;
      }
      if !IsGreenTile(tile) {
        isRyuuiisou := false;
      }
      j := j + 1;
    }
    assert allTiles[..j] == allTiles;
  }

  /** The dragon and wind loops of check_standard_yakuman. */
  method HonorTriplets(h: AgariHand) returns (dragonKoutsu: nat, windKoutsu: nat)
    ensures dragonKoutsu == DragonTriplets(h.mentsu, 4)
    ensures windKoutsu == WindTriplets(h.mentsu, 4)
  {
    dragonKoutsu := 0;
    var i := 0;
    while i < 4
      invariant 0 <= i <= 4 && dragonKoutsu == DragonTriplets(h.mentsu, i)
    {
      var mentsu := h.mentsu[i];
      if IsKoutsuOrKantsu(mentsu) {
        if mentsu.tiles[0].Sangenhai? {
          dragonKoutsu := dragonKoutsu + 1;
        }
      }
      i := i + 1;
    }
    windKoutsu := 0;
    i := 0;
    while i < 4
      invariant 0 <= i <= 4 && windKoutsu == WindTriplets(h.mentsu, i)
    {
      var mentsu := h.mentsu[i];
      if IsKoutsuOrKantsu(mentsu) {
        if mentsu.tiles[0].Kazehai? {
          windKoutsu := windKoutsu + 1;
        }
      }
      i := i + 1;
    }
  }

  method CheckStandardYakuman(h: AgariHand, player: PlayerContext, game: GameContext, agariType: AgariType)
    returns (yakuman: seq<Yaku>, chuurenFlag: Option<bool>)
    ensures (yakuman, chuurenFlag) == StandardYakuman(h, agariType)
  {
    var allTiles := GetAllTiles(h);
    var isTsuuiisou, isChinroutou, isRyuuiisou := TileFlags(allTiles);
    yakuman := Opt(isTsuuiisou, Tsuuiisou);
    yakuman := yakuman + Opt(isChinroutou, Chinroutou);
    yakuman := yakuman + Opt(isRyuuiisou, Ryuuiisou);
    var _, kantsu := CountKoutsuKantsu(h);
    var concealedKoutsu := CountConcealedKoutsu(h, agariType);
    yakuman := yakuman + Opt(kantsu == 4, Suukantsu);
    var tanki, nonTanki := false, false;
    if concealedKoutsu == 4 {
      if h.machi == Tanki {
        tanki := true;
      } else {
        nonTanki := true;
      }
    }
    yakuman := yakuman + Opt(tanki, SuuankouTanki);
    yakuman := yakuman + Opt(nonTanki, Suuankou);
    var dragonKoutsu, windKoutsu := HonorTriplets(h);
    yakuman := yakuman + Opt(dragonKoutsu == 3, Daisangen);
    var windAtama := h.atama.0.Kazehai?;
    var dai, shou := false, false;
    if windKoutsu == 4 {
      dai := true;
    } else if windKoutsu == 3 && windAtama {
      shou := true;
    }
    yakuman := yakuman + Opt(dai, Daisuushi);
    yakuman := yakuman + Opt(shou, Shousuushi);
    chuurenFlag := CheckChuuren(h);
    yakuman := yakuman + Opt(chuurenFlag == Some(true), JunseiChuurenPoutou);
    yakuman := yakuman + Opt(chuurenFlag == Some(false), Yaku.ChuurenPoutou);
    YakumanPushes(allTiles, kantsu, concealedKoutsu, h.machi, dragonKoutsu, windKoutsu, windAtama, chuurenFlag);

  }

  /** The eleven pushes of check_standard_yakuman, one after another. */
  lemma YakumanPushes(ts: seq<Hai>, quads: nat, concealed: nat, machi: Machi, dragons: nat, winds: nat,
                      windPair: bool, chuuren: Option<bool>)
    ensures Pushes(StandardYakumanPattern(), YakumanFlags(ts, quads, concealed, machi, dragons, winds, windPair, chuuren), 11) ==
      Opt(AllJihai(ts), Tsuuiisou) + Opt(AllTerminal(ts), Chinroutou) + Opt(AllGreen(ts), Ryuuiisou) +
      Opt(quads == 4, Suukantsu) +
      Opt(concealed == 4 && machi == Tanki, SuuankouTanki) + Opt(concealed == 4 && machi != Tanki, Suuankou) +
      Opt(dragons == 3, Daisangen) +
      Opt(winds == 4, Daisuushi) + Opt(winds != 4 && winds == 3 && windPair, Shousuushi) +
      Opt(chuuren == Some(true), JunseiChuurenPoutou) + Opt(chuuren == Some(false), Yaku.ChuurenPoutou)
  {
    Unroll11(StandardYakumanPattern(), YakumanFlags(ts, quads, concealed, machi, dragons, winds, windPair, chuuren));
  }

  lemma StandardYakumanMember(h: AgariHand, agariType: AgariType, k: nat)
    requires k < 11
    ensures StandardYakumanPattern()[k] in StandardYakuman(h, agariType).0 <==> StandardYakumanFlags(h, agariType)[k]
  {
    PushesMember(StandardYakumanPattern(), StandardYakumanFlags(h, agariType), 11, k);
  }

  /** Each entry at most once, in push order, and only the eleven entries of
      check_standard_yakuman. */
  lemma StandardYakumanOrder(h: AgariHand, agariType: AgariType)
    ensures var ys := StandardYakuman(h, agariType).0;
      |ys| <= 11 && Increasing(ys) && forall y :: y in ys ==> 33 <= Ord(y) <= 43
  {
    var p, f := StandardYakumanPattern(), StandardYakumanFlags(h, agariType);
    PushesLength(p, f, 11);
    PushesIncreasing(p, f, 11);
  }

  /** The tile-kind yakuman as their tile conditions; all terminals rules
      out the other two. */
  lemma TileYakumanEntries(h: AgariHand, agariType: AgariType)
    ensures var ys := StandardYakuman(h, agariType).0;
      var ts := AllTiles(h);
      && (Tsuuiisou in ys <==> AllJihai(ts))
      && (Chinroutou in ys <==> AllTerminal(ts))
      && (Ryuuiisou in ys <==> AllGreen(ts))
      && (Chinroutou in ys ==> Tsuuiisou !in ys && Ryuuiisou !in ys)
  {
    StandardYakumanMember(h, agariType, 0);
    StandardYakumanMember(h, agariType, 1);
    StandardYakumanMember(h, agariType, 2);
    var ts := AllTiles(h);
    AllTilesLength(h);
    assert IsTerminal(ts[0]) ==> !IsJihai(ts[0]) && !IsGreenTile(ts[0]);
  }

  /** Four quads, four concealed triplets (the single wait making it
      double), three dragon triplets. */
  lemma MeldYakumanEntries(h: AgariHand, agariType: AgariType)
    ensures var ys := StandardYakuman(h, agariType).0;
      var c := ConcealedCount(h.mentsu, h.agariHai, agariType, 4);
      && (Suukantsu in ys <==> QuadCount(h.mentsu, 4) == 4)
      && (SuuankouTanki in ys <==> c == 4 && h.machi == Tanki)
      && (Suuankou in ys <==> c == 4 && h.machi != Tanki)
      && !(Suuankou in ys && SuuankouTanki in ys)
      && (Daisangen in ys <==> DragonTriplets(h.mentsu, 4) == 3)
  {
    StandardYakumanMember(h, agariType, 3);
    StandardYakumanMember(h, agariType, 4);
    StandardYakumanMember(h, agariType, 5);
    StandardYakumanMember(h, agariType, 6);
  }

  /** Big four winds with four wind triplets; little four winds with three
      and a wind pair, never both. */
  lemma WindYakumanEntries(h: AgariHand, agariType: AgariType)
    ensures var ys := StandardYakuman(h, agariType).0;
      var w := WindTriplets(h.mentsu, 4);
      && (Daisuushi in ys <==> w == 4)
      && (Shousuushi in ys <==> w == 3 && h.atama.0.Kazehai?)
      && !(Daisuushi in ys && Shousuushi in ys)
  {
    StandardYakumanMember(h, agariType, 7);
    StandardYakumanMember(h, agariType, 8);
  }

  /** Nine gates as check_chuuren answers, the pure form and the plain form
      never together; a nine-gates hand has no quad, so never four quads. */
  lemma ChuurenEntries(h: AgariHand, agariType: AgariType)
    ensures var ys := StandardYakuman(h, agariType).0;
      && (JunseiChuurenPoutou in ys <==> ChuurenResult(h) == Some(true))
      && (Yaku.ChuurenPoutou in ys <==> ChuurenResult(h) == Some(false))
      && !(JunseiChuurenPoutou in ys && Yaku.ChuurenPoutou in ys)
      && (JunseiChuurenPoutou in ys || Yaku.ChuurenPoutou in ys ==> Suukantsu !in ys)
  {
    StandardYakumanMember(h, agariType, 3);
    StandardYakumanMember(h, agariType, 9);
    StandardYakumanMember(h, agariType, 10);
    if ChuurenResult(h).Some? {
      ChuurenShape(h);
    }
  }

  // ---------------------------------------------------------------------
  // All-honors seven pairs
  // ---------------------------------------------------------------------

  /** check_chiitoitsu_yakuman: tsuuiisou when the first tile of every pair
      is an honor; nothing for another structure. */
  function ChiitoitsuYakuman(s: HandStructure): seq<Yaku>
  {
    if s.Chiitoitsu? && forall k :: 0 <= k < |s.pairs| ==> IsJihai(s.pairs[k].0) then [Tsuuiisou] else []
  }

  method CheckChiitoitsuYakuman(s: HandStructure) returns (ys: seq<Yaku>)
    ensures ys == ChiitoitsuYakuman(s)
  {
    if s.Chiitoitsu? {
      var pairs := s.pairs;
      var isTsuuiisou := true;
      var k := 0;
      while k < |pairs|
        invariant 0 <= k <= |pairs|
        invariant isTsuuiisou && forall q :: 0 <= q < k ==> IsJihai(pairs[q].0)
      {
        if !IsJihai(pairs[k].0) {
          isTsuuiisou := false;
          break;
        }
        k := k + 1;
      }
      if isTsuuiisou {
        return [Tsuuiisou];
      }
    }
    return [];
  }

  /** For seven pairs of matching tiles (as check_chiitoitsu builds them),
      tsuuiisou is found exactly when all fourteen tiles are honors. */
  lemma ChiitoitsuYakumanIff(s: HandStructure)
    requires s.Chiitoitsu? && forall k :: 0 <= k < |s.pairs| ==> s.pairs[k].0 == s.pairs[k].1
    ensures Tsuuiisou in ChiitoitsuYakuman(s) <==> AllJihai(PairTiles(s.pairs))
    ensures ChiitoitsuYakuman(s) == [] || ChiitoitsuYakuman(s) == [Tsuuiisou]
  {
    PairTilesJihai(s.pairs);
  }

  lemma {:induction false} PairTilesJihai(ps: seq<(Hai, Hai)>)
    requires forall k :: 0 <= k < |ps| ==> ps[k].0 == ps[k].1
    ensures AllJihai(PairTiles(ps)) <==> forall k :: 0 <= k < |ps| ==> IsJihai(ps[k].0)
  {
    if ps != [] {
      var init := ps[..|ps| - 1];
      PairTilesJihai(init);
      var last := ps[|ps| - 1];
      assert PairTiles(ps) == PairTiles(init) + [last.0, last.1];
      AllJihaiAppend(PairTiles(init), [last.0, last.1]);
      assert last.0 == last.1;
      var two := [last.0, last.1];
      assert two[0] == last.0 && two[1] == last.1;
      assert AllJihai(two) <==> IsJihai(last.0);
      assert forall k :: 0 <= k < |init| ==> init[k] == ps[k];
      assert (forall k :: 0 <= k < |ps| ==> IsJihai(ps[k].0)) <==>
        (forall k :: 0 <= k < |init| ==> IsJihai(init[k].0)) && IsJihai(last.0);
    }
  }

  lemma AllJihaiAppend(a: seq<Hai>, b: seq<Hai>)
    ensures AllJihai(a + b) <==> AllJihai(a) && AllJihai(b)
  {
    if AllJihai(a) && AllJihai(b) {
      forall i | 0 <= i < |a + b|
        ensures IsJihai((a + b)[i])
      {
        if i >= |a| {
          assert (a + b)[i] == b[i - |a|];
        }
      }
    }
    if AllJihai(a + b) {
      assert forall i :: 0 <= i < |a| ==> (a + b)[i] == a[i];
      assert forall i :: 0 <= i < |b| ==> (a + b)[|a| + i] == b[i];
    }
  }

  // ---------------------------------------------------------------------
  // Double-yakuman overrides
  // ---------------------------------------------------------------------

  /** The single forms a list's double forms override. */
  function Overridden(ys: seq<Yaku>): set<Yaku>
  {
    (if SuuankouTanki in ys then {Suuankou} else {}) +
    (if KokushiMusouJusanmen in ys then {Yaku.KokushiMusou} else {}) +
    (if JunseiChuurenPoutou in ys then {Yaku.ChuurenPoutou} else {})
  }

  /** ys without the entries in drop, order kept. */
  function Without(ys: seq<Yaku>, drop: set<Yaku>): (r: seq<Yaku>)
    ensures |r| <= |ys|
  {
    if ys == [] then []
    else Without(ys[..|ys| - 1], drop) + (if ys[|ys| - 1] in drop then [] else [ys[|ys| - 1]])
  }

  /** post_process_yakuman. */
  function PostProcessYakuman(ys: seq<Yaku>): seq<Yaku>
  {
    Without(ys, Overridden(ys))
  }

  method PostProcess(yakuman: seq<Yaku>) returns (r: seq<Yaku>)
    ensures r == PostProcessYakuman(yakuman)
  {
    var hasSuuankouTanki := SuuankouTanki in yakuman;
    var hasKokushiJusanmen := KokushiMusouJusanmen in yakuman;
    var hasJunseiChuuren := JunseiChuurenPoutou in yakuman;
    ghost var drop := Overridden(yakuman);
    r := [];
    var i := 0;
    while i < |yakuman|
      invariant 0 <= i <= |yakuman|
      invariant r == Without(yakuman[..i], drop)
    {
      var y := yakuman[i];
      assert yakuman[..i + 1][..i] == yakuman[..i];
      if (y != Suuankou || !hasSuuankouTanki)
        && (y != Yaku.KokushiMusou || !hasKokushiJusanmen)
        && (y != Yaku.ChuurenPoutou || !hasJunseiChuuren)
      {
        r := r + [y];
      }
      i := i + 1;
    }
    assert yakuman[..i] == yakuman;
  }

  lemma {:induction false} WithoutMembers(ys: seq<Yaku>, drop: set<Yaku>)
    ensures forall y :: y in Without(ys, drop) <==> y in ys && y !in drop
  {
    if ys != [] {
      var init := ys[..|ys| - 1];
      WithoutMembers(init, drop);
      assert ys == init + [ys[|ys| - 1]];
    }
  }

  /** Dropping entries keeps the order of the rest. */
  lemma {:induction false} WithoutIncreasing(ys: seq<Yaku>, drop: set<Yaku>)
    requires Increasing(ys)
    ensures Increasing(Without(ys, drop))
  {
    if ys != [] {
      var init, last := ys[..|ys| - 1], ys[|ys| - 1];
      WithoutIncreasing(init, drop);
      WithoutMembers(init, drop);
      if last !in drop {
        forall x | x in Without(init, drop)
          ensures Ord(x) < Ord(last)
        {
          var i :| 0 <= i < |init| && init[i] == x;
        }
        IncreasingJoin(Without(init, drop), [last]);
      }
    }
  }

  /** Dropping nothing changes nothing. */
  lemma {:induction false} WithoutNothing(ys: seq<Yaku>, drop: set<Yaku>)
    requires forall y :: y in ys ==> y !in drop
    ensures Without(ys, drop) == ys
  {
    if ys != [] {
      var init := ys[..|ys| - 1];
      WithoutNothing(init, drop);
      assert ys == init + [ys[|ys| - 1]];
    }
  }

  /** The overrides: a single form goes exactly when its double form is
      present, and everything else stays. */
  lemma PostProcessMembers(ys: seq<Yaku>)
    ensures var r := PostProcessYakuman(ys);
      && (forall y :: y in r <==> y in ys && y !in Overridden(ys))
      && (Suuankou in r <==> Suuankou in ys && SuuankouTanki !in ys)
      && (Yaku.KokushiMusou in r <==> Yaku.KokushiMusou in ys && KokushiMusouJusanmen !in ys)
      && (Yaku.ChuurenPoutou in r <==> Yaku.ChuurenPoutou in ys && JunseiChuurenPoutou !in ys)
      && |r| <= |ys|
  {
    WithoutMembers(ys, Overridden(ys));
  }

  /** The entries that stay keep their order. */
  lemma PostProcessOrder(ys: seq<Yaku>)
    requires Increasing(ys)
    ensures Increasing(PostProcessYakuman(ys))
  {
    WithoutIncreasing(ys, Overridden(ys));
  }

  /** A second pass changes nothing: the double forms are never dropped. */
  lemma PostProcessIdempotent(ys: seq<Yaku>)
    ensures PostProcessYakuman(PostProcessYakuman(ys)) == PostProcessYakuman(ys)
  {
    var r := PostProcessYakuman(ys);
    WithoutMembers(ys, Overridden(ys));
    assert Overridden(r) == Overridden(ys);
    WithoutNothing(r, Overridden(r));
  }

  /** A list without double forms comes back unchanged. */
  lemma PostProcessNoDoubles(ys: seq<Yaku>)
    requires SuuankouTanki !in ys && KokushiMusouJusanmen !in ys && JunseiChuurenPoutou !in ys
    ensures PostProcessYakuman(ys) == ys
  {
    WithoutNothing(ys, Overridden(ys));
  }

  /** The overrides never empty a list: each dropped entry leaves its
      double form behind. */
  lemma PostProcessNonEmpty(ys: seq<Yaku>)
    requires ys != []
    ensures PostProcessYakuman(ys) != []
  {
    PostProcessMembers(ys);
    var y := ys[0];
    assert y in ys;
    if y == Suuankou && SuuankouTanki in ys {
      assert SuuankouTanki in PostProcessYakuman(ys);
    } else if y == Yaku.KokushiMusou && KokushiMusouJusanmen in ys {
      assert KokushiMusouJusanmen in PostProcessYakuman(ys);
    } else if y == Yaku.ChuurenPoutou && JunseiChuurenPoutou in ys {
      assert JunseiChuurenPoutou in PostProcessYakuman(ys);
    } else {
      assert y in PostProcessYakuman(ys);
    }
  }
}
