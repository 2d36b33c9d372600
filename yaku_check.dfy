/** The entry point of the yaku evaluation (src/implements/yaku_checkers/mod.rs):
    turn an organization into a hand structure, collect the yakuman, and
    otherwise the regular yaku with their dora credits. */
module YakuCheck {
  import opened Tiles
  import opened HandTypes
  import opened GameTypes
  import opened Wrappers
  import opened YakuTypes
  import opened YakuOrder
  import opened YakuUtils
  import opened StandardYaku
  import opened ChuurenCheck
  import opened KokushiCheck
  import opened YakumanCheck

  /** What the evaluation hands to the score calculator. */
  datatype YakuResult = YakuResult(handStructure: HandStructure, yakuList: seq<Yaku>, numAkadora: nat)

  const NO_YAKU_FOUND: string := "No Yaku Found"

  // ---------------------------------------------------------------------
  // Hand structure
  // ---------------------------------------------------------------------

  /** resolve_hand_structure: an ordinary reading keeps its melds (as nine
      gates when check_chuuren answers), the counts are tried as thirteen
      orphans and then as seven pairs. */
  function ResolveHandStructure(org: HandOrganization, agariType: AgariType): Result<(HandStructure, seq<Yaku>)>
  {
    match org
    case YonmentsuIchiatama(h) =>
      var (yakuman, chuuren) := StandardYakuman(h, agariType);
      var s := if chuuren.Some? then HandStructure.ChuurenPoutou(h, chuuren.value)
               else HandStructure.YonmentsuIchiatama(h);
      Ok((s, yakuman))
    case Irregular(c, agariHai) =>
      match KokushiResult(c, agariHai)
      case Some(kr) => Ok((kr.0, [kr.1]))
      case None =>
        match CheckChiitoitsu(c, agariHai)
        case Some(s) => Ok((s, ChiitoitsuYakuman(s)))
        case None => Err(NO_YAKU_FOUND)
  }

  method ResolveStructure(org: HandOrganization, player: PlayerContext, game: GameContext, agariType: AgariType)
    returns (r: Result<(HandStructure, seq<Yaku>)>)
    ensures r == ResolveHandStructure(org, agariType)
  {
    match org {
      case YonmentsuIchiatama(h) =>
        var yakuman, chuurenFlag := CheckStandardYakuman(h, player, game, agariType);
        var s := HandStructure.YonmentsuIchiatama(h);
        if chuurenFlag.Some? {
          s := HandStructure.ChuurenPoutou(h, chuurenFlag.value);
        }
        r := Ok((s, yakuman));
      case Irregular(counts, agariHai) =>
        var kokushi := CheckKokushi(counts, agariHai);
        if kokushi.Some? {
          r := Ok((kokushi.value.0, [kokushi.value.1]));
        } else {
          var chiitoitsu := FindChiitoitsu(counts, agariHai);
          if chiitoitsu.Some? {
            var yakuman := CheckChiitoitsuYakuman(chiitoitsu.value);
            r := Ok((chiitoitsu.value, yakuman));
          } else {
            r := Err(NO_YAKU_FOUND);
          }
        }
    }
  }

  // ---------------------------------------------------------------------
  // The whole evaluation
  // ---------------------------------------------------------------------

  /** n entries of y. */
  function Copies(y: Yaku, n: nat): (r: seq<Yaku>)
    ensures |r| == n
  {
    seq(n, _ => y)
  }

  /** The regular yaku of a structure: nine gates and thirteen orphans have
      none (they are yakuman). */
  ghost function RegularYaku(s: HandStructure, player: PlayerContext, game: GameContext, agariType: AgariType)
    : seq<Yaku>
  {
    match s
    case YonmentsuIchiatama(h) => StandardYakuList(h, player, game, agariType)
    case Chiitoitsu(pairs, _, _) => ChiitoitsuYakuList(pairs, player, game, agariType)
    case _ => []
  }

  predicate Riichi(player: PlayerContext)
  {
    player.isRiichi || player.isDaburuRiichi
  }

  /** The ura-dora credits: one UraDora per hit of an ura-dora indicator,
      only under riichi and when there are ura-dora indicators. */
  function UraCredits(s: HandStructure, player: PlayerContext, game: GameContext): seq<Yaku>
  {
    if Riichi(player) && game.uradoraIndicators != [] then
      Copies(UraDora, DoraCount(StructureTiles(s), game.uradoraIndicators))
    else []
  }

  /** The list with its dora credits pushed: one Dora per hit of a dora
      indicator, the ura-dora credits, one AkaDora per red five. */
  function WithCredits(regular: seq<Yaku>, s: HandStructure, player: PlayerContext, game: GameContext): seq<Yaku>
  {
    regular + Copies(Dora, DoraCount(StructureTiles(s), game.doraIndicators)) + UraCredits(s, player, game) +
    Copies(AkaDora, game.numAkadora)
  }

  /** check_all_yaku: the first-turn yakuman and the hand's yakuman after the
      overrides, with no aka-dora; otherwise the regular yaku, followed by the
      dora credits when there is a yaku or a riichi declaration. */
  ghost function AllYaku(org: HandOrganization, player: PlayerContext, game: GameContext, agariType: AgariType)
    : Result<YakuResult>
  {
    match ResolveHandStructure(org, agariType)
    case Err(e) => Err(e)
    case Ok((s, handYakuman)) =>
      var yakuman := GameStateYakuman(game) + handYakuman;
      if yakuman != [] then Ok(YakuResult(s, PostProcessYakuman(yakuman), 0))
      else
        var regular := RegularYaku(s, player, game, agariType);
        if regular != [] || Riichi(player) then
          Ok(YakuResult(s, WithCredits(regular, s, player, game), game.numAkadora))
        else Ok(YakuResult(s, regular, 0))
  }

  /** One `for` loop of check_all_yaku: push y n times. */
  method PushCopies(ys: seq<Yaku>, y: Yaku, n: nat) returns (r: seq<Yaku>)
    ensures r == ys + Copies(y, n)
  {
    r := ys;
    var i := 0;
    while i < n
      invariant 0 <= i <= n
      invariant r == ys + Copies(y, i)
    {
      assert Copies(y, i + 1) == Copies(y, i) + [y];
      r := r + [y];
      i := i + 1;
    }
  }

  method FindRegularYaku(s: HandStructure, player: PlayerContext, game: GameContext, agariType: AgariType)
    returns (regular: seq<Yaku>)
    ensures regular == RegularYaku(s, player, game, agariType)
  {
    match s {
      case YonmentsuIchiatama(h) =>
        regular := FindStandardYaku(h, player, game, agariType);
      case Chiitoitsu(pairs, agariHai, machi) =>
        regular := FindChiitoitsuYaku(pairs, agariHai, machi, player, game, agariType);
      case KokushiMusou(_, _, _, _) =>
        regular := [];
      case ChuurenPoutou(_, _) =>
        regular := [];
    }
  }

  /** The three dora loops of check_all_yaku. */
  method AddDora(regular: seq<Yaku>, s: HandStructure, player: PlayerContext, game: GameContext)
    returns (r: seq<Yaku>)
    ensures r == WithCredits(regular, s, player, game)
  {
    var allTiles := StructureTiles(s);
    var doraCount := CountDora(allTiles, game.doraIndicators);
    r := PushCopies(regular, Dora, doraCount);
    if (player.isRiichi || player.isDaburuRiichi) && |game.uradoraIndicators| > 0 {
      var uradoraCount := CountDora(allTiles, game.uradoraIndicators);
      r := PushCopies(r, UraDora, uradoraCount);
    } else {
      assert r + [] == r;
    }
    if game.numAkadora > 0 {
      r := PushCopies(r, AkaDora, game.numAkadora);
    } else {
      assert Copies(AkaDora, 0) == [] && r + [] == r;
    }
  }

  method CheckAllYaku(org: HandOrganization, player: PlayerContext, game: GameContext, agariType: AgariType)
    returns (r: Result<YakuResult>)
    ensures r == AllYaku(org, player, game, agariType)
  {
    var yakumanList := CheckGameStateYakuman(player, game);
    var resolved := ResolveStructure(org, player, game, agariType);
    if resolved.Err? {
      return Err(resolved.error);
    }
    var (s, handYakuman) := resolved.value;
    yakumanList := yakumanList + handYakuman;
    if |yakumanList| > 0 {
      var finalYakuman := PostProcess(yakumanList);
      return Ok(YakuResult(s, finalYakuman, 0));
    }
    var regular := FindRegularYaku(s, player, game, agariType);
    var hasYaku := |regular| > 0 || player.isRiichi || player.isDaburuRiichi;
    var numAkadoraToAdd := 0;
    if hasYaku {
      regular := AddDora(regular, s, player, game);
      if game.numAkadora > 0 {
        numAkadoraToAdd := game.numAkadora;
      }
    }
    r := Ok(YakuResult(s, regular, numAkadoraToAdd));
  }

  // ---------------------------------------------------------------------
  // Properties
  // ---------------------------------------------------------------------

  /** A hand with both shapes on the counts cannot exist, so trying
      thirteen orphans first decides nothing: a thirteen-orphans hand holds
      a single tile, which seven pairs rejects. */
  lemma KokushiExcludesChiitoitsu(c: Counts, agariHai: Hai)
    ensures KokushiResult(c, agariHai).Some? ==> CheckChiitoitsu(c, agariHai).None?
  {
    KokushiIff(c, agariHai);
    CheckChiitoitsuIff(c, agariHai);
    if KokushiResult(c, agariHai).Some? {
      assert YaochuuSlot(0) && YaochuuSlot(8);
      if c[0] == 2 && c[8] == 2 {
        TwoPairSlots(c, TILE_COUNT, 0, 8);
      }
    }
  }

  /** The structure fails to resolve only for counts that are neither
      thirteen orphans (with the winning tile held) nor seven pairs; the
      error is "No Yaku Found". */
  lemma ResolveErrIff(org: HandOrganization, agariType: AgariType)
    ensures org.YonmentsuIchiatama? ==> ResolveHandStructure(org, agariType).Ok?
    ensures org.Irregular? ==>
      (ResolveHandStructure(org, agariType).Err? <==>
        !(KokushiCounts(org.counts) && org.counts[TileToIndex(org.agariHai)] > 0) &&
        !((forall i :: 0 <= i < TILE_COUNT ==> org.counts[i] == 0 || org.counts[i] == 2) &&
          NonzeroSlots(org.counts, TILE_COUNT) == CHIITOITSU_PAIR_COUNT))
    ensures ResolveHandStructure(org, agariType).Err? ==> ResolveHandStructure(org, agariType).error == NO_YAKU_FOUND
  {
    if org.Irregular? {
      KokushiIff(org.counts, org.agariHai);
      CheckChiitoitsuIff(org.counts, org.agariHai);
    }
  }

  /** An ordinary reading becomes a nine-gates structure exactly when
      check_chuuren answers, with the pure form as its flag, and then its
      yakuman list holds the matching nine-gates entry. */
  lemma ChuurenStructure(h: AgariHand, agariType: AgariType)
    ensures var (s, ys) := ResolveHandStructure(HandOrganization.YonmentsuIchiatama(h), agariType).value;
      && (s.ChuurenPoutou? <==> ChuurenResult(h).Some?)
      && (s.ChuurenPoutou? ==> s.isJunsei == (ChuurenResult(h) == Some(true)))
      && s.hand == h
      && (s.ChuurenPoutou? ==> (JunseiChuurenPoutou in ys <==> s.isJunsei) &&
                               (Yaku.ChuurenPoutou in ys <==> !s.isJunsei))
  {
    ChuurenEntries(h, agariType);
  }

  /** The hand yakuman of a resolved structure are all shape yakuman:
      never a first-turn yakuman, a regular yaku or a dora credit. */
  lemma HandYakumanRange(org: HandOrganization, agariType: AgariType)
    requires ResolveHandStructure(org, agariType).Ok?
    ensures forall y :: y in ResolveHandStructure(org, agariType).value.1 ==> 33 <= Ord(y) <= 45
  {
    match org
    case YonmentsuIchiatama(h) =>
      StandardYakumanOrder(h, agariType);
    case Irregular(c, agariHai) =>
      if KokushiResult(c, agariHai).None? {
        var s := CheckChiitoitsu(c, agariHai).value;
        assert ChiitoitsuYakuman(s) == [] || ChiitoitsuYakuman(s) == [Tsuuiisou];
      }
  }

  /** The first-turn yakuman come before every shape yakuman. */
  lemma FirstTurnOrds()
    ensures Ord(Tenhou) == 30 && Ord(Chiihou) == 31 && Ord(Renhou) == 32
  {
  }

  /** The yakuman list of a hand: never empty once anything was found,
      only yakuman, and the first-turn entries as the game declares them. */
  lemma YakumanListFacts(game: GameContext, hy: seq<Yaku>)
    requires forall y :: y in hy ==> 33 <= Ord(y) <= 45
    requires GameStateYakuman(game) + hy != []
    ensures var r := PostProcessYakuman(GameStateYakuman(game) + hy);
      && r != []
      && (forall y :: y in r ==> 30 <= Ord(y))
      && (Tenhou in r <==> game.isTenhou)
      && (Chiihou in r <==> game.isChiihou)
      && (Renhou in r <==> game.isRenhou)
  {
    var ys := GameStateYakuman(game) + hy;
    GameStateEntries(game);
    FirstTurnOrds();
    PostProcessMembers(ys);
    PostProcessNonEmpty(ys);
    assert Tenhou !in hy && Chiihou !in hy && Renhou !in hy;
    assert Tenhou !in Overridden(ys) && Chiihou !in Overridden(ys) && Renhou !in Overridden(ys);
  }

  /** Any yakuman decides the result: the list is the non-empty
      post-processed yakuman list (no regular yaku, no dora), no aka-dora is
      reported, and the first-turn yakuman are listed as the game declares
      them. */
  lemma YakumanDecides(org: HandOrganization, player: PlayerContext, game: GameContext, agariType: AgariType)
    requires ResolveHandStructure(org, agariType).Ok?
    requires GameStateYakuman(game) + ResolveHandStructure(org, agariType).value.1 != []
    ensures var r := AllYaku(org, player, game, agariType).value;
      && r.numAkadora == 0 && r.yakuList != []
      && (forall y :: y in r.yakuList ==> 30 <= Ord(y))
      && (Tenhou in r.yakuList <==> game.isTenhou)
      && (Chiihou in r.yakuList <==> game.isChiihou)
      && (Renhou in r.yakuList <==> game.isRenhou)
  {
    var (s, hy) := ResolveHandStructure(org, agariType).value;
    assert AllYaku(org, player, game, agariType) ==
      Ok(YakuResult(s, PostProcessYakuman(GameStateYakuman(game) + hy), 0));
    HandYakumanRange(org, agariType);
    YakumanListFacts(game, hy);
  }

  /** n copies of y count n times for y and not at all for anything else. */
  lemma {:induction false} CopiesCount(y: Yaku, n: nat, z: Yaku)
    ensures multiset(Copies(y, n))[z] == if z == y then n else 0
    decreases n
  {
    if n > 0 {
      assert Copies(y, n) == Copies(y, n - 1) + [y];
      CopiesCount(y, n - 1, z);
    } else {
      assert Copies(y, n) == [];
    }
  }

  /** The dora credits sit after every regular yaku in push order. */
  lemma CreditOrds()
    ensures Ord(Dora) == 29 && Ord(UraDora) == 29 && Ord(AkaDora) == 29
  {
  }

  /** The regular yaku never hold a dora credit. */
  lemma RegularHasNoCredits(s: HandStructure, player: PlayerContext, game: GameContext, agariType: AgariType)
    ensures var ys := RegularYaku(s, player, game, agariType);
      Dora !in ys && UraDora !in ys && AkaDora !in ys
  {
    match s
    case YonmentsuIchiatama(h) =>
      StandardOrder(h, player, game, agariType);
      CreditOrds();
    case Chiitoitsu(pairs, _, _) =>
      ChiitoitsuRange(pairs, player, game, agariType);
    case _ =>
  }

  /** With a yaku or a riichi declaration and no yakuman, the list holds
      one Dora per dora hit on the structure's tiles, one UraDora per
      ura-dora hit exactly under riichi with ura-dora indicators, and one
      AkaDora per red five, and reports that many red fives. */
  lemma DoraEntries(org: HandOrganization, player: PlayerContext, game: GameContext, agariType: AgariType)
    requires ResolveHandStructure(org, agariType).Ok?
    requires GameStateYakuman(game) + ResolveHandStructure(org, agariType).value.1 == []
    requires RegularYaku(ResolveHandStructure(org, agariType).value.0, player, game, agariType) != [] ||
             Riichi(player)
    ensures var s := ResolveHandStructure(org, agariType).value.0;
      var r := AllYaku(org, player, game, agariType).value;
      var tiles := StructureTiles(s);
      && multiset(r.yakuList)[Dora] == DoraCount(tiles, game.doraIndicators)
      && multiset(r.yakuList)[UraDora] ==
           (if Riichi(player) && game.uradoraIndicators != [] then DoraCount(tiles, game.uradoraIndicators) else 0)
      && multiset(r.yakuList)[AkaDora] == game.numAkadora
      && r.numAkadora == game.numAkadora
  {
    var s := ResolveHandStructure(org, agariType).value.0;
    var regular := RegularYaku(s, player, game, agariType);
    assert AllYaku(org, player, game, agariType) ==
      Ok(YakuResult(s, WithCredits(regular, s, player, game), game.numAkadora));
    RegularHasNoCredits(s, player, game, agariType);
    CreditCounts(regular, s, player, game);
  }

  /** How often each credit occurs once the credits are pushed onto a list
      without any. */
  lemma CreditCounts(regular: seq<Yaku>, s: HandStructure, player: PlayerContext, game: GameContext)
    requires Dora !in regular && UraDora !in regular && AkaDora !in regular
    ensures var ys := WithCredits(regular, s, player, game);
      var tiles := StructureTiles(s);
      && multiset(ys)[Dora] == DoraCount(tiles, game.doraIndicators)
      && multiset(ys)[UraDora] ==
           (if Riichi(player) && game.uradoraIndicators != [] then DoraCount(tiles, game.uradoraIndicators) else 0)
      && multiset(ys)[AkaDora] == game.numAkadora
  {
    var tiles := StructureTiles(s);
    var nd, nu := DoraCount(tiles, game.doraIndicators), DoraCount(tiles, game.uradoraIndicators);
    CopiesCount(Dora, nd, Dora);
    CopiesCount(Dora, nd, UraDora);
    CopiesCount(Dora, nd, AkaDora);
    CopiesCount(UraDora, nu, Dora);
    CopiesCount(UraDora, nu, UraDora);
    CopiesCount(UraDora, nu, AkaDora);
    CopiesCount(AkaDora, game.numAkadora, Dora);
    CopiesCount(AkaDora, game.numAkadora, UraDora);
    CopiesCount(AkaDora, game.numAkadora, AkaDora);
  }

  /** Dora never make a hand: a dora credit is listed only when there is no
      yakuman and there is a regular yaku or a riichi declaration, an
      UraDora only under riichi with ura-dora indicators. */
  lemma CreditsNeedYaku(org: HandOrganization, player: PlayerContext, game: GameContext, agariType: AgariType)
    requires AllYaku(org, player, game, agariType).Ok?
    ensures var (s, hy) := ResolveHandStructure(org, agariType).value;
      var ys := AllYaku(org, player, game, agariType).value.yakuList;
      (Dora in ys || UraDora in ys || AkaDora in ys) ==>
        GameStateYakuman(game) + hy == [] && (RegularYaku(s, player, game, agariType) != [] || Riichi(player))
    ensures UraDora in AllYaku(org, player, game, agariType).value.yakuList ==>
      Riichi(player) && game.uradoraIndicators != []
  {
    var (s, hy) := ResolveHandStructure(org, agariType).value;
    var regular := RegularYaku(s, player, game, agariType);
    RegularHasNoCredits(s, player, game, agariType);
    if GameStateYakuman(game) + hy != [] {
      YakumanDecides(org, player, game, agariType);
      CreditOrds();
    } else if regular != [] || Riichi(player) {
      assert AllYaku(org, player, game, agariType) ==
        Ok(YakuResult(s, WithCredits(regular, s, player, game), game.numAkadora));
      CreditCounts(regular, s, player, game);
    } else {
      assert AllYaku(org, player, game, agariType) == Ok(YakuResult(s, regular, 0));
    }
  }

  /** Only the structure can fail: a resolved hand with no yaku and no riichi
      comes back as an empty list with no aka-dora, not as an error. */
  lemma OnlyResolutionFails(org: HandOrganization, player: PlayerContext, game: GameContext, agariType: AgariType)
    ensures AllYaku(org, player, game, agariType).Err? <==> ResolveHandStructure(org, agariType).Err?
    ensures ResolveHandStructure(org, agariType).Ok? ==>
      AllYaku(org, player, game, agariType).value.handStructure == ResolveHandStructure(org, agariType).value.0
    ensures var res := ResolveHandStructure(org, agariType);
      res.Ok? && GameStateYakuman(game) + res.value.1 == [] &&
      RegularYaku(res.value.0, player, game, agariType) == [] && !Riichi(player) ==>
        AllYaku(org, player, game, agariType) == Ok(YakuResult(res.value.0, [], 0))
  {
  }
}
