/** Input validation of the earlier flat organizer
    (riichi_calc/src/implements/raw_hand_organizer.rs, module input_validator).
    Its input contract differs from the modular organizer's: `handTiles` holds
    every tile of the hand, declared melds and winning tile included, and the
    master count vector is the count of `handTiles` alone. */
module InputValidator {
  import opened Tiles
  import opened HandTypes
  import opened GameTypes
  import opened InputTypes
  import opened Wrappers

  const ERR_RIICHI_BOTH: string := "Invalid state: Cannot be both Riichi and Daburu Riichi."
  const ERR_IPPATSU: string := "Invalid state: Ippatsu requires Riichi or Daburu Riichi."
  const ERR_MENZEN_OPEN: string := "Invalid state: Hand is declared menzen but has open melds."
  const ERR_NOT_MENZEN_CLOSED: string := "Invalid state: Hand is declared not-menzen but has no open melds."
  const ERR_HAITEI_RON: string := "Invalid state: Haitei (last draw) cannot be a Ron win."
  const ERR_HOUTEI_TSUMO: string := "Invalid state: Houtei (last discard) cannot be a Tsumo win."
  const ERR_HAITEI_HOUTEI: string := "Invalid state: Cannot be both Haitei and Houtei."
  const ERR_RINSHAN_RON: string := "Invalid state: Rinshan (kan draw) cannot be a Ron win."
  const ERR_CHANKAN_TSUMO: string := "Invalid state: Chankan (robbing kan) cannot be a Tsumo win."
  const ERR_TENHOU_OYA: string := "Invalid state: Tenhou requires player to be Oya (dealer)."
  const ERR_TENHOU_TSUMO: string := "Invalid state: Tenhou must be a Tsumo win."
  const ERR_TENHOU_CALLS: string := "Invalid state: Tenhou cannot have any calls (no open melds or kans)."
  const ERR_CHIIHOU_KO: string := "Invalid state: Chiihou requires player to be non-Oya."
  const ERR_CHIIHOU_TSUMO: string := "Invalid state: Chiihou must be a Tsumo win."
  const ERR_CHIIHOU_CALLS: string := "Invalid state: Chiihou cannot have any calls (no open melds or kans)."
  const ERR_RENHOU_RON: string := "Invalid state: Renhou must be a Ron win."

  const ERR_TOO_MANY_MELDS: string := "Invalid hand: More than 4 total melds (kans + open melds) declared."
  const ERR_TILE_COUNT: string :=
    "Invalid hand: Tile count does not match declared kans. (Expected 14 for 0 kans, 15 for 1 kan, 16 for 2, 17 for 3, 18 for 4)."
  const ERR_WINNING_TILE: string := "Invalid input: Winning tile is not present in the list of hand tiles."
  const ERR_FIVE_OF_A_KIND: string := "Invalid hand: Contains 5 or more of a single tile type."
  const ERR_AKADORA_FIVES: string :=
    "Invalid input: Number of akadora exceeds the total number of '5' tiles in the hand."
  const ERR_AKADORA_MAX: string := "Invalid input: Number of akadora cannot be greater than 4."

  /** The most declared melds a hand can have, and the most red fives it can hold. */
  const MAX_DECLARED_MELDS: nat := 4
  const MAX_AKADORA: nat := 4

  const GAME_STATE_ERRORS: set<string> := {
    ERR_RIICHI_BOTH, ERR_IPPATSU, ERR_MENZEN_OPEN, ERR_NOT_MENZEN_CLOSED, ERR_HAITEI_RON,
    ERR_HOUTEI_TSUMO, ERR_HAITEI_HOUTEI, ERR_RINSHAN_RON, ERR_CHANKAN_TSUMO, ERR_TENHOU_OYA,
    ERR_TENHOU_TSUMO, ERR_TENHOU_CALLS, ERR_CHIIHOU_KO, ERR_CHIIHOU_TSUMO, ERR_CHIIHOU_CALLS,
    ERR_RENHOU_RON }

  const COMPOSITION_ERRORS: set<string> := {
    ERR_TOO_MANY_MELDS, ERR_TILE_COUNT, ERR_WINNING_TILE, ERR_FIVE_OF_A_KIND, ERR_AKADORA_FIVES,
    ERR_AKADORA_MAX }

  // ---------------------------------------------------------------------
  // The rules, stated independently of the order the checks run in.

  /** Riichi and double riichi exclude each other; ippatsu needs one of them. */
  predicate RiichiConsistent(p: PlayerContext)
  {
    && !(p.isRiichi && p.isDaburuRiichi)
    && (p.isIppatsu ==> p.isRiichi || p.isDaburuRiichi)
  }

  /** The menzen flag says exactly that nothing was called openly. */
  predicate MenzenConsistent(p: PlayerContext, input: UserInput)
  {
    p.isMenzen <==> |input.openMelds| == 0
  }

  /** Last-draw and kan-draw wins are self-drawn; last-discard and robbed-kan
      wins are on a discard. */
  predicate TimingConsistent(g: GameContext, a: AgariType)
  {
    && (g.isHaitei ==> a == Tsumo)
    && (g.isHoutei ==> a == Ron)
    && !(g.isHaitei && g.isHoutei)
    && (g.isRinshan ==> a == Tsumo)
    && (g.isChankan ==> a == Ron)
  }

  predicate NoCalls(input: UserInput)
  {
    |input.openMelds| == 0 && |input.closedKans| == 0
  }

  /** Tenhou is a dealer's self-drawn win without calls, Chiihou a
      non-dealer's, and Renhou is won on a discard. */
  predicate SpecialWinConsistent(p: PlayerContext, g: GameContext, a: AgariType, input: UserInput)
  {
    && (g.isTenhou ==> p.isOya && a == Tsumo && NoCalls(input))
    && (g.isChiihou ==> !p.isOya && a == Tsumo && NoCalls(input))
    && (g.isRenhou ==> a == Ron)
  }

  predicate GameStateConsistent(p: PlayerContext, g: GameContext, a: AgariType, input: UserInput)
  {
    && RiichiConsistent(p)
    && MenzenConsistent(p, input)
    && TimingConsistent(g, a)
    && SpecialWinConsistent(p, g, a, input)
  }

  /** validate_game_state: the checks in source order, stopping at the first
      that fails; it accepts exactly the consistent states. */
  function ValidateGameState(p: PlayerContext, g: GameContext, a: AgariType, input: UserInput): (r: Result<()>)
    ensures r.Ok? <==> GameStateConsistent(p, g, a, input)
    ensures r.Err? ==> r.error in GAME_STATE_ERRORS
  {
    if p.isDaburuRiichi && p.isRiichi then Err(ERR_RIICHI_BOTH)
    else if p.isIppatsu && !(p.isRiichi || p.isDaburuRiichi) then Err(ERR_IPPATSU)
    else if p.isMenzen && |input.openMelds| != 0 then Err(ERR_MENZEN_OPEN)
    else if !p.isMenzen && |input.openMelds| == 0 then Err(ERR_NOT_MENZEN_CLOSED)
    else if g.isHaitei && a == Ron then Err(ERR_HAITEI_RON)
    else if g.isHoutei && a == Tsumo then Err(ERR_HOUTEI_TSUMO)
    else if g.isHaitei && g.isHoutei then Err(ERR_HAITEI_HOUTEI)
    else if g.isRinshan && a == Ron then Err(ERR_RINSHAN_RON)
    else if g.isChankan && a == Tsumo then Err(ERR_CHANKAN_TSUMO)
    else if g.isTenhou && !p.isOya then Err(ERR_TENHOU_OYA)
    else if g.isTenhou && a != Tsumo then Err(ERR_TENHOU_TSUMO)
    else if g.isTenhou && (|input.openMelds| != 0 || |input.closedKans| != 0) then Err(ERR_TENHOU_CALLS)
    else if g.isChiihou && p.isOya then Err(ERR_CHIIHOU_KO)
    else if g.isChiihou && a != Tsumo then Err(ERR_CHIIHOU_TSUMO)
    else if g.isChiihou && (|input.openMelds| != 0 || |input.closedKans| != 0) then Err(ERR_CHIIHOU_CALLS)
    else if g.isRenhou && a != Ron then Err(ERR_RENHOU_RON)
    else Ok(())
  }

  /** Riichi together with double riichi, and ippatsu without either, are
      reported before anything else. */
  lemma RiichiErrors(p: PlayerContext, g: GameContext, a: AgariType, input: UserInput)
    ensures p.isRiichi && p.isDaburuRiichi ==> ValidateGameState(p, g, a, input) == Err(ERR_RIICHI_BOTH)
    ensures p.isIppatsu && !p.isRiichi && !p.isDaburuRiichi ==>
      ValidateGameState(p, g, a, input) == Err(ERR_IPPATSU)
  {
  }

  /** With the riichi flags consistent, a menzen flag that disagrees with the
      open melds is reported, in both directions. */
  lemma MenzenErrors(p: PlayerContext, g: GameContext, a: AgariType, input: UserInput)
    requires RiichiConsistent(p)
    ensures p.isMenzen && |input.openMelds| > 0 ==> ValidateGameState(p, g, a, input) == Err(ERR_MENZEN_OPEN)
    ensures !p.isMenzen && |input.openMelds| == 0 ==>
      ValidateGameState(p, g, a, input) == Err(ERR_NOT_MENZEN_CLOSED)
  {
  }

  /** With the riichi and menzen flags consistent, each win-timing flag on the
      wrong kind of win is reported with its own message. */
  lemma TimingErrors(p: PlayerContext, g: GameContext, a: AgariType, input: UserInput)
    requires RiichiConsistent(p) && MenzenConsistent(p, input)
    ensures g.isHaitei && a == Ron ==> ValidateGameState(p, g, a, input) == Err(ERR_HAITEI_RON)
    ensures g.isHoutei && a == Tsumo && !g.isHaitei ==>
      ValidateGameState(p, g, a, input) == Err(ERR_HOUTEI_TSUMO)
    ensures g.isRinshan && a == Ron && !g.isHaitei && !g.isHoutei ==>
      ValidateGameState(p, g, a, input) == Err(ERR_RINSHAN_RON)
    ensures g.isChankan && a == Tsumo && !g.isHoutei && !g.isRinshan ==>
      ValidateGameState(p, g, a, input) == Err(ERR_CHANKAN_TSUMO)
    ensures !TimingConsistent(g, a) ==>
      ValidateGameState(p, g, a, input).Err? &&
      ValidateGameState(p, g, a, input).error in {ERR_HAITEI_RON, ERR_HOUTEI_TSUMO, ERR_RINSHAN_RON, ERR_CHANKAN_TSUMO}
  {
  }

  /** The Haitei-and-Houtei check can never fire: whichever the win type, one
      of the two checks before it has already failed. */
  lemma HaiteiHouteiUnreachable(p: PlayerContext, g: GameContext, a: AgariType, input: UserInput)
    ensures ValidateGameState(p, g, a, input) != Err(ERR_HAITEI_HOUTEI)
  {
  }

  /** Once the earlier checks pass, each unmet special-win requirement is
      reported: Tenhou before Chiihou before Renhou, and for each the dealer
      condition, then the win type, then the calls. */
  lemma SpecialWinErrors(p: PlayerContext, g: GameContext, a: AgariType, input: UserInput)
    requires RiichiConsistent(p) && MenzenConsistent(p, input) && TimingConsistent(g, a)
    ensures g.isTenhou && !p.isOya ==> ValidateGameState(p, g, a, input) == Err(ERR_TENHOU_OYA)
    ensures g.isTenhou && p.isOya && a == Ron ==> ValidateGameState(p, g, a, input) == Err(ERR_TENHOU_TSUMO)
    ensures g.isTenhou && p.isOya && a == Tsumo && !NoCalls(input) ==>
      ValidateGameState(p, g, a, input) == Err(ERR_TENHOU_CALLS)
    ensures !g.isTenhou && g.isChiihou && p.isOya ==> ValidateGameState(p, g, a, input) == Err(ERR_CHIIHOU_KO)
    ensures !g.isTenhou && g.isChiihou && !p.isOya && a == Ron ==>
      ValidateGameState(p, g, a, input) == Err(ERR_CHIIHOU_TSUMO)
    ensures !g.isTenhou && g.isChiihou && !p.isOya && a == Tsumo && !NoCalls(input) ==>
      ValidateGameState(p, g, a, input) == Err(ERR_CHIIHOU_CALLS)
    ensures !g.isTenhou && !g.isChiihou && g.isRenhou && a == Tsumo ==>
      ValidateGameState(p, g, a, input) == Err(ERR_RENHOU_RON)
  {
  }

  // ---------------------------------------------------------------------
  // Hand composition.

  /** How many of the declared open melds are quads. */
  function OpenKanCount(ms: seq<OpenMeldInput>): (n: nat)
    ensures n <= |ms|
    ensures n == 0 <==> forall j :: 0 <= j < |ms| ==> ms[j].mentsuType != Kantsu
  {
    if |ms| == 0 then 0
    else OpenKanCount(ms[..|ms| - 1]) + (if ms[|ms| - 1].mentsuType == Kantsu then 1 else 0)
  }

  /** Closed kans plus open quads. */
  function TotalKans(input: UserInput): nat
  {
    |input.closedKans| + OpenKanCount(input.openMelds)
  }

  /** Red fives the hand can hold: its fives of the three suits. */
  function FivesInHand(c: Counts): nat
  {
    c[TileToIndex(Suhai(5, Manzu))] + c[TileToIndex(Suhai(5, Pinzu))] + c[TileToIndex(Suhai(5, Souzu))]
  }

  /** At most four declared melds, fourteen tiles plus one per quad, the
      winning tile among them, no kind more than four times, and no more red
      fives than fives, and at most four. */
  predicate CompositionConsistent(input: UserInput, c: Counts)
  {
    && |input.closedKans| + |input.openMelds| <= MAX_DECLARED_MELDS
    && |input.handTiles| == STANDARD_HAND_SIZE + TotalKans(input)
    && input.winningTile in input.handTiles
    && (forall k :: 0 <= k < TILE_COUNT ==> c[k] <= 4)
    && input.gameContext.numAkadora <= FivesInHand(c)
    && input.gameContext.numAkadora <= MAX_AKADORA
  }

  /** The tile count the source expects from the quad count: four per quad,
      three per other meld, two for the pair, which is fourteen plus one per quad. */
  function ExpectedTiles(totalKans: nat): (n: nat)
    requires totalKans <= MAX_DECLARED_MELDS
    ensures n == STANDARD_HAND_SIZE + totalKans
  {
    totalKans * 4 + (4 - totalKans) * 3 + 2
  }

  /** validate_hand_composition, with `c` the count vector of `handTiles`;
      it accepts exactly the consistent compositions. */
  function ValidateHandComposition(input: UserInput, c: Counts): (r: Result<()>)
    ensures r.Ok? <==> CompositionConsistent(input, c)
    ensures r.Err? ==> r.error in COMPOSITION_ERRORS
    ensures |input.closedKans| + |input.openMelds| > MAX_DECLARED_MELDS ==> r == Err(ERR_TOO_MANY_MELDS)
  {
    if |input.closedKans| + |input.openMelds| > MAX_DECLARED_MELDS then Err(ERR_TOO_MANY_MELDS)
    else if |input.handTiles| != ExpectedTiles(TotalKans(input)) then Err(ERR_TILE_COUNT)
    else if input.winningTile !in input.handTiles then Err(ERR_WINNING_TILE)
    else if exists k :: 0 <= k < TILE_COUNT && c[k] > 4 then Err(ERR_FIVE_OF_A_KIND)
    else if input.gameContext.numAkadora > FivesInHand(c) then Err(ERR_AKADORA_FIVES)
    else if input.gameContext.numAkadora > MAX_AKADORA then Err(ERR_AKADORA_MAX)
    else Ok(())
  }

  /** validate_input: the game state first, then the composition; the first
      failure is returned. */
  function ValidateInput(input: UserInput, c: Counts): (r: Result<()>)
    ensures r.Ok? <==>
      GameStateConsistent(input.playerContext, input.gameContext, input.agariType, input)
      && CompositionConsistent(input, c)
  {
    match ValidateGameState(input.playerContext, input.gameContext, input.agariType, input)
    case Err(e) => Err(e)
    case Ok(_) => ValidateHandComposition(input, c)
  }

  /** A composition error is reported only for a consistent game state, and an
      inconsistent game state is always reported by its own message. */
  lemma ValidateInputOrder(input: UserInput, c: Counts)
    ensures var r := ValidateInput(input, c);
      && (r.Err? && r.error in COMPOSITION_ERRORS ==>
            GameStateConsistent(input.playerContext, input.gameContext, input.agariType, input))
      && (!GameStateConsistent(input.playerContext, input.gameContext, input.agariType, input) ==>
            r.Err? && r.error in GAME_STATE_ERRORS)
  {
  }
}
