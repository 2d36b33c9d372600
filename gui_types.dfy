/** The interface's phases, messages and state, as values
    (src/gui/state/phase.rs, src/gui/messages.rs, src/gui/state/mod.rs),
    with the defaults that reset restores (src/gui/state/initialize.rs). */
module GuiTypes {
  import opened Wrappers
  import opened Tiles
  import opened HandTypes
  import opened GameTypes
  import opened InputTypes
  import opened ScoringTypes

  datatype Phase =
    | Composition
    | Definition
    | SelectingWinningTile
    | SelectingMeldTile(mentsuType: MentsuType)
    | SelectingKanType
    | SelectingOpenKan
    | SelectingClosedKan
    | SelectingAddedKan
    | SelectingDora
    | SelectingUraDora
    | Result

  datatype Message =
    | AddTile(tile: Hai)
    | RemoveTile(index: nat)
    | ConfirmHand
    | CancelSelection
    | ModifyHand
    | StartSelectWinningTile
    | SelectWinningTile(tile: Hai)
    | SelectMeldType(mentsuType: MentsuType)
    | SelectCompleteMeld(meld: OpenMeldInput)
    | StartAddClosedKan
    | SelectClosedKan(tile: Hai)
    | EditClosedKan(index: nat)
    | RemoveOpenMeld(index: nat)
    | RemoveClosedKan(index: nat)
    | IncrementAkadora
    | DecrementAkadora
    | ToggleAgariType(agariType: AgariType)
    | SetBakaze(kaze: Kaze)
    | SetJikaze(kaze: Kaze)
    | ToggleRiichi(flag: bool)
    | ToggleDoubleRiichi(flag: bool)
    | ToggleIppatsu(flag: bool)
    | ToggleRinshan(flag: bool)
    | ToggleChankan(flag: bool)
    | ToggleHaitei(flag: bool)
    | ToggleHoutei(flag: bool)
    | ToggleTenhou(flag: bool)
    | ToggleChiihou(flag: bool)
    | ToggleRenhou(flag: bool)
    | IncrementHonba
    | DecrementHonba
    | StartAddDora
    | SelectDora(tile: Hai)
    | StartAddUraDora
    | SelectUraDora(tile: Hai)
    | RemoveDora(index: nat)
    | RemoveUraDora(index: nat)
    | CalculateScore
    | StartOver
    | ShowRules
    | HideRules

  /** The settings of the win, the fields the settings messages change:
      how the hand won, the winds, and the situational flags. */
  datatype Settings = Settings(
    agariType: AgariType,
    bakaze: Kaze,
    jikaze: Kaze,
    isRiichi: bool,
    isDaburuRiichi: bool,
    isIppatsu: bool,
    isRinshan: bool,
    isChankan: bool,
    isHaitei: bool,
    isHoutei: bool,
    isTenhou: bool,
    isChiihou: bool,
    isRenhou: bool)

  /** Every field of the interface state that its logic reads or writes (the
      image handles are left out), with the settings of the win grouped in
      one record. tileCounts is the pool of tiles not yet put in the hand,
      four of each kind at the start. */
  datatype GuiData = GuiData(
    phase: Phase,
    handTiles: seq<Hai>,
    tileCounts: seq<nat>,
    winningTile: Option<Hai>,
    openMelds: seq<OpenMeldInput>,
    closedKans: seq<Hai>,
    settings: Settings,
    honba: nat,
    numAkadora: nat,
    doraIndicators: seq<Hai>,
    uradoraIndicators: seq<Hai>,
    scoreResult: Option<Result<AgariResult>>,
    showRules: bool)

  /** Four copies of every kind in the pool. */
  function FullPool(): (pool: seq<nat>)
    ensures |pool| == TILE_COUNT && forall k :: 0 <= k < TILE_COUNT ==> pool[k] == 4
  {
    seq(TILE_COUNT, _ => 4)
  }

  /** The default settings: East winds and every flag cleared. The default
      way of winning is taken as Tsumo. */
  function DefaultSettings(): Settings
  {
    Settings(Tsumo, Ton, Ton, false, false, false, false, false, false, false, false, false, false)
  }

  /** The state reset restores: the default of every field (the first
      phase, empty lists, no winning tile, the default settings, zero
      counters, no result) and a full pool. */
  function Defaults(): GuiData
  {
    GuiData(Composition, [], FullPool(), None, [], [], DefaultSettings(), 0, 0, [], [], None, false)
  }

  /** The engine input the interface builds: the dealer is the player with
      the East seat wind, and the hand is closed exactly when no meld is
      declared; everything else is copied from the state. */
  function BuildInput(g: GuiData, handTiles: seq<Hai>, winningTile: Hai): UserInput
  {
    var s := g.settings;
    UserInput(
      handTiles, winningTile, g.openMelds, g.closedKans,
      PlayerContext(s.jikaze, s.jikaze == Ton, s.isRiichi, s.isDaburuRiichi, s.isIppatsu, g.openMelds == []),
      GameContext(s.bakaze, g.honba, g.doraIndicators, g.uradoraIndicators, g.numAkadora,
                  s.isTenhou, s.isChiihou, s.isRenhou, s.isHaitei, s.isHoutei, s.isRinshan, s.isChankan),
      s.agariType)
  }

  /** How a failed calculation is shown: the engine's message after
      "Error: ". */
  function ShownResult(r: Result<AgariResult>): Result<AgariResult>
  {
    match r
    case Ok(v) => Ok(v)
    case Err(e) => Err("Error: " + e)
  }
}
