/** What the caller hands to the engine (src/implements/types/input.rs). */
module InputTypes {
  import opened Tiles
  import opened HandTypes
  import opened GameTypes

  /** A declared open meld, identified by one representative tile (the lowest
      tile of a Chi). */
  datatype OpenMeldInput = OpenMeldInput(mentsuType: MentsuType, representativeTile: Hai, isAddedKan: bool)

  datatype UserInput = UserInput(
    handTiles: seq<Hai>,
    winningTile: Hai,
    openMelds: seq<OpenMeldInput>,
    closedKans: seq<Hai>,
    playerContext: PlayerContext,
    gameContext: GameContext,
    agariType: AgariType)
}
