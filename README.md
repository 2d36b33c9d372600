# Riichi mahjong hand scoring, modelled in Dafny

This project models the scoring engine of a riichi-mahjong calculator and the
state machine of its desktop interface, and proves properties of both. The
engine takes a winning hand: concealed tiles, declared melds, the winning
tile, the way of winning, and the seat and round situation. It runs in three
stages.

1. **Hand organizer** (`organizer.dfy`, `recursive_parser.dfy`,
   `wait_analyzer.dfy`). It counts the hand into 34 tile slots and turns the
   declared melds into melds. It then searches every way to split the
   concealed tiles into one pair and sets, using a backtracking parser that
   mutates one count buffer and restores it. For each split it lists every
   wait the winning tile can complete. It always ends the list with one
   "irregular" organization for the seven-pairs and thirteen-orphans checks.
2. **Yaku evaluator** (`yaku_check.dfy`, `yakuman.dfy`, `standard_yaku.dfy`,
   `yaku_utils.dfy` and one file per pattern checker). It resolves the hand
   structure and checks the yakuman. Otherwise it checks the ordinary
   patterns and adds dora, ura-dora and red-five credits.
3. **Score calculator** (`han.dfy`, `fu.dfy`, `points.dfy`, `score.dfy`). It
   sums han, computes fu, maps han and fu to a limit tier and basic points,
   and computes each payer's share, rounded up to 100, with the honba bonus.

`pipeline.dfy` chains the three stages for one organization and picks the
best result over all organizations.

The older flat organizer of the `riichi_calc` crate is modelled beside the
engine: its input validator (`input_validator.dfy`) and its meld-subtracting,
first-found organizer (`legacy_organizer.dfy`).

The interface side models:
- the tile-count helpers of the interface state (`gui_counts.dfy`,
  `gui_meld_tiles.dfy`, `gui_melds.dfy`, `gui_calculation.dfy`);
- the update handler, as the class `GuiState.RiichiGui`, whose fields are the
  interface state. It is proved against the state-transition function
  `GuiStep.Transition`. The invariant `GuiStep.Consistent` holds after every
  message. It says the pool and the hand together hold four of every tile,
  the hand stays sorted, and double riichi and ippatsu imply riichi.

The value types are in `tiles.dfy`, `hand.dfy`, `yaku.dfy`, `scoring.dfy`,
`input.dfy`, `game.dfy` and `gui_types.dfy`. `yaku_order.dfy` is a helper: it
numbers the yaku by their position in the evaluator's output, which lets the
lemmas state list order.

## Model

| member | source | states |
|---|---|---|
| Tiles.TileToIndex | src/implements/types/tiles.rs:88-110 | every tile gets a slot below 34; suited tiles get suit offset + rank - 1, winds 27..30, dragons 31..33 |
| Tiles.IndexToTile | src/implements/types/tiles.rs:112-135 | for every slot below 34 the tile returned maps back to that slot |
| Tiles.IndexToTileOfIndex | src/implements/types/tiles.rs:88-135 | index_to_tile(tile_to_index(t)) == t for every tile |
| Tiles.TileToIndexInjective | src/implements/types/tiles.rs:88-110 | two tiles with one slot are the same tile |
| Tiles.SuhaiIndex | src/implements/types/tiles.rs:88-97 | a suited slot's remainder mod 9 is rank - 1 and its quotient is the suit |
| Tiles.NextRankIndex | src/implements/types/tiles.rs:112-135 | within a suit the next slot is the next rank of the same suit |
| Tiles.IsYaochuu | src/implements/types/tiles.rs:62-85 | a tile is yaochuu exactly when it is not simple; yaochuu means terminal or honor |
| RecursiveParser.Parser.FindAllMentsu | src/implements/raw_hand_organizer/recursive_parser.rs:6-60 | restores the count buffer and the meld stack; the callback log grows by exactly the decompositions of the entry counts, in triplet-before-sequence order, each after the entry melds |
| RecursiveParser.DecompositionSound | src/implements/raw_hand_organizer/recursive_parser.rs:13-59 | every reported decomposition consists of concealed sets that use up exactly the counts |
| RecursiveParser.DecompositionComplete | src/implements/raw_hand_organizer/recursive_parser.rs:13-59 | every exact split of the counts into concealed sets is reported, up to order |
| RecursiveParser.EmptyReadingIffEmpty | src/implements/raw_hand_organizer/recursive_parser.rs:13-20 | the empty meld list is reported exactly when every count is zero |
| RecursiveParser.Parser.FindFirstMentsu | riichi_calc/src/implements/raw_hand_organizer.rs:179-234 | the older search stops at the first success; it finds one exactly when a decomposition exists, and the one it keeps is the first the exhaustive search reports |
| RecursiveParser.FirstDecompositionIsHead | riichi_calc/src/implements/raw_hand_organizer.rs:179-234 | the first-found decomposition is the head of the exhaustive list, or none when that list is empty |
| WaitAnalyzer.MeldWait | src/implements/raw_hand_organizer/wait_analyzer.rs:6-60 | a meld gives a wait exactly when it contains the winning tile; triplets and quads give Shanpon, a sequence's middle tile gives Kanchan |
| WaitAnalyzer.LowTileWait | src/implements/raw_hand_organizer/wait_analyzer.rs:40-45 | winning on a sequence's low tile gives Penchan when the high tile is a 9, else Ryanmen |
| WaitAnalyzer.HighTileWait | src/implements/raw_hand_organizer/wait_analyzer.rs:46-51 | winning on a sequence's high tile gives Penchan when the low tile is a 1, else Ryanmen |
| WaitAnalyzer.WaitsPairFirst | src/implements/raw_hand_organizer/wait_analyzer.rs:20-24 | at most 5 waits; the first is (Tanki, 4) exactly when the winning tile is the pair tile |
| WaitAnalyzer.WaitsCover | src/implements/raw_hand_organizer/wait_analyzer.rs:26-57 | meld j is listed exactly when it contains the winning tile |
| WaitAnalyzer.WaitsTagged | src/implements/raw_hand_organizer/wait_analyzer.rs:26-57 | each meld entry carries that meld's own wait, and no meld is listed twice |
| WaitAnalyzer.NoWaitIff | src/implements/raw_hand_organizer/wait_analyzer.rs:20-59 | the list is empty exactly when the tile is in neither the pair nor any meld |
| WaitAnalyzer.DetermineWaitType | src/implements/raw_hand_organizer/wait_analyzer.rs:15-60 | the loop pushes exactly the wait list the lemmas above describe |
| HandOrganizer.MasterCountsMultiplicity | src/implements/raw_hand_organizer/mod.rs:14-23 | slot k counts the hand tiles of kind k, plus one winning tile on Ron only |
| HandOrganizer.CountHand | src/implements/raw_hand_organizer/mod.rs:14-23 | the filled buffer is the master count vector |
| HandOrganizer.OpenMeld | src/implements/raw_hand_organizer/mod.rs:36-75 | a declared meld fails exactly when it is a chi whose start tile is an honor or rank 8-9, with the chi error; otherwise it is open, of the declared type and starts at the declared tile |
| HandOrganizer.DeclaredMeldsShape | src/implements/raw_hand_organizer/mod.rs:28-75 | closed kans come first and are concealed, then the declared melds in order, all open; it fails exactly on an invalid chi |
| HandOrganizer.BuildDeclaredMelds | src/implements/raw_hand_organizer/mod.rs:28-75 | the pushes build exactly that meld list |
| HandOrganizer.PairTankiHandsShape | src/implements/raw_hand_organizer/mod.rs:82-102 | with four declared melds, one Tanki organization per slot whose count is exactly 2, and nothing else |
| HandOrganizer.FindPairTanki | src/implements/raw_hand_organizer/mod.rs:82-102 | the loop yields exactly those organizations |
| HandOrganizer.MarkCompleted | src/implements/raw_hand_organizer/mod.rs:131-136 | only the meld the winning tile completes on Ron becomes open; types and tiles are unchanged |
| HandOrganizer.StandardHandsMember | src/implements/raw_hand_organizer/mod.rs:109-150 | an organization is produced exactly when some pair slot, decomposition of the rest and wait of the winning tile builds it |
| HandOrganizer.StandardHandsSound | src/implements/raw_hand_organizer/mod.rs:109-150 | every produced organization has a pair of count at least 2 and a sound decomposition of the remaining tiles |
| HandOrganizer.FindStandard | src/implements/raw_hand_organizer/mod.rs:109-150 | the pair loop and the parser callback produce exactly those organizations |
| HandOrganizer.OrganizeEndsIrregular | src/implements/raw_hand_organizer/mod.rs:156-161 | every successful result ends with exactly one irregular organization carrying the count vector; all others are four-sets-one-pair |
| HandOrganizer.OrganizeErrors | src/implements/raw_hand_organizer/mod.rs:62-106 | the only errors are the chi error (exactly on an invalid chi) and the no-pair error (exactly when four melds are declared, the hand is not 14 tiles and no slot holds exactly 2) |
| HandOrganizer.OrganizeHand | src/implements/raw_hand_organizer/mod.rs:13-162 | the imperative organizer returns the organization list described above |
| InputValidator.ValidateGameState | riichi_calc/src/implements/raw_hand_organizer.rs:18-85 | succeeds exactly when the riichi, menzen, last-tile and first-turn flags are consistent; each failure carries one of the game-state messages |
| InputValidator.RiichiErrors | riichi_calc/src/implements/raw_hand_organizer.rs:25-30 | riichi with double riichi, and ippatsu without riichi, fail with their own messages |
| InputValidator.MenzenErrors | riichi_calc/src/implements/raw_hand_organizer.rs:33-38 | the menzen flag must equal "no open melds" in both directions |
| InputValidator.TimingErrors | riichi_calc/src/implements/raw_hand_organizer.rs:41-55 | haitei with Ron, houtei with Tsumo, rinshan with Ron and chankan with Tsumo fail, each with its message in check order |
| InputValidator.HaiteiHouteiUnreachable | riichi_calc/src/implements/raw_hand_organizer.rs:41-55 | the haitei-with-houtei message is never returned, because every such combination fails an earlier check |
| InputValidator.SpecialWinErrors | riichi_calc/src/implements/raw_hand_organizer.rs:58-82 | tenhou needs dealer, Tsumo and no calls; chiihou needs non-dealer, Tsumo and no calls; renhou needs Ron |
| InputValidator.ValidateHandComposition | riichi_calc/src/implements/raw_hand_organizer.rs:88-155 | succeeds exactly when the meld count, tile count (14 + kans), winning tile, per-kind counts and red fives are consistent; more than 4 melds is its own error |
| InputValidator.ExpectedTiles | riichi_calc/src/implements/raw_hand_organizer.rs:108-124 | a hand with k kans has 14 + k tiles |
| InputValidator.ValidateInput | riichi_calc/src/implements/raw_hand_organizer.rs:158-171 | succeeds exactly when both checks pass |
| InputValidator.ValidateInputOrder | riichi_calc/src/implements/raw_hand_organizer.rs:158-171 | game-state checks come first: a composition error implies the game state was valid |
| LegacyOrganizer.TakeOpenMeld | riichi_calc/src/implements/raw_hand_organizer.rs:320-393 | subtracting a declared meld succeeds exactly when its tiles are available; what is left plus the meld's tiles is the input |
| LegacyOrganizer.SubtractDeclaredSpec | riichi_calc/src/implements/raw_hand_organizer.rs:320-393 | subtracting all declared melds succeeds exactly when they fit the hand; the melds are the declared ones and the counts are conserved |
| LegacyOrganizer.SubtractDeclaredMelds | riichi_calc/src/implements/raw_hand_organizer.rs:320-393 | the in-place subtraction leaves exactly the counts the specification gives, or its error |
| LegacyOrganizer.LegacyWait | riichi_calc/src/implements/raw_hand_organizer.rs:250-290 | the older wait analysis returns the first entry of the full wait list |
| LegacyOrganizer.FirstWaitIsHead | riichi_calc/src/implements/raw_hand_organizer.rs:250-290 | the first meld containing the winning tile gives the head of the wait list |
| LegacyOrganizer.WinningTileCovered | riichi_calc/src/implements/raw_hand_organizer.rs:424-453 | the winning tile is the pair tile or lies in one of the four melds, so the wait lookup never fails |
| LegacyOrganizer.LegacyOrganizeErrors | riichi_calc/src/implements/raw_hand_organizer.rs:300-466 | a validation failure is returned unchanged; every error is a validation, subtraction or no-pair message |
| LegacyOrganizer.LegacyOrganizeAccepts | riichi_calc/src/implements/raw_hand_organizer.rs:300-466 | a success implies valid input and declared melds that fit the hand |
| LegacyOrganizer.LegacyFourDeclared | riichi_calc/src/implements/raw_hand_organizer.rs:394-423 | with four declared melds the result is the Tanki hand on the first slot holding exactly 2 |
| LegacyOrganizer.LegacyStandardYields | riichi_calc/src/implements/raw_hand_organizer.rs:424-453 | the result is built from the first pair slot whose remainder decomposes, with that slot's first decomposition |
| LegacyOrganizer.LegacyOrganizeHand | riichi_calc/src/implements/raw_hand_organizer.rs:300-466 | the imperative older organizer returns the specified first-found organization |
| YakuUtils.DoraOf | src/implements/yaku_checkers/utils.rs:50-77 | the dora keeps the tile's kind: winds stay winds, dragons stay dragons, suited tiles keep their suit |
| YakuUtils.DoraOfSuhai | src/implements/yaku_checkers/utils.rs:52-64 | a suited indicator n gives n + 1 of its suit, and 9 gives 1 |
| YakuUtils.DoraCycle | src/implements/yaku_checkers/utils.rs:50-77 | taking the successor 9, 4 or 3 times returns to the start tile, and no fewer times does |
| YakuUtils.GreenTileIndices | src/implements/yaku_checkers/utils.rs:165-174 | exactly the Sou 2, 3, 4, 6, 8 and Hatsu slots are green |
| YakuUtils.MeldTiles | src/implements/yaku_checkers/utils.rs:79-94 | a quad contributes 4 tiles, other sets 3, starting with the set's first tile |
| YakuUtils.GetAllTiles | src/implements/yaku_checkers/utils.rs:79-94 | the loop produces the pair twice followed by each meld's tiles |
| YakuUtils.AllTilesLength | src/implements/yaku_checkers/utils.rs:79-94 | the tile list has 14 + number-of-quads tiles |
| YakuUtils.StructureTilesLength | src/implements/yaku_checkers/utils.rs:96-109 | seven pairs and thirteen orphans give 14 tiles; the other structures 14 + quads |
| YakuUtils.AllGroupsShape | src/implements/yaku_checkers/utils.rs:111-125 | five groups: the pair, then each meld's tiles; their concatenation is the tile list |
| YakuUtils.GetAllGroups | src/implements/yaku_checkers/utils.rs:111-125 | the loop produces that group list |
| YakuUtils.CountDora | src/implements/yaku_checkers/utils.rs:37-48 | the count is the sum over indicators, repeats included, of the successor tile's occurrences |
| YakuUtils.DoraCountAppend | src/implements/yaku_checkers/utils.rs:37-48 | the count is additive over the indicator list |
| YakuUtils.DoraCountPermutation | src/implements/yaku_checkers/utils.rs:37-48 | the count depends only on the multiset of tiles |
| YakuUtils.DoraCountBound | src/implements/yaku_checkers/utils.rs:37-48 | the count is at most indicators times tiles |
| YakuUtils.CountKoutsuKantsu | src/implements/yaku_checkers/utils.rs:127-138 | returns the triplet and quad counts, which sum to at most 4 |
| YakuUtils.CountConcealedKoutsu | src/implements/yaku_checkers/utils.rs:140-159 | counts concealed triplets and quads, skipping a Ron-completed triplet of the winning tile; at most 4 |
| YakuUtils.ConcealedCountBound | src/implements/yaku_checkers/utils.rs:140-159 | concealed sets are at most all sets; on Tsumo every closed triplet counts |
| YakuUtils.CheckChiitoitsuIff | src/implements/yaku_checkers/utils.rs:10-35 | seven pairs is found exactly when every nonzero count is 2 and exactly 7 slots are nonzero; a count of 4 rejects it |
| YakuUtils.CheckChiitoitsuShape | src/implements/yaku_checkers/utils.rs:14-31 | the structure has a Tanki wait, the winning tile and the pairs in slot order |
| YakuUtils.FindChiitoitsu | src/implements/yaku_checkers/utils.rs:10-35 | the loop returns exactly the specified structure |
| YakuCheck.ResolveErrIff | src/implements/yaku_checkers/mod.rs:100-136 | a four-sets organization always resolves; an irregular one fails with "No Yaku Found" exactly when it is neither thirteen orphans nor seven pairs |
| YakuCheck.KokushiExcludesChiitoitsu | src/implements/yaku_checkers/mod.rs:122-134 | a thirteen-orphans count is never seven pairs, so trying it first loses nothing |
| YakuCheck.ChuurenStructure | src/implements/yaku_checkers/mod.rs:107-120 | a four-sets hand becomes nine gates exactly when the nine-gates check succeeds; the pure flag and the yakuman listed follow it |
| YakuCheck.ResolveStructure | src/implements/yaku_checkers/mod.rs:100-136 | the method returns the specified resolution |
| YakuCheck.YakumanDecides | src/implements/yaku_checkers/mod.rs:30-49 | once any yakuman is found the list holds only yakuman, tenhou/chiihou/renhou follow their flags exactly, and no red fives are credited |
| YakuCheck.DoraEntries | src/implements/yaku_checkers/mod.rs:65-96 | when credits apply: Dora entries = dora count; UraDora = ura count under riichi with indicators, else 0; AkaDora entries and the returned red-five count = the red fives declared |
| YakuCheck.CreditCounts | src/implements/yaku_checkers/mod.rs:65-96 | the credit step appends exactly those numbers of entries |
| YakuCheck.CreditsNeedYaku | src/implements/yaku_checkers/mod.rs:65-82 | any credit implies no yakuman and a non-empty regular list or riichi; UraDora implies riichi and indicators |
| YakuCheck.OnlyResolutionFails | src/implements/yaku_checkers/mod.rs:23-97 | the evaluator fails exactly when resolution fails; a resolved hand with no yaku and no riichi gets Ok with an empty list |
| YakuCheck.CheckAllYaku | src/implements/yaku_checkers/mod.rs:23-97 | the imperative evaluator returns the specified result |
| YakumanCheck.GameStateEntries | src/implements/yaku_checkers/yakuman/mod.rs:15-27 | Tenhou, Chiihou and Renhou appear, in that order, exactly when their flags are set |
| YakumanCheck.CheckGameStateYakuman | src/implements/yaku_checkers/yakuman/mod.rs:15-27 | the pushes build that list |
| YakumanCheck.StandardYakumanMember | src/implements/yaku_checkers/yakuman/mod.rs:29-127 | the k-th yakuman of the check order is listed exactly when its condition holds |
| YakumanCheck.StandardYakumanOrder | src/implements/yaku_checkers/yakuman/mod.rs:29-127 | at most 11 entries, in check order, each listed once |
| YakumanCheck.TileYakumanEntries | src/implements/yaku_checkers/yakuman/mod.rs:38-63 | Tsuuiisou iff all honors, Chinroutou iff all terminals, Ryuuiisou iff all green |
| YakumanCheck.MeldYakumanEntries | src/implements/yaku_checkers/yakuman/mod.rs:66-94 | Suukantsu iff 4 quads; four concealed triplets give SuuankouTanki on a Tanki wait and Suuankou otherwise, never both; Daisangen iff 3 dragon sets |
| YakumanCheck.WindYakumanEntries | src/implements/yaku_checkers/yakuman/mod.rs:96-114 | Daisuushi iff 4 wind sets; Shousuushi iff exactly 3 and a wind pair; never both |
| YakumanCheck.ChuurenEntries | src/implements/yaku_checkers/yakuman/mod.rs:116-124 | pure and impure nine gates follow the nine-gates check and never appear together |
| YakumanCheck.CheckStandardYakuman | src/implements/yaku_checkers/yakuman/mod.rs:29-127 | the pushes build the specified list and nine-gates flag |
| YakumanCheck.ChiitoitsuYakumanIff | src/implements/yaku_checkers/yakuman/mod.rs:130-144 | seven pairs gives [Tsuuiisou] exactly when every pair tile is an honor, else [] |
| YakumanCheck.CheckChiitoitsuYakuman | src/implements/yaku_checkers/yakuman/mod.rs:130-144 | the method returns that list |
| YakumanCheck.PostProcessMembers | src/implements/yaku_checkers/yakuman/mod.rs:147-159 | Suuankou, KokushiMusou and ChuurenPoutou are dropped exactly when their double counterpart is present; nothing is added |
| YakumanCheck.PostProcessOrder | src/implements/yaku_checkers/yakuman/mod.rs:147-159 | the order of the list is kept |
| YakumanCheck.PostProcessIdempotent | src/implements/yaku_checkers/yakuman/mod.rs:147-159 | applying the override twice is applying it once |
| YakumanCheck.PostProcessNoDoubles | src/implements/yaku_checkers/yakuman/mod.rs:147-159 | without a double yakuman the list is unchanged |
| YakumanCheck.PostProcessNonEmpty | src/implements/yaku_checkers/yakuman/mod.rs:147-159 | a non-empty list stays non-empty |
| YakumanCheck.PostProcess | src/implements/yaku_checkers/yakuman/mod.rs:147-159 | the filter loop returns the specified list |
| ChuurenCheck.ChuurenShape | src/implements/yaku_checkers/yakuman/chuuren.rs:6-54 | any result implies a one-suit closed hand of exactly 14 tiles without quads |
| ChuurenCheck.JunseiPureShape | src/implements/yaku_checkers/yakuman/chuuren.rs:35-63 | a pure result means the winning tile is in the suit and the counts are 3-1-1-1-1-1-1-1-3 plus one at the winning rank |
| ChuurenCheck.ImpureExtraBeforeWin | src/implements/yaku_checkers/yakuman/chuuren.rs:41-63 | an impure result means the winning rank holds exactly its required count |
| ChuurenCheck.ScanShape | src/implements/yaku_checkers/yakuman/chuuren.rs:35-54 | the shape holds exactly when every rank meets its requirement and exactly one rank exceeds it, by one; the extra rank is returned |
| ChuurenCheck.CheckChuuren | src/implements/yaku_checkers/yakuman/chuuren.rs:6-64 | the method returns the specified result |
| KokushiCheck.KokushiIff | src/implements/yaku_checkers/yakuman/kokushi.rs:8-70 | thirteen orphans is found exactly when only yaochuu kinds are present, all 13 of them, exactly one as a pair, and the winning tile is present |
| KokushiCheck.KokushiShape | src/implements/yaku_checkers/yakuman/kokushi.rs:48-64 | the structure has the winning tile, a yaochuu pair of count 2, and the 13 yaochuu tiles in slot order |
| KokushiCheck.KokushiJusanmenIff | src/implements/yaku_checkers/yakuman/kokushi.rs:50-59 | the thirteen-sided wait and double yakuman occur exactly when the winning tile is the pair tile |
| KokushiCheck.CheckKokushi | src/implements/yaku_checkers/yakuman/kokushi.rs:8-70 | the scan returns the specified result |
| ColorCheck.ColorFacts | src/implements/yaku_checkers/standard/color.rs:3-39 | half flush and full flush are never both true; an empty list gives neither; an all-honor list gives half flush |
| ColorCheck.ColorSuit | src/implements/yaku_checkers/standard/color.rs:10-26 | when either flag holds, the suit returned is that of every suited tile |
| ColorCheck.CheckColor | src/implements/yaku_checkers/standard/color.rs:3-39 | the loop with its break returns the specified triple |
| ColorCheck.CheckHonitsu | src/implements/yaku_checkers/standard/color.rs:41-44 | half flush implies an honor is present and no full flush; the suit is the first suited tile's |
| ColorCheck.CheckChinitsu | src/implements/yaku_checkers/standard/color.rs:46-49 | full flush implies a suit is returned and every tile is of that suit |
| IttsuCheck.IttsuOfStraight | src/implements/yaku_checkers/standard/ittsu.rs:7-27 | sequences starting at 1, 4 and 7 of one suit give the straight |
| IttsuCheck.IttsuBySet | src/implements/yaku_checkers/standard/ittsu.rs:12-17 | the result depends only on the set of sequences, not on order or repeats |
| IttsuCheck.HonorMeldIgnored | src/implements/yaku_checkers/standard/ittsu.rs:15 | a set starting on an honor does not change the result |
| IttsuCheck.CheckIttsu | src/implements/yaku_checkers/standard/ittsu.rs:7-27 | the map-building loop returns the specified result |
| PeikouCheck.PeikouBounds | src/implements/yaku_checkers/standard/peikou.rs:4-22 | one pair and two pairs are never both reported; two pairs need four sequences |
| PeikouCheck.PeikouPermutation | src/implements/yaku_checkers/standard/peikou.rs:10-18 | the result depends only on the multiset of sequences |
| PeikouCheck.RyanpeikouOfTwoPairs | src/implements/yaku_checkers/standard/peikou.rs:10-21 | two pairs of identical sequences give two pairs |
| PeikouCheck.RyanpeikouOfFourCopies | src/implements/yaku_checkers/standard/peikou.rs:16-18 | four identical sequences give two pairs |
| PeikouCheck.IipeikouOfOnePair | src/implements/yaku_checkers/standard/peikou.rs:10-21 | one identical pair and two other sequences give one pair |
| PeikouCheck.CheckPeikou | src/implements/yaku_checkers/standard/peikou.rs:4-22 | the counting loop returns the specified pair |
| PinfuCheck.CheckPinfu | src/implements/yaku_checkers/standard/pinfu.rs:7-44 | pinfu holds exactly for a closed hand of four sequences, a pair that earns no fu, and a Ryanmen wait |
| PinfuCheck.PinfuNoTriplets | src/implements/yaku_checkers/standard/pinfu.rs:9-28 | a pinfu hand has no triplets or quads |
| PinfuCheck.PinfuWindPair | src/implements/yaku_checkers/standard/pinfu.rs:30-37 | a round- or seat-wind pair rules pinfu out; any other wind pair allows it |
| SanshokuCheck.CheckSanshokuDoujun | src/implements/yaku_checkers/standard/sanshoku.rs:10-33 | holds exactly when there are 3 or more sequences and some rank starts a sequence in all three suits |
| SanshokuCheck.SanshokuBySet | src/implements/yaku_checkers/standard/sanshoku.rs:16-28 | the result depends only on the set of sets |
| SanshokuCheck.CheckSanshokuGeneric | src/implements/yaku_checkers/standard/sanshoku.rs:10-29 | the loop returns the specified result |
| SanshokuCheck.DoukouMelds | src/implements/yaku_checkers/standard/sanshoku.rs:35-43 | triple triplets holds exactly when some rank has a triplet or quad in all three suits |
| SanshokuCheck.TripletAtIff | src/implements/yaku_checkers/standard/sanshoku.rs:35-43 | a triplet list starts at a tile exactly when the hand has a triplet or quad of it |
| SanshokuCheck.CheckSanshokuDoukou | src/implements/yaku_checkers/standard/sanshoku.rs:35-43 | the method applies the common test to the triplets and quads |
| TanyaoCheck.CheckTanyao | src/implements/yaku_checkers/standard/tanyao.rs:3-5 | holds exactly when both pair tiles and every meld tile are simple |
| TanyaoCheck.TanyaoParts | src/implements/yaku_checkers/standard/tanyao.rs:3-5 | "all tiles simple" is the same as "pair and every meld simple" |
| TanyaoCheck.TanyaoExcludesYaochuu | src/implements/yaku_checkers/standard/tanyao.rs:4 | any terminal or honor in a meld rules it out |
| TerminalsHonors.ShousangenMelds | src/implements/yaku_checkers/standard/terminals_honors.rs:9-26 | little three dragons implies two distinct dragon sets |
| TerminalsHonors.CheckShousangen | src/implements/yaku_checkers/standard/terminals_honors.rs:9-26 | the counting loop returns the specified result |
| TerminalsHonors.JunchanIsChanta | src/implements/yaku_checkers/standard/terminals_honors.rs:28-57 | junchan implies chanta; chanta with no honors is junchan |
| TerminalsHonors.ChantaOfHand | src/implements/yaku_checkers/standard/terminals_honors.rs:32-54 | chanta holds exactly when the pair and every meld contain a terminal or honor |
| TerminalsHonors.CheckChantaJunchan | src/implements/yaku_checkers/standard/terminals_honors.rs:28-57 | the loop returns both flags as specified |
| YakuhaiCheck.YakuhaiMembers | src/implements/yaku_checkers/standard/yakuhai.rs:12-47 | each dragon entry, Bakaze and Jikaze appear exactly when the hand has a triplet or quad of that tile |
| YakuhaiCheck.YakuhaiShape | src/implements/yaku_checkers/standard/yakuhai.rs:22-46 | at most 5 entries, each once, dragons then Bakaze then Jikaze |
| YakuhaiCheck.YakuhaiOrder | src/implements/yaku_checkers/standard/yakuhai.rs:34-44 | a double-wind triplet gives both Bakaze and Jikaze, last |
| YakuhaiCheck.YakuhaiNeedsTriplets | src/implements/yaku_checkers/standard/yakuhai.rs:15-20 | a hand of sequences credits nothing |
| YakuhaiCheck.CheckYakuhai | src/implements/yaku_checkers/standard/yakuhai.rs:12-47 | the set-building loop returns the specified list |
| StandardYaku.StandardMember | src/implements/yaku_checkers/standard/mod.rs:28-152 | the k-th yaku of the push order is listed exactly when its condition holds |
| StandardYaku.StandardOrder | src/implements/yaku_checkers/standard/mod.rs:28-152 | at most 29 entries, in push order, each once |
| StandardYaku.SituationEntries | src/implements/yaku_checkers/standard/mod.rs:37-59 | double riichi takes precedence over riichi; MenzenTsumo iff menzen Tsumo; haitei only on Tsumo and houtei only on Ron |
| StandardYaku.SequenceEntries | src/implements/yaku_checkers/standard/mod.rs:60-88 | pinfu follows its check; iipeikou and ryanpeikou need a closed hand and never appear together |
| StandardYaku.TripletEntries | src/implements/yaku_checkers/standard/mod.rs:99-121 | toitoi iff 4 sets of three or four; sanankou iff exactly 3 concealed; sankantsu iff 3 quads; the two sanshoku and shousangen follow their checks |
| StandardYaku.OutsideEntries | src/implements/yaku_checkers/standard/mod.rs:123-149 | honroutou blocks chanta and junchan; junchan excludes chanta; chinitsu excludes honitsu |
| StandardYaku.OpenHandEntries | src/implements/yaku_checkers/standard/mod.rs:45-88 | an open hand never gets MenzenTsumo, pinfu or a peikou |
| StandardYaku.PinfuExcludesTriplets | src/implements/yaku_checkers/standard/mod.rs:60-121 | a pinfu hand has no triplet yaku and no yakuhai |
| StandardYaku.FindStandardYaku | src/implements/yaku_checkers/standard/mod.rs:28-152 | the conditional pushes build exactly the specified list |
| StandardYaku.ChiitoitsuMember | src/implements/yaku_checkers/standard/mod.rs:154-211 | the k-th seven-pairs yaku is listed exactly when its condition holds |
| StandardYaku.ChiitoitsuEntries | src/implements/yaku_checkers/standard/mod.rs:154-211 | riichi rules as for four-sets hands; MenzenTsumo on every Tsumo; tanyao and honroutou follow the tiles and never appear together |
| StandardYaku.ChiitoitsuAbsent | src/implements/yaku_checkers/standard/mod.rs:154-211 | no pinfu, peikou, triplet, rinshan, chankan or outside-hand yaku |
| StandardYaku.FindChiitoitsuYaku | src/implements/yaku_checkers/standard/mod.rs:154-211 | the pushes build exactly the specified list |
| HanCalc.HanValueOpen | src/implements/score_calculator/han.rs:10-96 | a yaku is worth one han more closed than open exactly when it is one of the six reduced on open hands |
| HanCalc.KuisagariValues | src/implements/score_calculator/han.rs:39-87 | a reduced yaku is worth 2, 3 or 6 closed and one less open |
| HanCalc.HanValueRange | src/implements/score_calculator/han.rs:10-96 | a yaku is worth 0 han exactly when it is a yakuman; never more than 6 |
| HanCalc.HanAppend | src/implements/score_calculator/han.rs:3-8 | han is additive over the list |
| HanCalc.HanMenzenOpen | src/implements/score_calculator/han.rs:3-96 | closed han = open han + number of reduced yaku, so closed is at least open |
| HanCalc.HanBounds | src/implements/score_calculator/han.rs:3-96 | a list without yakuman is worth between 1 and 6 han per entry |
| FuCalc.MeldFuTable | src/implements/score_calculator/fu.rs:12-20 | quads are worth 4 times triplets, closed twice open, open triplets 2 or 4, sequences 0 |
| FuCalc.PairFuValues | src/implements/score_calculator/fu.rs:89-106 | dragon pair 2; wind pair 2 per match of round and seat wind, so 4 for a double wind; suited 0 |
| FuCalc.RoundUp10Spec | src/implements/score_calculator/fu.rs:85-86 | rounding gives the least multiple of 10 not below the raw fu |
| FuCalc.HandFuBounds | src/implements/score_calculator/fu.rs:44-86 | the general path gives a multiple of 10 between 20 and 170 |
| FuCalc.FixedFu | src/implements/score_calculator/fu.rs:30-51 | seven pairs 25; pinfu 20 on Tsumo and 30 on Ron; thirteen orphans 0 |
| FuCalc.NoFuHand | src/implements/score_calculator/fu.rs:44-86 | an all-sequence, suited-pair, Ryanmen hand scores 30, or 20 on an open Ron |
| FuCalc.CalculateFu | src/implements/score_calculator/fu.rs:22-87 | the accumulating method returns the specified fu |
| Points.BasicPointsLimits | src/implements/score_calculator.rs:321-352 | each limit tier holds exactly on its han range; below 5 han the basic points are fu times 2^(han+2), promoted to mangan at 2000; never above 8000 |
| Points.BasicPointsMonotoneHan | src/implements/score_calculator.rs:321-352 | more han never gives fewer basic points |
| Points.BasicPointsMonotoneFu | src/implements/score_calculator.rs:321-352 | more fu never gives fewer basic points |
| Points.RoundUp100Least | src/implements/score_calculator.rs:381-383 | the result is the least multiple of 100 not below n |
| Points.RoundUp100Monotone | src/implements/score_calculator.rs:381-383 | rounding is monotone and leaves multiples of 100 unchanged |
| Points.YakumanValueOrd | src/implements/score_calculator.rs:354-379 | exactly the yakuman count, and each counts 1 or 2 |
| Points.YakumanCountAppend | src/implements/score_calculator.rs:354-379 | the yakuman count is additive |
| Points.YakumanCountZero | src/implements/score_calculator.rs:354-379 | the count is 0 exactly when no yakuman is listed; a yakuman-only list counts between its length and twice that |
| ScoreCalc.CalculateScore | src/implements/score_calculator/mod.rs:18-130 | the result carries the computed fu, the yaku list, honba, way of winning and dealer flag unchanged |
| ScoreCalc.YakumanScore | src/implements/score_calculator/mod.rs:29-84 | with yakuman: han 13 per count, the yakuman limit, no red fives, and payments on 8000 per count |
| ScoreCalc.RegularScore | src/implements/score_calculator/mod.rs:86-129 | without yakuman: the summed han, the tier and basic points of that han and fu, the red-five count passed on |
| ScoreCalc.PaymentShares | src/implements/score_calculator/mod.rs:45-69 | dealer Tsumo: 3 payers of round(2b); non-dealer Tsumo: dealer round(2b), others round(b); Ron: round(6b) or round(4b) from one payer |
| ScoreCalc.PaymentsHonba | src/implements/score_calculator/mod.rs:24-25 | honba adds 300 per honba to the total and leaves the per-payer amounts alone |
| ScoreCalc.PaymentsHundreds | src/implements/score_calculator/mod.rs:45-69 | all payments are multiples of 100 |
| ScoreCalc.TsumoCoversRon | src/implements/score_calculator/mod.rs:45-69 | a Tsumo total is never below the Ron total |
| ScoreCalc.DealerCoversNonDealer | src/implements/score_calculator/mod.rs:45-69 | a dealer's total is never below a non-dealer's |
| ScoreCalc.PaymentsMonotone | src/implements/score_calculator/mod.rs:45-69 | more basic points never pay less |
| ScoreCalc.MoreHanPaysMore | src/implements/score_calculator/mod.rs:86-115 | more han at the same fu never pays less |
| ScoreCalc.LimitPayments | src/implements/score_calculator/mod.rs:45-69 | mangan and yakuman Ron and Tsumo pay the standard 8000/12000 and 32000/48000 amounts |
| ScoreCalc.PinfuTsumoExample | src/implements/score_calculator/mod.rs:99-104 | 2 han 20 fu non-dealer Tsumo pays 700 and 400 |
| AgariPipeline.CalculateAgariFor | src/implements/mod.rs:13-29 | one organization through evaluator and calculator, as written |
| AgariPipeline.YakumanAgari | src/implements/mod.rs:13-29 | a yakuman hand scores at least 13 han at the yakuman limit, with no red fives |
| AgariPipeline.YakulessHandIsPaid | src/implements/yaku_checkers/mod.rs:65-96 | as written, a resolved hand with no yaku and no riichi is paid at 0 han |
| AgariPipeline.EmptyListPaid | src/implements/score_calculator/mod.rs:86-129 | an empty yaku list on a four-sets structure still pays |
| AgariPipeline.LegalAgariHasHan | src/implements/yaku_checkers/mod.rs:23-136 | corrected: an accepted hand has at least 1 han; it fails with "No Yaku Found" exactly when resolution fails or no yaku is found |
| AgariPipeline.CalculateLegalAgariFor | src/implements/yaku_checkers/mod.rs:23-136 | the method returns the corrected result |
| AgariPipeline.PickSpec | src/implements/mod.rs:13-29 | the pick is none exactly when every candidate fails; otherwise its total is the highest, and it is the first reaching it |
| AgariPipeline.PickBest | src/implements/mod.rs:13-29 | the loop keeps that pick over all organizations |
| AgariPipeline.AgariSpec | src/implements/mod.rs:13-29 | errors are the chi, no-pair and no-yaku messages; a success is one organization's result, pays at least every other, and has at least 1 han |
| AgariPipeline.CalculateAgari | src/implements/mod.rs:13-29 | organize, then score every organization and keep the best |
| GuiCounts.ActiveCountsSpec | src/gui/state/utils.rs:6-32 | slot k is the hand count minus the meld tiles minus 4 per closed kan, never below 0 |
| GuiCounts.ActiveCountsBound | src/gui/state/utils.rs:6-32 | every slot is at most that tile's count in the hand |
| GuiCounts.GetActiveHandCounts | src/gui/state/utils.rs:6-32 | the loops compute those counts |
| GuiMeldTiles.MeldTilesShape | src/gui/state/melds.rs:12-42 | a pon gives 3 copies, a kan 4; a chi gives consecutive ranks cut at the suit end; an honor chi gives only its tile |
| GuiMeldTiles.GetMeldTiles | src/gui/state/melds.rs:12-42 | the method returns those tiles |
| GuiMelds.CanTakeIff | src/gui/state/melds.rs:45-58 | taking the tiles one by one succeeds exactly when each kind is needed no more often than available |
| GuiMelds.MeldAvailableIff | src/gui/state/melds.rs:45-58 | a pon needs 3 copies, a kan 4, a chi its three consecutive tiles |
| GuiMelds.CanFormMeld | src/gui/state/melds.rs:45-58 | the method returns that availability |
| GuiMelds.PonsUpToSpec | src/gui/state/melds.rs:60-75 | pons are offered exactly for slots with 3 or more available, in slot order, never as added kans |
| GuiMelds.GetAllPossiblePons | src/gui/state/melds.rs:60-75 | the loop returns that list |
| GuiMelds.ChiisSpec | src/gui/state/melds.rs:77-101 | a chi is offered exactly for a suited start 1-7 whose three tiles are available |
| GuiMelds.GetAllPossibleChiis | src/gui/state/melds.rs:77-101 | the nested loops return that list |
| GuiMelds.KansUpToSpec | src/gui/state/melds.rs:103-114 | kans are offered exactly for slots with 4 available, in slot order |
| GuiMelds.GetAllPossibleKans | src/gui/state/melds.rs:103-114 | the loop returns that list |
| GuiMelds.OffersAreFormable | src/gui/state/melds.rs:45-101 | an offered pon or chi is exactly a formable one of that type |
| GuiCalculation.ExpandInverse | src/gui/state/calculation.rs:19-29 | expanding counts gives a sorted list with exactly those counts |
| GuiCalculation.ExpandCounts | src/gui/state/calculation.rs:19-29 | the loop returns the expansion |
| GuiCalculation.ScoringHandSpec | src/gui/state/calculation.rs:12-29 | the hand handed to the engine has the available counts minus one winning tile on Ron, sorted |
| GuiCalculation.RemoveFirstSpec | src/gui/update.rs:203-228 | removing the first copy takes one copy out when present and changes nothing otherwise |
| GuiCalculation.ArmHandIsScoringHand | src/gui/update.rs:200-229 | for a sorted hand, the update handler's tile removal gives the same list as the result helper's count expansion |
| GuiCalculation.RetryFromSpec | src/gui/state/calculation.rs:63-95 | the retry keeps the first meld, from the i-th on, whose retraction succeeds, or the fallback when none does |
| GuiCalculation.BestAgariSpec | src/gui/state/calculation.rs:8-103 | a first success stands; otherwise the result succeeds exactly when some retraction of a meld holding the winning tile succeeds, and is the first such |
| GuiCalculation.BestAgariResult | src/gui/state/calculation.rs:31-95 | the method computes that result |
| GuiCalculation.BestAgariOutcome | src/gui/state/calculation.rs:8-103 | errors are engine messages; a success has at least 1 han |
| GuiCalculation.ScoredStateSpec | src/gui/state/calculation.rs:8-103 | without a winning tile nothing changes; with one the phase becomes Result and a result is stored |
| GuiCalculation.MaxAkadora | src/gui/state/calculation.rs:140-145 | at most 1 man, 2 pin and 1 sou red five, capped by the fives present, so at most 4 |
| GuiCalculation.FiveSourcesCount | src/gui/state/calculation.rs:120-138 | fives are counted over the hand, the winning tile, the meld tiles and 4 per closed kan |
| GuiCalculation.GetMaxAkadoraCount | src/gui/state/calculation.rs:105-146 | the method returns that cap |
| GuiStep.SortTilesSpec | src/gui/components.rs:59-72 | sorting gives a list sorted by slot with the same tiles |
| GuiStep.AddToSorted | src/gui/update.rs:17-27 | sorting after appending is inserting in place, and removing at that place undoes it |
| GuiStep.DefaultsConsistent | src/gui/state/initialize.rs:110-143 | the initial state, with a full pool and an empty hand, meets the invariant |
| GuiStep.TransitionConsistent | src/gui/update.rs:14-295 | every message keeps the invariant: pool plus hand hold 4 of each tile, the hand is sorted with at most 18 tiles, at most 4 red fives, double riichi and ippatsu imply riichi, and no first-turn win while melds are open |
| GuiStep.StepConsistent | src/gui/update.rs:14-199 | every message except CalculateScore keeps the invariant |
| GuiStep.AddTileSpec | src/gui/update.rs:17-27 | AddTile acts only below 18 tiles with the tile in the pool; it takes one from the pool, inserts it in order, and RemoveTile at that place undoes it |
| GuiStep.AddTileConserves | src/gui/update.rs:17-27 | an accepted AddTile keeps the invariant |
| GuiStep.RemoveTileSpec | src/gui/update.rs:28-35 | a valid RemoveTile returns the tile to the pool and AddTile of it undoes it; an invalid index changes nothing |
| GuiStep.RemoveTileConserves | src/gui/update.rs:28-35 | a valid RemoveTile keeps the invariant |
| GuiStep.AddAfterRemove | src/gui/update.rs:17-35 | adding back a removed tile restores the state |
| GuiStep.ConfirmHandSpec | src/gui/update.rs:36-41 | the definition phase is entered exactly with 14 tiles or more |
| GuiStep.ModifyHandSpec | src/gui/update.rs:47-54 | back to composition with the winning tile, melds, kans and red fives cleared and the hand kept |
| GuiStep.SelectCompleteMeldSpec | src/gui/update.rs:65-83 | a meld is added exactly when it is being selected and formable; then the closed-hand flags are cleared |
| GuiStep.OpenedSpec | src/gui/update.rs:65-83 | opening the hand clears riichi, double riichi, ippatsu, tenhou, chiihou and renhou and keeps the winds and way of winning |
| GuiStep.AgariTypeSpec | src/gui/update.rs:106-122 | Ron clears tenhou, chiihou, haitei and rinshan; Tsumo clears renhou, houtei and chankan; other flags stay |
| GuiStep.JikazeSpec | src/gui/update.rs:126-134 | a non-east seat clears tenhou; east clears chiihou |
| GuiStep.RiichiSpec | src/gui/update.rs:135-141 | clearing riichi also clears double riichi and ippatsu |
| GuiStep.DoubleRiichiSpec | src/gui/update.rs:142-147 | setting double riichi sets riichi |
| GuiStep.IppatsuSpec | src/gui/update.rs:148-152 | ippatsu changes only under riichi |
| GuiStep.TenhouSpec | src/gui/update.rs:157-161 | tenhou changes only while no meld is open |
| GuiStep.ChiihouSpec | src/gui/update.rs:162-166 | chiihou changes only while no meld is open |
| GuiStep.RenhouSpec | src/gui/update.rs:167-171 | renhou changes only while no meld is open |
| GuiStep.HonbaSpec | src/gui/update.rs:172-177 | increment adds one; decrement floors at 0 and undoes an increment |
| GuiStep.AkadoraSpec | src/gui/update.rs:284-293 | the increment caps at 4 and the decrement floors at 0; below the cap they undo each other |
| GuiStep.DoraSpec | src/gui/update.rs:178-192 | selecting a dora appends it and removing the last one undoes it |
| GuiStep.UraDoraSpec | src/gui/update.rs:183-199 | the same for ura-dora indicators |
| GuiStep.StartOverSpec | src/gui/update.rs:275-277 | start over restores the initial state with a full pool |
| GuiStep.HandFrame | src/gui/update.rs:14-295 | only AddTile, RemoveTile and StartOver touch the hand and the pool |
| GuiStep.ResultFrame | src/gui/update.rs:14-295 | only CalculateScore and StartOver touch the stored result |
| GuiStep.CalculateScoreSpec | src/gui/update.rs:200-274 | the message stores the engine's result for the hand minus the declared tiles and sets the Result phase; it agrees with the result helper whenever the engine accepts, and differs only when a meld retraction would succeed |
| GuiStep.CalculateScoreOutcome | src/gui/update.rs:200-274 | the stored result is an engine error message or a win of at least 1 han |
| GuiState.RemoveFirstOf | src/gui/update.rs:203-228 | the position-and-remove step removes the first copy |
| GuiState.TakeDeclared | src/gui/update.rs:203-228 | the removal loops build the hand the engine receives |
| GuiState.ScoreArm | src/gui/update.rs:200-274 | the message's engine call returns the specified result |
| GuiState.ScoredArm | src/gui/state/calculation.rs:8-103 | the result helper's engine calls return the best-with-retry result |
| GuiState.RiichiGui.constructor | src/gui/state/initialize.rs:110-143 | the new state is the initial state and meets the invariant |
| GuiState.RiichiGui.Reset | src/gui/state/initialize.rs:145-172 | reset restores the initial state |
| GuiState.RiichiGui.Update | src/gui/update.rs:14-295 | the fields change exactly as the transition function says, and the invariant is kept |
| GuiState.RiichiGui.AddTile | src/gui/update.rs:17-27 | the pool and hand change as AddTile specifies |
| GuiState.RiichiGui.SelectCompleteMeld | src/gui/update.rs:65-83 | the meld is appended and the closed-hand flags cleared exactly when it is accepted; the phase returns to Definition |
| GuiState.RiichiGui.SetJikaze | src/gui/update.rs:126-134 | the seat wind changes and tenhou or chiihou is cleared as specified |
| GuiState.RiichiGui.CalculateScore | src/gui/update.rs:200-274 | the fields become the specified scored state |
| GuiState.RiichiGui.CalculateScoreResult | src/gui/state/calculation.rs:8-103 | the fields become the best-with-retry scored state |

## Left out

- HandOrganizer.Organize, HandOrganizer.OrganizeHand, HandOrganizer.OrganizeEndsIrregular, HandOrganizer.OrganizeErrors: require at most four declared melds. With more, `4 - open_mentsu.len()` underflows (src/implements/raw_hand_organizer/mod.rs:78). That panics in a debug build, and in a release build the wrapped value reaches `Vec::with_capacity` (:114). Neither outcome is an engine error, so the model states the case as a precondition instead of modelling the crash.
- AgariPipeline.Agari, AgariPipeline.CalculateAgari, AgariPipeline.AgariSpec: carry the same at-most-four precondition, because they call the organizer.
- GuiStep.StepAllowed, GuiStep.Transition, GuiStep.TransitionConsistent, GuiStep.ScoreStep, GuiStep.CalculateScoreSpec, GuiStep.CalculateScoreOutcome: CalculateScore with a winning tile requires at most four declared melds. SelectClosedKan (src/gui/update.rs:87-92) does not cap the number of kans, so the interface can reach five declared melds; a CalculateScore there would crash the engine as described above, and that step is not modelled.
- GuiState.RiichiGui.Update, GuiState.RiichiGui.CalculateScore, GuiState.RiichiGui.CalculateScoreResult, GuiState.ScoreArm, GuiState.ScoredArm: the same precondition on scoring.
- GuiCalculation.BestAgari, GuiCalculation.BestAgariResult, GuiCalculation.RetryFromSpec, GuiCalculation.BestAgariSpec, GuiCalculation.BestAgariOutcome, GuiCalculation.ScoredState, GuiCalculation.ScoredStateSpec: the same precondition on scoring.
- AgariPipeline.Agari, AgariPipeline.CalculateAgari, AgariPipeline.PickBest: choose among organizations by an assumed rule: highest total payment, the first on ties. The orchestrator in src/implements/mod.rs:13-29 passes the whole organization list to `check_all_yaku`, which takes one organization, and no file selects among them. AgariPipeline.AgariOf keeps the per-organization pipeline as written.
- AgariPipeline.Agari, AgariPipeline.CalculateAgari: use the corrected AgariPipeline.LegalAgariOf, which rejects a yaku-less hand with "No Yaku Found". Written as shown, the engine returns Ok with 0 han for such a hand (see Findings).
- GuiCalculation.BestAgari, GuiCalculation.BestAgariResult, GuiCalculation.RetryFromSpec, GuiCalculation.BestAgariOutcome, GuiCalculation.ScoredState, GuiStep.ScoreStep, GuiStep.CalculateScoreOutcome, GuiState.RiichiGui.CalculateScore: are built on the corrected pipeline. The meld-retraction retry of src/gui/state/calculation.rs:63-95 fires on any error. As written, the engine's only errors are the chi error, the no-pair error and an unresolved irregular organization, never a yaku-less standard hand.
- GuiStep.HonbaSpec, GuiState.RiichiGui.IncrementHonba: honba is a `u8` in the source, and `honba += 1` (src/gui/update.rs:172) overflows at 255. The model counts without a bound.
- YakuUtils.CountDora, HanCalc.Han, ScoreCalc.CalculateScore, Points.YakumanCountZero: the dora count, the han sum and `13 * num_yakuman` are `u8` in the source and could wrap on absurd inputs. The model uses unbounded naturals.
- Tiles.Rank: suited ranks are the subtype 1..9 (tiles.dfy:12). The source stores a `u8`, and `tile_to_index` would underflow on rank 0. The model does not represent tiles with other ranks.
- Tiles.IndexToTile: requires index < 34 (tiles.dfy:104). The source panics on any other index (src/implements/types/tiles.rs:133).
- GuiTypes.DefaultSettings: the default way of winning is taken as Tsumo. The `AgariType` default comes from src/implements/types/game.rs, which is not part of this model. The default seat and round winds are East, per the `Kaze` default in src/implements/types/tiles.rs:26.
- GuiState.RiichiGui.EditClosedKan: a no-op. The message is declared (src/gui/messages.rs:22), but src/gui/update.rs has no arm for it (the comment at :93 says it was removed).
- GuiStep.SortTiles: an insertion sort by tile slot, standing in for `sort_by_key(sort_tiles_by_type)` (src/gui/components.rs:59-72). The key orders tiles exactly as their slots do, and equal keys only ever belong to equal tiles, so the resulting list is the same. The sorting algorithm itself is not modelled.
- GuiState.RiichiGui: the thirteen way-of-winning, wind and situational fields are one `settings` record field. The source keeps them as separate fields.
- The five rule variants of the superseded engine revisions (src/implements/types.rs, src/implements/raw_hand_organizer.rs, src/implements/yaku_checkers/standard.rs, src/implements/yaku_checkers/yakuman.rs, riichi_calc/src/implements/yaku_checker.rs) are not modelled. The model follows the modular tree:
  - Pinfu: the old revisions withdraw pinfu under rinshan or chankan (src/implements/yaku_checkers/standard.rs:135-139).
  - Toitoi and Sanankou: the old revisions make them exclusive (standard.rs:85-92). StandardYaku.TripletEntries states them independently.
  - Seven pairs: the old revision counts a four-of-a-kind as two pairs (riichi_calc/src/implements/yaku_checker.rs:361-367). YakuUtils.CheckChiitoitsuIff rejects it.
  - Peikou: the old revision pairs sequences greedily (standard.rs:274-301). PeikouCheck.CheckPeikou counts halves.
  - Winning-meld concealment: the old flat organizer never marks the Ron-completed meld as open. LegacyOrganizer keeps that; it models only the older validator, the meld subtraction and the first-found organization.
- The older monolithic interface (src/gui.rs, src/gui/state.rs) and the prototypes (riichi_calc/src/implements/special_yaku_checker.rs, riichi_calc/src/implements/types.rs, riichi_calc/src/types.rs, riichi_calc/src/main.rs) are not modelled. They duplicate the modelled logic with other types, or depend on modules that are not part of this model.
- Rendering, widgets, fonts, colours and image loading (src/gui/view*, src/gui/components.rs apart from its sort key, src/gui/styles.rs, src/gui/mod.rs, the file I/O and parallel map of src/gui/state/initialize.rs): none of this is behaviour of the engine. Only the reset defaults are kept.
- The `points` and `yakuman` submodules imported by src/implements/score_calculator/mod.rs are not part of this model. Basic points, rounding and the yakuman count follow src/implements/score_calculator.rs:321-383.
- `HashMap` and `HashSet` in the sanshoku, ittsu, peikou and yakuhai checks are modelled as sets, multisets and counts. Their iteration order never reaches a result.
- Error strings are compared by identity: the model keeps one constant per message, not its text.

## Findings

| source | as written | input that shows it | evidently intended | confidence | as-written member | corrected member |
|---|---|---|---|---|---|---|
| src/implements/yaku_checkers/mod.rs:65-96 | a resolved four-sets hand that meets no yaku and is not riichi gets Ok with an empty yaku list, and calculate_score pays it at 0 han (fu × 4 basic points) | a closed Ron hand with an open-wait pattern missing every yaku, e.g. 234m 567p 789s 345s 11p with a kanchan win, no riichi, no dora | a win needs at least one yaku: the result view refuses a hand whose list holds no yaku besides dora (src/gui/view/phase_views/result.rs:27-35, src/gui.rs:845-858), and the irregular branch already fails with "No Yaku Found" (src/implements/yaku_checkers/mod.rs:132) | not executed | AgariPipeline.YakulessHandIsPaid, AgariPipeline.EmptyListPaid | AgariPipeline.LegalAgariHasHan, AgariPipeline.LegalAgariOf |
