/** What one message does to the interface state (the update function,
    src/gui/update.rs), as a function on state values, and the facts every
    sequence of messages keeps. */
module GuiStep {
  import opened Wrappers
  import opened Tiles
  import opened HandTypes
  import opened GameTypes
  import opened InputTypes
  import opened ScoringTypes
  import opened HandOrganizer
  import opened GuiMeldTiles
  import opened GuiCounts
  import opened GuiMelds
  import opened GuiTypes
  import opened GuiCalculation
  import opened YakuCheck
  import opened AgariPipeline

  // ---------------------------------------------------------------------
  // Keeping the composed hand in order
  // ---------------------------------------------------------------------

  /** t placed after every tile of lower or equal index of a sorted hand. */
  function InsertTile(ts: seq<Hai>, t: Hai): (r: seq<Hai>)
    ensures |r| == |ts| + 1
  {
    if ts == [] then [t]
    else if TileToIndex(t) < TileToIndex(ts[0]) then [t] + ts
    else [ts[0]] + InsertTile(ts[1..], t)
  }

  /** Where InsertTile puts t. */
  function InsertPos(ts: seq<Hai>, t: Hai): (p: nat)
    ensures p <= |ts|
  {
    if ts == [] || TileToIndex(t) < TileToIndex(ts[0]) then 0 else 1 + InsertPos(ts[1..], t)
  }

  /** The hand reordered by the display key (sort_tiles_by_type,
      src/gui/components.rs), which orders tiles exactly as their index
      does: characters, circles and bamboo by rank, then the winds, then
      the dragons. */
  function SortTiles(ts: seq<Hai>): seq<Hai>
  {
    if ts == [] then [] else InsertTile(SortTiles(ts[..|ts| - 1]), ts[|ts| - 1])
  }

  /** Vec::remove: the element at i taken out, the rest kept in order. */
  function RemoveAt<T>(s: seq<T>, i: nat): seq<T>
    requires i < |s|
  {
    s[..i] + s[i + 1..]
  }

  lemma {:induction false} InsertTileCount(ts: seq<Hai>, t: Hai)
    ensures multiset(InsertTile(ts, t)) == multiset(ts) + multiset{t}
    decreases |ts|
  {
    if ts != [] && TileToIndex(t) >= TileToIndex(ts[0]) {
      InsertTileCount(ts[1..], t);
      assert ts == [ts[0]] + ts[1..];
    }
  }

  /** t sits at InsertPos, and taking it out gives the hand back. */
  lemma {:induction false} InsertPosSpec(ts: seq<Hai>, t: Hai)
    ensures InsertTile(ts, t)[InsertPos(ts, t)] == t
    ensures RemoveAt(InsertTile(ts, t), InsertPos(ts, t)) == ts
    decreases |ts|
  {
    if ts == [] || TileToIndex(t) < TileToIndex(ts[0]) {
      RemoveAtCons(t, ts, 0);
    } else {
      InsertPosSpec(ts[1..], t);
      var r, p := InsertTile(ts[1..], t), InsertPos(ts[1..], t);
      assert InsertTile(ts, t) == [ts[0]] + r && InsertPos(ts, t) == p + 1;
      RemoveAtCons(ts[0], r, p + 1);
      assert [ts[0]] + ts[1..] == ts;
    }
  }

  /** Indexing and removing past a first element. */
  lemma RemoveAtCons<T>(x: T, r: seq<T>, i: nat)
    requires i <= |r|
    ensures i == 0 ==> RemoveAt([x] + r, 0) == r
    ensures 0 < i ==> ([x] + r)[i] == r[i - 1] && RemoveAt([x] + r, i) == [x] + RemoveAt(r, i - 1)
  {
    if i == 0 {
      assert ([x] + r)[1..] == r;
    } else {
      assert ([x] + r)[..i] == [x] + r[..i - 1];
      assert ([x] + r)[i + 1..] == r[i..];
    }
  }

  lemma {:induction false} InsertTileSorted(ts: seq<Hai>, t: Hai)
    requires IndexSorted(ts)
    ensures IndexSorted(InsertTile(ts, t))
    decreases |ts|
  {
    if ts != [] {
      if TileToIndex(t) < TileToIndex(ts[0]) {
        forall x | x in ts
          ensures TileToIndex(t) <= TileToIndex(x)
        {
          SortedHeadIsLeast(ts, x);
        }
        SortedCons(t, ts);
      } else {
        SortedTail(ts);
        InsertTileSorted(ts[1..], t);
        var r := InsertTile(ts[1..], t);
        InsertTileCount(ts[1..], t);
        forall x | x in r
          ensures TileToIndex(ts[0]) <= TileToIndex(x)
        {
          assert x in multiset(r);
          if x != t {
            assert x in ts[1..];
            SortedHeadIsLeast(ts, x);
          }
        }
        SortedCons(ts[0], r);
      }
    }
  }

  /** A tile no later than every tile of a sorted hand can go in front. */
  lemma SortedCons(x: Hai, r: seq<Hai>)
    requires IndexSorted(r)
    requires forall y :: y in r ==> TileToIndex(x) <= TileToIndex(y)
    ensures IndexSorted([x] + r)
  {
    forall i, j | 0 <= i < j < |[x] + r|
      ensures TileToIndex(([x] + r)[i]) <= TileToIndex(([x] + r)[j])
    {
      if i == 0 {
        assert ([x] + r)[j] == r[j - 1];
        assert r[j - 1] in r;
      } else {
        assert ([x] + r)[i] == r[i - 1] && ([x] + r)[j] == r[j - 1];
      }
    }
  }

  /** Sorting yields the hand's tiles in index order. */
  lemma {:induction false} SortTilesSpec(ts: seq<Hai>)
    ensures IndexSorted(SortTiles(ts))
    ensures multiset(SortTiles(ts)) == multiset(ts)
    decreases |ts|
  {
    if ts != [] {
      var init, last := ts[..|ts| - 1], ts[|ts| - 1];
      assert ts == init + [last];
      SortTilesSpec(init);
      InsertTileSorted(SortTiles(init), last);
      InsertTileCount(SortTiles(init), last);
    }
  }

  /** Adding a tile to a sorted hand and sorting inserts it in its place,
      and taking out the tile at that place gives the hand back. */
  lemma AddToSorted(ts: seq<Hai>, t: Hai)
    requires IndexSorted(ts)
    ensures SortTiles(ts + [t]) == InsertTile(ts, t)
    ensures RemoveAt(SortTiles(ts + [t]), InsertPos(ts, t)) == ts
  {
    SortTilesSpec(ts + [t]);
    InsertTileSorted(ts, t);
    InsertTileCount(ts, t);
    InsertPosSpec(ts, t);
    SortedUnique(SortTiles(ts + [t]), InsertTile(ts, t));
  }

  /** Taking one tile out keeps the hand sorted and its other tiles. */
  lemma RemoveAtSpec(ts: seq<Hai>, i: nat)
    requires i < |ts|
    ensures multiset(RemoveAt(ts, i)) == multiset(ts) - multiset{ts[i]}
    ensures IndexSorted(ts) ==> IndexSorted(RemoveAt(ts, i))
  {
    assert ts == ts[..i] + [ts[i]] + ts[i + 1..];
    var r := RemoveAt(ts, i);
    if IndexSorted(ts) {
      forall a, b | 0 <= a < b < |r|
        ensures TileToIndex(r[a]) <= TileToIndex(r[b])
      {
        var a', b' := if a < i then a else a + 1, if b < i then b else b + 1;
        assert r[a] == ts[a'] && r[b] == ts[b'];
      }
    }
  }


  // ---------------------------------------------------------------------
  // One message
  // ---------------------------------------------------------------------

  /** What a message needs of the state: a pool of 34 kinds, and at most
      four declared melds when a score is calculated (the engine panics on
      more). */
  predicate StepAllowed(g: GuiData, msg: Message)
  {
    && |g.tileCounts| == TILE_COUNT
    && (msg.CalculateScore? && g.winningTile.Some? ==> |g.closedKans| + |g.openMelds| <= 4)
  }

  predicate IsCompositionMessage(msg: Message)
  {
    msg.AddTile? || msg.RemoveTile? || msg.ConfirmHand? || msg.CancelSelection?
  }

  predicate IsDefinitionMessage(msg: Message)
  {
    || msg.ModifyHand? || msg.StartSelectWinningTile? || msg.SelectWinningTile? || msg.SelectMeldType?
    || msg.SelectCompleteMeld? || msg.StartAddClosedKan? || msg.SelectClosedKan? || msg.EditClosedKan?
    || msg.RemoveOpenMeld? || msg.RemoveClosedKan?
  }

  predicate IsSettingMessage(msg: Message)
  {
    || msg.ToggleAgariType? || msg.SetBakaze? || msg.SetJikaze? || msg.ToggleRiichi?
    || msg.ToggleDoubleRiichi? || msg.ToggleIppatsu? || msg.ToggleRinshan? || msg.ToggleChankan?
    || msg.ToggleHaitei? || msg.ToggleHoutei? || msg.ToggleTenhou? || msg.ToggleChiihou? || msg.ToggleRenhou?
  }

  predicate IsCounterMessage(msg: Message)
  {
    || msg.IncrementHonba? || msg.DecrementHonba? || msg.StartAddDora? || msg.SelectDora?
    || msg.StartAddUraDora? || msg.SelectUraDora? || msg.RemoveDora? || msg.RemoveUraDora?
    || msg.IncrementAkadora? || msg.DecrementAkadora?
  }

  predicate IsResultMessage(msg: Message)
  {
    msg.StartOver? || msg.ShowRules? || msg.HideRules?
  }

  /** The state after one message other than CalculateScore. Every
      message is accepted in every phase; the checks are the ones the update
      function makes. The settings messages change the settings alone, and
      they see whether the hand is closed. */
  function Step(g: GuiData, msg: Message): (r: GuiData)
    requires |g.tileCounts| == TILE_COUNT && !msg.CalculateScore?
    ensures |r.tileCounts| == TILE_COUNT
  {
    if IsCompositionMessage(msg) then CompositionStep(g, msg)
    else if IsDefinitionMessage(msg) then DefinitionStep(g, msg)
    else if IsSettingMessage(msg) then g.(settings := SettingsStep(g.settings, g.openMelds == [], msg))
    else if IsCounterMessage(msg) then CounterStep(g, msg)
    else ResultStep(g, msg)
  }

  /** A counter message goes to the counter step. */
  lemma CounterStepIsStep(g: GuiData, msg: Message)
    requires |g.tileCounts| == TILE_COUNT && IsCounterMessage(msg)
    ensures Step(g, msg) == CounterStep(g, msg)
  {
    assert !IsCompositionMessage(msg) && !IsDefinitionMessage(msg) && !IsSettingMessage(msg);
  }

  /** A result message goes to the result step. */
  lemma ResultStepIsStep(g: GuiData, msg: Message)
    requires |g.tileCounts| == TILE_COUNT && IsResultMessage(msg)
    ensures Step(g, msg) == ResultStep(g, msg)
  {
    assert !IsCompositionMessage(msg) && !IsDefinitionMessage(msg) && !IsSettingMessage(msg) && !IsCounterMessage(msg);
  }

  /** Composing the hand: a tile moves from the pool into its place in the
      hand while the hand has fewer than 18 tiles, or from the hand back to
      the pool; the hand is confirmed with at least 14 tiles. */
  function CompositionStep(g: GuiData, msg: Message): GuiData
    requires |g.tileCounts| == TILE_COUNT && IsCompositionMessage(msg)
  {
    match msg
    case AddTile(t) => AddTileTo(g, t)
    case RemoveTile(i) => RemoveTileFrom(g, i)
    case ConfirmHand => g.(phase := if |g.handTiles| >= 14 then Definition else g.phase)
    case _ => g.(phase := Definition)
  }

  /** AddTile: the tile leaves the pool and the hand is sorted again. */
  function AddTileTo(g: GuiData, t: Hai): GuiData
    requires |g.tileCounts| == TILE_COUNT
  {
    var k := TileToIndex(t);
    if |g.handTiles| < 18 && g.tileCounts[k] > 0 then
      g.(tileCounts := g.tileCounts[k := g.tileCounts[k] - 1], handTiles := SortTiles(g.handTiles + [t]))
    else g
  }

  /** RemoveTile: the tile at the position goes back to the pool. */
  function RemoveTileFrom(g: GuiData, i: nat): GuiData
    requires |g.tileCounts| == TILE_COUNT
  {
    if i < |g.handTiles| then
      var k := TileToIndex(g.handTiles[i]);
      g.(handTiles := RemoveAt(g.handTiles, i), tileCounts := g.tileCounts[k := g.tileCounts[k] + 1])
    else g
  }

  /** An open hand: riichi, double riichi, ippatsu and the first-turn wins
      are dropped. */
  function Opened(s: Settings): Settings
  {
    s.(isRiichi := false, isDaburuRiichi := false, isIppatsu := false,
       isTenhou := false, isChiihou := false, isRenhou := false)
  }

  /** Declaring the winning tile, open melds and closed quads. A meld is
      accepted only while a meld kind is being chosen and only if the free
      tiles can form it, and an accepted meld opens the hand. Editing a
      closed quad has no effect. */
  function DefinitionStep(g: GuiData, msg: Message): GuiData
    requires IsDefinitionMessage(msg)
  {
    match msg
    case ModifyHand =>
      g.(phase := Composition, winningTile := None, openMelds := [], closedKans := [], numAkadora := 0)
    case StartSelectWinningTile => g.(phase := SelectingWinningTile)
    case SelectWinningTile(t) => g.(winningTile := Some(t), phase := Definition)
    case SelectMeldType(m) => g.(phase := SelectingMeldTile(m))
    case SelectCompleteMeld(meld) =>
      var accepted := g.phase.SelectingMeldTile? && MeldAvailable(g.handTiles, g.openMelds, g.closedKans, meld);
      g.(openMelds := if accepted then g.openMelds + [meld] else g.openMelds,
         settings := if accepted then Opened(g.settings) else g.settings, phase := Definition)
    case StartAddClosedKan => g.(phase := SelectingClosedKan)
    case SelectClosedKan(t) => g.(closedKans := g.closedKans + [t], phase := Definition)
    case RemoveOpenMeld(i) => g.(openMelds := if i < |g.openMelds| then RemoveAt(g.openMelds, i) else g.openMelds)
    case RemoveClosedKan(i) => g.(closedKans := if i < |g.closedKans| then RemoveAt(g.closedKans, i) else g.closedKans)
    case _ => g
  }

  /** The settings of the win, given whether the hand is closed. The way of
      winning and the seat wind clear the flags they exclude; dropping
      riichi drops double riichi and ippatsu, double riichi implies riichi,
      ippatsu needs riichi, and the first-turn wins need a closed hand. */
  function SettingsStep(s: Settings, closed: bool, msg: Message): Settings
    requires IsSettingMessage(msg)
  {
    match msg
    case ToggleAgariType(a) =>
      var ron := a == Ron;
      s.(agariType := a,
         isTenhou := !ron && s.isTenhou, isChiihou := !ron && s.isChiihou,
         isHaitei := !ron && s.isHaitei, isRinshan := !ron && s.isRinshan,
         isRenhou := ron && s.isRenhou, isHoutei := ron && s.isHoutei, isChankan := ron && s.isChankan)
    case SetBakaze(k) => s.(bakaze := k)
    case SetJikaze(k) =>
      var east := k == Ton;
      s.(jikaze := k, isTenhou := east && s.isTenhou, isChiihou := !east && s.isChiihou)
    case ToggleRiichi(b) => s.(isRiichi := b, isDaburuRiichi := b && s.isDaburuRiichi, isIppatsu := b && s.isIppatsu)
    case ToggleDoubleRiichi(b) => s.(isDaburuRiichi := b, isRiichi := b || s.isRiichi)
    case ToggleIppatsu(b) => s.(isIppatsu := if s.isRiichi then b else s.isIppatsu)
    case ToggleRinshan(b) => s.(isRinshan := b)
    case ToggleChankan(b) => s.(isChankan := b)
    case ToggleHaitei(b) => s.(isHaitei := b)
    case ToggleHoutei(b) => s.(isHoutei := b)
    case ToggleTenhou(b) => s.(isTenhou := if closed then b else s.isTenhou)
    case ToggleChiihou(b) => s.(isChiihou := if closed then b else s.isChiihou)
    case _ => s.(isRenhou := if closed then msg.flag else s.isRenhou)
  }

  /** The counters and the indicator lists: honba never below zero, red
      fives between zero and four, indicators appended or removed by
      position. */
  function CounterStep(g: GuiData, msg: Message): GuiData
    requires IsCounterMessage(msg)
  {
    match msg
    case IncrementHonba => g.(honba := g.honba + 1)
    case DecrementHonba => g.(honba := if g.honba > 0 then g.honba - 1 else g.honba)
    case StartAddDora => g.(phase := SelectingDora)
    case SelectDora(t) => g.(doraIndicators := g.doraIndicators + [t], phase := Definition)
    case StartAddUraDora => g.(phase := SelectingUraDora)
    case SelectUraDora(t) => g.(uradoraIndicators := g.uradoraIndicators + [t], phase := Definition)
    case RemoveDora(i) =>
      g.(doraIndicators := if i < |g.doraIndicators| then RemoveAt(g.doraIndicators, i) else g.doraIndicators)
    case RemoveUraDora(i) =>
      g.(uradoraIndicators := if i < |g.uradoraIndicators| then RemoveAt(g.uradoraIndicators, i) else g.uradoraIndicators)
    case IncrementAkadora => g.(numAkadora := if g.numAkadora < 4 then g.numAkadora + 1 else g.numAkadora)
    case _ => g.(numAkadora := if g.numAkadora > 0 then g.numAkadora - 1 else g.numAkadora)
  }

  /** Starting over restores the defaults; the rules are shown or hidden. */
  function ResultStep(g: GuiData, msg: Message): GuiData
    requires IsResultMessage(msg)
  {
    match msg
    case StartOver => Defaults()
    case ShowRules => g.(showRules := true)
    case _ => g.(showRules := false)
  }

  /** CalculateScore: with a winning tile chosen, the hand less the
      declared tiles (and less the winning tile on a Ron) is scored, the
      result or the error is shown and the result phase begins. */
  ghost function ScoreStep(g: GuiData): GuiData
    requires g.winningTile.Some? ==> |g.closedKans| + |g.openMelds| <= 4
  {
    match g.winningTile
    case None => g
    case Some(w) =>
      var hand := ArmHand(g.handTiles, g.openMelds, g.closedKans, w, g.settings.agariType);
      g.(scoreResult := Some(ShownResult(Agari(BuildInput(g, hand, w)))), phase := Result)
  }

  /** The update function: one message on the state. */
  ghost function Transition(g: GuiData, msg: Message): GuiData
    requires StepAllowed(g, msg)
  {
    if msg.CalculateScore? then ScoreStep(g) else Step(g, msg)
  }

  // ---------------------------------------------------------------------
  // What every message keeps
  // ---------------------------------------------------------------------

  /** Every tile is either in the pool or in the hand, four in all. */
  predicate PoolHolds(handTiles: seq<Hai>, tileCounts: seq<nat>)
  {
    && |tileCounts| == TILE_COUNT
    && forall k :: 0 <= k < TILE_COUNT ==> tileCounts[k] + multiset(handTiles)[IndexToTile(k)] == 4
  }

  /** Double riichi and ippatsu come only with riichi, and an open hand
      claims no first-turn win. */
  predicate SettingsHold(s: Settings, closed: bool)
  {
    && (s.isDaburuRiichi ==> s.isRiichi) && (s.isIppatsu ==> s.isRiichi)
    && (!closed ==> !s.isTenhou && !s.isChiihou && !s.isRenhou)
  }

  /** The state's invariant: the pool and the hand hold the full set, the
      hand is sorted and has at most 18 tiles, at most four red fives are
      claimed, and the settings hold for the hand's melds. */
  predicate Consistent(g: GuiData)
  {
    && PoolHolds(g.handTiles, g.tileCounts)
    && IndexSorted(g.handTiles) && |g.handTiles| <= 18
    && g.numAkadora <= 4
    && SettingsHold(g.settings, g.openMelds == [])
  }

  lemma DefaultsConsistent()
    ensures Consistent(Defaults())
  {
    assert forall k :: 0 <= k < TILE_COUNT ==> multiset(Defaults().handTiles)[IndexToTile(k)] == 0;
  }

  /** The invariant holds after every message. */
  lemma TransitionConsistent(g: GuiData, msg: Message)
    requires StepAllowed(g, msg) && Consistent(g)
    ensures Consistent(Transition(g, msg))
  {
    if msg.CalculateScore? {
      ScoreStepFrame(g);
    } else {
      StepConsistent(g, msg);
    }
  }

  lemma StepConsistent(g: GuiData, msg: Message)
    requires |g.tileCounts| == TILE_COUNT && !msg.CalculateScore? && Consistent(g)
    ensures Consistent(Step(g, msg))
  {
    if IsCompositionMessage(msg) {
      CompositionConsistent(g, msg);
    } else if IsDefinitionMessage(msg) {
      DefinitionConsistent(g, msg);
    } else if IsSettingMessage(msg) {
      SettingsStepHolds(g.settings, g.openMelds == [], msg);
    } else if IsCounterMessage(msg) {
      CounterConsistent(g, msg);
    } else {
      ResultConsistent(g, msg);
    }
  }

  lemma CompositionConsistent(g: GuiData, msg: Message)
    requires |g.tileCounts| == TILE_COUNT && IsCompositionMessage(msg) && Consistent(g)
    ensures Consistent(CompositionStep(g, msg))
  {
    if msg.AddTile? {
      if |g.handTiles| < 18 && g.tileCounts[TileToIndex(msg.tile)] > 0 {
        AddTileConserves(g, msg.tile);
      }
    } else if msg.RemoveTile? {
      if msg.index < |g.handTiles| {
        RemoveTileConserves(g, msg.index);
      }
    }
  }

  lemma DefinitionConsistent(g: GuiData, msg: Message)
    requires IsDefinitionMessage(msg) && Consistent(g)
    ensures Consistent(DefinitionStep(g, msg))
  {
  }

  /** Every settings message keeps the settings' invariant. */
  lemma SettingsStepHolds(s: Settings, closed: bool, msg: Message)
    requires IsSettingMessage(msg) && SettingsHold(s, closed)
    ensures SettingsHold(SettingsStep(s, closed, msg), closed)
  {
  }

  lemma CounterConsistent(g: GuiData, msg: Message)
    requires IsCounterMessage(msg) && Consistent(g)
    ensures Consistent(CounterStep(g, msg))
  {
  }

  lemma ResultConsistent(g: GuiData, msg: Message)
    requires IsResultMessage(msg) && Consistent(g)
    ensures Consistent(ResultStep(g, msg))
  {
    if msg.StartOver? {
      DefaultsConsistent();
    }
  }

  /** Calculating touches only the shown result and the phase. */
  lemma ScoreStepFrame(g: GuiData)
    requires g.winningTile.Some? ==> |g.closedKans| + |g.openMelds| <= 4
    ensures ScoreStep(g) == g.(scoreResult := ScoreStep(g).scoreResult, phase := ScoreStep(g).phase)
  {
    match g.winningTile {
      case None =>
      case Some(w) =>
        var r := ShownResult(Agari(BuildInput(g, ArmHand(g.handTiles, g.openMelds, g.closedKans, w, g.settings.agariType), w)));
        assert ScoreStep(g) == g.(scoreResult := Some(r), phase := Result);
    }
  }

  /** Moving a tile from the pool into the hand keeps four of each kind. */
  lemma PoolAdd(handTiles: seq<Hai>, tileCounts: seq<nat>, t: Hai, handTiles': seq<Hai>)
    requires PoolHolds(handTiles, tileCounts) && tileCounts[TileToIndex(t)] > 0
    requires multiset(handTiles') == multiset(handTiles) + multiset{t}
    ensures var k := TileToIndex(t); PoolHolds(handTiles', tileCounts[k := tileCounts[k] - 1])
  {
    IndexToTileOfIndex(t);
  }

  /** Moving a tile from the hand back to the pool keeps four of each kind. */
  lemma PoolRemove(handTiles: seq<Hai>, tileCounts: seq<nat>, t: Hai, handTiles': seq<Hai>)
    requires PoolHolds(handTiles, tileCounts) && t in handTiles
    requires multiset(handTiles') == multiset(handTiles) - multiset{t}
    ensures var k := TileToIndex(t); PoolHolds(handTiles', tileCounts[k := tileCounts[k] + 1])
  {
    IndexToTileOfIndex(t);
  }

  lemma AddTileConserves(g: GuiData, t: Hai)
    requires Consistent(g) && |g.handTiles| < 18 && g.tileCounts[TileToIndex(t)] > 0
    ensures Consistent(AddTileTo(g, t))
  {
    var k := TileToIndex(t);
    SortTilesSpec(g.handTiles + [t]);
    PoolAdd(g.handTiles, g.tileCounts, t, SortTiles(g.handTiles + [t]));
  }

  lemma RemoveTileConserves(g: GuiData, i: nat)
    requires Consistent(g) && i < |g.handTiles|
    ensures Consistent(RemoveTileFrom(g, i))
  {
    var t := g.handTiles[i];
    var k := TileToIndex(t);
    RemoveAtSpec(g.handTiles, i);
    PoolRemove(g.handTiles, g.tileCounts, t, RemoveAt(g.handTiles, i));
  }

  /** Hence no tile kind is counted more than four times, in the pool or in
      the hand. */
  lemma ConsistentBounds(g: GuiData, t: Hai)
    requires Consistent(g)
    ensures multiset(g.handTiles)[t] <= 4 && g.tileCounts[TileToIndex(t)] <= 4
  {
    IndexToTileOfIndex(t);
  }

  // ---------------------------------------------------------------------
  // What single messages do
  // ---------------------------------------------------------------------

  /** Only adding, removing and starting over touch the hand and the pool. */
  lemma HandFrame(g: GuiData, msg: Message)
    requires StepAllowed(g, msg)
    requires !msg.AddTile? && !msg.RemoveTile? && !msg.StartOver?
    ensures Transition(g, msg).handTiles == g.handTiles && Transition(g, msg).tileCounts == g.tileCounts
  {
    if msg.CalculateScore? {
      ScoreStepFrame(g);
    } else {
      StepHandFrame(g, msg);
    }
  }

  lemma StepHandFrame(g: GuiData, msg: Message)
    requires |g.tileCounts| == TILE_COUNT
    requires !msg.CalculateScore? && !msg.AddTile? && !msg.RemoveTile? && !msg.StartOver?
    ensures Step(g, msg).handTiles == g.handTiles && Step(g, msg).tileCounts == g.tileCounts
  {
    if IsCompositionMessage(msg) {
      assert Step(g, msg) == CompositionStep(g, msg);
    } else if IsDefinitionMessage(msg) {
      DefinitionHandFrame(g, msg);
    } else if IsCounterMessage(msg) {
      CounterHandFrame(g, msg);
    } else if !IsSettingMessage(msg) {
      assert Step(g, msg) == ResultStep(g, msg);
    }
  }

  lemma DefinitionHandFrame(g: GuiData, msg: Message)
    requires IsDefinitionMessage(msg)
    ensures DefinitionStep(g, msg).handTiles == g.handTiles && DefinitionStep(g, msg).tileCounts == g.tileCounts
  {
  }

  lemma CounterHandFrame(g: GuiData, msg: Message)
    requires IsCounterMessage(msg)
    ensures CounterStep(g, msg).handTiles == g.handTiles && CounterStep(g, msg).tileCounts == g.tileCounts
  {
  }

  /** Only calculating and starting over touch the shown result. */
  lemma ResultFrame(g: GuiData, msg: Message)
    requires |g.tileCounts| == TILE_COUNT
    requires !msg.CalculateScore? && !msg.StartOver?
    ensures Step(g, msg).scoreResult == g.scoreResult
  {
    if IsCompositionMessage(msg) {
      CompositionResultFrame(g, msg);
    } else if IsDefinitionMessage(msg) {
      DefinitionResultFrame(g, msg);
    } else if IsCounterMessage(msg) {
      CounterResultFrame(g, msg);
    }
  }

  lemma CompositionResultFrame(g: GuiData, msg: Message)
    requires |g.tileCounts| == TILE_COUNT && IsCompositionMessage(msg)
    ensures CompositionStep(g, msg).scoreResult == g.scoreResult
  {
  }

  lemma DefinitionResultFrame(g: GuiData, msg: Message)
    requires IsDefinitionMessage(msg)
    ensures DefinitionStep(g, msg).scoreResult == g.scoreResult
  {
  }

  lemma CounterResultFrame(g: GuiData, msg: Message)
    requires IsCounterMessage(msg)
    ensures CounterStep(g, msg).scoreResult == g.scoreResult
  {
  }

  /** A tile is added only while the hand has fewer than 18 tiles and the
      pool still has one; it then moves from the pool into its place in
      the hand, and removing the tile at that place restores the state. */
  lemma AddTileSpec(g: GuiData, t: Hai)
    requires Consistent(g)
    ensures var k, s := TileToIndex(t), Step(g, AddTile(t));
      && (|g.handTiles| >= 18 || g.tileCounts[k] == 0 ==> s == g)
      && (|g.handTiles| < 18 && g.tileCounts[k] > 0 ==>
            && s.handTiles == InsertTile(g.handTiles, t)
            && multiset(s.handTiles) == multiset(g.handTiles) + multiset{t}
            && s.tileCounts[k] + 1 == g.tileCounts[k]
            && Step(s, RemoveTile(InsertPos(g.handTiles, t))) == g)
  {
    StepAddTile(g, t);
    if |g.handTiles| < 18 && g.tileCounts[TileToIndex(t)] > 0 {
      AddTileAccepted(g, t);
      InsertTileCount(g.handTiles, t);
      AddTileUndone(g, t);
    }
  }

  lemma AddTileAccepted(g: GuiData, t: Hai)
    requires Consistent(g) && |g.handTiles| < 18 && g.tileCounts[TileToIndex(t)] > 0
    ensures var k := TileToIndex(t);
      AddTileTo(g, t) == g.(tileCounts := g.tileCounts[k := g.tileCounts[k] - 1], handTiles := InsertTile(g.handTiles, t))
  {
    AddToSorted(g.handTiles, t);
  }

  lemma AddTileUndone(g: GuiData, t: Hai)
    requires Consistent(g) && |g.handTiles| < 18 && g.tileCounts[TileToIndex(t)] > 0
    ensures Step(AddTileTo(g, t), RemoveTile(InsertPos(g.handTiles, t))) == g
  {
    AddTileAccepted(g, t);
    RemoveAfterAdd(g, t);
    StepRemoveTile(AddTileTo(g, t), InsertPos(g.handTiles, t));
  }

  lemma RemoveAfterAdd(g: GuiData, t: Hai)
    requires |g.tileCounts| == TILE_COUNT && g.tileCounts[TileToIndex(t)] > 0
    ensures var k := TileToIndex(t);
      var s := g.(tileCounts := g.tileCounts[k := g.tileCounts[k] - 1], handTiles := InsertTile(g.handTiles, t));
      RemoveTileFrom(s, InsertPos(g.handTiles, t)) == g
  {
    InsertPosSpec(g.handTiles, t);
    UndoTake(g, TileToIndex(t), InsertTile(g.handTiles, t), InsertPos(g.handTiles, t));
  }

  lemma UndoTake(g: GuiData, k: nat, h: seq<Hai>, p: nat)
    requires |g.tileCounts| == TILE_COUNT && k < TILE_COUNT && g.tileCounts[k] > 0
    requires p < |h| && TileToIndex(h[p]) == k && RemoveAt(h, p) == g.handTiles
    ensures RemoveTileFrom(g.(tileCounts := g.tileCounts[k := g.tileCounts[k] - 1], handTiles := h), p) == g
  {
    UndoDecrement(g.tileCounts, k);
    RemoveFromRecord(g, g.tileCounts[k := g.tileCounts[k] - 1], h, p, k);
  }

  lemma RemoveFromRecord(g: GuiData, c: seq<nat>, h: seq<Hai>, p: nat, k: nat)
    requires |c| == TILE_COUNT && p < |h| && TileToIndex(h[p]) == k && k < TILE_COUNT
    requires RemoveAt(h, p) == g.handTiles && c[k := c[k] + 1] == g.tileCounts
    ensures RemoveTileFrom(g.(tileCounts := c, handTiles := h), p) == g
  {
    RemoveTileFromIs(g.(tileCounts := c, handTiles := h), p, g.handTiles, g.tileCounts, k);
    RestoreHand(g, c, h);
  }

  /** A tile is removed only if the position is in the hand; it then goes
      back to the pool, and adding it again restores the state. */
  lemma RemoveTileSpec(g: GuiData, i: nat)
    requires Consistent(g)
    ensures var s := Step(g, RemoveTile(i));
      && (i >= |g.handTiles| ==> s == g)
      && (i < |g.handTiles| ==>
            var t := g.handTiles[i];
            && multiset(s.handTiles) == multiset(g.handTiles) - multiset{t}
            && s.tileCounts[TileToIndex(t)] == g.tileCounts[TileToIndex(t)] + 1
            && Step(s, AddTile(t)) == g)
  {
    StepRemoveTile(g, i);
    if i < |g.handTiles| {
      RemoveAtSpec(g.handTiles, i);
      AddAfterRemove(g, i);
    }
  }

  lemma AddAfterRemove(g: GuiData, i: nat)
    requires |g.tileCounts| == TILE_COUNT && IndexSorted(g.handTiles) && |g.handTiles| <= 18 && i < |g.handTiles|
    ensures Step(RemoveTileFrom(g, i), AddTile(g.handTiles[i])) == g
  {
    var t := g.handTiles[i];
    var k := TileToIndex(t);
    var h := RemoveAt(g.handTiles, i);
    var c := g.tileCounts[k := g.tileCounts[k] + 1];
    assert RemoveTileFrom(g, i) == g.(handTiles := h, tileCounts := c);
    StepAddTile(g.(handTiles := h, tileCounts := c), t);
    ReinsertRemoved(g.handTiles, i);
    UndoIncrement(g.tileCounts, k);
    AddToRecord(g, h, c, t, k);
  }

  /** A sorted hand with one tile taken out and added back is the same
      hand. */
  lemma ReinsertRemoved(ts: seq<Hai>, i: nat)
    requires IndexSorted(ts) && i < |ts|
    ensures SortTiles(RemoveAt(ts, i) + [ts[i]]) == ts
  {
    var h, t := RemoveAt(ts, i), ts[i];
    RemoveAtSpec(ts, i);
    AddToSorted(h, t);
    InsertTileSorted(h, t);
    InsertTileCount(h, t);
    SortedUnique(InsertTile(h, t), ts);
  }

  lemma AddToRecord(g: GuiData, h: seq<Hai>, c: seq<nat>, t: Hai, k: nat)
    requires |c| == TILE_COUNT && |h| < 18 && TileToIndex(t) == k && c[k] > 0
    requires SortTiles(h + [t]) == g.handTiles && c[k := c[k] - 1] == g.tileCounts
    ensures AddTileTo(g.(handTiles := h, tileCounts := c), t) == g
  {
    assert AddTileTo(g.(handTiles := h, tileCounts := c), t) == g.(tileCounts := g.tileCounts, handTiles := g.handTiles);
  }

  lemma StepAddTile(g: GuiData, t: Hai)
    requires |g.tileCounts| == TILE_COUNT
    ensures Step(g, AddTile(t)) == AddTileTo(g, t)
  {
  }

  lemma StepRemoveTile(g: GuiData, i: nat)
    requires |g.tileCounts| == TILE_COUNT
    ensures Step(g, RemoveTile(i)) == RemoveTileFrom(g, i)
  {
  }

  lemma RemoveTileFromIs(s: GuiData, p: nat, h: seq<Hai>, c: seq<nat>, k: nat)
    requires |s.tileCounts| == TILE_COUNT && p < |s.handTiles| && RemoveAt(s.handTiles, p) == h
    requires TileToIndex(s.handTiles[p]) == k && s.tileCounts[k := s.tileCounts[k] + 1] == c
    ensures RemoveTileFrom(s, p) == s.(handTiles := h, tileCounts := c)
  {
  }

  lemma AddTileToIs(s: GuiData, t: Hai, h: seq<Hai>, c: seq<nat>)
    requires |s.tileCounts| == TILE_COUNT && |s.handTiles| < 18 && SortTiles(s.handTiles + [t]) == h
    requires var k := TileToIndex(t); s.tileCounts[k] > 0 && s.tileCounts[k := s.tileCounts[k] - 1] == c
    ensures AddTileTo(s, t) == s.(handTiles := h, tileCounts := c)
  {
  }

  lemma RestoreHand(g: GuiData, c: seq<nat>, h: seq<Hai>)
    ensures g.(tileCounts := c, handTiles := h).(handTiles := g.handTiles, tileCounts := g.tileCounts) == g
  {
  }

  lemma UndoDecrement(c: seq<nat>, k: nat)
    requires k < |c| && c[k] > 0
    ensures var d := c[k := c[k] - 1]; d[k := d[k] + 1] == c
  {
  }

  lemma UndoIncrement(c: seq<nat>, k: nat)
    requires k < |c|
    ensures var d := c[k := c[k] + 1]; d[k := d[k] - 1] == c
  {
  }

  /** The hand is confirmed only with at least 14 tiles. */
  lemma ConfirmHandSpec(g: GuiData)
    requires |g.tileCounts| == TILE_COUNT
    ensures Step(g, ConfirmHand) == if |g.handTiles| >= 14 then g.(phase := Definition) else g
    ensures g.phase != Definition ==> (Step(g, ConfirmHand).phase == Definition <==> |g.handTiles| >= 14)
  {
  }

  /** Going back to composing drops every declaration, keeps the hand and
      the pool, and needs no red five. */
  lemma ModifyHandSpec(g: GuiData)
    requires Consistent(g)
    ensures var s := Step(g, ModifyHand);
      && s.phase == Composition && s.winningTile == None && s.openMelds == [] && s.closedKans == []
      && s.numAkadora == 0 && s.handTiles == g.handTiles && s.tileCounts == g.tileCounts
      && s.settings == g.settings && SettingsHold(s.settings, true)
  {
  }

  /** A meld is added only while its kind is being chosen and only if the
      free tiles can form it; an accepted meld opens the hand, which clears
      riichi and the first-turn wins. The selection ends either way. */
  lemma SelectCompleteMeldSpec(g: GuiData, meld: OpenMeldInput)
    requires |g.tileCounts| == TILE_COUNT
    ensures var s := Step(g, SelectCompleteMeld(meld));
      && s.phase == Definition
      && (s.openMelds == g.openMelds + [meld] <==>
            g.phase.SelectingMeldTile? && MeldAvailable(g.handTiles, g.openMelds, g.closedKans, meld))
      && (s.openMelds != g.openMelds + [meld] ==> s == g.(phase := Definition))
      && (s.openMelds == g.openMelds + [meld] ==> s.settings == Opened(g.settings))
  {
    var s := Step(g, SelectCompleteMeld(meld));
    if !(g.phase.SelectingMeldTile? && MeldAvailable(g.handTiles, g.openMelds, g.closedKans, meld)) {
      assert |s.openMelds| != |g.openMelds + [meld]|;
    }
  }

  /** An opened hand keeps no riichi and no first-turn win, and opening
      twice changes nothing more. */
  lemma OpenedSpec(s: Settings)
    ensures var o := Opened(s);
      && !o.isRiichi && !o.isDaburuRiichi && !o.isIppatsu && !o.isTenhou && !o.isChiihou && !o.isRenhou
      && SettingsHold(o, false) && Opened(o) == o
      && o.agariType == s.agariType && o.bakaze == s.bakaze && o.jikaze == s.jikaze
  {
  }

  /** Choosing Ron clears the wins only a self-draw can have, choosing
      Tsumo those only a discard can have. */
  lemma AgariTypeSpec(s: Settings, closed: bool, a: AgariType)
    ensures var n := SettingsStep(s, closed, ToggleAgariType(a));
      && n.agariType == a && n.bakaze == s.bakaze && n.jikaze == s.jikaze
      && (a == Ron ==> !n.isTenhou && !n.isChiihou && !n.isHaitei && !n.isRinshan
                       && n.isRenhou == s.isRenhou && n.isHoutei == s.isHoutei && n.isChankan == s.isChankan)
      && (a == Tsumo ==> !n.isRenhou && !n.isHoutei && !n.isChankan
                         && n.isTenhou == s.isTenhou && n.isChiihou == s.isChiihou
                         && n.isHaitei == s.isHaitei && n.isRinshan == s.isRinshan)
  {
    var ron := a == Ron;
    assert SettingsStep(s, closed, ToggleAgariType(a)) ==
      s.(agariType := a,
         isTenhou := !ron && s.isTenhou, isChiihou := !ron && s.isChiihou,
         isHaitei := !ron && s.isHaitei, isRinshan := !ron && s.isRinshan,
         isRenhou := ron && s.isRenhou, isHoutei := ron && s.isHoutei, isChankan := ron && s.isChankan);
  }

  /** A non-East seat wind clears the dealer's first-turn win, East the
      non-dealer's. */
  lemma JikazeSpec(s: Settings, closed: bool, k: Kaze)
    ensures var n := SettingsStep(s, closed, SetJikaze(k));
      && n.jikaze == k
      && (k != Ton ==> !n.isTenhou && n.isChiihou == s.isChiihou)
      && (k == Ton ==> !n.isChiihou && n.isTenhou == s.isTenhou)
  {
  }

  /** Dropping riichi drops double riichi and ippatsu; declaring it keeps
      them. */
  lemma RiichiSpec(s: Settings, closed: bool, b: bool)
    ensures var n := SettingsStep(s, closed, ToggleRiichi(b));
      && n.isRiichi == b && (!b ==> !n.isDaburuRiichi && !n.isIppatsu)
      && (b ==> n.isDaburuRiichi == s.isDaburuRiichi && n.isIppatsu == s.isIppatsu)
  {
  }

  /** Double riichi declares riichi; dropping it keeps riichi. */
  lemma DoubleRiichiSpec(s: Settings, closed: bool, b: bool)
    ensures var n := SettingsStep(s, closed, ToggleDoubleRiichi(b));
      n.isDaburuRiichi == b && n.isRiichi == (b || s.isRiichi)
  {
  }

  /** Ippatsu follows the message only under riichi. */
  lemma IppatsuSpec(s: Settings, closed: bool, b: bool)
    ensures var n := SettingsStep(s, closed, ToggleIppatsu(b));
      n.isIppatsu == (if s.isRiichi then b else s.isIppatsu) && n.isRiichi == s.isRiichi
  {
  }

  /** The first-turn wins follow the message only while the hand is
      closed. */
  lemma TenhouSpec(s: Settings, closed: bool, b: bool)
    ensures SettingsStep(s, closed, ToggleTenhou(b)).isTenhou == if closed then b else s.isTenhou
  {
  }

  lemma ChiihouSpec(s: Settings, closed: bool, b: bool)
    ensures SettingsStep(s, closed, ToggleChiihou(b)).isChiihou == if closed then b else s.isChiihou
  {
  }

  lemma RenhouSpec(s: Settings, closed: bool, b: bool)
    ensures SettingsStep(s, closed, ToggleRenhou(b)).isRenhou == if closed then b else s.isRenhou
  {
  }

  /** Starting over restores the defaults whatever the state. */
  lemma StartOverSpec(g: GuiData)
    requires |g.tileCounts| == TILE_COUNT
    ensures Step(g, StartOver) == Defaults()
    ensures Step(g, StartOver).phase == Composition && Step(g, StartOver).tileCounts == FullPool()
  {
  }

  /** The honba counter never goes below zero, and a decrement undoes an
      increment. */
  lemma HonbaSpec(g: GuiData)
    requires |g.tileCounts| == TILE_COUNT
    ensures Step(g, IncrementHonba).honba == g.honba + 1
    ensures Step(g, DecrementHonba).honba == if g.honba > 0 then g.honba - 1 else 0
    ensures Step(Step(g, IncrementHonba), DecrementHonba) == g
  {
    var s := g.(honba := g.honba + 1);
    assert Step(g, IncrementHonba) == s;
    assert Step(s, DecrementHonba) == s.(honba := g.honba);
  }

  /** The red fives counter stays between zero and four, and a decrement
      undoes an increment below four. */
  lemma AkadoraSpec(g: GuiData)
    requires |g.tileCounts| == TILE_COUNT && g.numAkadora <= 4
    ensures Step(g, IncrementAkadora).numAkadora == if g.numAkadora < 4 then g.numAkadora + 1 else 4
    ensures Step(g, DecrementAkadora).numAkadora == if g.numAkadora > 0 then g.numAkadora - 1 else 0
    ensures g.numAkadora < 4 ==> Step(Step(g, IncrementAkadora), DecrementAkadora) == g
  {
    if g.numAkadora < 4 {
      var s := g.(numAkadora := g.numAkadora + 1);
      CounterStepIsStep(s, DecrementAkadora);
      assert s.(numAkadora := g.numAkadora) == g;
    }
    CounterStepIsStep(g, IncrementAkadora);
    CounterStepIsStep(g, DecrementAkadora);
  }

  /** An indicator is appended at the end of its list, and removing the
      last position takes it off again. */
  lemma DoraSpec(g: GuiData, t: Hai)
    requires |g.tileCounts| == TILE_COUNT
    ensures Step(g, SelectDora(t)).doraIndicators == g.doraIndicators + [t]
    ensures Step(Step(g, SelectDora(t)), RemoveDora(|g.doraIndicators|)).doraIndicators == g.doraIndicators
  {
    var d := g.(doraIndicators := g.doraIndicators + [t], phase := Definition);
    CounterStepIsStep(g, SelectDora(t));
    CounterStepIsStep(d, RemoveDora(|g.doraIndicators|));
    assert RemoveAt(d.doraIndicators, |g.doraIndicators|) == g.doraIndicators;
  }

  lemma UraDoraSpec(g: GuiData, t: Hai)
    requires |g.tileCounts| == TILE_COUNT
    ensures Step(g, SelectUraDora(t)).uradoraIndicators == g.uradoraIndicators + [t]
    ensures Step(Step(g, SelectUraDora(t)), RemoveUraDora(|g.uradoraIndicators|)).uradoraIndicators
      == g.uradoraIndicators
  {
    var u := g.(uradoraIndicators := g.uradoraIndicators + [t], phase := Definition);
    CounterStepIsStep(g, SelectUraDora(t));
    CounterStepIsStep(u, RemoveUraDora(|g.uradoraIndicators|));
    assert RemoveAt(u.uradoraIndicators, |g.uradoraIndicators|) == g.uradoraIndicators;
  }

  /** Calculating from a consistent state scores the same hand as the first
      attempt of calculate_score_result (src/gui/state/calculation.rs): the
      hand less the declared tiles equals the hand rebuilt from the free
      counts. When that attempt succeeds the two agree outright; they can
      differ only where calculate_score_result's retry recovers. */
  lemma CalculateScoreSpec(g: GuiData)
    requires IndexSorted(g.handTiles) && g.winningTile.Some? && |g.closedKans| + |g.openMelds| <= 4
    ensures var w := g.winningTile.value;
      var input := BuildInput(g, ScoringHand(g.handTiles, g.openMelds, g.closedKans, w, g.settings.agariType), w);
      && ScoreStep(g) == g.(scoreResult := Some(ShownResult(Agari(input))), phase := Result)
      && (Agari(input).Ok? ==> ScoreStep(g) == ScoredState(g))
      && (Agari(input).Err? && ScoreStep(g) != ScoredState(g) ==>
            exists i :: 0 <= i < |g.openMelds| && Recovers(input, i))
  {
    var w := g.winningTile.value;
    ArmHandIsScoringHand(g.handTiles, g.openMelds, g.closedKans, w, g.settings.agariType);
    var input := BuildInput(g, ScoringHand(g.handTiles, g.openMelds, g.closedKans, w, g.settings.agariType), w);
    BestAgariSpec(input);
  }

  /** What a calculation shows: a failure is "Error: " and one of the
      engine's messages, a success scores at least one han. */
  lemma CalculateScoreOutcome(g: GuiData)
    requires g.winningTile.Some? && |g.closedKans| + |g.openMelds| <= 4
    ensures var s := ScoreStep(g);
      && s.phase == Result && s.scoreResult.Some?
      && (s.scoreResult.value.Err? ==>
            s.scoreResult.value.error in
              {"Error: " + CHI_ERROR, "Error: " + NO_PAIR_ERROR, "Error: " + NO_YAKU_FOUND})
      && (s.scoreResult.value.Ok? ==> s.scoreResult.value.value.han >= 1)
  {
    var w := g.winningTile.value;
    AgariSpec(BuildInput(g, ArmHand(g.handTiles, g.openMelds, g.closedKans, w, g.settings.agariType), w));
  }
}
