/** The interface object itself (RiichiGui, src/gui/state/mod.rs) and its
    update handler (src/gui/update.rs), reset (src/gui/state/initialize.rs)
    and scoring step (src/gui/state/calculation.rs), as methods that change
    its fields in place. Every method is stated against the value functions
    of GuiStep and GuiCalculation through Data(), the state the fields
    hold; the invariants proved there about those functions then hold of the
    object. */
module GuiState {
  import opened Wrappers
  import opened Tiles
  import opened HandTypes
  import opened GameTypes
  import opened InputTypes
  import opened ScoringTypes
  import opened HandOrganizer
  import opened GuiMeldTiles
  import opened GuiCounts
  import opened GuiMelds
  import opened GuiTypes
  import opened GuiCalculation
  import opened GuiStep
  import opened AgariPipeline

  // ---------------------------------------------------------------------
  // Taking declared tiles out of the hand (the CalculateScore arm)
  // ---------------------------------------------------------------------

  /** The first position holding t, then Vec::remove there; the tiles are
      kept if t is absent. */
  method RemoveFirstOf(ts: seq<Hai>, t: Hai) returns (r: seq<Hai>)
    ensures r == RemoveFirst(ts, t)
  {
    var pos := 0;
    assert ts[pos..] == ts;
    while pos < |ts| && ts[pos] != t
      invariant pos <= |ts|
      invariant RemoveFirst(ts, t) == ts[..pos] + RemoveFirst(ts[pos..], t)
    {
      RemoveFirstSkip(ts, t, pos);
      pos := pos + 1;
    }
    RemoveFirstFound(ts, t, pos);
    if pos < |ts| {
      r := ts[..pos] + ts[pos + 1..];
    } else {
      r := ts;
    }
  }

  /** Passing over a position that does not hold t. */
  lemma RemoveFirstSkip(ts: seq<Hai>, t: Hai, pos: nat)
    requires pos < |ts| && ts[pos] != t
    ensures ts[..pos] + RemoveFirst(ts[pos..], t) == ts[..pos + 1] + RemoveFirst(ts[pos + 1..], t)
  {
    assert ts[pos..] == [ts[pos]] + ts[pos + 1..];
    assert ts[..pos + 1] == ts[..pos] + [ts[pos]];
  }

  /** Where the scan stops: at t, which is dropped, or past the end. */
  lemma RemoveFirstFound(ts: seq<Hai>, t: Hai, pos: nat)
    requires pos <= |ts| && (pos < |ts| ==> ts[pos] == t)
    ensures ts[..pos] + RemoveFirst(ts[pos..], t) == if pos < |ts| then ts[..pos] + ts[pos + 1..] else ts
  {
    if pos < |ts| {
      assert ts[pos..][1..] == ts[pos + 1..];
    } else {
      assert ts[..pos] == ts;
    }
  }

  /** Taking out a + b one by one is taking out a, then b. */
  lemma {:induction false} RemoveEachAppend(h: seq<Hai>, a: seq<Hai>, b: seq<Hai>)
    ensures RemoveEach(h, a + b) == RemoveEach(RemoveEach(h, a), b)
    decreases |b|
  {
    if b != [] {
      assert (a + b)[..|a + b| - 1] == a + b[..|b| - 1];
      RemoveEachAppend(h, a, b[..|b| - 1]);
    } else {
      assert a + b == a;
    }
  }

  /** Each of the tiles taken out in turn, each at its first position. */
  method RemoveEachOf(ts: seq<Hai>, tiles: seq<Hai>) returns (r: seq<Hai>)
    ensures r == RemoveEach(ts, tiles)
  {
    r := ts;
    for j := 0 to |tiles|
      invariant r == RemoveEach(ts, tiles[..j])
    {
      assert tiles[..j + 1][..j] == tiles[..j];
      r := RemoveFirstOf(r, tiles[j]);
    }
    assert tiles[..|tiles|] == tiles;
  }

  /** The tiles of every open meld taken out, meld by meld. */
  method RemoveMeldTiles(ts: seq<Hai>, openMelds: seq<OpenMeldInput>) returns (r: seq<Hai>)
    ensures r == RemoveEach(ts, AllMeldTiles(openMelds))
  {
    r := ts;
    for i := 0 to |openMelds|
      invariant r == RemoveEach(ts, AllMeldTiles(openMelds[..i]))
    {
      var tiles := GetMeldTiles(openMelds[i]);
      assert openMelds[..i + 1][..i] == openMelds[..i];
      RemoveEachAppend(ts, AllMeldTiles(openMelds[..i]), tiles);
      r := RemoveEachOf(r, tiles);
    }
    assert openMelds[..|openMelds|] == openMelds;
  }

  /** Four copies of every closed quad's tile taken out, quad by quad. */
  method RemoveKanTiles(ts: seq<Hai>, closedKans: seq<Hai>) returns (r: seq<Hai>)
    ensures r == RemoveEach(ts, KanTiles(closedKans))
  {
    r := ts;
    for i := 0 to |closedKans|
      invariant r == RemoveEach(ts, KanTiles(closedKans[..i]))
    {
      var kan := closedKans[i];
      ghost var before := r;
      for j := 0 to 4
        invariant r == RemoveEach(before, Copies(kan, j))
      {
        assert Copies(kan, j + 1)[..j] == Copies(kan, j);
        r := RemoveFirstOf(r, kan);
      }
      assert closedKans[..i + 1][..i] == closedKans[..i];
      RemoveEachAppend(ts, KanTiles(closedKans[..i]), Copies(kan, 4));
    }
    assert closedKans[..|closedKans|] == closedKans;
  }

  /** The concealed hand of the CalculateScore arm. */
  method TakeDeclared(handTiles: seq<Hai>, openMelds: seq<OpenMeldInput>, closedKans: seq<Hai>,
                      winningTile: Hai, agariType: AgariType)
    returns (r: seq<Hai>)
    ensures r == ArmHand(handTiles, openMelds, closedKans, winningTile, agariType)
  {
    r := RemoveMeldTiles(handTiles, openMelds);
    r := RemoveKanTiles(r, closedKans);
    if agariType == Ron {
      r := RemoveFirstOf(r, winningTile);
    }
  }

  /** The engine's answer in the CalculateScore arm: the declared tiles
      taken out of the hand, the input built from the state, the engine
      called once. */
  method ScoreArm(g: GuiData, w: Hai) returns (r: Result<AgariResult>)
    requires |g.closedKans| + |g.openMelds| <= 4
    ensures r == Agari(BuildInput(g, ArmHand(g.handTiles, g.openMelds, g.closedKans, w, g.settings.agariType), w))
  {
    var hand := TakeDeclared(g.handTiles, g.openMelds, g.closedKans, w, g.settings.agariType);
    r := CalculateAgari(BuildInput(g, hand, w));
  }

  /** The kept answer of calculate_score_result: the hand rebuilt from the
      free counts, less the winning tile on a ron, and the engine retried
      with an open meld taken back when it fails. */
  method ScoredArm(g: GuiData, w: Hai) returns (best: Result<AgariResult>)
    requires |g.closedKans| + |g.openMelds| <= 4
    ensures best == BestAgari(BuildInput(g, ScoringHand(g.handTiles, g.openMelds, g.closedKans, w, g.settings.agariType), w))
  {
    var counts := GetActiveHandCounts(g.handTiles, g.openMelds, g.closedKans);
    if g.settings.agariType == Ron {
      var idx := TileToIndex(w);
      if counts[idx] > 0 {
        counts := counts[idx := counts[idx] - 1];
      }
    }
    var hand := ExpandCounts(counts);
    best := BestAgariResult(BuildInput(g, hand, w));
  }

  // ---------------------------------------------------------------------
  // The interface object
  // ---------------------------------------------------------------------

  class RiichiGui {
    var phase: Phase
    var handTiles: seq<Hai>
    /** The pool: copies of each kind not yet in the hand. */
    const tileCounts: array<nat>
    var winningTile: Option<Hai>
    var openMelds: seq<OpenMeldInput>
    var closedKans: seq<Hai>
    /** The way of winning, the winds and the situational flags, kept as one
        record. */
    var settings: Settings
    var honba: nat
    var numAkadora: nat
    var doraIndicators: seq<Hai>
    var uradoraIndicators: seq<Hai>
    var scoreResult: Option<Result<AgariResult>>
    var showRules: bool

    ghost predicate Valid()
      reads this
    {
      tileCounts.Length == TILE_COUNT
    }

    /** The state the fields hold. */
    function Data(): GuiData
      reads this, tileCounts
    {
      GuiData(phase, handTiles, tileCounts[..], winningTile, openMelds, closedKans,
              settings,
              honba, numAkadora, doraIndicators, uradoraIndicators, scoreResult, showRules)
    }

    /** RiichiGui::new without the images: the defaults and a full pool. */
    constructor ()
      ensures Valid() && fresh(tileCounts)
      ensures Data() == Defaults() && Consistent(Data())
    {
      phase := Composition;
      handTiles := [];
      tileCounts := new nat[TILE_COUNT](_ => 4);
      winningTile := None;
      openMelds := [];
      closedKans := [];
      settings := DefaultSettings();
      honba := 0;
      numAkadora := 0;
      doraIndicators := [];
      uradoraIndicators := [];
      scoreResult := None;
      showRules := false;
      new;
      assert tileCounts[..] == FullPool();
      DefaultsConsistent();
    }

    /** reset: every field back to its default, four of each kind in the
        pool. */
    method Reset()
      requires Valid()
      modifies this, tileCounts
      ensures Valid() && Data() == Defaults()
    {
      phase := Composition;
      handTiles := [];
      FillPool();
      winningTile := None;
      openMelds := [];
      closedKans := [];
      settings := DefaultSettings();
      ResetCounters();
    }

    /** The counters, the indicators, the result and the rules overlay back
        to their defaults. */
    method ResetCounters()
      requires Valid()
      modifies this
      ensures Valid()
      ensures Data() == old(Data()).(honba := 0, numAkadora := 0, doraIndicators := [], uradoraIndicators := [],
                                     scoreResult := None, showRules := false)
    {
      honba := 0;
      numAkadora := 0;
      doraIndicators := [];
      uradoraIndicators := [];
      scoreResult := None;
      showRules := false;
    }

    /** Four copies of every kind back in the pool. */
    method FillPool()
      requires Valid()
      modifies tileCounts
      ensures tileCounts[..] == FullPool()
    {
      for k := 0 to TILE_COUNT
        invariant forall j :: 0 <= j < k ==> tileCounts[j] == 4
      {
        tileCounts[k] := 4;
      }
      assert tileCounts[..] == FullPool();
    }

    /** update: one message. The arms are grouped as the handler's comments
        group them, and each arm is a method of its own. */
    method Update(msg: Message)
      requires Valid() && StepAllowed(Data(), msg)
      modifies this, tileCounts
      ensures Valid() && Data() == Transition(old(Data()), msg)
      ensures Consistent(old(Data())) ==> Consistent(Data())
    {
      if Consistent(Data()) {
        TransitionConsistent(Data(), msg);
      }
      if msg.CalculateScore? {
        CalculateScore();
      } else if IsCompositionMessage(msg) {
        UpdateComposition(msg);
      } else if IsDefinitionMessage(msg) {
        UpdateDefinition(msg);
      } else if IsSettingMessage(msg) {
        UpdateSettings(msg);
      } else if IsCounterMessage(msg) {
        UpdateCounters(msg);
      } else {
        UpdateResult(msg);
      }
    }

    method UpdateComposition(msg: Message)
      requires Valid() && IsCompositionMessage(msg)
      modifies this, tileCounts
      ensures Valid() && Data() == Step(old(Data()), msg)
    {
      if msg.AddTile? {
        AddTile(msg.tile);
      } else if msg.RemoveTile? {
        RemoveTile(msg.index);
      } else if msg.ConfirmHand? {
        ConfirmHand();
      } else {
        CancelSelection();
      }
    }

    method UpdateDefinition(msg: Message)
      requires Valid() && IsDefinitionMessage(msg)
      modifies this
      ensures Valid() && Data() == Step(old(Data()), msg)
    {
      if msg.ModifyHand? {
        ModifyHand();
      } else if msg.StartSelectWinningTile? {
        StartSelectWinningTile();
      } else if msg.SelectWinningTile? {
        SelectWinningTile(msg.tile);
      } else if msg.SelectMeldType? {
        SelectMeldType(msg.mentsuType);
      } else if msg.SelectCompleteMeld? {
        SelectCompleteMeld(msg.meld);
      } else if msg.StartAddClosedKan? {
        StartAddClosedKan();
      } else if msg.SelectClosedKan? {
        SelectClosedKan(msg.tile);
      } else if msg.RemoveOpenMeld? {
        RemoveOpenMeld(msg.index);
      } else if msg.RemoveClosedKan? {
        RemoveClosedKan(msg.index);
      } else {
        EditClosedKan(msg.index);
      }
    }

    method UpdateSettings(msg: Message)
      requires Valid() && IsSettingMessage(msg)
      modifies this
      ensures Valid() && Data() == Step(old(Data()), msg)
    {
      assert Step(Data(), msg) == Data().(settings := SettingsStep(settings, openMelds == [], msg));
      if msg.ToggleAgariType? || msg.SetBakaze? || msg.SetJikaze? {
        UpdateWinds(msg);
      } else if msg.ToggleRiichi? || msg.ToggleDoubleRiichi? || msg.ToggleIppatsu? {
        UpdateRiichi(msg);
      } else if msg.ToggleRinshan? || msg.ToggleChankan? || msg.ToggleHaitei? || msg.ToggleHoutei? {
        UpdateLastTileFlags(msg);
      } else {
        UpdateFirstTurnFlags(msg);
      }
    }

    method UpdateWinds(msg: Message)
      requires Valid() && (msg.ToggleAgariType? || msg.SetBakaze? || msg.SetJikaze?)
      modifies this
      ensures Valid() && Data() == old(Data()).(settings := SettingsStep(old(Data().settings), old(openMelds) == [], msg))
    {
      if msg.ToggleAgariType? {
        ToggleAgariType(msg.agariType);
      } else if msg.SetBakaze? {
        SetBakaze(msg.kaze);
      } else {
        SetJikaze(msg.kaze);
      }
    }

    method UpdateRiichi(msg: Message)
      requires Valid() && (msg.ToggleRiichi? || msg.ToggleDoubleRiichi? || msg.ToggleIppatsu?)
      modifies this
      ensures Valid() && Data() == old(Data()).(settings := SettingsStep(old(Data().settings), old(openMelds) == [], msg))
    {
      if msg.ToggleRiichi? {
        ToggleRiichi(msg.flag);
      } else if msg.ToggleDoubleRiichi? {
        ToggleDoubleRiichi(msg.flag);
      } else {
        ToggleIppatsu(msg.flag);
      }
    }

    method UpdateLastTileFlags(msg: Message)
      requires Valid() && (msg.ToggleRinshan? || msg.ToggleChankan? || msg.ToggleHaitei? || msg.ToggleHoutei?)
      modifies this
      ensures Valid() && Data() == old(Data()).(settings := SettingsStep(old(Data().settings), old(openMelds) == [], msg))
    {
      if msg.ToggleRinshan? {
        ToggleRinshan(msg.flag);
      } else if msg.ToggleChankan? {
        ToggleChankan(msg.flag);
      } else if msg.ToggleHaitei? {
        ToggleHaitei(msg.flag);
      } else {
        ToggleHoutei(msg.flag);
      }
    }

    method UpdateFirstTurnFlags(msg: Message)
      requires Valid() && (msg.ToggleTenhou? || msg.ToggleChiihou? || msg.ToggleRenhou?)
      modifies this
      ensures Valid() && Data() == old(Data()).(settings := SettingsStep(old(Data().settings), old(openMelds) == [], msg))
    {
      if msg.ToggleTenhou? {
        ToggleTenhou(msg.flag);
      } else if msg.ToggleChiihou? {
        ToggleChiihou(msg.flag);
      } else {
        ToggleRenhou(msg.flag);
      }
    }

    method UpdateCounters(msg: Message)
      requires Valid() && IsCounterMessage(msg)
      modifies this
      ensures Valid() && Data() == Step(old(Data()), msg)
    {
      CounterStepIsStep(Data(), msg);
      if msg.IncrementHonba? || msg.DecrementHonba? || msg.IncrementAkadora? || msg.DecrementAkadora? {
        UpdateCounts(msg);
      } else if msg.StartAddDora? || msg.SelectDora? || msg.RemoveDora? {
        UpdateDora(msg);
      } else {
        UpdateUraDora(msg);
      }
    }

    method UpdateCounts(msg: Message)
      requires Valid() && (msg.IncrementHonba? || msg.DecrementHonba? || msg.IncrementAkadora? || msg.DecrementAkadora?)
      modifies this
      ensures Valid() && Data() == CounterStep(old(Data()), msg)
    {
      if msg.IncrementHonba? {
        IncrementHonba();
      } else if msg.DecrementHonba? {
        DecrementHonba();
      } else if msg.IncrementAkadora? {
        IncrementAkadora();
      } else {
        DecrementAkadora();
      }
    }

    method UpdateDora(msg: Message)
      requires Valid() && (msg.StartAddDora? || msg.SelectDora? || msg.RemoveDora?)
      modifies this
      ensures Valid() && Data() == CounterStep(old(Data()), msg)
    {
      if msg.StartAddDora? {
        StartAddDora();
      } else if msg.SelectDora? {
        SelectDora(msg.tile);
      } else {
        RemoveDora(msg.index);
      }
    }

    method UpdateUraDora(msg: Message)
      requires Valid() && (msg.StartAddUraDora? || msg.SelectUraDora? || msg.RemoveUraDora?)
      modifies this
      ensures Valid() && Data() == CounterStep(old(Data()), msg)
    {
      if msg.StartAddUraDora? {
        StartAddUraDora();
      } else if msg.SelectUraDora? {
        SelectUraDora(msg.tile);
      } else {
        RemoveUraDora(msg.index);
      }
    }

    method UpdateResult(msg: Message)
      requires Valid() && IsResultMessage(msg)
      modifies this, tileCounts
      ensures Valid() && Data() == Step(old(Data()), msg)
    {
      ResultStepIsStep(Data(), msg);
      if msg.StartOver? {
        StartOver();
      } else if msg.ShowRules? {
        ShowRules();
      } else {
        HideRules();
      }
    }

    // --- Composition ---

    /** With fewer than 18 tiles in the hand and a copy in the pool, the
        tile moves from the pool into the hand, which is sorted again. */
    method AddTile(tile: Hai)
      requires Valid()
      modifies this, tileCounts
      ensures Valid() && Data() == AddTileTo(old(Data()), tile)
    {
      if |handTiles| < 18 {
        var idx := TileToIndex(tile);
        if tileCounts[idx] > 0 {
          tileCounts[idx] := tileCounts[idx] - 1;
          handTiles := handTiles + [tile];
          handTiles := SortTiles(handTiles);
        }
      }
    }

    /** A valid position's tile goes back to the pool. */
    method RemoveTile(index: nat)
      requires Valid()
      modifies this, tileCounts
      ensures Valid() && Data() == RemoveTileFrom(old(Data()), index)
    {
      if index < |handTiles| {
        var tile := handTiles[index];
        handTiles := handTiles[..index] + handTiles[index + 1..];
        var idx := TileToIndex(tile);
        tileCounts[idx] := tileCounts[idx] + 1;
      }
    }

    method ConfirmHand()
      requires Valid()
      modifies this
      ensures Valid() && Data() == old(Data()).(phase := if |old(handTiles)| >= 14 then Definition else old(phase))
    {
      if |handTiles| >= 14 {
        phase := Definition;
      }
    }

    method CancelSelection()
      requires Valid()
      modifies this
      ensures Valid() && Data() == old(Data()).(phase := Definition)
    {
      phase := Definition;
    }

    // --- Definition ---

    method ModifyHand()
      requires Valid()
      modifies this
      ensures Valid() && Data() == old(Data()).(phase := Composition, winningTile := None, openMelds := [], closedKans := [], numAkadora := 0)
    {
      phase := Composition;
      winningTile := None;
      openMelds := [];
      closedKans := [];
      numAkadora := 0;
    }

    method StartSelectWinningTile()
      requires Valid()
      modifies this
      ensures Valid() && Data() == old(Data()).(phase := SelectingWinningTile)
    {
      phase := SelectingWinningTile;
    }

    method SelectWinningTile(tile: Hai)
      requires Valid()
      modifies this
      ensures Valid() && Data() == old(Data()).(winningTile := Some(tile), phase := Definition)
    {
      winningTile := Some(tile);
      phase := Definition;
    }

    method SelectMeldType(mType: MentsuType)
      requires Valid()
      modifies this
      ensures Valid() && Data() == old(Data()).(phase := SelectingMeldTile(mType))
    {
      phase := SelectingMeldTile(mType);
    }

    /** While a meld kind is being chosen, a meld the free tiles can form is
        added and the hand, now open, loses riichi, ippatsu and the
        first-turn wins; the definition phase follows either way. */
    method SelectCompleteMeld(meld: OpenMeldInput)
      requires Valid()
      modifies this
      ensures Valid()
      ensures var accepted := old(phase).SelectingMeldTile? && MeldAvailable(old(handTiles), old(openMelds), old(closedKans), meld);
        Data() == old(Data()).(openMelds := if accepted then old(openMelds) + [meld] else old(openMelds),
                               settings := if accepted then Opened(old(Data().settings)) else old(Data().settings),
                               phase := Definition)
    {
      if phase.SelectingMeldTile? {
        var ok := CanFormMeld(handTiles, openMelds, closedKans, meld);
        if ok {
          openMelds := openMelds + [meld];
          if openMelds != [] {
            DropClosedHandFlags();
          }
        }
      }
      phase := Definition;
    }

    /** An open hand loses riichi, double riichi, ippatsu and the first-turn
        wins. */
    method DropClosedHandFlags()
      requires Valid()
      modifies this
      ensures Valid() && Data() == old(Data()).(settings := Opened(old(Data().settings)))
    {
      settings := settings.(isRiichi := false, isDaburuRiichi := false, isIppatsu := false,
                            isTenhou := false, isChiihou := false, isRenhou := false);
    }

    method StartAddClosedKan()
      requires Valid()
      modifies this
      ensures Valid() && Data() == old(Data()).(phase := SelectingClosedKan)
    {
      phase := SelectingClosedKan;
    }

    method SelectClosedKan(tile: Hai)
      requires Valid()
      modifies this
      ensures Valid() && Data() == old(Data()).(closedKans := old(closedKans) + [tile], phase := Definition)
    {
      closedKans := closedKans + [tile];
      phase := Definition;
    }

    method RemoveOpenMeld(idx: nat)
      requires Valid()
      modifies this
      ensures Valid() && Data() == old(Data()).(openMelds := if idx < |old(openMelds)| then RemoveAt(old(openMelds), idx) else old(openMelds))
    {
      if idx < |openMelds| {
        openMelds := openMelds[..idx] + openMelds[idx + 1..];
      }
    }

    method RemoveClosedKan(idx: nat)
      requires Valid()
      modifies this
      ensures Valid() && Data() == old(Data()).(closedKans := if idx < |old(closedKans)| then RemoveAt(old(closedKans), idx) else old(closedKans))
    {
      if idx < |closedKans| {
        closedKans := closedKans[..idx] + closedKans[idx + 1..];
      }
    }

    /** The handler has no arm for editing a closed quad: nothing changes. */
    method EditClosedKan(index: nat)
      requires Valid()
      ensures Valid() && Data() == old(Data())
    {
    }

    // --- Settings ---

    /** The way of winning clears the flags the other way needs. */
    method ToggleAgariType(a: AgariType)
      requires Valid()
      modifies this
      ensures Valid() && Data() == old(Data()).(settings := SettingsStep(old(Data().settings), old(openMelds) == [], Message.ToggleAgariType(a)))
    {
      settings := settings.(agariType := a);
      match settings.agariType {
        case Ron =>
          settings := settings.(isTenhou := false, isChiihou := false, isHaitei := false, isRinshan := false);
        case Tsumo =>
          settings := settings.(isRenhou := false, isHoutei := false, isChankan := false);
      }
    }

    method SetBakaze(kaze: Kaze)
      requires Valid()
      modifies this
      ensures Valid() && Data() == old(Data()).(settings := SettingsStep(old(Data().settings), old(openMelds) == [], Message.SetBakaze(kaze)))
    {
      settings := settings.(bakaze := kaze);
    }

    /** A non-dealer cannot win by tenhou, the dealer not by chiihou. */
    method SetJikaze(kaze: Kaze)
      requires Valid()
      modifies this
      ensures Valid()
      ensures Data() == old(Data()).(settings := old(settings).(jikaze := kaze, isTenhou := kaze == Ton && old(settings.isTenhou),
                                                             isChiihou := kaze != Ton && old(settings.isChiihou)))
    {
      settings := settings.(jikaze := kaze);
      if settings.jikaze != Ton {
        settings := settings.(isTenhou := false);
      } else {
        settings := settings.(isChiihou := false);
      }
    }

    method ToggleRiichi(flag: bool)
      requires Valid()
      modifies this
      ensures Valid() && Data() == old(Data()).(settings := SettingsStep(old(Data().settings), old(openMelds) == [], Message.ToggleRiichi(flag)))
    {
      settings := settings.(isRiichi := flag);
      if !settings.isRiichi {
        settings := settings.(isDaburuRiichi := false, isIppatsu := false);
      }
    }

    method ToggleDoubleRiichi(flag: bool)
      requires Valid()
      modifies this
      ensures Valid() && Data() == old(Data()).(settings := SettingsStep(old(Data().settings), old(openMelds) == [], Message.ToggleDoubleRiichi(flag)))
    {
      settings := settings.(isDaburuRiichi := flag);
      if settings.isDaburuRiichi {
        settings := settings.(isRiichi := true);
      }
    }

    method ToggleIppatsu(flag: bool)
      requires Valid()
      modifies this
      ensures Valid() && Data() == old(Data()).(settings := SettingsStep(old(Data().settings), old(openMelds) == [], Message.ToggleIppatsu(flag)))
    {
      if settings.isRiichi {
        settings := settings.(isIppatsu := flag);
      }
    }

    method ToggleRinshan(flag: bool)
      requires Valid()
      modifies this
      ensures Valid() && Data() == old(Data()).(settings := SettingsStep(old(Data().settings), old(openMelds) == [], Message.ToggleRinshan(flag)))
    {
      settings := settings.(isRinshan := flag);
    }

    method ToggleChankan(flag: bool)
      requires Valid()
      modifies this
      ensures Valid() && Data() == old(Data()).(settings := SettingsStep(old(Data().settings), old(openMelds) == [], Message.ToggleChankan(flag)))
    {
      settings := settings.(isChankan := flag);
    }

    method ToggleHaitei(flag: bool)
      requires Valid()
      modifies this
      ensures Valid() && Data() == old(Data()).(settings := SettingsStep(old(Data().settings), old(openMelds) == [], Message.ToggleHaitei(flag)))
    {
      settings := settings.(isHaitei := flag);
    }

    method ToggleHoutei(flag: bool)
      requires Valid()
      modifies this
      ensures Valid() && Data() == old(Data()).(settings := SettingsStep(old(Data().settings), old(openMelds) == [], Message.ToggleHoutei(flag)))
    {
      settings := settings.(isHoutei := flag);
    }

    method ToggleTenhou(flag: bool)
      requires Valid()
      modifies this
      ensures Valid() && Data() == old(Data()).(settings := SettingsStep(old(Data().settings), old(openMelds) == [], Message.ToggleTenhou(flag)))
    {
      if openMelds == [] {
        settings := settings.(isTenhou := flag);
      }
    }

    method ToggleChiihou(flag: bool)
      requires Valid()
      modifies this
      ensures Valid() && Data() == old(Data()).(settings := SettingsStep(old(Data().settings), old(openMelds) == [], Message.ToggleChiihou(flag)))
    {
      if openMelds == [] {
        settings := settings.(isChiihou := flag);
      }
    }

    method ToggleRenhou(flag: bool)
      requires Valid()
      modifies this
      ensures Valid() && Data() == old(Data()).(settings := SettingsStep(old(Data().settings), old(openMelds) == [], Message.ToggleRenhou(flag)))
    {
      if openMelds == [] {
        settings := settings.(isRenhou := flag);
      }
    }

    // --- Counters and indicators ---

    /** No cap: the source's u8 counter is not modelled. */
    method IncrementHonba()
      requires Valid()
      modifies this
      ensures Valid() && Data() == CounterStep(old(Data()), Message.IncrementHonba)
    {
      honba := honba + 1;
    }

    method DecrementHonba()
      requires Valid()
      modifies this
      ensures Valid() && Data() == CounterStep(old(Data()), Message.DecrementHonba)
    {
      if honba > 0 {
        honba := honba - 1;
      }
    }

    method StartAddDora()
      requires Valid()
      modifies this
      ensures Valid() && Data() == CounterStep(old(Data()), Message.StartAddDora)
    {
      phase := SelectingDora;
    }

    method SelectDora(tile: Hai)
      requires Valid()
      modifies this
      ensures Valid() && Data() == CounterStep(old(Data()), Message.SelectDora(tile))
    {
      doraIndicators := doraIndicators + [tile];
      phase := Definition;
    }

    method StartAddUraDora()
      requires Valid()
      modifies this
      ensures Valid() && Data() == CounterStep(old(Data()), Message.StartAddUraDora)
    {
      phase := SelectingUraDora;
    }

    method SelectUraDora(tile: Hai)
      requires Valid()
      modifies this
      ensures Valid() && Data() == CounterStep(old(Data()), Message.SelectUraDora(tile))
    {
      uradoraIndicators := uradoraIndicators + [tile];
      phase := Definition;
    }

    method RemoveDora(index: nat)
      requires Valid()
      modifies this
      ensures Valid() && Data() == CounterStep(old(Data()), Message.RemoveDora(index))
    {
      if index < |doraIndicators| {
        doraIndicators := doraIndicators[..index] + doraIndicators[index + 1..];
      }
    }

    method RemoveUraDora(index: nat)
      requires Valid()
      modifies this
      ensures Valid() && Data() == CounterStep(old(Data()), Message.RemoveUraDora(index))
    {
      if index < |uradoraIndicators| {
        uradoraIndicators := uradoraIndicators[..index] + uradoraIndicators[index + 1..];
      }
    }

    method IncrementAkadora()
      requires Valid()
      modifies this
      ensures Valid() && Data() == CounterStep(old(Data()), Message.IncrementAkadora)
    {
      if numAkadora < 4 {
        numAkadora := numAkadora + 1;
      }
    }

    method DecrementAkadora()
      requires Valid()
      modifies this
      ensures Valid() && Data() == CounterStep(old(Data()), Message.DecrementAkadora)
    {
      if numAkadora > 0 {
        numAkadora := numAkadora - 1;
      }
    }

    // --- Result ---

    method StartOver()
      requires Valid()
      modifies this, tileCounts
      ensures Valid() && Data() == Defaults()
    {
      Reset();
    }

    method ShowRules()
      requires Valid()
      modifies this
      ensures Valid() && Data() == old(Data()).(showRules := true)
    {
      showRules := true;
    }

    method HideRules()
      requires Valid()
      modifies this
      ensures Valid() && Data() == old(Data()).(showRules := false)
    {
      showRules := false;
    }

    /** The CalculateScore arm: the engine's answer, or its error, is shown
        and the result phase begins. */
    method CalculateScore()
      requires Valid() && (winningTile.Some? ==> |closedKans| + |openMelds| <= 4)
      modifies this
      ensures Valid() && Data() == ScoreStep(old(Data()))
    {
      if winningTile.Some? {
        ghost var g := Data();
        var r := ScoreArm(Data(), winningTile.value);
        match r {
          case Ok(result) => scoreResult := Some(Ok(result));
          case Err(e) => scoreResult := Some(Err("Error: " + e));
        }
        phase := Result;
        assert Data() == g.(scoreResult := Some(ShownResult(r)), phase := Result);
      }
    }

    /** calculate_score_result on the object: the kept result, or its error,
        is shown and the result phase begins. */
    method CalculateScoreResult()
      requires Valid() && (winningTile.Some? ==> |closedKans| + |openMelds| <= 4)
      modifies this
      ensures Valid() && Data() == ScoredState(old(Data()))
    {
      if winningTile.Some? {
        ghost var g := Data();
        var best := ScoredArm(Data(), winningTile.value);
        match best {
          case Ok(result) => scoreResult := Some(Ok(result));
          case Err(e) => scoreResult := Some(Err("Error: " + e));
        }
        phase := Result;
        assert Data() == g.(scoreResult := Some(ShownResult(best)), phase := Result);
      }
    }
  }
}
