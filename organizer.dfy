/** The modular hand organizer: count vector, declared melds, every
    four-melds-one-pair reading with each of its waits, and the trailing
    irregular entry (src/implements/raw_hand_organizer/mod.rs). */
module HandOrganizer {
  import opened Tiles
  import opened HandTypes
  import opened GameTypes
  import opened InputTypes
  import opened Wrappers
  import opened RecursiveParser
  import opened WaitAnalyzer

  const CHI_ERROR: string := "Invalid representative tile for Chi (must be 1-7)"
  const NO_PAIR_ERROR: string := "4 open melds but no pair found"

  /** The empty count vector. */
  function ZeroCounts(): (c: Counts)
    ensures forall k :: 0 <= k < TILE_COUNT ==> c[k] == 0
  {
    seq(TILE_COUNT, k => 0)
  }

  /** The vector with one more tile `t`. */
  function AddTile(c: Counts, t: Hai): Counts
  {
    c[TileToIndex(t) := c[TileToIndex(t)] + 1]
  }

  /** The count vector of a tile list, built one tile at a time. */
  function CountTiles(ts: seq<Hai>): Counts
  {
    if |ts| == 0 then ZeroCounts() else AddTile(CountTiles(ts[..|ts| - 1]), ts[|ts| - 1])
  }

  /** Slot k of the count vector is the multiplicity of tile k in the list. */
  lemma {:induction false} CountTilesMultiplicity(ts: seq<Hai>, k: nat)
    requires k < TILE_COUNT
    ensures CountTiles(ts)[k] == multiset(ts)[IndexToTile(k)]
  {
    if |ts| > 0 {
      var n := |ts| - 1;
      assert ts == ts[..n] + [ts[n]];
      CountTilesMultiplicity(ts[..n], k);
      if TileToIndex(ts[n]) == k {
        IndexToTileOfIndex(ts[n]);
      } else if ts[n] == IndexToTile(k) {
        assert false;
      }
    }
  }

  /** The hand's count vector; on Ron the winning tile is not in `handTiles`
      and is added once. Declared melds are not subtracted. */
  function MasterCounts(input: UserInput): Counts
  {
    var c := CountTiles(input.handTiles);
    if input.agariType == Ron then AddTile(c, input.winningTile) else c
  }

  lemma MasterCountsMultiplicity(input: UserInput, k: nat)
    requires k < TILE_COUNT
    ensures MasterCounts(input)[k] == multiset(input.handTiles)[IndexToTile(k)]
      + (if input.agariType == Ron && input.winningTile == IndexToTile(k) then 1 else 0)
  {
    CountTilesMultiplicity(input.handTiles, k);
    IndexToTileOfIndex(input.winningTile);
  }

  /** A closed kan: a concealed quad. */
  function ClosedKanMeld(t: Hai): Mentsu
  {
    Mentsu(Kantsu, false, [t, t, t, t])
  }

  /** A representative tile can start a Chi: a suited rank 1..7. */
  predicate ValidChiStart(t: Hai)
  {
    var i := TileToIndex(t);
    i < SUHAI_TILES_COUNT && i % TILES_PER_SUHAI < MAX_SHUNTSU_START
  }

  /** The meld a declared Pon, Kan or Chi becomes; always open. */
  function OpenMeld(m: OpenMeldInput): (r: Result<Mentsu>)
    ensures r.Err? <==> m.mentsuType == Shuntsu && !ValidChiStart(m.representativeTile)
    ensures r.Err? ==> r.error == CHI_ERROR
    ensures r.Ok? ==>
      r.value.isMinchou && r.value.mentsuType == m.mentsuType && r.value.tiles[0] == m.representativeTile
  {
    var t := m.representativeTile;
    match m.mentsuType
    case Koutsu => Ok(Mentsu(Koutsu, true, [t, t, t, t]))
    case Kantsu => Ok(Mentsu(Kantsu, true, [t, t, t, t]))
    case Shuntsu =>
      var i := TileToIndex(t);
      if i >= SUHAI_TILES_COUNT || i % TILES_PER_SUHAI >= MAX_SHUNTSU_START then Err(CHI_ERROR)
      else Ok(Mentsu(Shuntsu, true, [t, IndexToTile(i + 1), IndexToTile(i + 2), IndexToTile(i + 2)]))
  }

  /** A declared Chi is the open form of the sequence the search would build there. */
  lemma ChiIsOpenSequence(m: OpenMeldInput)
    requires m.mentsuType == Shuntsu && ValidChiStart(m.representativeTile)
    ensures OpenMeld(m).value == ShuntsuAt(TileToIndex(m.representativeTile)).(isMinchou := true)
  {
    IndexToTileOfIndex(m.representativeTile);
  }

  /** The first n declared open melds, or the first error among them. */
  function OpenMelds(ms: seq<OpenMeldInput>, n: nat): Result<seq<Mentsu>>
    requires n <= |ms|
  {
    if n == 0 then Ok([])
    else match OpenMelds(ms, n - 1)
      case Err(e) => Err(e)
      case Ok(p) =>
        match OpenMeld(ms[n - 1])
        case Err(e) => Err(e)
        case Ok(m) => Ok(p + [m])
  }

  /** The closed kans, in order, as concealed quads. */
  function ClosedKanMelds(ts: seq<Hai>): seq<Mentsu>
  {
    seq(|ts|, k requires 0 <= k < |ts| => ClosedKanMeld(ts[k]))
  }

  /** The declared melds: closed kans first, then the open melds. */
  function DeclaredMelds(input: UserInput): Result<seq<Mentsu>>
  {
    match OpenMelds(input.openMelds, |input.openMelds|)
    case Err(e) => Err(e)
    case Ok(p) => Ok(ClosedKanMelds(input.closedKans) + p)
  }

  /** Building the open melds fails exactly when one of them is a Chi on an
      invalid tile; otherwise there is one open meld per declaration. */
  lemma {:induction false} OpenMeldsResult(ms: seq<OpenMeldInput>, n: nat)
    requires n <= |ms|
    ensures OpenMelds(ms, n).Err? <==> exists j :: 0 <= j < n && OpenMeld(ms[j]).Err?
    ensures OpenMelds(ms, n).Err? ==> OpenMelds(ms, n).error == CHI_ERROR
    ensures OpenMelds(ms, n).Ok? ==>
      |OpenMelds(ms, n).value| == n && forall j :: 0 <= j < n ==> OpenMelds(ms, n).value[j] == OpenMeld(ms[j]).value
  {
    if n > 0 {
      OpenMeldsResult(ms, n - 1);
    }
  }

  /** An `Ok` meld list holds the closed kans as concealed quads, then each
      declared meld, open. */
  lemma DeclaredMeldsShape(input: UserInput)
    ensures DeclaredMelds(input).Err? <==>
      exists j :: 0 <= j < |input.openMelds| && input.openMelds[j].mentsuType == Shuntsu
        && !ValidChiStart(input.openMelds[j].representativeTile)
    ensures DeclaredMelds(input).Err? ==> DeclaredMelds(input).error == CHI_ERROR
    ensures DeclaredMelds(input).Ok? ==>
      var d := DeclaredMelds(input).value;
      var nk := |input.closedKans|;
      && |d| == nk + |input.openMelds|
      && (forall j :: 0 <= j < nk ==> d[j] == ClosedKanMeld(input.closedKans[j]) && !d[j].isMinchou)
      && (forall j :: nk <= j < |d| ==>
            && d[j].isMinchou
            && d[j].mentsuType == input.openMelds[j - nk].mentsuType
            && d[j].tiles[0] == input.openMelds[j - nk].representativeTile)
  {
    var ms := input.openMelds;
    OpenMeldsResult(ms, |ms|);
    if DeclaredMelds(input).Err? {
      var j :| 0 <= j < |ms| && OpenMeld(ms[j]).Err?;
      assert ms[j].mentsuType == Shuntsu && !ValidChiStart(ms[j].representativeTile);
    }
    if exists j :: 0 <= j < |ms| && ms[j].mentsuType == Shuntsu && !ValidChiStart(ms[j].representativeTile) {
      var j :| 0 <= j < |ms| && ms[j].mentsuType == Shuntsu && !ValidChiStart(ms[j].representativeTile);
      assert OpenMeld(ms[j]).Err?;
    }
  }

  // ---------------------------------------------------------------------
  // Four declared melds: the pair is any slot holding exactly two tiles.

  /** The pair-wait readings over the first n slots. */
  function PairTankiHands(c: Counts, declared: Mentsu4, agariHai: Hai, n: nat): seq<HandOrganization>
    requires n <= TILE_COUNT
  {
    if n == 0 then []
    else
      var t := IndexToTile(n - 1);
      PairTankiHands(c, declared, agariHai, n - 1)
        + (if c[n - 1] == 2 then [HandOrganization.YonmentsuIchiatama(AgariHand(declared, (t, t), agariHai, Tanki))] else [])
  }

  /** Slots among the first n holding exactly two tiles. */
  function PairSlots(c: Counts, n: nat): nat
    requires n <= TILE_COUNT
  {
    if n == 0 then 0 else PairSlots(c, n - 1) + (if c[n - 1] == 2 then 1 else 0)
  }

  /** One reading per slot with exactly two tiles; each keeps the declared
      melds, pairs that tile and waits on the pair. */
  lemma {:induction false} PairTankiHandsShape(c: Counts, declared: Mentsu4, agariHai: Hai, n: nat)
    requires n <= TILE_COUNT
    ensures |PairTankiHands(c, declared, agariHai, n)| == PairSlots(c, n)
    ensures forall h :: h in PairTankiHands(c, declared, agariHai, n) <==>
      exists i :: 0 <= i < n && c[i] == 2
        && h == HandOrganization.YonmentsuIchiatama(AgariHand(declared, (IndexToTile(i), IndexToTile(i)), agariHai, Tanki))
  {
    if n > 0 {
      PairTankiHandsShape(c, declared, agariHai, n - 1);
    }
  }

  lemma {:induction false} PairSlotsZero(c: Counts, n: nat)
    requires n <= TILE_COUNT
    ensures PairSlots(c, n) == 0 <==> forall i :: 0 <= i < n ==> c[i] != 2
  {
    if n > 0 {
      PairSlotsZero(c, n - 1);
    }
  }

  // ---------------------------------------------------------------------
  // Fewer declared melds: every pair slot, every reading, every wait.

  /** On Ron the meld the winning tile completed is open; a pair wait
      (index 4) changes nothing. */
  function MarkCompleted(ms: Mentsu4, w: (Machi, nat), ron: bool): (r: Mentsu4)
    ensures forall j :: 0 <= j < 4 ==> r[j].mentsuType == ms[j].mentsuType && r[j].tiles == ms[j].tiles
    ensures forall j :: 0 <= j < 4 ==>
      r[j].isMinchou == (ms[j].isMinchou || (ron && j == w.1))
  {
    if ron && w.1 < 4 then ms[w.1 := ms[w.1].(isMinchou := true)] else ms
  }

  /** The first n lists of `parts`, joined in order. */
  function Flatten<T>(parts: seq<seq<T>>, n: nat): seq<T>
    requires n <= |parts|
  {
    if n == 0 then [] else Flatten(parts, n - 1) + parts[n - 1]
  }

  lemma {:induction false} FlattenMember<T>(parts: seq<seq<T>>, n: nat, x: T)
    requires n <= |parts|
    ensures x in Flatten(parts, n) <==> exists i :: 0 <= i < n && x in parts[i]
  {
    if n > 0 {
      FlattenMember(parts, n - 1, x);
      if x in Flatten(parts, n) && x !in Flatten(parts, n - 1) {
        assert x in parts[n - 1];
      }
    }
  }

  /** The organizations of one reading, one per wait, in wait order. */
  function WaitHands(ms: Mentsu4, atama: (Hai, Hai), agariHai: Hai, ron: bool, ws: seq<(Machi, nat)>)
    : seq<HandOrganization>
  {
    seq(|ws|, j requires 0 <= j < |ws| =>
      HandOrganization.YonmentsuIchiatama(AgariHand(MarkCompleted(ms, ws[j], ron), atama, agariHai, ws[j].0)))
  }

  lemma WaitHandsSnoc(ms: Mentsu4, atama: (Hai, Hai), agariHai: Hai, ron: bool, ws: seq<(Machi, nat)>, j: nat)
    requires j < |ws|
    ensures WaitHands(ms, atama, agariHai, ron, ws[..j + 1]) == WaitHands(ms, atama, agariHai, ron, ws[..j])
      + [HandOrganization.YonmentsuIchiatama(AgariHand(MarkCompleted(ms, ws[j], ron), atama, agariHai, ws[j].0))]
  {
  }

  /** The organizations of every wait of one reading. */
  function ReadingHands(ms: Mentsu4, atama: (Hai, Hai), agariHai: Hai, ron: bool): seq<HandOrganization>
  {
    WaitHands(ms, atama, agariHai, ron, Waits(ms, atama, agariHai))
  }

  /** What one reported reading contributes: nothing unless it has the needed meld count. */
  function ReadingEntry(declared: seq<Mentsu>, e: seq<Mentsu>, atama: (Hai, Hai), agariHai: Hai, ron: bool)
    : seq<HandOrganization>
  {
    if |declared| + |e| == 4 then ReadingHands(declared + e, atama, agariHai, ron) else []
  }

  /** The contribution of each reported reading, in report order. */
  function ReadingParts(declared: seq<Mentsu>, rs: seq<seq<Mentsu>>, atama: (Hai, Hai), agariHai: Hai, ron: bool)
    : seq<seq<HandOrganization>>
  {
    seq(|rs|, j requires 0 <= j < |rs| => ReadingEntry(declared, rs[j], atama, agariHai, ron))
  }

  /** The vector with the pair at slot i removed. */
  function TakePair(c: Counts, i: nat): Counts
    requires i < TILE_COUNT && c[i] >= 2
  {
    c[i := c[i] - 2]
  }

  /** The organizations one pair slot contributes: every reading of the
      vector without that pair, in the order the search reports them. */
  function PairSlotHands(c: Counts, declared: seq<Mentsu>, agariHai: Hai, ron: bool, i: nat): seq<HandOrganization>
    requires i < TILE_COUNT
  {
    var t := IndexToTile(i);
    if c[i] >= 2 then
      var rs := Decompositions(TakePair(c, i));
      Flatten(ReadingParts(declared, rs, (t, t), agariHai, ron), |rs|)
    else []
  }

  /** The contribution of each slot, in index order. */
  function SlotParts(c: Counts, declared: seq<Mentsu>, agariHai: Hai, ron: bool): seq<seq<HandOrganization>>
  {
    seq(TILE_COUNT, i requires 0 <= i < TILE_COUNT => PairSlotHands(c, declared, agariHai, ron, i))
  }

  /** The organizations for every pair candidate. */
  function StandardHands(c: Counts, declared: seq<Mentsu>, agariHai: Hai, ron: bool): seq<HandOrganization>
  {
    Flatten(SlotParts(c, declared, agariHai, ron), TILE_COUNT)
  }

  /** organize_hand. More than four declared melds makes `4 - len` underflow
      in the source, so it is excluded. */
  function Organize(input: UserInput): Result<seq<HandOrganization>>
    requires |input.closedKans| + |input.openMelds| <= 4
  {
    DeclaredMeldsShape(input);
    match DeclaredMelds(input)
    case Err(e) => Err(e)
    case Ok(declared) =>
      var c := MasterCounts(input);
      var agariHai := input.winningTile;
      if |declared| == 4 then
        var hs := PairTankiHands(c, declared, agariHai, TILE_COUNT);
        if |input.handTiles| != STANDARD_HAND_SIZE && hs == [] then Err(NO_PAIR_ERROR)
        else Ok(hs + [Irregular(c, agariHai)])
      else
        Ok(StandardHands(c, declared, agariHai, input.agariType == Ron) + [Irregular(c, agariHai)])
  }

  // ---------------------------------------------------------------------
  // What organize_hand returns.

  /** Every `Ok` result ends with exactly one irregular entry, holding the
      count vector; all other entries are four-melds-one-pair readings. */
  lemma OrganizeEndsIrregular(input: UserInput)
    requires |input.closedKans| + |input.openMelds| <= 4
    requires Organize(input).Ok?
    ensures var r := Organize(input).value;
      && |r| > 0 && r[|r| - 1] == Irregular(MasterCounts(input), input.winningTile)
      && forall k :: 0 <= k < |r| - 1 ==> r[k].YonmentsuIchiatama?
  {
    DeclaredMeldsShape(input);
    var declared := DeclaredMelds(input).value;
    var c := MasterCounts(input);
    if |declared| == 4 {
      PairTankiHandsShape(c, declared, input.winningTile, TILE_COUNT);
      var hs := PairTankiHands(c, declared, input.winningTile, TILE_COUNT);
      forall k | 0 <= k < |hs|
        ensures hs[k].YonmentsuIchiatama?
      {
        assert hs[k] in hs;
      }
    } else {
      var hs := StandardHands(c, declared, input.winningTile, input.agariType == Ron);
      forall k | 0 <= k < |hs|
        ensures hs[k].YonmentsuIchiatama?
      {
        assert hs[k] in hs;
        StandardHandsMember(c, declared, input.winningTile, input.agariType == Ron, hs[k]);
        var i :| 0 <= i < TILE_COUNT && StandardReading(hs[k], c, declared, input.winningTile, input.agariType == Ron, i);
        StandardReadingShape(hs[k], c, declared, input.winningTile, input.agariType == Ron, i);
      }
    }
  }

  /** The only errors: a Chi on an invalid tile, and four declared melds with
      no two-tile slot in a hand whose tile list is not 14 long. */
  lemma OrganizeErrors(input: UserInput)
    requires |input.closedKans| + |input.openMelds| <= 4
    ensures Organize(input).Err? ==> Organize(input).error in {CHI_ERROR, NO_PAIR_ERROR}
    ensures Organize(input) == Err(CHI_ERROR) <==> DeclaredMelds(input).Err?
    ensures Organize(input) == Err(NO_PAIR_ERROR) <==>
      && DeclaredMelds(input).Ok?
      && |input.closedKans| + |input.openMelds| == 4
      && |input.handTiles| != STANDARD_HAND_SIZE
      && forall i :: 0 <= i < TILE_COUNT ==> MasterCounts(input)[i] != 2
  {
    DeclaredMeldsShape(input);
    if DeclaredMelds(input).Ok? {
      var declared := DeclaredMelds(input).value;
      var c := MasterCounts(input);
      if |declared| == 4 {
        PairTankiHandsShape(c, declared, input.winningTile, TILE_COUNT);
        PairSlotsZero(c, TILE_COUNT);
      }
    }
  }

  /** A reading built from declared melds and reading `e` with wait `w`. */
  ghost predicate BuiltFrom(h: HandOrganization, declared: seq<Mentsu>, e: seq<Mentsu>,
                            atama: (Hai, Hai), agariHai: Hai, ron: bool)
  {
    && |declared| + |e| == 4
    && exists w :: w in Waits(declared + e, atama, agariHai)
         && h == HandOrganization.YonmentsuIchiatama(AgariHand(MarkCompleted(declared + e, w, ron), atama, agariHai, w.0))
  }

  lemma ReadingEntryMember(declared: seq<Mentsu>, e: seq<Mentsu>, atama: (Hai, Hai), agariHai: Hai, ron: bool,
                           h: HandOrganization)
    ensures h in ReadingEntry(declared, e, atama, agariHai, ron) <==> BuiltFrom(h, declared, e, atama, agariHai, ron)
  {
    if |declared| + |e| == 4 {
      var ms: Mentsu4 := declared + e;
      var ws := Waits(ms, atama, agariHai);
      var hs := ReadingHands(ms, atama, agariHai, ron);
      if h in hs {
        var j :| 0 <= j < |hs| && hs[j] == h;
        assert ws[j] in ws;
      }
      if BuiltFrom(h, declared, e, atama, agariHai, ron) {
        var w :| w in ws
          && h == HandOrganization.YonmentsuIchiatama(AgariHand(MarkCompleted(ms, w, ron), atama, agariHai, w.0));
        var j :| 0 <= j < |ws| && ws[j] == w;
        assert hs[j] == h;
      }
    }
  }

  /** A four-melds-one-pair reading with pair slot i, concealed melds `e`
      (a reading of the vector without the pair) and one of its waits. */
  ghost predicate StandardReading(h: HandOrganization, c: Counts, declared: seq<Mentsu>, agariHai: Hai, ron: bool, i: nat)
    requires i < TILE_COUNT
  {
    && c[i] >= 2
    && exists e :: e in Decompositions(TakePair(c, i))
         && BuiltFrom(h, declared, e, (IndexToTile(i), IndexToTile(i)), agariHai, ron)
  }

  lemma PairSlotHandsMember(c: Counts, declared: seq<Mentsu>, agariHai: Hai, ron: bool, i: nat, h: HandOrganization)
    requires i < TILE_COUNT
    ensures h in PairSlotHands(c, declared, agariHai, ron, i) <==> StandardReading(h, c, declared, agariHai, ron, i)
  {
    if h in PairSlotHands(c, declared, agariHai, ron, i) {
      PairSlotHandsSound(c, declared, agariHai, ron, i, h);
    }
    if StandardReading(h, c, declared, agariHai, ron, i) {
      PairSlotHandsComplete(c, declared, agariHai, ron, i, h);
    }
  }

  lemma PairSlotHandsSound(c: Counts, declared: seq<Mentsu>, agariHai: Hai, ron: bool, i: nat, h: HandOrganization)
    requires i < TILE_COUNT && h in PairSlotHands(c, declared, agariHai, ron, i)
    ensures StandardReading(h, c, declared, agariHai, ron, i)
  {
    var t := IndexToTile(i);
    var rs := Decompositions(TakePair(c, i));
    var parts := ReadingParts(declared, rs, (t, t), agariHai, ron);
    FlattenMember(parts, |rs|, h);
    var j :| 0 <= j < |rs| && h in parts[j];
    ReadingEntryMember(declared, rs[j], (t, t), agariHai, ron, h);
    assert rs[j] in rs;
  }

  lemma PairSlotHandsComplete(c: Counts, declared: seq<Mentsu>, agariHai: Hai, ron: bool, i: nat, h: HandOrganization)
    requires i < TILE_COUNT && StandardReading(h, c, declared, agariHai, ron, i)
    ensures h in PairSlotHands(c, declared, agariHai, ron, i)
  {
    var t := IndexToTile(i);
    var rs := Decompositions(TakePair(c, i));
    var parts := ReadingParts(declared, rs, (t, t), agariHai, ron);
    FlattenMember(parts, |rs|, h);
    var e :| e in rs && BuiltFrom(h, declared, e, (t, t), agariHai, ron);
    var j :| 0 <= j < |rs| && rs[j] == e;
    ReadingEntryMember(declared, rs[j], (t, t), agariHai, ron, h);
    assert h in parts[j];
  }

  /** The standard-case list holds exactly the readings for every pair slot,
      every reading with the needed meld count and every wait. */
  lemma StandardHandsMember(c: Counts, declared: seq<Mentsu>, agariHai: Hai, ron: bool, h: HandOrganization)
    ensures h in StandardHands(c, declared, agariHai, ron) <==>
      exists i :: 0 <= i < TILE_COUNT && StandardReading(h, c, declared, agariHai, ron, i)
  {
    var parts := SlotParts(c, declared, agariHai, ron);
    FlattenMember(parts, TILE_COUNT, h);
    forall i | 0 <= i < TILE_COUNT
      ensures h in parts[i] <==> StandardReading(h, c, declared, agariHai, ron, i)
    {
      PairSlotHandsMember(c, declared, agariHai, ron, i, h);
    }
  }

  /** A standard reading is a four-melds-one-pair organization. */
  lemma StandardReadingShape(h: HandOrganization, c: Counts, declared: seq<Mentsu>, agariHai: Hai, ron: bool, i: nat)
    requires i < TILE_COUNT && StandardReading(h, c, declared, agariHai, ron, i)
    ensures h.YonmentsuIchiatama?
  {
  }

  /** Every standard-case organization pairs a slot holding at least two
      tiles and completes the declared melds with a sound reading of the
      remaining tiles: concealed melds of the search's shapes that use them
      exactly. */
  lemma StandardHandsSound(c: Counts, declared: seq<Mentsu>, agariHai: Hai, ron: bool, h: HandOrganization)
    requires h in StandardHands(c, declared, agariHai, ron)
    ensures exists i, e ::
      && 0 <= i < TILE_COUNT && c[i] >= 2
      && SoundReading(e, TakePair(c, i))
      && BuiltFrom(h, declared, e, (IndexToTile(i), IndexToTile(i)), agariHai, ron)
  {
    StandardHandsMember(c, declared, agariHai, ron, h);
    var i :| 0 <= i < TILE_COUNT && StandardReading(h, c, declared, agariHai, ron, i);
    var e :| e in Decompositions(TakePair(c, i))
      && BuiltFrom(h, declared, e, (IndexToTile(i), IndexToTile(i)), agariHai, ron);
    DecompositionSound(TakePair(c, i), e);
  }

  // ---------------------------------------------------------------------
  // organize_hand, step by step.

  /** An empty stack in front leaves each reading as it is. */
  lemma PrefixedEmpty(ds: seq<seq<Mentsu>>)
    ensures Prefixed([], ds) == ds
  {
    assert forall k :: 0 <= k < |ds| ==> [] + ds[k] == ds[k];
  }

  /** Counts a tile list into a fresh vector, one tile at a time. */
  method CountTileList(ts: seq<Hai>) returns (counts: array<nat>)
    ensures fresh(counts) && counts.Length == TILE_COUNT
    ensures counts[..] == CountTiles(ts)
  {
    counts := new nat[TILE_COUNT](k => 0);
    assert counts[..] == ZeroCounts();
    var j := 0;
    while j < |ts|
      invariant 0 <= j <= |ts|
      invariant counts[..] == CountTiles(ts[..j])
    {
      assert ts[..j + 1][..j] == ts[..j];
      var k := TileToIndex(ts[j]);
      counts[k] := counts[k] + 1;
      j := j + 1;
    }
    assert ts[..j] == ts;
  }

  /** Fills the master count vector from the hand, and the winning tile on Ron. */
  method CountHand(input: UserInput) returns (counts: array<nat>)
    ensures fresh(counts) && counts.Length == TILE_COUNT
    ensures counts[..] == MasterCounts(input)
  {
    counts := CountTileList(input.handTiles);
    if input.agariType == Ron {
      var k := TileToIndex(input.winningTile);
      counts[k] := counts[k] + 1;
    }
  }

  /** Pushes the closed kans, then each declared meld, stopping at the first
      invalid Chi. */
  method BuildDeclaredMelds(input: UserInput) returns (r: Result<seq<Mentsu>>)
    ensures r == DeclaredMelds(input)
  {
    var melds: seq<Mentsu> := [];
    var j := 0;
    while j < |input.closedKans|
      invariant 0 <= j <= |input.closedKans|
      invariant melds == ClosedKanMelds(input.closedKans[..j])
    {
      var t := input.closedKans[j];
      melds := melds + [Mentsu(Kantsu, false, [t, t, t, t])];
      j := j + 1;
    }
    assert input.closedKans[..j] == input.closedKans;
    ghost var kans := melds;
    var ms := input.openMelds;
    j := 0;
    while j < |ms|
      invariant 0 <= j <= |ms|
      invariant OpenMelds(ms, j).Ok? && melds == kans + OpenMelds(ms, j).value
    {
      var m := OpenMeld(ms[j]);
      if m.Err? {
        OpenMeldsErrorStays(ms, j + 1, |ms|);
        return Err(m.error);
      }
      melds := melds + [m.value];
      j := j + 1;
    }
    r := Ok(melds);
  }

  /** Once building the open melds has failed, it stays failed with the same message. */
  lemma {:induction false} OpenMeldsErrorStays(ms: seq<OpenMeldInput>, n: nat, m: nat)
    requires n <= m <= |ms| && OpenMelds(ms, n).Err?
    ensures OpenMelds(ms, m) == OpenMelds(ms, n)
    decreases m - n
  {
    if n < m {
      OpenMeldsErrorStays(ms, n, m - 1);
    }
  }

  /** With four declared melds: one pair-wait reading per slot with exactly two tiles. */
  method FindPairTanki(c: Counts, declared: Mentsu4, agariHai: Hai) returns (hs: seq<HandOrganization>)
    ensures hs == PairTankiHands(c, declared, agariHai, TILE_COUNT)
  {
    hs := [];
    var i := 0;
    while i < TILE_COUNT
      invariant 0 <= i <= TILE_COUNT
      invariant hs == PairTankiHands(c, declared, agariHai, i)
    {
      if c[i] == 2 {
        var t := IndexToTile(i);
        hs := hs + [HandOrganization.YonmentsuIchiatama(AgariHand(declared, (t, t), agariHai, Tanki))];
      }
      i := i + 1;
    }
  }

  /** The callback's work for one reported reading: a reading with the
      needed meld count yields one organization per wait. */
  method HandsOfReading(declared: seq<Mentsu>, e: seq<Mentsu>, atama: (Hai, Hai), agariHai: Hai, ron: bool)
    returns (hs: seq<HandOrganization>)
    requires |declared| + |e| == 4
    ensures hs == ReadingHands(declared + e, atama, agariHai, ron)
  {
    var full: Mentsu4 := declared + e;
    var ws := DetermineWaitType(full, atama, agariHai);
    hs := [];
    var j := 0;
    while j < |ws|
      invariant 0 <= j <= |ws|
      invariant hs == WaitHands(full, atama, agariHai, ron, ws[..j])
    {
      var w := ws[j];
      var finalMentsu := full;
      if ron && w.1 < 4 {
        finalMentsu := finalMentsu[w.1 := finalMentsu[w.1].(isMinchou := true)];
      }
      assert finalMentsu == MarkCompleted(full, w, ron);
      WaitHandsSnoc(full, atama, agariHai, ron, ws, j);
      hs := hs + [HandOrganization.YonmentsuIchiatama(AgariHand(finalMentsu, atama, agariHai, w.0))];
      j := j + 1;
    }
    assert ws[..j] == ws;
  }

  /** The callback's length test in front of the work for one reading. */
  method HandsOfEntry(declared: seq<Mentsu>, e: seq<Mentsu>, atama: (Hai, Hai), agariHai: Hai, ron: bool)
    returns (hs: seq<HandOrganization>)
    ensures hs == ReadingEntry(declared, e, atama, agariHai, ron)
  {
    if |declared| + |e| == 4 {
      hs := HandsOfReading(declared, e, atama, agariHai, ron);
    } else {
      hs := [];
    }
  }

  /** Feeds every reported reading, in report order, to the callback's work. */
  method HandsOfReadings(declared: seq<Mentsu>, rs: seq<seq<Mentsu>>, atama: (Hai, Hai), agariHai: Hai, ron: bool)
    returns (hs: seq<HandOrganization>)
    ensures hs == Flatten(ReadingParts(declared, rs, atama, agariHai, ron), |rs|)
  {
    hs := [];
    var j := 0;
    while j < |rs|
      invariant 0 <= j <= |rs|
      invariant hs == Flatten(ReadingParts(declared, rs, atama, agariHai, ron), j)
    {
      var more := HandsOfEntry(declared, rs[j], atama, agariHai, ron);
      hs := hs + more;
      j := j + 1;
    }
  }

  /** One pair candidate: copy the counts, remove the pair, run the search
      with an empty stack, then handle what it reported. */
  method HandsOfPair(c: Counts, declared: seq<Mentsu>, agariHai: Hai, ron: bool, i: nat)
    returns (hs: seq<HandOrganization>)
    requires i < TILE_COUNT && c[i] >= 2
    ensures hs == PairSlotHands(c, declared, agariHai, ron, i)
  {
    var temp := new nat[TILE_COUNT](k requires 0 <= k < TILE_COUNT => c[k]);
    assert temp[..] == c;
    temp[i] := temp[i] - 2;
    assert temp[..] == TakePair(c, i);
    var t := IndexToTile(i);
    var parser := new Parser(temp, []);
    parser.FindAllMentsu();
    PrefixedEmpty(Decompositions(TakePair(c, i)));
    assert parser.emitted == [] + Prefixed([], Decompositions(TakePair(c, i)));
    assert parser.emitted == Decompositions(TakePair(c, i));
    hs := HandsOfReadings(declared, parser.emitted, (t, t), agariHai, ron);
  }

  /** A slot is a pair candidate when it holds at least two tiles. */
  method HandsOfSlot(c: Counts, declared: seq<Mentsu>, agariHai: Hai, ron: bool, i: nat)
    returns (hs: seq<HandOrganization>)
    requires i < TILE_COUNT
    ensures hs == PairSlotHands(c, declared, agariHai, ron, i)
  {
    if c[i] >= 2 {
      hs := HandsOfPair(c, declared, agariHai, ron, i);
    } else {
      hs := [];
    }
  }

  /** Fewer than four declared melds: try every slot with two or more tiles as the pair. */
  method FindStandard(c: Counts, declared: seq<Mentsu>, agariHai: Hai, ron: bool) returns (hs: seq<HandOrganization>)
    ensures hs == StandardHands(c, declared, agariHai, ron)
  {
    hs := [];
    var i := 0;
    while i < TILE_COUNT
      invariant 0 <= i <= TILE_COUNT
      invariant hs == Flatten(SlotParts(c, declared, agariHai, ron), i)
    {
      var more := HandsOfSlot(c, declared, agariHai, ron, i);
      hs := hs + more;
      i := i + 1;
    }
  }

  /** organize_hand. */
  method OrganizeHand(input: UserInput) returns (r: Result<seq<HandOrganization>>)
    requires |input.closedKans| + |input.openMelds| <= 4
    ensures r == Organize(input)
  {
    var masterCounts := CountHand(input);
    var concealed: Counts := masterCounts[..];
    var declared := BuildDeclaredMelds(input);
    if declared.Err? {
      return Err(declared.error);
    }
    DeclaredMeldsShape(input);
    var open := declared.value;
    var agariHai := input.winningTile;
    var results: seq<HandOrganization>;
    if |open| == 4 {
      results := FindPairTanki(concealed, open, agariHai);
      if |input.handTiles| != STANDARD_HAND_SIZE && results == [] {
        return Err(NO_PAIR_ERROR);
      }
    } else {
      results := FindStandard(concealed, open, agariHai, input.agariType == Ron);
    }
    r := Ok(results + [Irregular(concealed, agariHai)]);
  }
}
