/** The earlier flat organizer (riichi_calc/src/implements/raw_hand_organizer.rs):
    it validates the input, takes each declared meld out of a concealed count
    buffer, and returns the FIRST four-melds-one-pair reading it finds, or
    the irregular organization when there is none. */
module LegacyOrganizer {
  import opened Tiles
  import opened HandTypes
  import opened InputTypes
  import opened Wrappers
  import opened RecursiveParser
  import opened WaitAnalyzer
  import opened HandOrganizer
  import opened InputValidator

  const ERR_CLOSED_KAN_MISSING: string := "Invalid input: declared closed kan not present in hand tiles."
  const ERR_PON_MISSING: string := "Invalid input: declared Pon not present in hand tiles."
  const ERR_OPEN_KAN_MISSING: string := "Invalid input: declared open Kan not present in hand tiles."
  const ERR_CHI_TILE: string := "Invalid representative tile for Chi (must be 1-7 of a suit)."
  const ERR_CHI_MISSING: string := "Invalid input: declared Chi not present in hand tiles."
  const ERR_NO_PAIR: string := "Invalid hand: 4 open melds but no pair found."

  const SUBTRACTION_ERRORS: set<string> := {
    ERR_CLOSED_KAN_MISSING, ERR_PON_MISSING, ERR_OPEN_KAN_MISSING, ERR_CHI_TILE, ERR_CHI_MISSING }

  // ---------------------------------------------------------------------
  // Taking declared melds out of the concealed counts.

  /** Tiles of index k a declared meld takes from the hand: its first three
      slots, and the fourth as well for a quad. */
  function MeldUse(m: Mentsu, k: nat): nat
  {
    SlotCount(m, k) + (if m.mentsuType == Kantsu && TileToIndex(m.tiles[3]) == k then 1 else 0)
  }

  /** Tiles of index k the melds of `ms` take together. */
  function DeclaredUse(ms: seq<Mentsu>, k: nat): nat
  {
    if |ms| == 0 then 0 else DeclaredUse(ms[..|ms| - 1], k) + MeldUse(ms[|ms| - 1], k)
  }

  /** The counts hold every tile the meld takes. */
  predicate Available(c: Counts, m: Mentsu)
  {
    forall k :: 0 <= k < TILE_COUNT ==> MeldUse(m, k) <= c[k]
  }

  /** A triplet or quad repeats its tile in all four slots. */
  predicate Uniform(m: Mentsu)
  {
    m.mentsuType != Shuntsu ==> m.tiles == [m.tiles[0], m.tiles[0], m.tiles[0], m.tiles[0]]
  }

  lemma QuadUse(m: Mentsu, k: nat)
    requires m.mentsuType == Kantsu && Uniform(m)
    ensures MeldUse(m, k) == if TileToIndex(m.tiles[0]) == k then 4 else 0
  {
  }

  lemma TripletUse(m: Mentsu, k: nat)
    requires m.mentsuType == Koutsu && Uniform(m)
    ensures MeldUse(m, k) == if TileToIndex(m.tiles[0]) == k then 3 else 0
  {
  }

  /** One closed kan taken out of the counts; it fails exactly when the counts
      do not hold the quad. */
  function TakeClosedKan(c: Counts, t: Hai): (r: Result<(Counts, Mentsu)>)
    ensures r.Ok? <==> Available(c, ClosedKanMeld(t))
    ensures r.Err? ==> r.error == ERR_CLOSED_KAN_MISSING
    ensures r.Ok? ==> r.value.1 == ClosedKanMeld(t)
    ensures r.Ok? ==> forall k :: 0 <= k < TILE_COUNT ==> r.value.0[k] + MeldUse(r.value.1, k) == c[k]
  {
    var i := TileToIndex(t);
    assert forall k :: 0 <= k < TILE_COUNT ==> MeldUse(ClosedKanMeld(t), k) == if k == i then 4 else 0;
    if c[i] < 4 then Err(ERR_CLOSED_KAN_MISSING)
    else
      var r: Counts := c[i := c[i] - 4];
      Ok((r, ClosedKanMeld(t)))
  }

  /** The message for a declared meld that cannot be taken out. */
  function MissingError(m: OpenMeldInput): string
  {
    match m.mentsuType
    case Koutsu => ERR_PON_MISSING
    case Kantsu => ERR_OPEN_KAN_MISSING
    case Shuntsu => if ValidChiStart(m.representativeTile) then ERR_CHI_MISSING else ERR_CHI_TILE
  }

  /** A declared Pon taken out of the counts. */
  function TakePon(c: Counts, t: Hai): (r: Result<(Counts, Mentsu)>)
    ensures r.Ok? <==> Available(c, Mentsu(Koutsu, true, [t, t, t, t]))
    ensures r.Err? ==> r.error == ERR_PON_MISSING
    ensures r.Ok? ==> r.value.1 == Mentsu(Koutsu, true, [t, t, t, t])
    ensures r.Ok? ==> forall k :: 0 <= k < TILE_COUNT ==> r.value.0[k] + MeldUse(r.value.1, k) == c[k]
  {
    var i := TileToIndex(t);
    assert forall k :: 0 <= k < TILE_COUNT ==> MeldUse(Mentsu(Koutsu, true, [t, t, t, t]), k) == if k == i then 3 else 0;
    if c[i] < 3 then Err(ERR_PON_MISSING)
    else
      var r: Counts := c[i := c[i] - 3];
      Ok((r, Mentsu(Koutsu, true, [t, t, t, t])))
  }

  /** A declared open Kan taken out of the counts. */
  function TakeOpenKan(c: Counts, t: Hai): (r: Result<(Counts, Mentsu)>)
    ensures r.Ok? <==> Available(c, Mentsu(Kantsu, true, [t, t, t, t]))
    ensures r.Err? ==> r.error == ERR_OPEN_KAN_MISSING
    ensures r.Ok? ==> r.value.1 == Mentsu(Kantsu, true, [t, t, t, t])
    ensures r.Ok? ==> forall k :: 0 <= k < TILE_COUNT ==> r.value.0[k] + MeldUse(r.value.1, k) == c[k]
  {
    var i := TileToIndex(t);
    assert forall k :: 0 <= k < TILE_COUNT ==> MeldUse(Mentsu(Kantsu, true, [t, t, t, t]), k) == if k == i then 4 else 0;
    if c[i] < 4 then Err(ERR_OPEN_KAN_MISSING)
    else
      var r: Counts := c[i := c[i] - 4];
      Ok((r, Mentsu(Kantsu, true, [t, t, t, t])))
  }

  /** A declared Chi taken out of the counts: its start must be a suited
      rank 1..7, and each of its three tiles must be there. */
  function TakeChi(c: Counts, m: OpenMeldInput): Result<(Counts, Mentsu)>
    requires m.mentsuType == Shuntsu
  {
    var t := m.representativeTile;
    var i := TileToIndex(t);
    if i >= SUHAI_TILES_COUNT || i % TILES_PER_SUHAI >= MAX_SHUNTSU_START then Err(ERR_CHI_TILE)
    else if c[i] < 1 || c[i + 1] < 1 || c[i + 2] < 1 then Err(ERR_CHI_MISSING)
    else
      var r: Counts := c[i := c[i] - 1][i + 1 := c[i + 1] - 1][i + 2 := c[i + 2] - 1];
      Ok((r, Mentsu(Shuntsu, true, [t, IndexToTile(i + 1), IndexToTile(i + 2), IndexToTile(i + 2)])))
  }

  /** A Chi is taken out exactly when it is valid and its tiles are there,
      and it then leaves the rest of the counts. */
  lemma TakeChiSpec(c: Counts, m: OpenMeldInput)
    requires m.mentsuType == Shuntsu
    ensures var r := TakeChi(c, m);
      && (r.Ok? <==> OpenMeld(m).Ok? && Available(c, OpenMeld(m).value))
      && (r.Err? ==> r.error == MissingError(m))
      && (r.Ok? ==> r.value.1 == OpenMeld(m).value)
      && (r.Ok? ==> forall k :: 0 <= k < TILE_COUNT ==> r.value.0[k] + MeldUse(r.value.1, k) == c[k])
  {
    if ValidChiStart(m.representativeTile) {
      ChiUse(m);
    }
  }

  /** One declared open meld taken out of the counts. It builds the same open
      meld as the modular organizer, and fails exactly when that one fails (a
      Chi on a tile that cannot start a sequence) or the counts do not hold
      the meld's tiles. */
  function TakeOpenMeld(c: Counts, m: OpenMeldInput): (r: Result<(Counts, Mentsu)>)
    ensures r.Ok? <==> OpenMeld(m).Ok? && Available(c, OpenMeld(m).value)
    ensures r.Err? ==> r.error == MissingError(m)
    ensures r.Ok? ==> r.value.1 == OpenMeld(m).value
    ensures r.Ok? ==> forall k :: 0 <= k < TILE_COUNT ==> r.value.0[k] + MeldUse(r.value.1, k) == c[k]
  {
    match m.mentsuType
    case Koutsu => TakePon(c, m.representativeTile)
    case Kantsu => TakeOpenKan(c, m.representativeTile)
    case Shuntsu =>
      TakeChiSpec(c, m);
      TakeChi(c, m)
  }

  lemma ChiUse(m: OpenMeldInput)
    requires m.mentsuType == Shuntsu && ValidChiStart(m.representativeTile)
    ensures var i := TileToIndex(m.representativeTile);
      forall k :: 0 <= k < TILE_COUNT ==> MeldUse(OpenMeld(m).value, k) == if i <= k < i + 3 then 1 else 0
  {
    var i := TileToIndex(m.representativeTile);
    ChiIsOpenSequence(m);
    forall k | 0 <= k < TILE_COUNT
      ensures MeldUse(OpenMeld(m).value, k) == if i <= k < i + 3 then 1 else 0
    {
      ShuntsuSlots(i, k);
    }
  }

  /** The counts hold every tile the melds take together. */
  predicate Fits(c: Counts, ms: seq<Mentsu>)
  {
    forall k :: 0 <= k < TILE_COUNT ==> DeclaredUse(ms, k) <= c[k]
  }

  /** `c2` is what is left of `c` once the melds are taken out. */
  predicate Conserves(c: Counts, c2: Counts, ms: seq<Mentsu>)
  {
    forall k :: 0 <= k < TILE_COUNT ==> c2[k] + DeclaredUse(ms, k) == c[k]
  }

  lemma {:induction false} DeclaredUseConcat(a: seq<Mentsu>, b: seq<Mentsu>, k: nat)
    ensures DeclaredUse(a + b, k) == DeclaredUse(a, k) + DeclaredUse(b, k)
    decreases |b|
  {
    if |b| > 0 {
      assert (a + b)[..|a + b| - 1] == a + b[..|b| - 1];
      DeclaredUseConcat(a, b[..|b| - 1], k);
    } else {
      assert a + b == a;
    }
  }

  /** The first n closed kans taken out one after the other; the first
      missing one is the error. */
  function SubtractKans(c: Counts, ts: seq<Hai>, n: nat): Result<(Counts, seq<Mentsu>)>
    requires n <= |ts|
  {
    if n == 0 then Ok((c, []))
    else match SubtractKans(c, ts, n - 1)
      case Err(e) => Err(e)
      case Ok((c1, ms)) =>
        match TakeClosedKan(c1, ts[n - 1])
        case Err(e) => Err(e)
        case Ok((c2, m)) => Ok((c2, ms + [m]))
  }

  /** The first n open melds taken out one after the other; the first that
      is invalid or missing is the error. */
  function SubtractOpen(c: Counts, ms: seq<OpenMeldInput>, n: nat): Result<(Counts, seq<Mentsu>)>
    requires n <= |ms|
  {
    if n == 0 then Ok((c, []))
    else match SubtractOpen(c, ms, n - 1)
      case Err(e) => Err(e)
      case Ok((c1, done)) =>
        match TakeOpenMeld(c1, ms[n - 1])
        case Err(e) => Err(e)
        case Ok((c2, m)) => Ok((c2, done + [m]))
  }

  /** Steps 3 and 4 of the earlier organize_hand: the closed kans, then the
      open melds, leaving the concealed counts and the declared melds. */
  function SubtractDeclared(c: Counts, input: UserInput): Result<(Counts, seq<Mentsu>)>
  {
    match SubtractKans(c, input.closedKans, |input.closedKans|)
    case Err(e) => Err(e)
    case Ok((c1, ks)) =>
      match SubtractOpen(c1, input.openMelds, |input.openMelds|)
      case Err(e) => Err(e)
      case Ok((c2, os)) => Ok((c2, ks + os))
  }

  /** Taking one more meld out after `ms` succeeds exactly when all of them
      fit together, and leaves what is left of the original counts. */
  lemma StepFits(c: Counts, c1: Counts, ms: seq<Mentsu>, m: Mentsu)
    requires Conserves(c, c1, ms)
    ensures Available(c1, m) <==> Fits(c, ms + [m])
  {
    forall k | 0 <= k < TILE_COUNT
      ensures DeclaredUse(ms + [m], k) == DeclaredUse(ms, k) + MeldUse(m, k)
    {
      assert (ms + [m])[..|ms|] == ms;
    }
  }

  lemma StepConserves(c: Counts, c1: Counts, c2: Counts, ms: seq<Mentsu>, m: Mentsu)
    requires Conserves(c, c1, ms)
    requires forall k :: 0 <= k < TILE_COUNT ==> c2[k] + MeldUse(m, k) == c1[k]
    ensures Conserves(c, c2, ms + [m])
  {
    forall k | 0 <= k < TILE_COUNT
      ensures DeclaredUse(ms + [m], k) == DeclaredUse(ms, k) + MeldUse(m, k)
    {
      assert (ms + [m])[..|ms|] == ms;
    }
  }

  /** Melds that do not fit stay unfit whatever is added after them. */
  lemma UnfitStays(c: Counts, ms: seq<Mentsu>, more: seq<Mentsu>)
    requires !Fits(c, ms)
    ensures !Fits(c, ms + more)
  {
    var k :| 0 <= k < TILE_COUNT && DeclaredUse(ms, k) > c[k];
    DeclaredUseConcat(ms, more, k);
  }

  /** Taking out the first n closed kans succeeds exactly when their quads
      fit in the counts together; it then leaves the rest of the counts and
      the kans as concealed quads, and otherwise reports the missing kan. */
  lemma {:induction false} SubtractKansSpec(c: Counts, ts: seq<Hai>, n: nat)
    requires n <= |ts|
    ensures var r := SubtractKans(c, ts, n);
      && (r.Ok? <==> Fits(c, ClosedKanMelds(ts[..n])))
      && (r.Ok? ==> r.value.1 == ClosedKanMelds(ts[..n]) && Conserves(c, r.value.0, r.value.1))
      && (r.Err? ==> r.error == ERR_CLOSED_KAN_MISSING)
  {
    if n > 0 {
      SubtractKansSpec(c, ts, n - 1);
      var prev := ClosedKanMelds(ts[..n - 1]);
      var m := ClosedKanMeld(ts[n - 1]);
      assert ClosedKanMelds(ts[..n]) == prev + [m];
      var r1 := SubtractKans(c, ts, n - 1);
      if r1.Ok? {
        StepFits(c, r1.value.0, prev, m);
        var s := TakeClosedKan(r1.value.0, ts[n - 1]);
        if s.Ok? {
          StepConserves(c, r1.value.0, s.value.0, prev, m);
        }
      } else {
        UnfitStays(c, prev, [m]);
      }
    } else {
      assert Conserves(c, c, []);
    }
  }

  /** Taking out the first n open melds succeeds exactly when each is a
      valid meld and together they fit in the counts; they are then the
      melds the modular organizer builds, and the rest of the counts is
      left. */
  lemma {:induction false} SubtractOpenSpec(c: Counts, ms: seq<OpenMeldInput>, n: nat)
    requires n <= |ms|
    ensures var r := SubtractOpen(c, ms, n);
      && (r.Ok? <==> OpenMelds(ms, n).Ok? && Fits(c, OpenMelds(ms, n).value))
      && (r.Ok? ==> r.value.1 == OpenMelds(ms, n).value && Conserves(c, r.value.0, r.value.1))
      && (r.Err? ==> r.error in SUBTRACTION_ERRORS)
  {
    if n > 0 {
      SubtractOpenSpec(c, ms, n - 1);
      var r1 := SubtractOpen(c, ms, n - 1);
      var p := OpenMelds(ms, n - 1);
      if r1.Ok? {
        var s := TakeOpenMeld(r1.value.0, ms[n - 1]);
        if OpenMeld(ms[n - 1]).Ok? {
          var m := OpenMeld(ms[n - 1]).value;
          StepFits(c, r1.value.0, p.value, m);
          if s.Ok? {
            StepConserves(c, r1.value.0, s.value.0, p.value, m);
          }
        }
      } else if p.Ok? && OpenMelds(ms, n).Ok? {
        UnfitStays(c, p.value, [OpenMeld(ms[n - 1]).value]);
      }
    } else {
      assert Conserves(c, c, []);
    }
  }

  /** Taking out the declared melds succeeds exactly when the modular
      organizer accepts them and they fit in the counts together; the result
      is then the modular organizer's declared melds and the rest of the
      counts. */
  lemma SubtractDeclaredSpec(c: Counts, input: UserInput)
    ensures var r := SubtractDeclared(c, input);
      && (r.Ok? <==> DeclaredMelds(input).Ok? && Fits(c, DeclaredMelds(input).value))
      && (r.Ok? ==> r.value.1 == DeclaredMelds(input).value && Conserves(c, r.value.0, r.value.1))
      && (r.Err? ==> r.error in SUBTRACTION_ERRORS)
  {
    var ts := input.closedKans;
    var ms := input.openMelds;
    SubtractKansSpec(c, ts, |ts|);
    assert ts[..|ts|] == ts;
    var ks := ClosedKanMelds(ts);
    var rk := SubtractKans(c, ts, |ts|);
    OpenMeldsResult(ms, |ms|);
    if rk.Ok? {
      var c1 := rk.value.0;
      SubtractOpenSpec(c1, ms, |ms|);
      var o := OpenMelds(ms, |ms|);
      if o.Ok? {
        forall k | 0 <= k < TILE_COUNT
          ensures DeclaredUse(ks + o.value, k) == DeclaredUse(ks, k) + DeclaredUse(o.value, k)
        {
          DeclaredUseConcat(ks, o.value, k);
        }
      }
    } else if DeclaredMelds(input).Ok? {
      UnfitStays(c, ks, OpenMelds(ms, |ms|).value);
    }
  }

  // ---------------------------------------------------------------------
  // The wait of the reading: the first one found.

  /** The wait of the first meld from index j on that holds `t`. */
  function FirstMeldWait(ms: seq<Mentsu>, t: Hai, j: nat): Option<Machi>
    requires j <= |ms|
    decreases |ms| - j
  {
    if j == |ms| then None
    else if MentsuContainsTile(ms[j], t) then MeldWait(ms[j], t)
    else FirstMeldWait(ms, t, j + 1)
  }

  /** The scan from j stops at the first meld holding `t`. */
  lemma {:induction false} FirstMeldWaitAt(ms: seq<Mentsu>, t: Hai, j: nat, n: nat)
    requires j <= n < |ms| && MentsuContainsTile(ms[n], t)
    requires forall l :: j <= l < n ==> !MentsuContainsTile(ms[l], t)
    ensures FirstMeldWait(ms, t, j) == MeldWait(ms[n], t)
    decreases n - j
  {
    if j < n {
      FirstMeldWaitAt(ms, t, j + 1, n);
    }
  }

  /** The earlier determine_wait_type: a wait on the pair when the winning
      tile is the pair tile, else the wait of the first meld holding it. It
      is the first of the waits the modular wait analyzer lists. The source
      panics when no meld holds the tile, so that is excluded. */
  function LegacyWait(ms: Mentsu4, atama: (Hai, Hai), t: Hai): (w: Machi)
    requires t == atama.0 || exists j :: 0 <= j < 4 && MentsuContainsTile(ms[j], t)
    ensures Waits(ms, atama, t) != [] && w == Waits(ms, atama, t)[0].0
  {
    WaitsPairFirst(ms, atama, t);
    if t == atama.0 then Tanki
    else
      FirstWaitIsHead(ms, atama, t);
      FirstMeldWait(ms, t, 0).value
  }

  /** Without a pair wait, the first meld holding the tile gives the first
      listed wait. */
  lemma FirstWaitIsHead(ms: Mentsu4, atama: (Hai, Hai), t: Hai)
    requires t != atama.0 && exists j :: 0 <= j < 4 && MentsuContainsTile(ms[j], t)
    ensures Waits(ms, atama, t) != []
    ensures FirstMeldWait(ms, t, 0) == Some(Waits(ms, atama, t)[0].0)
  {
    if MentsuContainsTile(ms[0], t) {
      FirstWaitAt(ms, atama, t, 0);
    } else if MentsuContainsTile(ms[1], t) {
      FirstWaitAt(ms, atama, t, 1);
    } else if MentsuContainsTile(ms[2], t) {
      FirstWaitAt(ms, atama, t, 2);
    } else {
      FirstWaitAt(ms, atama, t, 3);
    }
  }

  lemma FirstWaitAt(ms: Mentsu4, atama: (Hai, Hai), t: Hai, n: nat)
    requires t != atama.0 && n < 4 && MentsuContainsTile(ms[n], t)
    requires forall l :: 0 <= l < n ==> !MentsuContainsTile(ms[l], t)
    ensures Waits(ms, atama, t) != []
    ensures FirstMeldWait(ms, t, 0) == Some(Waits(ms, atama, t)[0].0)
  {
    assert Waits(ms, atama, t) == MeldWaits(ms, t, |ms|);
    FirstMeldWaitAt(ms, t, 0, n);
    HeadIsLeast(ms, t, n);
  }

  /** The first meld entry belongs to the first meld holding the tile. */
  lemma HeadIsLeast(ms: seq<Mentsu>, t: Hai, n: nat)
    requires n < |ms| && MentsuContainsTile(ms[n], t)
    requires forall l :: 0 <= l < n ==> !MentsuContainsTile(ms[l], t)
    ensures var w := MeldWaits(ms, t, |ms|);
      w != [] && w[0].1 == n && Some(w[0].0) == MeldWait(ms[n], t)
  {
    var w := MeldWaits(ms, t, |ms|);
    MeldWaitsCover(ms, t, |ms|);
    assert Listed(w, n);
    MeldWaitsTagged(ms, t, |ms|);
    var h := w[0].1;
    var k :| 0 <= k < |w| && w[k].1 == n;
    assert forall l :: 0 <= l < |w| ==> h <= w[l].1;
    assert h <= n;
    assert h < |ms| && Some(w[0].0) == MeldWait(ms[h], t);
    assert MentsuContainsTile(ms[h], t);
  }

  // ---------------------------------------------------------------------
  // The winning tile is always in the pair or a meld of the reading.

  /** A triplet, quad or sequence that takes a tile holds it in a slot the
      wait analyzer looks at. */
  lemma ContainsFromUse(m: Mentsu, t: Hai)
    requires Uniform(m) && MeldUse(m, TileToIndex(t)) > 0
    ensures MentsuContainsTile(m, t)
  {
    var a := TileToIndex(t);
    if TileToIndex(m.tiles[0]) == a {
      TileToIndexInjective(m.tiles[0], t);
    } else if TileToIndex(m.tiles[1]) == a {
      TileToIndexInjective(m.tiles[1], t);
    } else if TileToIndex(m.tiles[2]) == a {
      TileToIndexInjective(m.tiles[2], t);
    } else {
      assert false;
    }
  }

  lemma {:induction false} DeclaredUsePositive(ms: seq<Mentsu>, k: nat)
    requires DeclaredUse(ms, k) > 0
    ensures exists j :: 0 <= j < |ms| && MeldUse(ms[j], k) > 0
    decreases |ms|
  {
    var n := |ms| - 1;
    if MeldUse(ms[n], k) == 0 {
      DeclaredUsePositive(ms[..n], k);
      var j :| 0 <= j < n && MeldUse(ms[..n][j], k) > 0;
      assert ms[..n][j] == ms[j];
    }
  }

  /** Every declared meld the modular organizer builds repeats its tile when
      it is a triplet or a quad. */
  lemma DeclaredUniform(input: UserInput)
    requires DeclaredMelds(input).Ok?
    ensures forall j :: 0 <= j < |DeclaredMelds(input).value| ==> Uniform(DeclaredMelds(input).value[j])
  {
    var ms := input.openMelds;
    OpenMeldsResult(ms, |ms|);
    DeclaredMeldsShape(input);
  }

  /** With the declared melds taken out of the hand's counts, the pair at slot
      i and a reading `d` of the rest, the winning tile (which is in the hand)
      is the pair tile or lies in one of the four melds. */
  lemma WinningTileCovered(master: Counts, conc: Counts, declared: seq<Mentsu>, i: nat, d: seq<Mentsu>, t: Hai)
    requires Conserves(master, conc, declared) && master[TileToIndex(t)] > 0
    requires forall j :: 0 <= j < |declared| ==> Uniform(declared[j])
    requires i < TILE_COUNT && conc[i] >= 2 && SoundReading(d, TakePair(conc, i))
    requires |declared| + |d| == 4
    ensures var ms: Mentsu4 := declared + d;
      t == IndexToTile(i) || exists j :: 0 <= j < 4 && MentsuContainsTile(ms[j], t)
  {
    var ms: Mentsu4 := declared + d;
    var a := TileToIndex(t);
    if DeclaredUse(declared, a) > 0 {
      DeclaredUsePositive(declared, a);
      var j :| 0 <= j < |declared| && MeldUse(declared[j], a) > 0;
      ContainsFromUse(declared[j], t);
      assert ms[j] == declared[j];
    } else if a == i {
      IndexToTileOfIndex(t);
    } else {
      assert MeldCount(d, a) > 0;
      MeldCountPositive(d, a);
      var n :| 0 <= n < |d| && SlotCount(d[n], a) > 0;
      assert Uniform(d[n]) && MeldUse(d[n], a) > 0;
      ContainsFromUse(d[n], t);
      assert ms[|declared| + n] == d[n];
    }
  }

  // ---------------------------------------------------------------------
  // organize_hand of the earlier revision.

  /** The first slot from `i` on holding exactly two tiles. */
  function FirstExactPair(c: Counts, i: nat): (r: Option<nat>)
    requires i <= TILE_COUNT
    ensures r.Some? ==> i <= r.value < TILE_COUNT && c[r.value] == 2
    ensures r.Some? ==> forall j :: i <= j < r.value ==> c[j] != 2
    ensures r.None? ==> forall j :: i <= j < TILE_COUNT ==> c[j] != 2
    decreases TILE_COUNT - i
  {
    if i == TILE_COUNT then None
    else if c[i] == 2 then Some(i)
    else FirstExactPair(c, i + 1)
  }

  /** The pair slot i yields a reading: the search without the pair finds
      one, of the number of melds still needed. */
  predicate PairYields(conc: Counts, declared: seq<Mentsu>, i: nat)
    requires |declared| < 4 && i < TILE_COUNT
  {
    && conc[i] >= 2
    && var f := FirstDecomposition(TakePair(conc, i));
       f.Some? && |f.value| == 4 - |declared|
  }

  /** The pair loop with fewer than four declared melds: for each slot from
      `i` on with at least two tiles, the first reading of the rest, accepted
      when it has the melds still needed; the irregular organization with the
      hand's counts when no slot yields one. */
  function LegacyStandard(master: Counts, conc: Counts, declared: seq<Mentsu>, agariHai: Hai, i: nat): HandOrganization
    requires |declared| < 4 && i <= TILE_COUNT
    requires Conserves(master, conc, declared) && master[TileToIndex(agariHai)] > 0
    requires forall j :: 0 <= j < |declared| ==> Uniform(declared[j])
    decreases TILE_COUNT - i
  {
    if i == TILE_COUNT then Irregular(master, agariHai)
    else if PairYields(conc, declared, i) then PairReading(master, conc, declared, agariHai, i)
    else LegacyStandard(master, conc, declared, agariHai, i + 1)
  }

  /** The reading a yielding slot i gives: the declared melds, then the
      first decomposition of the rest, with i as the pair. */
  function PairReading(master: Counts, conc: Counts, declared: seq<Mentsu>, agariHai: Hai, i: nat): HandOrganization
    requires |declared| < 4 && i < TILE_COUNT
    requires Conserves(master, conc, declared) && master[TileToIndex(agariHai)] > 0
    requires forall j :: 0 <= j < |declared| ==> Uniform(declared[j])
    requires PairYields(conc, declared, i)
  {
    YieldsCovered(master, conc, declared, agariHai, i);
    ReadingWith(declared, FirstDecomposition(TakePair(conc, i)).value, i, agariHai)
  }

  /** The declared melds and d as the four melds, slot i as the pair, and
      the first wait the analyzer lists for the winning tile. */
  function ReadingWith(declared: seq<Mentsu>, d: seq<Mentsu>, i: nat, agariHai: Hai): HandOrganization
    requires |declared| + |d| == 4 && i < TILE_COUNT
    requires var ms: Mentsu4 := declared + d;
      agariHai == IndexToTile(i) || exists j :: 0 <= j < 4 && MentsuContainsTile(ms[j], agariHai)
  {
    var t := IndexToTile(i);
    var ms: Mentsu4 := declared + d;
    HandOrganization.YonmentsuIchiatama(AgariHand(ms, (t, t), agariHai, LegacyWait(ms, (t, t), agariHai)))
  }

  /** The winning tile, which validation guarantees is in the hand, is counted. */
  lemma WinningTileCounted(input: UserInput)
    requires input.winningTile in input.handTiles
    ensures CountTiles(input.handTiles)[TileToIndex(input.winningTile)] > 0
  {
    CountTilesMultiplicity(input.handTiles, TileToIndex(input.winningTile));
    IndexToTileOfIndex(input.winningTile);
  }

  /** organize_hand of the earlier revision: count the hand tiles (which
      include the declared melds and the winning tile), validate, take the
      declared melds out, then build the first reading found. */
  function LegacyOrganize(input: UserInput): Result<HandOrganization>
  {
    match ValidateInput(input, CountTiles(input.handTiles))
    case Err(e) => Err(e)
    case Ok(_) => LegacyOrganizeValid(input)
  }

  /** The part after validation: take the declared melds out of the counts,
      then organize what is left. */
  function LegacyOrganizeValid(input: UserInput): Result<HandOrganization>
    requires |input.closedKans| + |input.openMelds| <= MAX_DECLARED_MELDS
    requires input.winningTile in input.handTiles
  {
    var master := CountTiles(input.handTiles);
    SubtractDeclaredSpec(master, input);
    match SubtractDeclared(master, input)
    case Err(e) => Err(e)
    case Ok((conc, declared)) =>
      DeclaredMeldsShape(input);
      DeclaredUniform(input);
      WinningTileCounted(input);
      ConcealedOrganization(master, conc, declared, input.winningTile)
  }

  /** What follows the subtraction of the declared melds: with four declared,
      the first slot holding exactly two tiles is the pair (and there must be
      one); otherwise the pair loop. */
  function ConcealedOrganization(master: Counts, conc: Counts, declared: seq<Mentsu>, agariHai: Hai): Result<HandOrganization>
    requires |declared| <= 4
    requires Conserves(master, conc, declared) && master[TileToIndex(agariHai)] > 0
    requires forall j :: 0 <= j < |declared| ==> Uniform(declared[j])
  {
    if |declared| == 4 then
      match FirstExactPair(conc, 0)
      case None => Err(ERR_NO_PAIR)
      case Some(i) =>
        var t := IndexToTile(i);
        Ok(HandOrganization.YonmentsuIchiatama(AgariHand(declared, (t, t), agariHai, Tanki)))
    else Ok(LegacyStandard(master, conc, declared, agariHai, 0))
  }

  /** Every error is a validation, subtraction or missing-pair message, and a
      validation failure is reported before anything else. */
  lemma LegacyOrganizeErrors(input: UserInput)
    ensures var r := LegacyOrganize(input);
      && (r.Err? ==> r.error in GAME_STATE_ERRORS + COMPOSITION_ERRORS + SUBTRACTION_ERRORS + {ERR_NO_PAIR})
      && (ValidateInput(input, CountTiles(input.handTiles)).Err? ==>
            r == Err(ValidateInput(input, CountTiles(input.handTiles)).error))
  {
    var master := CountTiles(input.handTiles);
    ValidateInputOrder(input, master);
    if ValidateInput(input, master).Err? {
      var v := ValidateInput(input, master);
      if !GameStateConsistent(input.playerContext, input.gameContext, input.agariType, input) {
        assert v.error in GAME_STATE_ERRORS;
      } else {
        assert v == ValidateHandComposition(input, master);
      }
    } else {
      SubtractDeclaredSpec(master, input);
    }
  }

  /** An accepted hand passed validation, and its declared melds are the
      modular organizer's and fit in the hand. */
  lemma LegacyOrganizeAccepts(input: UserInput)
    requires LegacyOrganize(input).Ok?
    ensures GameStateConsistent(input.playerContext, input.gameContext, input.agariType, input)
    ensures CompositionConsistent(input, CountTiles(input.handTiles))
    ensures DeclaredMelds(input).Ok? && Fits(CountTiles(input.handTiles), DeclaredMelds(input).value)
  {
    SubtractDeclaredSpec(CountTiles(input.handTiles), input);
  }

  /** With four declared melds, the reading is those melds with the first
      slot holding exactly two tiles as the pair, on a pair wait. */
  lemma LegacyFourDeclared(input: UserInput)
    requires LegacyOrganize(input).Ok? && |input.closedKans| + |input.openMelds| == 4
    ensures var c := CountTiles(input.handTiles);
      var s := SubtractDeclared(c, input);
      && s.Ok? && DeclaredMelds(input).Ok? && |DeclaredMelds(input).value| == 4
      && FirstExactPair(s.value.0, 0).Some?
      && var t := IndexToTile(FirstExactPair(s.value.0, 0).value);
         LegacyOrganize(input)
         == Ok(HandOrganization.YonmentsuIchiatama(AgariHand(DeclaredMelds(input).value, (t, t), input.winningTile, Tanki)))
  {
    var c := CountTiles(input.handTiles);
    SubtractDeclaredSpec(c, input);
    DeclaredMeldsShape(input);
  }

  /** The pair loop returns the irregular organization exactly when no slot
      from `i` on yields a reading; otherwise it returns the reading at the
      first slot that does: the declared melds, then the head of the
      exhaustive enumeration of the rest, with the first wait the analyzer
      lists. The reading's own melds stay concealed, also on Ron. */
  lemma {:induction false} LegacyStandardFirst(master: Counts, conc: Counts, declared: seq<Mentsu>, agariHai: Hai, i: nat)
    requires |declared| < 4 && i <= TILE_COUNT
    requires Conserves(master, conc, declared) && master[TileToIndex(agariHai)] > 0
    requires forall j :: 0 <= j < |declared| ==> Uniform(declared[j])
    ensures var h := LegacyStandard(master, conc, declared, agariHai, i);
      && (h.Irregular? <==> forall j :: i <= j < TILE_COUNT ==> !PairYields(conc, declared, j))
      && (h.Irregular? ==> h == Irregular(master, agariHai))
      && (h.YonmentsuIchiatama? ==> exists p :: i <= p < TILE_COUNT && FirstReadingAt(h, conc, declared, agariHai, i, p))
  {
    LegacyStandardIrregular(master, conc, declared, agariHai, i);
    LegacyStandardReading(master, conc, declared, agariHai, i);
  }

  lemma {:induction false} LegacyStandardIrregular(master: Counts, conc: Counts, declared: seq<Mentsu>, agariHai: Hai, i: nat)
    requires |declared| < 4 && i <= TILE_COUNT
    requires Conserves(master, conc, declared) && master[TileToIndex(agariHai)] > 0
    requires forall j :: 0 <= j < |declared| ==> Uniform(declared[j])
    ensures var h := LegacyStandard(master, conc, declared, agariHai, i);
      && (h.Irregular? <==> forall j :: i <= j < TILE_COUNT ==> !PairYields(conc, declared, j))
      && (h.Irregular? ==> h == Irregular(master, agariHai))
    decreases TILE_COUNT - i
  {
    if i < TILE_COUNT {
      if PairYields(conc, declared, i) {
        LegacyStandardYields(master, conc, declared, agariHai, i);
      } else {
        LegacyStandardSkip(master, conc, declared, agariHai, i);
        LegacyStandardIrregular(master, conc, declared, agariHai, i + 1);
      }
    }
  }

  lemma {:induction false} LegacyStandardReading(master: Counts, conc: Counts, declared: seq<Mentsu>, agariHai: Hai, i: nat)
    requires |declared| < 4 && i <= TILE_COUNT
    requires Conserves(master, conc, declared) && master[TileToIndex(agariHai)] > 0
    requires forall j :: 0 <= j < |declared| ==> Uniform(declared[j])
    ensures var h := LegacyStandard(master, conc, declared, agariHai, i);
      h.YonmentsuIchiatama? ==> exists p :: i <= p < TILE_COUNT && FirstReadingAt(h, conc, declared, agariHai, i, p)
    decreases TILE_COUNT - i
  {
    if i < TILE_COUNT {
      if PairYields(conc, declared, i) {
        LegacyStandardYields(master, conc, declared, agariHai, i);
      } else {
        LegacyStandardSkip(master, conc, declared, agariHai, i);
        LegacyStandardReading(master, conc, declared, agariHai, i + 1);
        var h := LegacyStandard(master, conc, declared, agariHai, i + 1);
        if h.YonmentsuIchiatama? {
          var p :| i + 1 <= p < TILE_COUNT && FirstReadingAt(h, conc, declared, agariHai, i + 1, p);
          assert FirstReadingAt(h, conc, declared, agariHai, i, p);
        }
      }
    }
  }

  /** A slot that yields no reading is passed over. */
  lemma LegacyStandardSkip(master: Counts, conc: Counts, declared: seq<Mentsu>, agariHai: Hai, i: nat)
    requires |declared| < 4 && i < TILE_COUNT
    requires Conserves(master, conc, declared) && master[TileToIndex(agariHai)] > 0
    requires forall j :: 0 <= j < |declared| ==> Uniform(declared[j])
    requires !PairYields(conc, declared, i)
    ensures LegacyStandard(master, conc, declared, agariHai, i) == LegacyStandard(master, conc, declared, agariHai, i + 1)
  {
  }

  lemma LegacyStandardYields(master: Counts, conc: Counts, declared: seq<Mentsu>, agariHai: Hai, i: nat)
    requires |declared| < 4 && i < TILE_COUNT
    requires Conserves(master, conc, declared) && master[TileToIndex(agariHai)] > 0
    requires forall j :: 0 <= j < |declared| ==> Uniform(declared[j])
    requires PairYields(conc, declared, i)
    ensures FirstReadingAt(LegacyStandard(master, conc, declared, agariHai, i), conc, declared, agariHai, i, i)
  {
    var c := TakePair(conc, i);
    FirstDecompositionIsHead(c);
    DecompositionSound(c, Decompositions(c)[0]);
  }

  /** `h` is the reading with pair slot p, the first slot from `i` on that
      yields one: the declared melds followed by the first reading of the
      rest, which is sound for the rest, with the first listed wait. */
  ghost predicate FirstReadingAt(h: HandOrganization, conc: Counts, declared: seq<Mentsu>, agariHai: Hai, i: nat, p: nat)
    requires |declared| < 4 && i <= p < TILE_COUNT
  {
    && (forall j :: i <= j < p ==> !PairYields(conc, declared, j))
    && ReadingAt(h, conc, declared, agariHai, p)
  }

  /** `h` is the reading with pair slot p. */
  ghost predicate ReadingAt(h: HandOrganization, conc: Counts, declared: seq<Mentsu>, agariHai: Hai, p: nat)
    requires |declared| < 4 && p < TILE_COUNT
  {
    && PairYields(conc, declared, p)
    && var ds := Decompositions(TakePair(conc, p));
       var t := IndexToTile(p);
       && ds != [] && SoundReading(ds[0], TakePair(conc, p))
       && h.YonmentsuIchiatama?
       && h.hand.mentsu == declared + ds[0]
       && h.hand.atama == (t, t)
       && h.hand.agariHai == agariHai
       && Waits(h.hand.mentsu, (t, t), agariHai) != []
       && h.hand.machi == Waits(h.hand.mentsu, (t, t), agariHai)[0].0
  }

  // ---------------------------------------------------------------------
  // The in-place organizer.

  lemma {:induction false} SubtractKansErrorStays(c: Counts, ts: seq<Hai>, n: nat, m: nat)
    requires n <= m <= |ts| && SubtractKans(c, ts, n).Err?
    ensures SubtractKans(c, ts, m) == SubtractKans(c, ts, n)
    decreases m - n
  {
    if n < m {
      SubtractKansErrorStays(c, ts, n, m - 1);
    }
  }

  lemma {:induction false} SubtractOpenErrorStays(c: Counts, ms: seq<OpenMeldInput>, n: nat, m: nat)
    requires n <= m <= |ms| && SubtractOpen(c, ms, n).Err?
    ensures SubtractOpen(c, ms, m) == SubtractOpen(c, ms, n)
    decreases m - n
  {
    if n < m {
      SubtractOpenErrorStays(c, ms, n, m - 1);
      var e := SubtractOpen(c, ms, m - 1);
      assert SubtractOpen(c, ms, m) == Err(e.error);
    }
  }

  /** Takes one closed kan out of the buffer, or leaves it and reports the kan missing. */
  method RemoveClosedKan(conc: array<nat>, t: Hai) returns (r: Result<Mentsu>)
    requires conc.Length == TILE_COUNT
    modifies conc
    ensures var s := TakeClosedKan(old(conc[..]), t);
      && (s.Err? ==> r == Err(s.error) && conc[..] == old(conc[..]))
      && (s.Ok? ==> r == Ok(s.value.1) && conc[..] == s.value.0)
  {
    var i := TileToIndex(t);
    if conc[i] < 4 {
      return Err(ERR_CLOSED_KAN_MISSING);
    }
    conc[i] := conc[i] - 4;
    return Ok(Mentsu(Kantsu, false, [t, t, t, t]));
  }

  /** Takes a declared Pon out of the buffer, or leaves it. */
  method RemovePon(conc: array<nat>, t: Hai) returns (r: Result<Mentsu>)
    requires conc.Length == TILE_COUNT
    modifies conc
    ensures var s := TakePon(old(conc[..]), t);
      && (s.Err? ==> r == Err(s.error) && conc[..] == old(conc[..]))
      && (s.Ok? ==> r == Ok(s.value.1) && conc[..] == s.value.0)
  {
    var i := TileToIndex(t);
    if conc[i] < 3 {
      return Err(ERR_PON_MISSING);
    }
    conc[i] := conc[i] - 3;
    return Ok(Mentsu(Koutsu, true, [t, t, t, t]));
  }

  /** Takes a declared open Kan out of the buffer, or leaves it. */
  method RemoveOpenKan(conc: array<nat>, t: Hai) returns (r: Result<Mentsu>)
    requires conc.Length == TILE_COUNT
    modifies conc
    ensures var s := TakeOpenKan(old(conc[..]), t);
      && (s.Err? ==> r == Err(s.error) && conc[..] == old(conc[..]))
      && (s.Ok? ==> r == Ok(s.value.1) && conc[..] == s.value.0)
  {
    var i := TileToIndex(t);
    if conc[i] < 4 {
      return Err(ERR_OPEN_KAN_MISSING);
    }
    conc[i] := conc[i] - 4;
    return Ok(Mentsu(Kantsu, true, [t, t, t, t]));
  }

  /** Takes a declared Chi out of the buffer, or leaves it. */
  method RemoveChi(conc: array<nat>, m: OpenMeldInput) returns (r: Result<Mentsu>)
    requires conc.Length == TILE_COUNT && m.mentsuType == Shuntsu
    modifies conc
    ensures var s := TakeChi(old(conc[..]), m);
      && (s.Err? ==> r == Err(s.error) && conc[..] == old(conc[..]))
      && (s.Ok? ==> r == Ok(s.value.1) && conc[..] == s.value.0)
  {
    var t := m.representativeTile;
    var i := TileToIndex(t);
    if i >= SUHAI_TILES_COUNT || i % TILES_PER_SUHAI >= MAX_SHUNTSU_START {
      return Err(ERR_CHI_TILE);
    }
    if conc[i] < 1 || conc[i + 1] < 1 || conc[i + 2] < 1 {
      return Err(ERR_CHI_MISSING);
    }
    TakeSequenceTiles(conc, i);
    var t3 := IndexToTile(i + 2);
    r := Ok(Mentsu(Shuntsu, true, [t, IndexToTile(i + 1), t3, t3]));
  }

  /** One tile each at i, i + 1 and i + 2 taken out of the buffer. */
  method TakeSequenceTiles(conc: array<nat>, i: nat)
    requires conc.Length == TILE_COUNT && i + 2 < TILE_COUNT
    requires conc[i] >= 1 && conc[i + 1] >= 1 && conc[i + 2] >= 1
    modifies conc
    ensures conc[..] == old(conc[..])[i := old(conc[i]) - 1][i + 1 := old(conc[i + 1]) - 1][i + 2 := old(conc[i + 2]) - 1]
  {
    conc[i] := conc[i] - 1;
    conc[i + 1] := conc[i + 1] - 1;
    conc[i + 2] := conc[i + 2] - 1;
  }

  /** Takes one declared open meld out of the buffer, or leaves it and reports
      the meld invalid or missing. */
  method RemoveOpenMeld(conc: array<nat>, m: OpenMeldInput) returns (r: Result<Mentsu>)
    requires conc.Length == TILE_COUNT
    modifies conc
    ensures var s := TakeOpenMeld(old(conc[..]), m);
      && (s.Err? ==> r == Err(s.error) && conc[..] == old(conc[..]))
      && (s.Ok? ==> r == Ok(s.value.1) && conc[..] == s.value.0)
  {
    match m.mentsuType {
      case Koutsu => r := RemovePon(conc, m.representativeTile);
      case Kantsu => r := RemoveOpenKan(conc, m.representativeTile);
      case Shuntsu => r := RemoveChi(conc, m);
    }
  }

  /** Step 3 in place: each closed kan taken out of the buffer and pushed. */
  method RemoveClosedKans(conc: array<nat>, ts: seq<Hai>) returns (r: Result<seq<Mentsu>>)
    requires conc.Length == TILE_COUNT
    modifies conc
    ensures var s := SubtractKans(old(conc[..]), ts, |ts|);
      && (s.Err? ==> r == Err(s.error))
      && (s.Ok? ==> r == Ok(s.value.1) && conc[..] == s.value.0)
  {
    ghost var c0: Counts := conc[..];
    var melds: seq<Mentsu> := [];
    var j := 0;
    while j < |ts|
      invariant 0 <= j <= |ts|
      invariant SubtractKans(c0, ts, j) == Ok((conc[..], melds))
    {
      ghost var before: Counts := conc[..];
      ghost var s := TakeClosedKan(before, ts[j]);
      var m := RemoveClosedKan(conc, ts[j]);
      if m.Err? {
        assert SubtractKans(c0, ts, j + 1) == Err(m.error);
        SubtractKansErrorStays(c0, ts, j + 1, |ts|);
        return Err(m.error);
      }
      ghost var after: Counts := conc[..];
      assert s == Ok((after, m.value));
      melds := melds + [m.value];
      j := j + 1;
    }
    return Ok(melds);
  }

  lemma SubtractOpenStep(c: Counts, ms: seq<OpenMeldInput>, j: nat, c1: Counts, done: seq<Mentsu>)
    requires j < |ms| && SubtractOpen(c, ms, j) == Ok((c1, done))
    ensures var s := TakeOpenMeld(c1, ms[j]);
      && (s.Err? ==> SubtractOpen(c, ms, j + 1) == Err(s.error))
      && (s.Ok? ==> SubtractOpen(c, ms, j + 1) == Ok((s.value.0, done + [s.value.1])))
  {
  }

  /** Step 4 in place: each declared open meld taken out of the buffer and pushed. */
  method RemoveOpenMelds(conc: array<nat>, ms: seq<OpenMeldInput>) returns (r: Result<seq<Mentsu>>)
    requires conc.Length == TILE_COUNT
    modifies conc
    ensures var s := SubtractOpen(old(conc[..]), ms, |ms|);
      && (s.Err? ==> r == Err(s.error))
      && (s.Ok? ==> r == Ok(s.value.1) && conc[..] == s.value.0)
  {
    ghost var c0: Counts := conc[..];
    var melds: seq<Mentsu> := [];
    var j := 0;
    while j < |ms|
      invariant 0 <= j <= |ms|
      invariant SubtractOpen(c0, ms, j) == Ok((conc[..], melds))
    {
      ghost var before: Counts := conc[..];
      ghost var s := TakeOpenMeld(before, ms[j]);
      var m := RemoveOpenMeld(conc, ms[j]);
      SubtractOpenStep(c0, ms, j, before, melds);
      if m.Err? {
        assert SubtractOpen(c0, ms, j + 1) == Err(m.error);
        SubtractOpenErrorStays(c0, ms, j + 1, |ms|);
        return Err(m.error);
      }
      ghost var after: Counts := conc[..];
      assert s == Ok((after, m.value));
      melds := melds + [m.value];
      j := j + 1;
    }
    return Ok(melds);
  }

  /** Steps 3 and 4 in place: the closed kans, then the open melds; the first
      failure is returned. */
  method SubtractDeclaredMelds(conc: array<nat>, input: UserInput) returns (r: Result<seq<Mentsu>>)
    requires conc.Length == TILE_COUNT
    modifies conc
    ensures var s := SubtractDeclared(old(conc[..]), input);
      && (s.Err? ==> r == Err(s.error))
      && (s.Ok? ==> r == Ok(s.value.1) && conc[..] == s.value.0)
  {
    var ks := RemoveClosedKans(conc, input.closedKans);
    if ks.Err? {
      return Err(ks.error);
    }
    var os := RemoveOpenMelds(conc, input.openMelds);
    if os.Err? {
      return Err(os.error);
    }
    return Ok(ks.value + os.value);
  }

  /** The search for one pair candidate, on a scratch copy of the concealed
      buffer: the first reading of the rest when it has the melds still
      needed. */
  method TryPair(conc: array<nat>, declared: seq<Mentsu>, i: nat) returns (d: Option<seq<Mentsu>>)
    requires conc.Length == TILE_COUNT && |declared| < 4 && i < TILE_COUNT && conc[i] >= 2
    ensures PairYields(conc[..], declared, i) <==> d.Some?
    ensures d.Some? ==> d.value == FirstDecomposition(TakePair(conc[..], i)).value
  {
    var temp := new nat[TILE_COUNT](k requires 0 <= k < TILE_COUNT reads conc => conc[k]);
    temp[i] := temp[i] - 2;
    assert temp[..] == TakePair(conc[..], i);
    var parser := new Parser(temp, []);
    var found := parser.FindFirstMentsu();
    if found && |parser.mentsu| == 4 - |declared| {
      assert parser.mentsu == [] + FirstDecomposition(TakePair(conc[..], i)).value;
      return Some(parser.mentsu);
    }
    return None;
  }

  /** A slot that yields a reading gives one the winning tile completes. */
  lemma YieldsCovered(master: Counts, conc: Counts, declared: seq<Mentsu>, agariHai: Hai, i: nat)
    requires |declared| < 4 && i < TILE_COUNT
    requires Conserves(master, conc, declared) && master[TileToIndex(agariHai)] > 0
    requires forall j :: 0 <= j < |declared| ==> Uniform(declared[j])
    requires PairYields(conc, declared, i)
    ensures var ms: Mentsu4 := declared + FirstDecomposition(TakePair(conc, i)).value;
      agariHai == IndexToTile(i) || exists j :: 0 <= j < 4 && MentsuContainsTile(ms[j], agariHai)
  {
    var c := TakePair(conc, i);
    FirstDecompositionIsHead(c);
    DecompositionSound(c, FirstDecomposition(c).value);
    WinningTileCovered(master, conc, declared, i, FirstDecomposition(c).value, agariHai);
  }

  /** The pair loop with fewer than four declared melds. */
  method FindLegacyStandard(master: Counts, conc: array<nat>, declared: seq<Mentsu>, agariHai: Hai)
    returns (h: HandOrganization)
    requires conc.Length == TILE_COUNT && |declared| < 4
    requires Conserves(master, conc[..], declared) && master[TileToIndex(agariHai)] > 0
    requires forall j :: 0 <= j < |declared| ==> Uniform(declared[j])
    ensures h == LegacyStandard(master, conc[..], declared, agariHai, 0)
  {
    ghost var cc: Counts := conc[..];
    var i := 0;
    while i < TILE_COUNT
      invariant 0 <= i <= TILE_COUNT
      invariant LegacyStandard(master, cc, declared, agariHai, i) == LegacyStandard(master, cc, declared, agariHai, 0)
    {
      var found := TrySlot(master, conc, declared, agariHai, i);
      if found.Some? {
        return found.value;
      }
      i := i + 1;
    }
    return Irregular(master, agariHai);
  }

  /** One pass of the pair loop: the reading slot i yields, if any. */
  method TrySlot(master: Counts, conc: array<nat>, declared: seq<Mentsu>, agariHai: Hai, i: nat)
    returns (h: Option<HandOrganization>)
    requires conc.Length == TILE_COUNT && |declared| < 4 && i < TILE_COUNT
    requires Conserves(master, conc[..], declared) && master[TileToIndex(agariHai)] > 0
    requires forall j :: 0 <= j < |declared| ==> Uniform(declared[j])
    ensures h.Some? ==> h.value == LegacyStandard(master, conc[..], declared, agariHai, i)
    ensures h.None? ==>
      LegacyStandard(master, conc[..], declared, agariHai, i) == LegacyStandard(master, conc[..], declared, agariHai, i + 1)
  {
    if conc[i] >= 2 {
      var d := TryPair(conc, declared, i);
      if d.Some? {
        YieldsCovered(master, conc[..], declared, agariHai, i);
        return Some(ReadingWith(declared, d.value, i, agariHai));
      }
    }
    return None;
  }

  /** The pair loop with four declared melds: the first slot with exactly two tiles. */
  method FindExactPair(conc: array<nat>) returns (p: Option<nat>)
    requires conc.Length == TILE_COUNT
    ensures p == FirstExactPair(conc[..], 0)
  {
    var i := 0;
    while i < TILE_COUNT
      invariant 0 <= i <= TILE_COUNT
      invariant FirstExactPair(conc[..], i) == FirstExactPair(conc[..], 0)
    {
      if conc[i] == 2 {
        return Some(i);
      }
      i := i + 1;
    }
    return None;
  }

  /** organize_hand of the earlier revision, over count buffers: the master
      counts, a concealed copy the declared melds are taken out of, and for
      each pair candidate a scratch copy the first-reading search consumes. */
  method LegacyOrganizeHand(input: UserInput) returns (r: Result<HandOrganization>)
    ensures r == LegacyOrganize(input)
  {
    var counts := CountTileList(input.handTiles);
    var v := ValidateInput(input, counts[..]);
    if v.Err? {
      return Err(v.error);
    }
    r := OrganizeValidated(input, counts);
  }

  /** The hand-organizing steps once the input is valid: a concealed copy of
      the counts, the declared melds taken out of it, then the concealed part. */
  method OrganizeValidated(input: UserInput, counts: array<nat>) returns (r: Result<HandOrganization>)
    requires counts.Length == TILE_COUNT && counts[..] == CountTiles(input.handTiles)
    requires |input.closedKans| + |input.openMelds| <= MAX_DECLARED_MELDS
    requires input.winningTile in input.handTiles
    ensures r == LegacyOrganizeValid(input)
  {
    var master: Counts := counts[..];
    var conc := new nat[TILE_COUNT](k requires 0 <= k < TILE_COUNT reads counts => counts[k]);
    assert conc[..] == master;
    var s := SubtractDeclaredMelds(conc, input);
    if s.Err? {
      return Err(s.error);
    }
    var declared := s.value;
    SubtractDeclaredSpec(master, input);
    DeclaredMeldsShape(input);
    DeclaredUniform(input);
    WinningTileCounted(input);
    r := OrganizeConcealed(master, conc, declared, input.winningTile);
  }

  /** The part of organize_hand after the declared melds are taken out: the
      exact pair with four declared melds, the pair loop otherwise. */
  method OrganizeConcealed(master: Counts, conc: array<nat>, declared: seq<Mentsu>, agariHai: Hai)
    returns (r: Result<HandOrganization>)
    requires conc.Length == TILE_COUNT && |declared| <= 4
    requires Conserves(master, conc[..], declared) && master[TileToIndex(agariHai)] > 0
    requires forall j :: 0 <= j < |declared| ==> Uniform(declared[j])
    ensures r == ConcealedOrganization(master, conc[..], declared, agariHai)
  {
    if |declared| == 4 {
      var p := FindExactPair(conc);
      if p.None? {
        return Err(ERR_NO_PAIR);
      }
      var t := IndexToTile(p.value);
      return Ok(HandOrganization.YonmentsuIchiatama(AgariHand(declared, (t, t), agariHai, Tanki)));
    }
    var h := FindLegacyStandard(master, conc, declared, agariHai);
    return Ok(h);
  }
}
