/** Pure straight (src/implements/yaku_checkers/standard/ittsu.rs): the
    sequences 123, 456 and 789 of one suit. */
module IttsuCheck {
  import opened Tiles
  import opened HandTypes

  /** Start ranks of the melds of the list whose first tile is of suit s. */
  function StartRanks(ms: seq<Mentsu>, s: Suit): set<nat>
  {
    set m | m in ms && m.tiles[0].Suhai? && m.tiles[0].suit == s :: m.tiles[0].number as nat
  }

  /** The three start ranks of a straight occur in suit s. */
  predicate StraightIn(ms: seq<Mentsu>, s: Suit)
  {
    var rs := StartRanks(ms, s);
    1 in rs && 4 in rs && 7 in rs
  }

  /** check_ittsu as a statement: at least three sequences, and some suit
      holds all of 1, 4 and 7 as start ranks. */
  predicate Ittsu(ms: seq<Mentsu>)
  {
    |ms| >= 3 && (StraightIn(ms, Manzu) || StraightIn(ms, Pinzu) || StraightIn(ms, Souzu))
  }

  /** Adding one meld adds at most its own start rank to its own suit. */
  lemma StartRanksSnoc(ms: seq<Mentsu>, m: Mentsu, s: Suit)
    ensures StartRanks(ms + [m], s) ==
      StartRanks(ms, s) + (if m.tiles[0].Suhai? && m.tiles[0].suit == s then {m.tiles[0].number as nat} else {})
  {
    var l := StartRanks(ms + [m], s);
    var r := StartRanks(ms, s) + (if m.tiles[0].Suhai? && m.tiles[0].suit == s then {m.tiles[0].number as nat} else {});
    forall x | x in l ensures x in r {
      var w :| w in ms + [m] && w.tiles[0].Suhai? && w.tiles[0].suit == s && x == w.tiles[0].number as nat;
      if w != m {
        assert w in ms;
      }
    }
    forall x | x in r ensures x in l {
      if x in StartRanks(ms, s) {
        var w :| w in ms && w.tiles[0].Suhai? && w.tiles[0].suit == s && x == w.tiles[0].number as nat;
        assert w in ms + [m];
      } else {
        assert m in ms + [m];
      }
    }
  }

  /** Three melds with different first tiles make a list of at least three. */
  lemma ThreeDistinct(ms: seq<Mentsu>, a: Mentsu, b: Mentsu, c: Mentsu)
    requires a in ms && b in ms && c in ms
    requires a.tiles[0] != b.tiles[0] && b.tiles[0] != c.tiles[0] && a.tiles[0] != c.tiles[0]
    ensures |ms| >= 3
  {
    var i :| 0 <= i < |ms| && ms[i] == a;
    var j :| 0 <= j < |ms| && ms[j] == b;
    var k :| 0 <= k < |ms| && ms[k] == c;
    assert i != j && j != k && i != k;
  }

  /** The length guard is implied by the straight itself. */
  lemma StraightLength(ms: seq<Mentsu>, s: Suit)
    requires StraightIn(ms, s)
    ensures |ms| >= 3
  {
    var rs := StartRanks(ms, s);
    assert 1 in rs && 4 in rs && 7 in rs;
    var a :| a in ms && a.tiles[0].Suhai? && a.tiles[0].suit == s && 1 == a.tiles[0].number as nat;
    var b :| b in ms && b.tiles[0].Suhai? && b.tiles[0].suit == s && 4 == b.tiles[0].number as nat;
    var c :| c in ms && c.tiles[0].Suhai? && c.tiles[0].suit == s && 7 == c.tiles[0].number as nat;
    ThreeDistinct(ms, a, b, c);
  }

  /** Neither the order of the sequences nor repeated sequences matter: the
      result depends only on which melds occur. */
  lemma IttsuBySet(a: seq<Mentsu>, b: seq<Mentsu>)
    requires forall m :: m in a <==> m in b
    ensures Ittsu(a) == Ittsu(b)
  {
    forall s: Suit ensures StartRanks(a, s) == StartRanks(b, s) {
    }
    if StraightIn(a, Manzu) { StraightLength(a, Manzu); StraightLength(b, Manzu); }
    if StraightIn(a, Pinzu) { StraightLength(a, Pinzu); StraightLength(b, Pinzu); }
    if StraightIn(a, Souzu) { StraightLength(a, Souzu); StraightLength(b, Souzu); }
  }

  /** The pure straight itself: the three sequences 123, 456, 789 of one suit
      (with any further melds) make Ittsu. */
  lemma IttsuOfStraight(ms: seq<Mentsu>, s: Suit, a: Mentsu, b: Mentsu, c: Mentsu)
    requires a in ms && b in ms && c in ms
    requires a.tiles[0] == Suhai(1, s) && b.tiles[0] == Suhai(4, s) && c.tiles[0] == Suhai(7, s)
    ensures Ittsu(ms)
  {
    assert 1 in StartRanks(ms, s) && 4 in StartRanks(ms, s) && 7 in StartRanks(ms, s);
    StraightLength(ms, s);
  }

  /** Melds starting with an honor tile never contribute. */
  lemma HonorMeldIgnored(ms: seq<Mentsu>, m: Mentsu)
    requires !m.tiles[0].Suhai?
    ensures Ittsu(ms + [m]) == Ittsu(ms)
  {
    forall s: Suit ensures StartRanks(ms + [m], s) == StartRanks(ms, s) {
      StartRanksSnoc(ms, m, s);
    }
    if StraightIn(ms, Manzu) { StraightLength(ms, Manzu); }
    if StraightIn(ms, Pinzu) { StraightLength(ms, Pinzu); }
    if StraightIn(ms, Souzu) { StraightLength(ms, Souzu); }
  }

  /** The map built by check_ittsu: each suit present maps to the start
      ranks of that suit, and an absent suit has none. */
  predicate RanksOf(suits: map<Suit, set<nat>>, ms: seq<Mentsu>)
  {
    && (forall s :: s in suits ==> suits[s] == StartRanks(ms, s))
    && (forall s :: s !in suits ==> StartRanks(ms, s) == {})
  }

  /** The map after one more meld is inserted. */
  function AddStart(suits: map<Suit, set<nat>>, m: Mentsu): map<Suit, set<nat>>
  {
    if m.tiles[0].Suhai? then
      var s := m.tiles[0].suit;
      suits[s := (if s in suits then suits[s] else {}) + {m.tiles[0].number as nat}]
    else suits
  }

  lemma RanksOfSnoc(suits: map<Suit, set<nat>>, ms: seq<Mentsu>, m: Mentsu)
    requires RanksOf(suits, ms)
    ensures RanksOf(AddStart(suits, m), ms + [m])
  {
    forall s: Suit {
      StartRanksSnoc(ms, m, s);
    }
  }

  /** check_ittsu: collect the start ranks per suit in a map, then look for a
      suit holding 1, 4 and 7. */
  method CheckIttsu(shuntsu: seq<Mentsu>) returns (r: bool)
    ensures r == Ittsu(shuntsu)
  {
    if |shuntsu| < 3 {
      return false;
    }
    var suits: map<Suit, set<nat>> := map[];
    var i := 0;
    while i < |shuntsu|
      invariant 0 <= i <= |shuntsu|
      invariant RanksOf(suits, shuntsu[..i])
    {
      var m := shuntsu[i];
      ghost var before := suits;
      if m.tiles[0].Suhai? {
        var s := m.tiles[0].suit;
        var old_ := if s in suits then suits[s] else {};
        suits := suits[s := old_ + {m.tiles[0].number as nat}];
      }
      RanksOfSnoc(before, shuntsu[..i], m);
      assert shuntsu[..i + 1] == shuntsu[..i] + [m];
      i := i + 1;
    }
    assert shuntsu[..i] == shuntsu;
    r := FindStraight(shuntsu, suits);
  }

  /** The scan over the map's entries for a suit holding 1, 4 and 7. */
  method FindStraight(shuntsu: seq<Mentsu>, suits: map<Suit, set<nat>>) returns (r: bool)
    requires RanksOf(suits, shuntsu)
    ensures r <==> StraightIn(shuntsu, Manzu) || StraightIn(shuntsu, Pinzu) || StraightIn(shuntsu, Souzu)
  {
    var keys := suits.Keys;
    while keys != {}
      invariant keys <= suits.Keys
      invariant forall s :: s in suits.Keys - keys ==> !StraightIn(shuntsu, s)
      decreases |keys|
    {
      var s :| s in keys;
      var ranks := suits[s];
      if 1 in ranks && 4 in ranks && 7 in ranks {
        return true;
      }
      keys := keys - {s};
    }
    return false;
  }
}
