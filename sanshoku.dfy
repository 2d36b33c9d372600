/** Three colours (src/implements/yaku_checkers/standard/sanshoku.rs): the
    same sequence, or the same triplet, in all three suits. */
module SanshokuCheck {
  import opened Tiles
  import opened HandTypes
  import opened YakuUtils
  import opened SeqLemmas

  /** Some meld of the list starts with tile t. */
  predicate StartsAt(ms: seq<Mentsu>, t: Hai)
  {
    exists m :: m in ms && m.tiles[0] == t
  }

  /** Which suits have a meld starting at rank n: (man, pin, sou). */
  function Flags(ms: seq<Mentsu>, n: Rank): (bool, bool, bool)
  {
    (StartsAt(ms, Suhai(n, Manzu)), StartsAt(ms, Suhai(n, Pinzu)), StartsAt(ms, Suhai(n, Souzu)))
  }

  /** check_sanshoku_generic as a statement: at least three melds, and some
      rank starts a meld in every suit. */
  predicate Sanshoku(ms: seq<Mentsu>)
  {
    |ms| >= 3 && exists n: Rank :: Flags(ms, n) == (true, true, true)
  }

  /** The flag update for one meld, as the loop performs it. */
  function Mark(f: (bool, bool, bool), m: Mentsu, n: Rank): (bool, bool, bool)
  {
    var t := m.tiles[0];
    if t.Suhai? && t.number == n then
      match t.suit
      case Manzu => (true, f.1, f.2)
      case Pinzu => (f.0, true, f.2)
      case Souzu => (f.0, f.1, true)
    else f
  }

  lemma StartsAtSnoc(ms: seq<Mentsu>, m: Mentsu, t: Hai)
    ensures StartsAt(ms + [m], t) == (StartsAt(ms, t) || m.tiles[0] == t)
  {
    if StartsAt(ms + [m], t) && m.tiles[0] != t {
      var w :| w in ms + [m] && w.tiles[0] == t;
      assert w in ms;
    }
    if StartsAt(ms, t) {
      var w :| w in ms && w.tiles[0] == t;
      assert w in ms + [m];
    }
    assert m in ms + [m];
  }

  lemma FlagsSnoc(ms: seq<Mentsu>, m: Mentsu, n: Rank)
    ensures Flags(ms + [m], n) == Mark(Flags(ms, n), m, n)
  {
    StartsAtSnoc(ms, m, Suhai(n, Manzu));
    StartsAtSnoc(ms, m, Suhai(n, Pinzu));
    StartsAtSnoc(ms, m, Suhai(n, Souzu));
  }

  /** Three melds with different first tiles make a list of at least three. */
  lemma ThreeDistinct(ms: seq<Mentsu>, a: Mentsu, b: Mentsu, c: Mentsu)
    requires a in ms && b in ms && c in ms
    requires a.tiles[0] != b.tiles[0] && b.tiles[0] != c.tiles[0] && a.tiles[0] != c.tiles[0]
    ensures |ms| >= 3
  {
    var i :| 0 <= i < |ms| && ms[i] == a;
    var j :| 0 <= j < |ms| && ms[j] == b;
    var k :| 0 <= k < |ms| && ms[k] == c;
    assert i != j && j != k && i != k;
  }

  /** The length guard is implied by the three melds themselves. */
  lemma ColoursLength(ms: seq<Mentsu>, n: Rank)
    requires Flags(ms, n) == (true, true, true)
    ensures |ms| >= 3
  {
    var a :| a in ms && a.tiles[0] == Suhai(n, Manzu);
    var b :| b in ms && b.tiles[0] == Suhai(n, Pinzu);
    var c :| c in ms && c.tiles[0] == Suhai(n, Souzu);
    ThreeDistinct(ms, a, b, c);
  }

  /** Sanshoku holds exactly when one rank starts a meld in each suit; the
      order of the melds and repeated melds do not matter. */
  lemma SanshokuBySet(a: seq<Mentsu>, b: seq<Mentsu>)
    requires forall m :: m in a <==> m in b
    ensures Sanshoku(a) == Sanshoku(b)
  {
    if Sanshoku(a) {
      var n: Rank :| Flags(a, n) == (true, true, true);
      assert Flags(b, n) == Flags(a, n);
      ColoursLength(b, n);
    }
    if Sanshoku(b) {
      var n: Rank :| Flags(b, n) == (true, true, true);
      assert Flags(a, n) == Flags(b, n);
      ColoursLength(a, n);
    }
  }

  /** check_sanshoku_generic: record per rank which suits start a meld there,
      then look for a rank marked in all three. */
  method CheckSanshokuGeneric(ms: seq<Mentsu>) returns (r: bool)
    ensures r == Sanshoku(ms)
  {
    if |ms| < 3 {
      return false;
    }
    var starters: map<Rank, (bool, bool, bool)> := map[];
    var i := 0;
    while i < |ms|
      invariant 0 <= i <= |ms|
      invariant forall n: Rank :: n in starters ==> starters[n] == Flags(ms[..i], n)
      invariant forall n: Rank :: n !in starters ==> Flags(ms[..i], n) == (false, false, false)
    {
      var m := ms[i];
      PrefixStep(ms, i);
      forall n: Rank ensures Flags(ms[..i + 1], n) == Mark(Flags(ms[..i], n), m, n) {
        FlagsSnoc(ms[..i], m, n);
      }
      var t := m.tiles[0];
      if t.Suhai? {
        var e := if t.number in starters then starters[t.number] else (false, false, false);
        starters := starters[t.number := Mark(e, m, t.number)];
      }
      i := i + 1;
    }
    assert ms[..i] == ms;
    var keys := starters.Keys;
    while keys != {}
      invariant keys <= starters.Keys
      invariant forall n: Rank :: n in starters.Keys - keys ==> Flags(ms, n) != (true, true, true)
      decreases |keys|
    {
      var n :| n in keys;
      if starters[n] == (true, true, true) {
        return true;
      }
      keys := keys - {n};
    }
    return false;
  }

  /** Rank n starts a meld in every suit. */
  predicate InEverySuit(ms: seq<Mentsu>, n: Rank)
  {
    forall s: Suit :: StartsAt(ms, Suhai(n, s))
  }

  /** check_sanshoku_doujun: the generic check on the sequence list. Stated
      suit by suit: one rank starts a sequence in every suit. */
  method CheckSanshokuDoujun(shuntsu: seq<Mentsu>) returns (r: bool)
    ensures r == Sanshoku(shuntsu)
    ensures r <==> |shuntsu| >= 3 && exists n: Rank :: InEverySuit(shuntsu, n)
  {
    r := CheckSanshokuGeneric(shuntsu);
    if r {
      var n: Rank :| Flags(shuntsu, n) == (true, true, true);
      forall s: Suit ensures StartsAt(shuntsu, Suhai(n, s)) {
        if s == Manzu {} else if s == Pinzu {} else {}
      }
      assert InEverySuit(shuntsu, n);
    } else if |shuntsu| >= 3 {
      forall n: Rank ensures !InEverySuit(shuntsu, n) {
        assert Flags(shuntsu, n) != (true, true, true);
      }
    }
  }

  /** check_sanshoku_doukou: the generic check on the triplets and quads. */
  method CheckSanshokuDoukou(h: AgariHand) returns (r: bool)
    ensures r == Sanshoku(KoutsuList(h.mentsu))
  {
    r := CheckSanshokuGeneric(KoutsuList(h.mentsu));
  }

  /** Meld k of the hand is a triplet or quad of rank n in suit s. */
  predicate TripletAt(h: AgariHand, n: Rank, s: Suit)
  {
    exists k :: 0 <= k < 4 && IsKoutsuOrKantsu(h.mentsu[k]) && h.mentsu[k].tiles[0] == Suhai(n, s)
  }

  /** Rank n is a triplet or quad in every suit. */
  predicate TripletsInEverySuit(h: AgariHand, n: Rank)
  {
    forall s: Suit :: TripletAt(h, n, s)
  }

  lemma TripletAtIff(h: AgariHand, n: Rank, s: Suit)
    ensures StartsAt(KoutsuList(h.mentsu), Suhai(n, s)) <==> TripletAt(h, n, s)
  {
    var ks := KoutsuList(h.mentsu);
    if StartsAt(ks, Suhai(n, s)) {
      var m :| m in ks && m.tiles[0] == Suhai(n, s);
      var k :| 0 <= k < 4 && h.mentsu[k] == m;
    }
    if TripletAt(h, n, s) {
      var k :| 0 <= k < 4 && IsKoutsuOrKantsu(h.mentsu[k]) && h.mentsu[k].tiles[0] == Suhai(n, s);
      assert h.mentsu[k] in ks;
    }
  }

  /** Triple triplets in terms of the hand's own melds: the same rank as a
      triplet or quad in each suit, in both directions. */
  lemma DoukouMelds(h: AgariHand)
    ensures Sanshoku(KoutsuList(h.mentsu)) <==> exists n: Rank :: TripletsInEverySuit(h, n)
  {
    var ks := KoutsuList(h.mentsu);
    forall n: Rank ensures Flags(ks, n) == (true, true, true) <==> TripletsInEverySuit(h, n) {
      TripletAtIff(h, n, Manzu);
      TripletAtIff(h, n, Pinzu);
      TripletAtIff(h, n, Souzu);
      if TripletAt(h, n, Manzu) && TripletAt(h, n, Pinzu) && TripletAt(h, n, Souzu) {
        forall s: Suit ensures TripletAt(h, n, s) {
          if s == Manzu {} else if s == Pinzu {} else {}
        }
      }
    }
    if exists n: Rank :: Flags(ks, n) == (true, true, true) {
      var n: Rank :| Flags(ks, n) == (true, true, true);
      ColoursLength(ks, n);
    }
  }
}
