/** All-sequences hand (src/implements/yaku_checkers/standard/pinfu.rs). */
module PinfuCheck {
  import opened Tiles
  import opened HandTypes
  import opened GameTypes
  import opened YakuUtils

  /** A pair that would itself score fu: a dragon, the round wind or the
      seat wind. */
  predicate YakuhaiPair(t: Hai, bakaze: Kaze, jikaze: Kaze)
  {
    t.Sangenhai? || (t.Kazehai? && (t.kaze == bakaze || t.kaze == jikaze))
  }

  /** check_pinfu, with its early exits in source order (quads, openness,
      non-sequences, a dragon pair, a round or seat wind pair, a wait other
      than two-sided). The quad exit is subsumed by the all-sequences
      condition, so the result is exactly the conjunction below. */
  function CheckPinfu(h: AgariHand, player: PlayerContext, game: GameContext): (r: bool)
    ensures r <==>
      player.isMenzen &&
      (forall k :: 0 <= k < 4 ==> h.mentsu[k].mentsuType == Shuntsu) &&
      !YakuhaiPair(h.atama.0, game.bakaze, player.jikaze) &&
      h.machi == Ryanmen
  {
    if exists k :: 0 <= k < 4 && h.mentsu[k].mentsuType == Kantsu then false
    else if !player.isMenzen then false
    else if !(forall k :: 0 <= k < 4 ==> h.mentsu[k].mentsuType == Shuntsu) then false
    else if h.atama.0.Sangenhai? then false
    else if h.atama.0.Kazehai? && (h.atama.0.kaze == game.bakaze || h.atama.0.kaze == player.jikaze) then false
    else h.machi == Ryanmen
  }

  /** A pinfu hand has no triplet or quad at all, so its sequence list is the
      whole meld list. */
  lemma {:induction false} PinfuNoTriplets(h: AgariHand, player: PlayerContext, game: GameContext)
    requires CheckPinfu(h, player, game)
    ensures TripletCount(h.mentsu, 4) == 0 && QuadCount(h.mentsu, 4) == 0
    ensures ShuntsuList(h.mentsu) == h.mentsu
  {
    NoTripletsIn(h.mentsu, 4);
    AllShuntsu(h.mentsu);
  }

  lemma {:induction false} NoTripletsIn(ms: seq<Mentsu>, n: nat)
    requires n <= |ms|
    requires forall k :: 0 <= k < n ==> ms[k].mentsuType == Shuntsu
    ensures TripletCount(ms, n) == 0 && QuadCount(ms, n) == 0
  {
    if n > 0 {
      NoTripletsIn(ms, n - 1);
    }
  }

  lemma {:induction false} AllShuntsu(ms: seq<Mentsu>)
    requires forall k :: 0 <= k < |ms| ==> ms[k].mentsuType == Shuntsu
    ensures ShuntsuList(ms) == ms
  {
    if ms != [] {
      var p, last := ms[..|ms| - 1], ms[|ms| - 1];
      AllShuntsu(p);
      assert last.mentsuType == Shuntsu;
      assert ShuntsuList(ms) == ShuntsuList(p) + [last];
      FrontAndLast(ms);
    }
  }

  lemma FrontAndLast<T>(s: seq<T>)
    requires |s| > 0
    ensures s[..|s| - 1] + [s[|s| - 1]] == s
  {
  }

  /** The pair of an off-wind (neither round nor seat wind) does not block
      pinfu, while the same hand with a round-wind pair never is pinfu. */
  lemma PinfuWindPair(h: AgariHand, player: PlayerContext, game: GameContext)
    requires h.atama.0.Kazehai?
    ensures h.atama.0.kaze == game.bakaze ==> !CheckPinfu(h, player, game)
    ensures h.atama.0.kaze == player.jikaze ==> !CheckPinfu(h, player, game)
    ensures (h.atama.0.kaze != game.bakaze && h.atama.0.kaze != player.jikaze &&
             player.isMenzen && h.machi == Ryanmen &&
             (forall k :: 0 <= k < 4 ==> h.mentsu[k].mentsuType == Shuntsu))
      ==> CheckPinfu(h, player, game)
  {
  }
}
