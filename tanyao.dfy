/** All simples (src/implements/yaku_checkers/standard/tanyao.rs). */
module TanyaoCheck {
  import opened Tiles
  import opened HandTypes
  import opened YakuUtils

  /** check_tanyao: every tile of the hand is a simple. Stated per part of
      the hand: both pair tiles and every tile of every meld, the fourth tile
      of a quad included. */
  function CheckTanyao(h: AgariHand): (r: bool)
    ensures r <==>
      IsSimple(h.atama.0) && IsSimple(h.atama.1) &&
      forall k, t :: 0 <= k < 4 && t in MeldTiles(h.mentsu[k]) ==> IsSimple(t)
  {
    TanyaoParts(h);
    forall t :: t in AllTiles(h) ==> IsSimple(t)
  }

  lemma TanyaoParts(h: AgariHand)
    ensures (forall t :: t in AllTiles(h) ==> IsSimple(t)) <==>
      IsSimple(h.atama.0) && IsSimple(h.atama.1) &&
      forall k, t :: 0 <= k < 4 && t in MeldTiles(h.mentsu[k]) ==> IsSimple(t)
  {
    forall t ensures t in AllTiles(h) <==> t == h.atama.0 || t == h.atama.1 || t in MeldsTiles(h.mentsu, 4) {
    }
    forall t ensures t in MeldsTiles(h.mentsu, 4) <==> exists k :: 0 <= k < 4 && t in MeldTiles(h.mentsu[k]) {
      MeldsTilesMember(h.mentsu, 4, t);
    }
  }

  /** A terminal or honor anywhere (pair or meld) rules tanyao out. */
  lemma TanyaoExcludesYaochuu(h: AgariHand, k: nat, t: Hai)
    requires k < 4 && t in MeldTiles(h.mentsu[k]) && IsYaochuu(t)
    ensures !CheckTanyao(h)
  {
  }
}
