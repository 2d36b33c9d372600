/** Little three dragons and the outside-hand yaku
    (src/implements/yaku_checkers/standard/terminals_honors.rs). */
module TerminalsHonors {
  import opened Tiles
  import opened HandTypes
  import opened YakuUtils

  /** check_shousangen as a statement: two dragon triplets or quads and a
      dragon pair. */
  predicate Shousangen(h: AgariHand)
  {
    DragonTriplets(h.mentsu, 4) == 2 && h.atama.0.Sangenhai?
  }

  /** check_shousangen: count the dragon triplets and quads, then look at the
      pair. */
  method CheckShousangen(h: AgariHand) returns (r: bool)
    ensures r == Shousangen(h)
  {
    var dragonKoutsu := 0;
    var i := 0;
    while i < 4
      invariant 0 <= i <= 4
      invariant dragonKoutsu == DragonTriplets(h.mentsu, i)
    {
      var m := h.mentsu[i];
      if IsKoutsuOrKantsu(m) && m.tiles[0].Sangenhai? {
        dragonKoutsu := dragonKoutsu + 1;
      }
      i := i + 1;
    }
    var dragonAtama := h.atama.0.Sangenhai?;
    r := dragonKoutsu == 2 && dragonAtama;
  }

  /** The dragon triplets counted are two distinct melds of the hand. */
  lemma {:induction false} ShousangenMelds(h: AgariHand)
    requires Shousangen(h)
    ensures exists i, j :: 0 <= i < j < 4 && DragonMeld(h.mentsu[i]) && DragonMeld(h.mentsu[j])
  {
    DragonTripletsWitness(h.mentsu, 4);
  }

  /** A dragon triplet or quad. */
  predicate DragonMeld(m: Mentsu)
  {
    IsKoutsuOrKantsu(m) && m.tiles[0].Sangenhai?
  }

  lemma {:induction false} DragonTripletsWitness(ms: seq<Mentsu>, n: nat)
    requires n <= |ms| && DragonTriplets(ms, n) >= 2
    ensures exists i, j :: 0 <= i < j < n && DragonMeld(ms[i]) && DragonMeld(ms[j])
  {
    if DragonTriplets(ms, n - 1) >= 2 {
      DragonTripletsWitness(ms, n - 1);
    } else {
      assert DragonMeld(ms[n - 1]);
      DragonTripletsOne(ms, n - 1);
    }
  }

  lemma {:induction false} DragonTripletsOne(ms: seq<Mentsu>, n: nat)
    requires n <= |ms| && DragonTriplets(ms, n) >= 1
    ensures exists i :: 0 <= i < n && DragonMeld(ms[i])
  {
    if DragonTriplets(ms, n - 1) >= 1 {
      DragonTripletsOne(ms, n - 1);
    } else {
      assert DragonMeld(ms[n - 1]);
    }
  }

  /** A group holds a terminal or an honor. */
  predicate HasYaochuu(g: seq<Hai>)
  {
    exists t :: t in g && (IsTerminal(t) || IsJihai(t))
  }

  /** A group holds an honor. */
  predicate HasJihai(g: seq<Hai>)
  {
    exists t :: t in g && IsJihai(t)
  }

  /** Chanta: every group holds a terminal or honor. */
  predicate Chanta(gs: seq<seq<Hai>>)
  {
    forall i :: 0 <= i < |gs| ==> HasYaochuu(gs[i])
  }

  /** Junchan: every group holds a terminal and no group holds an honor. */
  predicate Junchan(gs: seq<seq<Hai>>)
  {
    Chanta(gs) && forall i :: 0 <= i < |gs| ==> !HasJihai(gs[i])
  }

  /** The inner loop of check_chanta_junchan: does the group have a terminal,
      does it have an honor. */
  method ScanGroup(g: seq<Hai>) returns (hasTerminal: bool, hasJihai: bool)
    ensures hasJihai == HasJihai(g)
    ensures (hasTerminal || hasJihai) == HasYaochuu(g)
  {
    hasTerminal := false;
    hasJihai := false;
    var j := 0;
    while j < |g|
      invariant 0 <= j <= |g|
      invariant hasJihai == exists t :: t in g[..j] && IsJihai(t)
      invariant hasTerminal == exists t :: t in g[..j] && IsTerminal(t)
    {
      assert g[..j + 1] == g[..j] + [g[j]];
      if IsJihai(g[j]) {
        hasJihai := true;
      }
      if IsTerminal(g[j]) {
        hasTerminal := true;
      }
      j := j + 1;
    }
    assert g[..j] == g;
  }

  /** check_chanta_junchan: stop at the first group without a terminal or
      honor; any honor rules junchan out. Returns (chanta, junchan). */
  method CheckChantaJunchan(groups: seq<seq<Hai>>) returns (r: (bool, bool))
    ensures r == (Chanta(groups), Junchan(groups))
  {
    var isChanta := true;
    var isJunchan := true;
    var i := 0;
    while i < |groups|
      invariant 0 <= i <= |groups|
      invariant isChanta && forall k :: 0 <= k < i ==> HasYaochuu(groups[k])
      invariant isJunchan == forall k :: 0 <= k < i ==> !HasJihai(groups[k])
    {
      var hasTerminal, hasJihai := ScanGroup(groups[i]);
      if !hasTerminal && !hasJihai {
        isChanta := false;
        isJunchan := false;
        assert !HasYaochuu(groups[i]);
        break;
      }
      if hasJihai {
        isJunchan := false;
      }
      i := i + 1;
    }
    r := (isChanta, isJunchan && isChanta);
  }

  /** Junchan is the stricter of the two. */
  lemma JunchanIsChanta(gs: seq<seq<Hai>>)
    ensures Junchan(gs) ==> Chanta(gs)
    ensures Chanta(gs) && (forall i, t :: 0 <= i < |gs| && t in gs[i] ==> !IsJihai(t)) ==> Junchan(gs)
  {
  }

  /** On a hand's groups (the pair, then the four melds), chanta means: a
      pair tile is a terminal or honor and every meld has one among its
      tiles. */
  lemma ChantaOfHand(h: AgariHand)
    ensures Chanta(AllGroups(h)) <==>
      (IsYaochuu(h.atama.0) || IsYaochuu(h.atama.1)) &&
      forall k :: 0 <= k < 4 ==> HasYaochuu(MeldTiles(h.mentsu[k]))
  {
    AllGroupsShape(h);
    var gs := AllGroups(h);
    assert HasYaochuu(gs[0]) <==> IsYaochuu(h.atama.0) || IsYaochuu(h.atama.1) by {
      assert gs[0] == [h.atama.0, h.atama.1];
      assert h.atama.0 in gs[0] && h.atama.1 in gs[0];
    }
    if Chanta(gs) {
      forall k | 0 <= k < 4 ensures HasYaochuu(MeldTiles(h.mentsu[k])) {
        assert gs[k + 1] == MeldTiles(h.mentsu[k]);
      }
    }
  }
}
