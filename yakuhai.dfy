/** Value-tile triplets (src/implements/yaku_checkers/standard/yakuhai.rs). */
module YakuhaiCheck {
  import opened Tiles
  import opened HandTypes
  import opened GameTypes
  import opened YakuTypes
  import opened YakuUtils
  import opened YakuOrder

  /** The tiles of the hand's triplets and quads (the source's set of
      koutsu tiles). */
  function TripletTiles(h: AgariHand): set<Hai>
  {
    set k | 0 <= k < 4 && IsKoutsuOrKantsu(h.mentsu[k]) :: h.mentsu[k].tiles[0]
  }

  /** The value-tile entries in the order check_yakuhai pushes them. */
  function YakuhaiPattern(): (p: seq<Yaku>)
    ensures |p| == 5 && Increasing(p) && Ord(p[0]) == 8 && Ord(p[4]) == 12
  {
    var p := [YakuhaiHaku, YakuhaiHatsu, YakuhaiChun, YakuhaiBakaze, YakuhaiJikaze];
    assert forall i :: 0 <= i < 5 ==> Ord(p[i]) == 8 + i;
    p
  }

  /** Which of the five value tiles are triplet tiles, in push order: the
      three dragons, the round wind, the seat wind. */
  function YakuhaiFlags(h: AgariHand, player: PlayerContext, game: GameContext): (f: seq<bool>)
    ensures |f| == 5
  {
    var tt := TripletTiles(h);
    [Sangenhai(Haku) in tt, Sangenhai(Hatsu) in tt, Sangenhai(Chun) in tt,
     Kazehai(game.bakaze) in tt, Kazehai(player.jikaze) in tt]
  }

  /** The list check_yakuhai returns. */
  function YakuhaiList(h: AgariHand, player: PlayerContext, game: GameContext): seq<Yaku>
  {
    Pushes(YakuhaiPattern(), YakuhaiFlags(h, player, game), 5)
  }

  /** check_yakuhai: each dragon, then the round wind, then the seat wind.
      The seat wind is pushed by either of two branches (round wind equal or
      not), so a double wind is credited as both entries. */
  method CheckYakuhai(h: AgariHand, player: PlayerContext, game: GameContext) returns (yaku: seq<Yaku>)
    ensures yaku == YakuhaiList(h, player, game)
  {
    var p := YakuhaiPattern();
    var f := YakuhaiFlags(h, player, game);
    var koutsuTiles := TripletTiles(h);
    yaku := [];
    if Sangenhai(Haku) in koutsuTiles {
      yaku := yaku + [YakuhaiHaku];
    }
    assert yaku == Pushes(p, f, 1);
    if Sangenhai(Hatsu) in koutsuTiles {
      yaku := yaku + [YakuhaiHatsu];
    }
    assert yaku == Pushes(p, f, 2);
    if Sangenhai(Chun) in koutsuTiles {
      yaku := yaku + [YakuhaiChun];
    }
    assert yaku == Pushes(p, f, 3);
    var bakazeHai := Kazehai(game.bakaze);
    if bakazeHai in koutsuTiles {
      yaku := yaku + [YakuhaiBakaze];
    }
    assert yaku == Pushes(p, f, 4);
    var jikazeHai := Kazehai(player.jikaze);
    if jikazeHai in koutsuTiles && jikazeHai != bakazeHai {
      yaku := yaku + [YakuhaiJikaze];
    } else if jikazeHai in koutsuTiles && jikazeHai == bakazeHai {
      yaku := yaku + [YakuhaiJikaze];
    }
  }

  /** Each entry appears exactly when its tile is a triplet or quad tile. */
  lemma YakuhaiMembers(h: AgariHand, player: PlayerContext, game: GameContext)
    ensures var ys := YakuhaiList(h, player, game);
      var tt := TripletTiles(h);
      (YakuhaiHaku in ys <==> Sangenhai(Haku) in tt) &&
      (YakuhaiHatsu in ys <==> Sangenhai(Hatsu) in tt) &&
      (YakuhaiChun in ys <==> Sangenhai(Chun) in tt) &&
      (YakuhaiBakaze in ys <==> Kazehai(game.bakaze) in tt) &&
      (YakuhaiJikaze in ys <==> Kazehai(player.jikaze) in tt)
  {
    var p := YakuhaiPattern();
    var f := YakuhaiFlags(h, player, game);
    PushesMember(p, f, 5, 0);
    PushesMember(p, f, 5, 1);
    PushesMember(p, f, 5, 2);
    PushesMember(p, f, 5, 3);
    PushesMember(p, f, 5, 4);
  }

  /** At most one entry per value tile, in push order, and only yakuhai
      entries. */
  lemma YakuhaiShape(h: AgariHand, player: PlayerContext, game: GameContext)
    ensures var ys := YakuhaiList(h, player, game);
      |ys| <= 5 && Increasing(ys) &&
      forall y :: y in ys ==> 8 <= Ord(y) <= 12
  {
    var p := YakuhaiPattern();
    var f := YakuhaiFlags(h, player, game);
    PushesMembers(p, f, 5);
    PushesIncreasing(p, f, 5);
    assert Ord(p[0]) == 8 && Ord(p[4]) == 12;
  }

  /** When both winds are triplets, the round wind and then the seat wind
      close the list. */
  lemma YakuhaiOrder(h: AgariHand, player: PlayerContext, game: GameContext)
    requires Kazehai(game.bakaze) in TripletTiles(h) && Kazehai(player.jikaze) in TripletTiles(h)
    ensures |YakuhaiList(h, player, game)| >= 2
    ensures YakuhaiList(h, player, game)[|YakuhaiList(h, player, game)| - 2..] == [YakuhaiBakaze, YakuhaiJikaze]
  {
    var p := YakuhaiPattern();
    var f := YakuhaiFlags(h, player, game);
    assert Pushes(p, f, 5) == Pushes(p, f, 3) + [YakuhaiBakaze] + [YakuhaiJikaze];
  }

  /** Only triplets and quads count: a hand of four sequences gets nothing,
      whatever its pair. */
  lemma {:induction false} YakuhaiNeedsTriplets(h: AgariHand, player: PlayerContext, game: GameContext)
    requires forall k :: 0 <= k < 4 ==> h.mentsu[k].mentsuType == Shuntsu
    ensures YakuhaiList(h, player, game) == []
  {
    assert TripletTiles(h) == {};
    var p := YakuhaiPattern();
    var f := YakuhaiFlags(h, player, game);
    assert forall i :: 0 <= i < 5 ==> !f[i];
    assert Pushes(p, f, 1) == [];
    assert Pushes(p, f, 2) == [];
    assert Pushes(p, f, 3) == [];
    assert Pushes(p, f, 4) == [];
  }
}
