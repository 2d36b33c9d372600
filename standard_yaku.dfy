/** The yaku of a four-melds-one-pair hand and of a seven-pairs hand
    (src/implements/yaku_checkers/standard/mod.rs). Both lists are grown by
    conditional pushes in a fixed order; the specification functions below
    state that order segment by segment. */
module StandardYaku {
  import opened Tiles
  import opened HandTypes
  import opened GameTypes
  import opened YakuTypes
  import opened YakuUtils
  import opened ColorCheck
  import IttsuCheck
  import PeikouCheck
  import opened PinfuCheck
  import opened SanshokuCheck
  import opened TanyaoCheck
  import TerminalsHonors
  import opened YakuhaiCheck
  import opened YakuOrder

  /** The situational entries, in push order. */
  function SituationPattern(): (p: seq<Yaku>)
    ensures |p| == 8 && Increasing(p) && Ord(p[0]) == 0 && Ord(p[7]) == 7
  {
    var p := [DaburuRiichi, Riichi, Ippatsu, MenzenTsumo, HaiteiRaoyue, HouteiRaoyui, RinshanKaihou, Chankan];
    assert forall i :: 0 <= i < 8 ==> Ord(p[i]) == 0 + i;
    p
  }

  /** The condition of each situational push. Double riichi takes
      precedence over riichi. */
  function SituationFlags(player: PlayerContext, game: GameContext, agariType: AgariType): (f: seq<bool>)
    ensures |f| == 8
  {
    [player.isDaburuRiichi, !player.isDaburuRiichi && player.isRiichi, player.isIppatsu,
     player.isMenzen && agariType == Tsumo, game.isHaitei && agariType == Tsumo,
     game.isHoutei && agariType == Ron, game.isRinshan, game.isChankan]
  }

  /** The meld-shape entries, pinfu through shousangen, in push order. */
  function ShapePattern(): (p: seq<Yaku>)
    ensures |p| == 11 && Increasing(p) && Ord(p[0]) == 13 && Ord(p[10]) == 23
  {
    var p := [Pinfu, Tanyao, Ryanpeikou, Iipeikou, SanshokuDoujun, Ittsu, Toitoi, Sanankou,
              Sankantsu, SanshokuDoukou, Shousangen];
    assert forall i :: 0 <= i < 11 ==> Ord(p[i]) == 13 + i;
    p
  }

  /** The condition of each meld-shape push. The two peikou need a closed
      hand, and two identical-sequence pairs beat one. */
  ghost function ShapeFlags(h: AgariHand, player: PlayerContext, game: GameContext, agariType: AgariType): (f: seq<bool>)
    ensures |f| == 11
  {
    var shuntsu := ShuntsuList(h.mentsu);
    var peikou := PeikouCheck.Peikou(shuntsu);
    var koutsu := TripletCount(h.mentsu, 4);
    var kantsu := QuadCount(h.mentsu, 4);
    [CheckPinfu(h, player, game), CheckTanyao(h),
     player.isMenzen && peikou.1, player.isMenzen && !peikou.1 && peikou.0,
     Sanshoku(shuntsu), IttsuCheck.Ittsu(shuntsu), koutsu + kantsu == 4,
     ConcealedCount(h.mentsu, h.agariHai, agariType, 4) == 3, kantsu == 3,
     Sanshoku(KoutsuList(h.mentsu)), TerminalsHonors.Shousangen(h)]
  }

  /** The terminal and honor entries, in push order. */
  function OutsidePattern(): (p: seq<Yaku>)
    ensures |p| == 3 && Increasing(p) && Ord(p[0]) == 24 && Ord(p[2]) == 26
  {
    var p := [Honroutou, Junchan, Chanta];
    assert forall i :: 0 <= i < 3 ==> Ord(p[i]) == 24 + i;
    p
  }

  predicate AllSimple(ts: seq<Hai>)
  {
    forall t :: t in ts ==> IsSimple(t)
  }

  predicate AllYaochuu(ts: seq<Hai>)
  {
    forall t :: t in ts ==> IsYaochuu(t)
  }

  predicate AllTerminal(ts: seq<Hai>)
  {
    forall t :: t in ts ==> IsTerminal(t)
  }

  /** Every tile a terminal or honor, but not every tile a terminal (that
      hand is the Chinroutou yakuman). */
  predicate IsHonroutou(ts: seq<Hai>)
  {
    AllYaochuu(ts) && !AllTerminal(ts)
  }

  /** Honroutou, else junchan, else chanta. */
  function OutsideFlags(h: AgariHand): (f: seq<bool>)
    ensures |f| == 3
  {
    var honroutou := IsHonroutou(AllTiles(h));
    var junchan := TerminalsHonors.Junchan(AllGroups(h));
    [honroutou, !honroutou && junchan, !honroutou && !junchan && TerminalsHonors.Chanta(AllGroups(h))]
  }

  /** The flush entries, in push order. */
  function ColorPattern(): (p: seq<Yaku>)
    ensures |p| == 2 && Increasing(p) && Ord(p[0]) == 27 && Ord(p[1]) == 28
  {
    var p := [Chinitsu, Honitsu];
    assert forall i :: 0 <= i < 2 ==> Ord(p[i]) == 27 + i;
    p
  }

  /** Chinitsu, else honitsu. */
  function ColorFlags(ts: seq<Hai>): (f: seq<bool>)
    ensures |f| == 2
  {
    [CheckChinitsu(ts).0, !CheckChinitsu(ts).0 && CheckHonitsu(ts).0]
  }

  /** Every entry find_standard_yaku can push, in push order: entry k is
      the one whose push order is k. */
  function StandardPattern(): (p: seq<Yaku>)
    ensures |p| == 29 && Increasing(p) && Ord(p[0]) == 0 && Ord(p[28]) == 28
  {
    var a := SituationPattern();
    var b := YakuhaiPattern();
    var c := ShapePattern();
    var d := OutsidePattern();
    var e := ColorPattern();
    IncreasingAppend(a, b);
    IncreasingAppend(a + b, c);
    IncreasingAppend(a + b + c, d);
    IncreasingAppend(a + b + c + d, e);
    a + b + c + d + e
  }

  /** The condition of every push of find_standard_yaku. */
  ghost function StandardFlags(h: AgariHand, player: PlayerContext, game: GameContext, agariType: AgariType): (f: seq<bool>)
    ensures |f| == 29
  {
    SituationFlags(player, game, agariType) + YakuhaiFlags(h, player, game) +
    ShapeFlags(h, player, game, agariType) + OutsideFlags(h) + ColorFlags(AllTiles(h))
  }

  /** find_standard_yaku as a statement: each entry pushed, in order, when
      its condition holds. */
  ghost function StandardYakuList(h: AgariHand, player: PlayerContext, game: GameContext, agariType: AgariType): seq<Yaku>
  {
    Pushes(StandardPattern(), StandardFlags(h, player, game, agariType), 29)
  }

  /** The list is the five segments one after the other. */
  lemma StandardSegments(h: AgariHand, player: PlayerContext, game: GameContext, agariType: AgariType)
    ensures StandardYakuList(h, player, game, agariType) ==
      Pushes(SituationPattern(), SituationFlags(player, game, agariType), 8) +
      YakuhaiList(h, player, game) +
      Pushes(ShapePattern(), ShapeFlags(h, player, game, agariType), 11) +
      Pushes(OutsidePattern(), OutsideFlags(h), 3) +
      Pushes(ColorPattern(), ColorFlags(AllTiles(h)), 2)
  {
    var a, fa := SituationPattern(), SituationFlags(player, game, agariType);
    var b, fb := YakuhaiPattern(), YakuhaiFlags(h, player, game);
    var c, fc := ShapePattern(), ShapeFlags(h, player, game, agariType);
    var d, fd := OutsidePattern(), OutsideFlags(h);
    var e, fe := ColorPattern(), ColorFlags(AllTiles(h));
    PushesAppend5(a, fa, b, fb, c, fc, d, fd, e, fe);
    assert |a + b + c + d + e| == 29;
  }

  /** The situational entries as the flags' pushes one by one. */
  function SituationYaku(player: PlayerContext, game: GameContext, agariType: AgariType): seq<Yaku>
  {
    Opt(player.isDaburuRiichi, DaburuRiichi) + Opt(!player.isDaburuRiichi && player.isRiichi, Riichi) +
    Opt(player.isIppatsu, Ippatsu) + Opt(player.isMenzen && agariType == Tsumo, MenzenTsumo) +
    Opt(game.isHaitei && agariType == Tsumo, HaiteiRaoyue) +
    Opt(game.isHoutei && agariType == Ron, HouteiRaoyui) +
    Opt(game.isRinshan, RinshanKaihou) + Opt(game.isChankan, Chankan)
  }

  lemma SituationPushes(player: PlayerContext, game: GameContext, agariType: AgariType)
    ensures SituationYaku(player, game, agariType) ==
      Pushes(SituationPattern(), SituationFlags(player, game, agariType), 8)
  {
    Unroll8(SituationPattern(), SituationFlags(player, game, agariType));
  }

  /** The situational part of find_standard_yaku: riichi through chankan.
      Double riichi is pushed in place of riichi. */
  method FindSituationYaku(player: PlayerContext, game: GameContext, agariType: AgariType)
    returns (yakuList: seq<Yaku>)
    ensures yakuList == Pushes(SituationPattern(), SituationFlags(player, game, agariType), 8)
  {
    var daburu, riichi := false, false;
    if player.isDaburuRiichi {
      daburu := true;
    } else if player.isRiichi {
      riichi := true;
    }
    yakuList := Opt(daburu, DaburuRiichi);
    yakuList := yakuList + Opt(riichi, Riichi);
    yakuList := yakuList + Opt(player.isIppatsu, Ippatsu);
    yakuList := yakuList + Opt(player.isMenzen && agariType == Tsumo, MenzenTsumo);
    yakuList := yakuList + Opt(game.isHaitei && agariType == Tsumo, HaiteiRaoyue);
    yakuList := yakuList + Opt(game.isHoutei && agariType == Ron, HouteiRaoyui);
    yakuList := yakuList + Opt(game.isRinshan, RinshanKaihou);
    yakuList := yakuList + Opt(game.isChankan, Chankan);
    SituationPushes(player, game, agariType);
  }

  /** The meld-shape entries as the checkers' answers pushed one by one. */
  ghost function ShapeYaku(h: AgariHand, player: PlayerContext, game: GameContext, agariType: AgariType): seq<Yaku>
  {
    var shuntsu := ShuntsuList(h.mentsu);
    var peikou := PeikouCheck.Peikou(shuntsu);
    var koutsu := TripletCount(h.mentsu, 4);
    var kantsu := QuadCount(h.mentsu, 4);
    Opt(CheckPinfu(h, player, game), Pinfu) + Opt(CheckTanyao(h), Tanyao) +
    Opt(player.isMenzen && peikou.1, Ryanpeikou) + Opt(player.isMenzen && !peikou.1 && peikou.0, Iipeikou) +
    Opt(Sanshoku(shuntsu), SanshokuDoujun) + Opt(IttsuCheck.Ittsu(shuntsu), Ittsu) +
    Opt(koutsu + kantsu == 4, Toitoi) +
    Opt(ConcealedCount(h.mentsu, h.agariHai, agariType, 4) == 3, Sanankou) +
    Opt(kantsu == 3, Sankantsu) + Opt(Sanshoku(KoutsuList(h.mentsu)), SanshokuDoukou) +
    Opt(TerminalsHonors.Shousangen(h), Shousangen)
  }

  lemma ShapePushes(h: AgariHand, player: PlayerContext, game: GameContext, agariType: AgariType)
    ensures ShapeYaku(h, player, game, agariType) == Pushes(ShapePattern(), ShapeFlags(h, player, game, agariType), 11)
  {
    Unroll11(ShapePattern(), ShapeFlags(h, player, game, agariType));
  }

  /** The meld-shape segment assembled from the checkers' answers. */
  lemma ShapeAssembly(h: AgariHand, player: PlayerContext, game: GameContext, agariType: AgariType,
                      ryanpeikou: bool, iipeikou: bool, doujun: bool, ittsu: bool, koutsu: nat, kantsu: nat,
                      concealed: nat, doukou: bool, shousangen: bool)
    requires var ip := PeikouCheck.Peikou(ShuntsuList(h.mentsu));
      ryanpeikou == (player.isMenzen && ip.1) && iipeikou == (player.isMenzen && !ip.1 && ip.0)
    requires doujun == Sanshoku(ShuntsuList(h.mentsu)) && ittsu == IttsuCheck.Ittsu(ShuntsuList(h.mentsu))
    requires koutsu == TripletCount(h.mentsu, 4) && kantsu == QuadCount(h.mentsu, 4)
    requires concealed == ConcealedCount(h.mentsu, h.agariHai, agariType, 4)
    requires doukou == Sanshoku(KoutsuList(h.mentsu)) && shousangen == TerminalsHonors.Shousangen(h)
    ensures Opt(CheckPinfu(h, player, game), Pinfu) + Opt(CheckTanyao(h), Tanyao) +
      Opt(ryanpeikou, Ryanpeikou) + Opt(iipeikou, Iipeikou) +
      Opt(doujun, SanshokuDoujun) + Opt(ittsu, Ittsu) + Opt(koutsu + kantsu == 4, Toitoi) +
      Opt(concealed == 3, Sanankou) + Opt(kantsu == 3, Sankantsu) + Opt(doukou, SanshokuDoukou) +
      Opt(shousangen, Shousangen) == Pushes(ShapePattern(), ShapeFlags(h, player, game, agariType), 11)
  {
    ShapePushes(h, player, game, agariType);
  }

  /** The meld-shape part of find_standard_yaku, pinfu through
      shousangen. */
  method FindShapeYaku(h: AgariHand, player: PlayerContext, game: GameContext, agariType: AgariType)
    returns (shape: seq<Yaku>)
    ensures shape == Pushes(ShapePattern(), ShapeFlags(h, player, game, agariType), 11)
  {
    shape := Opt(CheckPinfu(h, player, game), Pinfu);
    shape := shape + Opt(CheckTanyao(h), Tanyao);
    var shuntsu := ShuntsuList(h.mentsu);
    var ryanpeikou, iipeikou := false, false;
    if player.isMenzen {
      var ip := PeikouCheck.CheckPeikou(shuntsu);
      ryanpeikou := ip.1;
      iipeikou := !ip.1 && ip.0;
    }
    shape := shape + Opt(ryanpeikou, Ryanpeikou);
    shape := shape + Opt(iipeikou, Iipeikou);
    var doujun := CheckSanshokuDoujun(shuntsu);
    shape := shape + Opt(doujun, SanshokuDoujun);
    var ittsu := IttsuCheck.CheckIttsu(shuntsu);
    shape := shape + Opt(ittsu, Ittsu);
    var koutsu, kantsu := CountKoutsuKantsu(h);
    shape := shape + Opt(koutsu + kantsu == 4, Toitoi);
    var concealed := CountConcealedKoutsu(h, agariType);
    shape := shape + Opt(concealed == 3, Sanankou);
    shape := shape + Opt(kantsu == 3, Sankantsu);
    var doukou := CheckSanshokuDoukou(h);
    shape := shape + Opt(doukou, SanshokuDoukou);
    var shousangen := TerminalsHonors.CheckShousangen(h);
    shape := shape + Opt(shousangen, Shousangen);
    ShapeAssembly(h, player, game, agariType, ryanpeikou, iipeikou, doujun, ittsu, koutsu, kantsu, concealed, doukou, shousangen);
  }

  /** The terminal and honor part of find_standard_yaku: honroutou, else
      junchan, else chanta; chanta and junchan are only looked for when the
      hand is not honroutou. */
  method FindOutsideYaku(h: AgariHand) returns (outside: seq<Yaku>)
    ensures outside == Pushes(OutsidePattern(), OutsideFlags(h), 3)
  {
    ghost var p, f := OutsidePattern(), OutsideFlags(h);
    var allTiles := GetAllTiles(h);
    var allGroups := GetAllGroups(h);
    var isHonroutou := AllYaochuu(allTiles) && !AllTerminal(allTiles);
    outside := [];
    if isHonroutou {
      outside := outside + [Honroutou];
    } else {
      var cj := TerminalsHonors.CheckChantaJunchan(allGroups);
      if cj.1 {
        outside := outside + [Junchan];
      } else if cj.0 {
        outside := outside + [Chanta];
      }
    }
    assert Pushes(p, f, 1) == if isHonroutou then [Honroutou] else [];
  }

  /** The flush part: chinitsu, else honitsu, the latter only looked for
      when the hand is not chinitsu. */
  method FindColorYaku(allTiles: seq<Hai>) returns (color: seq<Yaku>)
    ensures color == Pushes(ColorPattern(), ColorFlags(allTiles), 2)
  {
    ghost var p, f := ColorPattern(), ColorFlags(allTiles);
    color := [];
    var chinitsu := CheckChinitsu(allTiles);
    if chinitsu.0 {
      color := color + [Chinitsu];
    } else {
      var honitsu := CheckHonitsu(allTiles);
      if honitsu.0 {
        color := color + [Honitsu];
      }
    }
    assert Pushes(p, f, 1) == if chinitsu.0 then [Chinitsu] else [];
  }

  /** find_standard_yaku: the situational entries, the yakuhai, the
      meld-shape entries, the terminal entries and the flushes. */
  method FindStandardYaku(h: AgariHand, player: PlayerContext, game: GameContext, agariType: AgariType)
    returns (yakuList: seq<Yaku>)
    ensures yakuList == StandardYakuList(h, player, game, agariType)
  {
    yakuList := FindSituationYaku(player, game, agariType);
    var yakuhai := CheckYakuhai(h, player, game);
    yakuList := yakuList + yakuhai;
    var shape := FindShapeYaku(h, player, game, agariType);
    yakuList := yakuList + shape;
    var outside := FindOutsideYaku(h);
    yakuList := yakuList + outside;
    var allTiles := GetAllTiles(h);
    var color := FindColorYaku(allTiles);
    yakuList := yakuList + color;
    StandardSegments(h, player, game, agariType);
  }

  /** Entry k of the push order is in the list exactly when its condition
      holds. */
  lemma StandardMember(h: AgariHand, player: PlayerContext, game: GameContext, agariType: AgariType, k: nat)
    requires k < 29
    ensures StandardPattern()[k] in StandardYakuList(h, player, game, agariType) <==>
      StandardFlags(h, player, game, agariType)[k]
  {
    PushesMember(StandardPattern(), StandardFlags(h, player, game, agariType), 29, k);
  }

  /** The list holds each entry at most once, in push order, and nothing
      outside the push order: no yakuman, no chiitoitsu, no dora. */
  lemma StandardOrder(h: AgariHand, player: PlayerContext, game: GameContext, agariType: AgariType)
    ensures var ys := StandardYakuList(h, player, game, agariType);
      |ys| <= 29 && Increasing(ys) && forall y :: y in ys ==> Ord(y) < 29
  {
    var p, f := StandardPattern(), StandardFlags(h, player, game, agariType);
    PushesMembers(p, f, 29);
    PushesIncreasing(p, f, 29);
  }

  /** The riichi, tsumo and last-tile entries: double riichi replaces riichi,
      menzen tsumo needs a closed hand won by tsumo, haitei and houtei follow
      the way of winning. */
  lemma SituationEntries(h: AgariHand, player: PlayerContext, game: GameContext, agariType: AgariType)
    ensures var ys := StandardYakuList(h, player, game, agariType);
      && (DaburuRiichi in ys <==> player.isDaburuRiichi)
      && (Riichi in ys <==> !player.isDaburuRiichi && player.isRiichi)
      && (MenzenTsumo in ys <==> player.isMenzen && agariType == Tsumo)
      && (HaiteiRaoyue in ys <==> game.isHaitei && agariType == Tsumo)
      && (HouteiRaoyui in ys <==> game.isHoutei && agariType == Ron)
      && !(DaburuRiichi in ys && Riichi in ys) && !(HaiteiRaoyue in ys && HouteiRaoyui in ys)
  {
    StandardMember(h, player, game, agariType, 0);
    StandardMember(h, player, game, agariType, 1);
    StandardMember(h, player, game, agariType, 3);
    StandardMember(h, player, game, agariType, 4);
    StandardMember(h, player, game, agariType, 5);
  }

  /** Pinfu and the two peikou as their checkers decide, the latter only for
      a closed hand and never together. */
  lemma SequenceEntries(h: AgariHand, player: PlayerContext, game: GameContext, agariType: AgariType)
    ensures var ys := StandardYakuList(h, player, game, agariType);
      var peikou := PeikouCheck.Peikou(ShuntsuList(h.mentsu));
      && (Pinfu in ys <==> CheckPinfu(h, player, game))
      && (Ryanpeikou in ys <==> player.isMenzen && peikou.1)
      && (Iipeikou in ys <==> player.isMenzen && peikou.0 && !peikou.1)
      && !(Ryanpeikou in ys && Iipeikou in ys)
  {
    StandardMember(h, player, game, agariType, 13);
    StandardMember(h, player, game, agariType, 15);
    StandardMember(h, player, game, agariType, 16);
  }

  /** The triplet entries as the meld counts decide. */
  lemma TripletEntries(h: AgariHand, player: PlayerContext, game: GameContext, agariType: AgariType)
    ensures var ys := StandardYakuList(h, player, game, agariType);
      && (Toitoi in ys <==> TripletCount(h.mentsu, 4) + QuadCount(h.mentsu, 4) == 4)
      && (Sanankou in ys <==> ConcealedCount(h.mentsu, h.agariHai, agariType, 4) == 3)
      && (Sankantsu in ys <==> QuadCount(h.mentsu, 4) == 3)
      && (SanshokuDoukou in ys <==> Sanshoku(KoutsuList(h.mentsu)))
      && (Shousangen in ys <==> TerminalsHonors.Shousangen(h))
  {
    StandardMember(h, player, game, agariType, 19);
    StandardMember(h, player, game, agariType, 20);
    StandardMember(h, player, game, agariType, 21);
    StandardMember(h, player, game, agariType, 22);
    StandardMember(h, player, game, agariType, 23);
  }

  /** At most one of honroutou, junchan and chanta, and at most one flush;
      honroutou wins over the other two and junchan over chanta. */
  lemma OutsideEntries(h: AgariHand, player: PlayerContext, game: GameContext, agariType: AgariType)
    ensures var ys := StandardYakuList(h, player, game, agariType);
      && (Honroutou in ys <==> IsHonroutou(AllTiles(h)))
      && (Junchan in ys <==> !IsHonroutou(AllTiles(h)) && TerminalsHonors.Junchan(AllGroups(h)))
      && (Chanta in ys ==> Honroutou !in ys && Junchan !in ys)
      && (Chinitsu in ys <==> CheckChinitsu(AllTiles(h)).0)
      && (Honitsu in ys ==> Chinitsu !in ys && CheckHonitsu(AllTiles(h)).0)
  {
    StandardMember(h, player, game, agariType, 24);
    StandardMember(h, player, game, agariType, 25);
    StandardMember(h, player, game, agariType, 26);
    StandardMember(h, player, game, agariType, 27);
    StandardMember(h, player, game, agariType, 28);
  }

  /** An open hand gets none of the closed-hand entries. */
  lemma OpenHandEntries(h: AgariHand, player: PlayerContext, game: GameContext, agariType: AgariType)
    requires !player.isMenzen
    ensures var ys := StandardYakuList(h, player, game, agariType);
      MenzenTsumo !in ys && Pinfu !in ys && Ryanpeikou !in ys && Iipeikou !in ys
  {
    StandardMember(h, player, game, agariType, 3);
    SequenceEntries(h, player, game, agariType);
  }

  /** A pinfu hand has only sequences, so no entry that needs a triplet or a
      quad: no yakuhai, toitoi, sanankou, sankantsu, sanshoku doukou or
      shousangen. */
  lemma PinfuExcludesTriplets(h: AgariHand, player: PlayerContext, game: GameContext, agariType: AgariType)
    requires Pinfu in StandardYakuList(h, player, game, agariType)
    ensures var ys := StandardYakuList(h, player, game, agariType);
      && Toitoi !in ys && Sanankou !in ys && Sankantsu !in ys && SanshokuDoukou !in ys && Shousangen !in ys
      && YakuhaiList(h, player, game) == []
  {
    SequenceEntries(h, player, game, agariType);
    PinfuNoTriplets(h, player, game);
    ConcealedCountBound(h.mentsu, h.agariHai, agariType, 4);
    HonorTripletsBound(h.mentsu, 4);
    TripletEntries(h, player, game, agariType);
    KoutsuListOfSequences(h.mentsu);
    YakuhaiNeedsTriplets(h, player, game);
  }

  // ---------------------------------------------------------------------
  // Seven pairs
  // ---------------------------------------------------------------------

  /** The entries find_chiitoitsu_yaku can push after chiitoitsu itself and
      before the flushes, in push order. */
  function ChiitoitsuPattern(): (p: seq<Yaku>)
    ensures |p| == 8 && Increasing(p) && Ord(p[0]) == 0 && Ord(p[7]) == 24
  {
    var p := [DaburuRiichi, Riichi, Ippatsu, MenzenTsumo, HaiteiRaoyue, HouteiRaoyui, Tanyao, Honroutou];
    assert forall i :: 0 <= i < 6 ==> Ord(p[i]) == i;
    assert Ord(p[6]) == 14 && Ord(p[7]) == 24;
    p
  }

  /** The condition of each of those pushes. Menzen tsumo needs only a tsumo
      win, and honroutou only terminal and honor tiles. */
  function ChiitoitsuFlags(pairs: seq<(Hai, Hai)>, player: PlayerContext, game: GameContext, agariType: AgariType)
    : (f: seq<bool>)
    ensures |f| == 8
  {
    var tiles := PairTiles(pairs);
    [player.isDaburuRiichi, !player.isDaburuRiichi && player.isRiichi, player.isIppatsu,
     agariType == Tsumo, game.isHaitei && agariType == Tsumo, game.isHoutei && agariType == Ron,
     AllSimple(tiles), AllYaochuu(tiles)]
  }

  /** find_chiitoitsu_yaku as a statement: chiitoitsu, the pushes above, then
      chinitsu or honitsu on the fourteen tiles. */
  function ChiitoitsuYakuList(pairs: Pairs7, player: PlayerContext, game: GameContext, agariType: AgariType)
    : seq<Yaku>
  {
    [Yaku.Chiitoitsu] + Pushes(ChiitoitsuPattern(), ChiitoitsuFlags(pairs, player, game, agariType), 8) +
    Pushes(ColorPattern(), ColorFlags(PairTiles(pairs)), 2)
  }

  /** The first nine pushes of find_chiitoitsu_yaku one by one. */
  lemma ChiitoitsuPushes(pairs: Pairs7, player: PlayerContext, game: GameContext, agariType: AgariType)
    ensures var tiles := PairTiles(pairs);
      [Yaku.Chiitoitsu] + Opt(player.isDaburuRiichi, DaburuRiichi) +
      Opt(!player.isDaburuRiichi && player.isRiichi, Riichi) + Opt(player.isIppatsu, Ippatsu) +
      Opt(agariType == Tsumo, MenzenTsumo) + Opt(game.isHaitei && agariType == Tsumo, HaiteiRaoyue) +
      Opt(game.isHoutei && agariType == Ron, HouteiRaoyui) + Opt(AllSimple(tiles), Tanyao) +
      Opt(AllYaochuu(tiles), Honroutou) ==
      [Yaku.Chiitoitsu] + Pushes(ChiitoitsuPattern(), ChiitoitsuFlags(pairs, player, game, agariType), 8)
  {
    var p, f := ChiitoitsuPattern(), ChiitoitsuFlags(pairs, player, game, agariType);
    Unroll9([Yaku.Chiitoitsu] + p, [true] + f);
    PushesHead(Yaku.Chiitoitsu, p, f, 8);
  }

  /** find_chiitoitsu_yaku: the yaku of a seven-pairs hand. The winning tile
      and the wait are not consulted. */
  method FindChiitoitsuYaku(pairs: Pairs7, agariHai: Hai, machi: Machi, player: PlayerContext,
                            game: GameContext, agariType: AgariType)
    returns (yakuList: seq<Yaku>)
    ensures yakuList == ChiitoitsuYakuList(pairs, player, game, agariType)
  {
    yakuList := [Yaku.Chiitoitsu];
    var daburu, riichi := false, false;
    if player.isDaburuRiichi {
      daburu := true;
    } else if player.isRiichi {
      riichi := true;
    }
    yakuList := yakuList + Opt(daburu, DaburuRiichi);
    yakuList := yakuList + Opt(riichi, Riichi);
    yakuList := yakuList + Opt(player.isIppatsu, Ippatsu);
    yakuList := yakuList + Opt(agariType == Tsumo, MenzenTsumo);
    yakuList := yakuList + Opt(game.isHaitei && agariType == Tsumo, HaiteiRaoyue);
    yakuList := yakuList + Opt(game.isHoutei && agariType == Ron, HouteiRaoyui);
    var allTiles := PairTiles(pairs);
    yakuList := yakuList + Opt(AllSimple(allTiles), Tanyao);
    yakuList := yakuList + Opt(AllYaochuu(allTiles), Honroutou);
    ChiitoitsuPushes(pairs, player, game, agariType);
    var color := FindColorYaku(allTiles);
    yakuList := yakuList + color;
  }

  /** Entry k of the seven-pairs pattern is in the list exactly when its
      condition holds. */
  lemma ChiitoitsuMember(pairs: Pairs7, player: PlayerContext, game: GameContext, agariType: AgariType, k: nat)
    requires k < 8
    ensures ChiitoitsuPattern()[k] in ChiitoitsuYakuList(pairs, player, game, agariType) <==>
      ChiitoitsuFlags(pairs, player, game, agariType)[k]
  {
    var p, f := ChiitoitsuPattern(), ChiitoitsuFlags(pairs, player, game, agariType);
    var cp, cf := ColorPattern(), ColorFlags(PairTiles(pairs));
    PushesMember(p, f, 8, k);
    PushesIncreasing(cp, cf, 2);
    assert Ord(p[k]) <= 24 by {
      assert Ord(p[k]) <= Ord(p[7]);
    }
  }

  /** The list is chiitoitsu followed by two runs of pushes. */
  lemma ChiitoitsuTail(pairs: Pairs7, player: PlayerContext, game: GameContext, agariType: AgariType)
    ensures var ys := ChiitoitsuYakuList(pairs, player, game, agariType);
      var p, f := ChiitoitsuPattern(), ChiitoitsuFlags(pairs, player, game, agariType);
      var cp, cf := ColorPattern(), ColorFlags(PairTiles(pairs));
      && |ys| <= 11 && ys[0] == Yaku.Chiitoitsu && ys[1..] == Pushes(p, f, 8) + Pushes(cp, cf, 2)
  {
    var p, f := ChiitoitsuPattern(), ChiitoitsuFlags(pairs, player, game, agariType);
    var cp, cf := ColorPattern(), ColorFlags(PairTiles(pairs));
    PushesLength(p, f, 8);
    PushesLength(cp, cf, 2);
  }

  /** The list opens with chiitoitsu and then holds each entry at most once,
      in push order. */
  lemma ChiitoitsuOrder(pairs: Pairs7, player: PlayerContext, game: GameContext, agariType: AgariType)
    ensures var ys := ChiitoitsuYakuList(pairs, player, game, agariType);
      |ys| <= 11 && ys[0] == Yaku.Chiitoitsu && Increasing(ys[1..])
  {
    var p, f := ChiitoitsuPattern(), ChiitoitsuFlags(pairs, player, game, agariType);
    var cp, cf := ColorPattern(), ColorFlags(PairTiles(pairs));
    ChiitoitsuTail(pairs, player, game, agariType);
    PushesIncreasing(p, f, 8);
    PushesIncreasing(cp, cf, 2);
    IncreasingJoin(Pushes(p, f, 8), Pushes(cp, cf, 2));
  }

  /** Every entry is chiitoitsu, one of the pushes above or a flush: seven
      pairs never score a meld-shape, dead-wall or outside-hand entry. */
  lemma ChiitoitsuRange(pairs: Pairs7, player: PlayerContext, game: GameContext, agariType: AgariType)
    ensures forall y :: y in ChiitoitsuYakuList(pairs, player, game, agariType) ==>
      y in {Yaku.Chiitoitsu, DaburuRiichi, Riichi, Ippatsu, MenzenTsumo, HaiteiRaoyue, HouteiRaoyui,
            Tanyao, Honroutou, Chinitsu, Honitsu}
  {
    var p, f := ChiitoitsuPattern(), ChiitoitsuFlags(pairs, player, game, agariType);
    var cp, cf := ColorPattern(), ColorFlags(PairTiles(pairs));
    ChiitoitsuTail(pairs, player, game, agariType);
    PushesWithin(p, f, 8);
    PushesWithin(cp, cf, 2);
    assert p[..8] == p && cp[..2] == cp;
    var ys := ChiitoitsuYakuList(pairs, player, game, agariType);
    forall y | y in ys
      ensures y in {Yaku.Chiitoitsu, DaburuRiichi, Riichi, Ippatsu, MenzenTsumo, HaiteiRaoyue, HouteiRaoyui,
                    Tanyao, Honroutou, Chinitsu, Honitsu}
    {
      if y != ys[0] {
        assert y in Pushes(p, f, 8) + Pushes(cp, cf, 2) by {
          var k :| 0 <= k < |ys| && ys[k] == y;
          assert ys[1..][k - 1] == y;
        }
      }
    }
  }

  /** Seven pairs never score pinfu, the peikou, the triplet entries, the
      dead-wall entries or the outside hands. */
  lemma ChiitoitsuAbsent(pairs: Pairs7, player: PlayerContext, game: GameContext, agariType: AgariType)
    ensures var ys := ChiitoitsuYakuList(pairs, player, game, agariType);
      && Pinfu !in ys && Iipeikou !in ys && Ryanpeikou !in ys && Toitoi !in ys && Sanankou !in ys
      && RinshanKaihou !in ys && Chankan !in ys && Chanta !in ys && Junchan !in ys
  {
    ChiitoitsuRange(pairs, player, game, agariType);
  }

  /** The seven-pairs entries as their conditions decide: menzen tsumo on
      every tsumo win, tanyao and honroutou never together, at most one
      flush. */
  lemma ChiitoitsuEntries(pairs: Pairs7, player: PlayerContext, game: GameContext, agariType: AgariType)
    ensures var ys := ChiitoitsuYakuList(pairs, player, game, agariType);
      var tiles := PairTiles(pairs);
      && (DaburuRiichi in ys <==> player.isDaburuRiichi)
      && (Riichi in ys <==> !player.isDaburuRiichi && player.isRiichi)
      && (MenzenTsumo in ys <==> agariType == Tsumo)
      && (Tanyao in ys <==> AllSimple(tiles))
      && (Honroutou in ys <==> AllYaochuu(tiles))
      && !(Tanyao in ys && Honroutou in ys)
  {
    ChiitoitsuMember(pairs, player, game, agariType, 0);
    ChiitoitsuMember(pairs, player, game, agariType, 1);
    ChiitoitsuMember(pairs, player, game, agariType, 3);
    ChiitoitsuMember(pairs, player, game, agariType, 6);
    ChiitoitsuMember(pairs, player, game, agariType, 7);
    var tiles := PairTiles(pairs);
    assert tiles[0] in tiles;
  }

  /** At most one flush on seven pairs. */
  lemma ChiitoitsuColor(pairs: Pairs7, player: PlayerContext, game: GameContext, agariType: AgariType)
    ensures var ys := ChiitoitsuYakuList(pairs, player, game, agariType);
      var tiles := PairTiles(pairs);
      && (Chinitsu in ys <==> CheckChinitsu(tiles).0)
      && (Honitsu in ys <==> !CheckChinitsu(tiles).0 && CheckHonitsu(tiles).0)
  {
    var p, f := ChiitoitsuPattern(), ChiitoitsuFlags(pairs, player, game, agariType);
    var cp, cf := ColorPattern(), ColorFlags(PairTiles(pairs));
    PushesMember(cp, cf, 2, 0);
    PushesMember(cp, cf, 2, 1);
    PushesIncreasing(p, f, 8);
    assert Ord(p[7]) == 24;
  }
}
