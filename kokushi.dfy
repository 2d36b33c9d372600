/** Thirteen orphans (src/implements/yaku_checkers/yakuman/kokushi.rs):
    each of the thirteen terminal and honor kinds once, one of them twice. */
module KokushiCheck {
  import opened Tiles
  import opened HandTypes
  import opened Wrappers
  import opened YakuTypes

  /** State of the scan after a prefix of the 34 slots: the kinds found so
      far, in index order, and the pair kind once one is seen. */
  datatype Scan = Scan(tiles: seq<Hai>, pair: Option<Hai>)

  /** The scan of check_kokushi over the first n slots; None as soon as it
      gives up (a simple present, a yaochuu slot above 2, a second pair). */
  function KokushiScan(c: Counts, n: nat): Option<Scan>
    requires n <= TILE_COUNT
  {
    if n == 0 then Some(Scan([], None))
    else match KokushiScan(c, n - 1)
      case None => None
      case Some(st) => ScanSlot(c, n - 1, st)
  }

  /** One slot of the scan. */
  function ScanSlot(c: Counts, i: nat, st: Scan): Option<Scan>
    requires i < TILE_COUNT
  {
    var t := IndexToTile(i);
    var count := c[i];
    if !IsYaochuu(t) then (if count > 0 then None else Some(st))
    else if count == 1 then Some(st.(tiles := st.tiles + [t]))
    else if count == 2 then (if st.pair.Some? then None else Some(Scan(st.tiles + [t], Some(t))))
    else if count == 0 then Some(st)
    else None
  }

  /** check_kokushi: the structure and its yaku (thirteen-sided exactly when
      the pair is the winning tile), or None. */
  function KokushiResult(c: Counts, agariHai: Hai): Option<(HandStructure, Yaku)>
  {
    match KokushiScan(c, TILE_COUNT)
    case None => None
    case Some(st) =>
      if st.pair.None? || c[TileToIndex(agariHai)] == 0 || |st.tiles| != 13 then None
      else
        var p := st.pair.value;
        var jusanmen := p == agariHai;
        var machi := if jusanmen then KokushiJusanmen else KokushiIchimen;
        var yaku := if jusanmen then KokushiMusouJusanmen else Yaku.KokushiMusou;
        var tiles: Tiles13 := st.tiles;
        Some((HandStructure.KokushiMusou(tiles, (p, p), agariHai, machi), yaku))
  }

  /** Slot i is acceptable: a yaochuu kind held at most twice, or a simple
      not held at all. */
  predicate SlotOk(c: Counts, i: nat)
    requires i < TILE_COUNT
  {
    if YaochuuSlot(i) then c[i] <= 2 else c[i] == 0
  }

  /** Slots below n holding two copies. */
  function PairSlots(c: Counts, n: nat): nat
    requires n <= TILE_COUNT
  {
    if n == 0 then 0 else PairSlots(c, n - 1) + (if c[n - 1] == 2 then 1 else 0)
  }

  /** Yaochuu slots below n holding at least one copy. */
  function PresentSlots(c: Counts, n: nat): nat
    requires n <= TILE_COUNT
  {
    if n == 0 then 0
    else PresentSlots(c, n - 1) + (if YaochuuSlot(n - 1) && c[n - 1] > 0 then 1 else 0)
  }

  /** Index i names a terminal or honor kind: rank 1 or 9 of a suit's block
      of nine, or any index from the winds on. */
  predicate YaochuuSlot(i: nat)
  {
    i == 0 || i == 8 || i == 9 || i == 17 || i == 18 || i == 26 || i >= SUHAI_TILES_COUNT
  }

  lemma YaochuuSlotTile(i: nat)
    requires i < TILE_COUNT
    ensures YaochuuSlot(i) == IsYaochuu(IndexToTile(i))
  {
  }

  /** Yaochuu kinds among the first n indices. */
  function YaochuuSlots(n: nat): nat
    requires n <= TILE_COUNT
  {
    if n == 0 then 0 else YaochuuSlots(n - 1) + (if YaochuuSlot(n - 1) then 1 else 0)
  }

  /** What the scan keeps after n slots, stated without the scan. */
  ghost predicate ScanState(c: Counts, n: nat, st: Scan)
    requires n <= TILE_COUNT
  {
    && |st.tiles| == PresentSlots(c, n)
    && (forall k :: 0 <= k < |st.tiles| ==>
          IsYaochuu(st.tiles[k]) && TileToIndex(st.tiles[k]) < n && c[TileToIndex(st.tiles[k])] > 0)
    && (forall k, l :: 0 <= k < l < |st.tiles| ==> TileToIndex(st.tiles[k]) < TileToIndex(st.tiles[l]))
    && (st.pair.Some? <==> PairSlots(c, n) == 1)
    && (st.pair.Some? ==> TileToIndex(st.pair.value) < n && c[TileToIndex(st.pair.value)] == 2)
  }

  /** The scan gets through n slots exactly when each is acceptable and at
      most one holds a pair; it then keeps the state above. */
  lemma {:induction false} KokushiScanSpec(c: Counts, n: nat)
    requires n <= TILE_COUNT
    ensures KokushiScan(c, n).Some? <==> (forall i :: 0 <= i < n ==> SlotOk(c, i)) && PairSlots(c, n) <= 1
    ensures KokushiScan(c, n).Some? ==> ScanState(c, n, KokushiScan(c, n).value)
  {
    ScanSomeIff(c, n);
    ScanKeepsState(c, n);
  }

  /** A scan that gets through has met at most one pair, and remembers
      whether it met one. */
  lemma {:induction false} ScanPairs(c: Counts, n: nat)
    requires n <= TILE_COUNT
    ensures KokushiScan(c, n).Some? ==>
      PairSlots(c, n) <= 1 && (KokushiScan(c, n).value.pair.Some? <==> PairSlots(c, n) == 1)
  {
    if n > 0 {
      ScanPairs(c, n - 1);
    }
  }

  lemma ScanSomeIff(c: Counts, n: nat)
    requires n <= TILE_COUNT
    ensures KokushiScan(c, n).Some? <==> (forall i :: 0 <= i < n ==> SlotOk(c, i)) && PairSlots(c, n) <= 1
  {
    ScanSomeOnly(c, n);
    ScanPairs(c, n);
    ScanSomeIf(c, n);
  }

  /** A scan that gets through found every slot acceptable. */
  lemma {:induction false} ScanSomeOnly(c: Counts, n: nat)
    requires n <= TILE_COUNT
    ensures KokushiScan(c, n).Some? ==> forall i :: 0 <= i < n ==> SlotOk(c, i)
  {
    if n > 0 && KokushiScan(c, n).Some? {
      ScanSomeOnly(c, n - 1);
      var r := KokushiScan(c, n - 1);
      ScanSlotSome(c, n - 1, r.value);
      assert SlotOk(c, n - 1);
      forall i | 0 <= i < n ensures SlotOk(c, i) {
        if i < n - 1 {
          assert SlotOk(c, i);
        }
      }
    }
  }

  /** Acceptable slots with at most one pair let the scan through. */
  lemma {:induction false} ScanSomeIf(c: Counts, n: nat)
    requires n <= TILE_COUNT
    ensures (forall i :: 0 <= i < n ==> SlotOk(c, i)) && PairSlots(c, n) <= 1 ==> KokushiScan(c, n).Some?
  {
    if n > 0 && (forall i :: 0 <= i < n ==> SlotOk(c, i)) && PairSlots(c, n) <= 1 {
      assert PairSlots(c, n - 1) <= 1;
      assert forall i :: 0 <= i < n - 1 ==> SlotOk(c, i);
      ScanSomeIf(c, n - 1);
      ScanPairs(c, n - 1);
      var r := KokushiScan(c, n - 1);
      assert c[n - 1] == 2 ==> r.value.pair.None?;
      ScanSlotSome(c, n - 1, r.value);
      assert SlotOk(c, n - 1);
    }
  }

  lemma {:induction false} ScanKeepsState(c: Counts, n: nat)
    requires n <= TILE_COUNT
    ensures KokushiScan(c, n).Some? ==> ScanState(c, n, KokushiScan(c, n).value)
  {
    if n > 0 && KokushiScan(c, n).Some? {
      ScanKeepsState(c, n - 1);
      ScanSomeIff(c, n);
      ScanStep(c, n, KokushiScan(c, n - 1).value);
    }
  }

  /** One slot passes exactly when its count suits its kind and it does not
      bring a second pair. */
  lemma ScanSlotSome(c: Counts, i: nat, st: Scan)
    requires i < TILE_COUNT
    ensures ScanSlot(c, i, st).Some? <==> SlotOk(c, i) && !(c[i] == 2 && st.pair.Some?)
  {
    YaochuuSlotTile(i);
  }

  /** One slot of the scan keeps the state. */
  lemma ScanStep(c: Counts, n: nat, st: Scan)
    requires 0 < n <= TILE_COUNT && ScanState(c, n - 1, st)
    requires SlotOk(c, n - 1) && PairSlots(c, n) <= 1
    requires KokushiScan(c, n - 1) == Some(st)
    ensures KokushiScan(c, n).Some? && ScanState(c, n, KokushiScan(c, n).value)
  {
    ScanUnfold(c, n, st);
    if c[n - 1] == 0 {
      EmptySlotState(c, n, st);
    } else {
      AppendSlotState(c, n, st);
    }
  }

  /** The scan's step on an acceptable slot, spelled out. */
  lemma ScanUnfold(c: Counts, n: nat, st: Scan)
    requires 0 < n <= TILE_COUNT && KokushiScan(c, n - 1) == Some(st)
    requires SlotOk(c, n - 1) && (c[n - 1] == 2 ==> st.pair.None?)
    ensures var t := IndexToTile(n - 1);
      KokushiScan(c, n) == Some(if c[n - 1] == 0 then st
        else Scan(st.tiles + [t], if c[n - 1] == 2 then Some(t) else st.pair))
  {
    YaochuuSlotTile(n - 1);
  }

  /** A slot holding nothing leaves the state as it is. */
  lemma EmptySlotState(c: Counts, n: nat, st: Scan)
    requires 0 < n <= TILE_COUNT && ScanState(c, n - 1, st) && c[n - 1] == 0
    ensures ScanState(c, n, st)
  {
  }

  /** A held yaochuu slot appends its kind, and records it as the pair when
      it holds two. */
  lemma AppendSlotState(c: Counts, n: nat, st: Scan)
    requires 0 < n <= TILE_COUNT && ScanState(c, n - 1, st)
    requires YaochuuSlot(n - 1) && 1 <= c[n - 1] <= 2 && PairSlots(c, n) <= 1
    ensures var t := IndexToTile(n - 1);
      ScanState(c, n, Scan(st.tiles + [t], if c[n - 1] == 2 then Some(t) else st.pair))
  {
    AppendSlotTiles(c, n, st.tiles);
  }

  /** The kinds list after appending a held yaochuu slot. */
  lemma AppendSlotTiles(c: Counts, n: nat, ts: seq<Hai>)
    requires 0 < n <= TILE_COUNT && YaochuuSlot(n - 1) && c[n - 1] > 0
    requires |ts| == PresentSlots(c, n - 1)
    requires forall k :: 0 <= k < |ts| ==> IsYaochuu(ts[k]) && TileToIndex(ts[k]) < n - 1 && c[TileToIndex(ts[k])] > 0
    requires forall k, l :: 0 <= k < l < |ts| ==> TileToIndex(ts[k]) < TileToIndex(ts[l])
    ensures var us := ts + [IndexToTile(n - 1)];
      && |us| == PresentSlots(c, n)
      && (forall k :: 0 <= k < |us| ==> IsYaochuu(us[k]) && TileToIndex(us[k]) < n && c[TileToIndex(us[k])] > 0)
      && (forall k, l :: 0 <= k < l < |us| ==> TileToIndex(us[k]) < TileToIndex(us[l]))
  {
    var t := IndexToTile(n - 1);
    YaochuuSlotTile(n - 1);
    var us := ts + [t];
    assert forall k :: 0 <= k < |ts| ==> us[k] == ts[k];
    assert us[|ts|] == t;
  }

  /** Present yaochuu slots never outnumber the yaochuu kinds, and match them
      only when every yaochuu slot is held. */
  lemma {:induction false} PresentSlotsBound(c: Counts, n: nat)
    requires n <= TILE_COUNT
    ensures PresentSlots(c, n) <= YaochuuSlots(n)
    ensures PresentSlots(c, n) == YaochuuSlots(n) <==>
      forall i :: 0 <= i < n && YaochuuSlot(i) ==> c[i] > 0
  {
    if n > 0 {
      PresentSlotsBound(c, n - 1);
      if YaochuuSlot(n - 1) && c[n - 1] == 0 {
        assert PresentSlots(c, n) < YaochuuSlots(n);
      }
    }
  }

  /** There are thirteen yaochuu kinds: the six terminals, four winds and
      three dragons. */
  lemma YaochuuKinds()
    ensures YaochuuSlots(TILE_COUNT) == 13
  {
    assert YaochuuSlots(9) == 2;
    assert YaochuuSlots(18) == 4;
    assert YaochuuSlots(27) == 6;
  }

  /** The hand shape of thirteen orphans on the counts: every yaochuu kind
      held once or twice, no simple held, exactly one pair. */
  predicate KokushiCounts(c: Counts)
  {
    && (forall i :: 0 <= i < TILE_COUNT ==>
          if YaochuuSlot(i) then 1 <= c[i] <= 2 else c[i] == 0)
    && PairSlots(c, TILE_COUNT) == 1
  }

  /** Thirteen orphans is found exactly for that shape when the winning
      tile is one of the hand's tiles. */
  lemma KokushiIff(c: Counts, agariHai: Hai)
    ensures KokushiResult(c, agariHai).Some? <==> KokushiCounts(c) && c[TileToIndex(agariHai)] > 0
  {
    KokushiScanSpec(c, TILE_COUNT);
    PresentSlotsBound(c, TILE_COUNT);
    YaochuuKinds();
    if KokushiCounts(c) {
      assert forall i :: 0 <= i < TILE_COUNT ==> SlotOk(c, i);
      assert forall i :: 0 <= i < TILE_COUNT && YaochuuSlot(i) ==> c[i] > 0;
      assert |KokushiScan(c, TILE_COUNT).value.tiles| == 13;
    }
    if KokushiResult(c, agariHai).Some? {
      assert forall i :: 0 <= i < TILE_COUNT && YaochuuSlot(i) ==> c[i] > 0;
      assert forall i :: 0 <= i < TILE_COUNT ==> SlotOk(c, i);
      assert KokushiScan(c, TILE_COUNT).value.pair.Some?;
      assert PairSlots(c, TILE_COUNT) == 1;
      forall i | 0 <= i < TILE_COUNT
        ensures if YaochuuSlot(i) then 1 <= c[i] <= 2 else c[i] == 0
      {
        assert SlotOk(c, i);
      }
    }
  }

  /** A recognised hand keeps the thirteen yaochuu kinds in index order,
      pairs a kind held twice, and keeps the winning tile. */
  lemma KokushiShape(c: Counts, agariHai: Hai)
    requires KokushiResult(c, agariHai).Some?
    ensures var s := KokushiResult(c, agariHai).value.0;
      && s.KokushiMusou? && s.agariHai == agariHai
      && s.atama.0 == s.atama.1 && IsYaochuu(s.atama.0) && c[TileToIndex(s.atama.0)] == 2
      && (forall k :: 0 <= k < 13 ==> IsYaochuu(s.tiles[k]))
      && (forall k, l :: 0 <= k < l < 13 ==> TileToIndex(s.tiles[k]) < TileToIndex(s.tiles[l]))
  {
    KokushiScanSpec(c, TILE_COUNT);
    var st := KokushiScan(c, TILE_COUNT).value;
    assert SlotOk(c, TileToIndex(st.pair.value));
    IndexToTileOfIndex(st.pair.value);
  }

  /** Thirteen-sided wait exactly when the winning tile is the kind held
      twice, so that before the win each kind was held once. */
  lemma KokushiJusanmenIff(c: Counts, agariHai: Hai)
    requires KokushiResult(c, agariHai).Some?
    ensures var r := KokushiResult(c, agariHai).value;
      && (r.1 == KokushiMusouJusanmen <==> c[TileToIndex(agariHai)] == 2)
      && (r.1 == KokushiMusouJusanmen <==> r.0.machi == KokushiJusanmen)
      && (r.1 == Yaku.KokushiMusou <==> r.0.machi == KokushiIchimen)
      && (r.1 == Yaku.KokushiMusou || r.1 == KokushiMusouJusanmen)
  {
    KokushiScanSpec(c, TILE_COUNT);
    var p := KokushiScan(c, TILE_COUNT).value.pair.value;
    if c[TileToIndex(agariHai)] == 2 && p != agariHai {
      IndexToTileOfIndex(p);
      IndexToTileOfIndex(agariHai);
      TwoPairSlots(c, TILE_COUNT, TileToIndex(p), TileToIndex(agariHai));
    }
  }

  /** Two distinct slots holding pairs make at least two pair slots. */
  lemma {:induction false} TwoPairSlots(c: Counts, n: nat, a: nat, b: nat)
    requires a < n <= TILE_COUNT && b < n && a != b && c[a] == 2 && c[b] == 2
    ensures PairSlots(c, n) >= 2
  {
    if a == n - 1 || b == n - 1 {
      OnePairSlot(c, n - 1, if a == n - 1 then b else a);
    } else {
      TwoPairSlots(c, n - 1, a, b);
    }
  }

  lemma {:induction false} OnePairSlot(c: Counts, n: nat, a: nat)
    requires a < n <= TILE_COUNT && c[a] == 2
    ensures PairSlots(c, n) >= 1
  {
    if a < n - 1 {
      OnePairSlot(c, n - 1, a);
    }
  }

  lemma {:induction false} KokushiScanNoneStays(c: Counts, n: nat, m: nat)
    requires n <= m <= TILE_COUNT && KokushiScan(c, n).None?
    ensures KokushiScan(c, m).None?
    decreases m - n
  {
    if n < m {
      KokushiScanNoneStays(c, n + 1, m);
    }
  }

  /** check_kokushi: one pass over the 34 counts with early exits, then the
      pair, winning-tile and thirteen-kind checks. */
  method CheckKokushi(counts: Counts, agariHai: Hai) returns (r: Option<(HandStructure, Yaku)>)
    ensures r == KokushiResult(counts, agariHai)
  {
    var hasPair := false;
    var tiles: seq<Hai> := [];
    var atamaTile: Option<Hai> := None;
    var idx := 0;
    while idx < TILE_COUNT
      invariant 0 <= idx <= TILE_COUNT
      invariant KokushiScan(counts, idx) == Some(Scan(tiles, atamaTile))
      invariant hasPair <==> atamaTile.Some?
    {
      var tile := IndexToTile(idx);
      var count := counts[idx];
      if !IsYaochuu(tile) {
        if count > 0 {
          KokushiScanNoneStays(counts, idx + 1, TILE_COUNT);
          return None;
        }
      } else if count == 1 {
        tiles := tiles + [tile];
      } else if count == 2 {
        if hasPair {
          KokushiScanNoneStays(counts, idx + 1, TILE_COUNT);
          return None;
        }
        hasPair := true;
        atamaTile := Some(tile);
        tiles := tiles + [tile];
      } else if count != 0 {
        KokushiScanNoneStays(counts, idx + 1, TILE_COUNT);
        return None;
      }
      idx := idx + 1;
    }
    if !hasPair {
      return None;
    }
    var agariHaiIndex := TileToIndex(agariHai);
    if counts[agariHaiIndex] == 0 {
      return None;
    }
    var atama := (atamaTile.value, atamaTile.value);
    var yaku := Yaku.KokushiMusou;
    var finalMachi := KokushiIchimen;
    if atama.0 == agariHai {
      if |tiles| == 13 {
        yaku := KokushiMusouJusanmen;
        finalMachi := KokushiJusanmen;
      }
    }
    if |tiles| != 13 {
      return None;
    }
    var thirteen: Tiles13 := tiles;
    r := Some((HandStructure.KokushiMusou(thirteen, atama, agariHai, finalMachi), yaku));
  }
}
