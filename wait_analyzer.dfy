/** Wait classification for a four-melds-one-pair reading
    (src/implements/raw_hand_organizer/wait_analyzer.rs). */
module WaitAnalyzer {
  import opened Tiles
  import opened HandTypes
  import opened Wrappers

  /** Index the source gives to a wait on the pair (one past the last meld). */
  const PAIR_WAIT_INDEX: nat := 4

  /** A triplet or quad is matched on its first slot only, a sequence on its
      first three slots. */
  predicate MentsuContainsTile(m: Mentsu, t: Hai)
  {
    match m.mentsuType
    case Koutsu => m.tiles[0] == t
    case Kantsu => m.tiles[0] == t
    case Shuntsu => m.tiles[0] == t || m.tiles[1] == t || m.tiles[2] == t
  }

  /** The wait one meld gives when it is completed by `t`, or None when the
      meld does not contain `t`. */
  function MeldWait(m: Mentsu, t: Hai): (w: Option<Machi>)
    ensures w.Some? <==> MentsuContainsTile(m, t)
    ensures m.mentsuType != Shuntsu && w.Some? ==> w.value == Shanpon
    ensures m.mentsuType == Shuntsu && t == m.tiles[1] ==> w == Some(Kanchan)
    ensures w.Some? ==> w.value in {Shanpon, Kanchan, Penchan, Ryanmen}
  {
    match m.mentsuType
    case Koutsu => if m.tiles[0] == t then Some(Shanpon) else None
    case Kantsu => if m.tiles[0] == t then Some(Shanpon) else None
    case Shuntsu =>
      if t == m.tiles[1] then Some(Kanchan)
      else if t == m.tiles[0] then
        (if TileToIndex(m.tiles[2]) % TILES_PER_SUHAI == 8 then Some(Penchan) else Some(Ryanmen))
      else if t == m.tiles[2] then
        (if TileToIndex(m.tiles[0]) % TILES_PER_SUHAI == 0 then Some(Penchan) else Some(Ryanmen))
      else None
  }

  /** Completing a suited sequence on its low tile is an edge wait exactly when
      the high tile is a nine. */
  lemma LowTileWait(m: Mentsu, t: Hai)
    requires m.mentsuType == Shuntsu && t == m.tiles[0] && t != m.tiles[1]
    requires m.tiles[2].Suhai?
    ensures MeldWait(m, t) == if m.tiles[2].number == 9 then Some(Penchan) else Some(Ryanmen)
  {
    SuhaiIndex(m.tiles[2]);
  }

  /** Completing a sequence on its high tile is an edge wait exactly when the
      low tile is a one. */
  lemma HighTileWait(m: Mentsu, t: Hai)
    requires m.mentsuType == Shuntsu && t == m.tiles[2] && t != m.tiles[1] && t != m.tiles[0]
    requires m.tiles[0].Suhai?
    ensures MeldWait(m, t) == if m.tiles[0].number == 1 then Some(Penchan) else Some(Ryanmen)
  {
    SuhaiIndex(m.tiles[0]);
  }

  /** The entries the first n melds contribute, in meld order. */
  function MeldWaits(ms: seq<Mentsu>, t: Hai, n: nat): seq<(Machi, nat)>
    requires n <= |ms|
  {
    if n == 0 then []
    else
      var w := MeldWait(ms[n - 1], t);
      MeldWaits(ms, t, n - 1) + (if w.Some? then [(w.value, n - 1)] else [])
  }

  /** Every wait of the winning tile: the pair first, then each meld it is in. */
  function Waits(ms: Mentsu4, atama: (Hai, Hai), t: Hai): seq<(Machi, nat)>
  {
    (if t == atama.0 then [(Tanki, PAIR_WAIT_INDEX)] else []) + MeldWaits(ms, t, |ms|)
  }

  /** Some entry of `ws` is tagged with meld index j. */
  predicate Listed(ws: seq<(Machi, nat)>, j: nat)
  {
    exists k :: 0 <= k < |ws| && ws[k].1 == j
  }

  /** `ws` lists, in increasing meld order, melds among the first n, each with
      the wait it gives. */
  predicate TaggedWaits(ws: seq<(Machi, nat)>, ms: seq<Mentsu>, t: Hai, n: nat)
    requires n <= |ms|
  {
    && |ws| <= n
    && (forall k :: 0 <= k < |ws| ==> ws[k].1 < n && Some(ws[k].0) == MeldWait(ms[ws[k].1], t))
    && (forall k, l :: 0 <= k < l < |ws| ==> ws[k].1 < ws[l].1)
  }

  lemma {:induction false} MeldWaitsTagged(ms: seq<Mentsu>, t: Hai, n: nat)
    requires n <= |ms|
    ensures TaggedWaits(MeldWaits(ms, t, n), ms, t, n)
  {
    if n > 0 {
      MeldWaitsTagged(ms, t, n - 1);
      var prev := MeldWaits(ms, t, n - 1);
      var cur := MeldWaits(ms, t, n);
      assert cur[..|prev|] == prev;
    }
  }

  /** Every meld among the first n is listed exactly when it contains `t`. */
  lemma {:induction false} MeldWaitsCover(ms: seq<Mentsu>, t: Hai, n: nat)
    requires n <= |ms|
    ensures forall j :: 0 <= j < n ==> (MentsuContainsTile(ms[j], t) <==> Listed(MeldWaits(ms, t, n), j))
  {
    if n > 0 {
      MeldWaitsCover(ms, t, n - 1);
      MeldWaitsTagged(ms, t, n - 1);
      forall j | 0 <= j < n
        ensures MentsuContainsTile(ms[j], t) <==> Listed(MeldWaits(ms, t, n), j)
      {
        if j < n - 1 {
          MeldWaitsCoverEarlier(ms, t, n, j);
        } else {
          MeldWaitsCoverLast(ms, t, n);
        }
      }
    }
  }

  /** A meld before the last one is listed after the step exactly when it was before. */
  lemma MeldWaitsCoverEarlier(ms: seq<Mentsu>, t: Hai, n: nat, j: nat)
    requires 0 < n <= |ms| && j < n - 1
    requires MentsuContainsTile(ms[j], t) <==> Listed(MeldWaits(ms, t, n - 1), j)
    ensures MentsuContainsTile(ms[j], t) <==> Listed(MeldWaits(ms, t, n), j)
  {
    var prev := MeldWaits(ms, t, n - 1);
    var cur := MeldWaits(ms, t, n);
    assert cur[..|prev|] == prev;
    assert |cur| > |prev| ==> cur[|prev|].1 == n - 1;
    if MentsuContainsTile(ms[j], t) {
      var k :| 0 <= k < |prev| && prev[k].1 == j;
      assert cur[k].1 == j;
    }
    if Listed(cur, j) {
      var k :| 0 <= k < |cur| && cur[k].1 == j;
      assert k < |prev|;
      assert prev[k].1 == j;
    }
  }

  /** The last meld is listed exactly when it contains the tile. */
  lemma MeldWaitsCoverLast(ms: seq<Mentsu>, t: Hai, n: nat)
    requires 0 < n <= |ms|
    requires TaggedWaits(MeldWaits(ms, t, n - 1), ms, t, n - 1)
    ensures MentsuContainsTile(ms[n - 1], t) <==> Listed(MeldWaits(ms, t, n), n - 1)
  {
    var prev := MeldWaits(ms, t, n - 1);
    var cur := MeldWaits(ms, t, n);
    var w := MeldWait(ms[n - 1], t);
    assert cur == prev + (if w.Some? then [(w.value, n - 1)] else []);
    if w.Some? {
      assert cur[|prev|].1 == n - 1;
    } else {
      assert cur == prev;
      assert forall k :: 0 <= k < |prev| ==> prev[k].1 < n - 1;
    }
  }

  /** Putting pair-wait entries in front changes nothing about which melds are listed. */
  lemma ListedAfterPair(h: seq<(Machi, nat)>, tail: seq<(Machi, nat)>, j: nat)
    requires forall k :: 0 <= k < |h| ==> h[k].1 == PAIR_WAIT_INDEX
    requires j < PAIR_WAIT_INDEX
    ensures Listed(h + tail, j) <==> Listed(tail, j)
  {
    var w := h + tail;
    if Listed(tail, j) {
      var k :| 0 <= k < |tail| && tail[k].1 == j;
      assert w[k + |h|].1 == j;
    }
    if Listed(w, j) {
      var k :| 0 <= k < |w| && w[k].1 == j;
      assert tail[k - |h|].1 == j;
    }
  }

  /** The pair wait comes first exactly when the winning tile is the pair tile,
      and there are at most five entries. */
  lemma WaitsPairFirst(ms: Mentsu4, atama: (Hai, Hai), t: Hai)
    ensures |Waits(ms, atama, t)| <= 5
    ensures t == atama.0 <==>
      |Waits(ms, atama, t)| > 0 && Waits(ms, atama, t)[0] == (Tanki, PAIR_WAIT_INDEX)
  {
    var h: seq<(Machi, nat)> := if t == atama.0 then [(Tanki, PAIR_WAIT_INDEX)] else [];
    var tail := MeldWaits(ms, t, |ms|);
    MeldWaitsTagged(ms, t, |ms|);
    assert Waits(ms, atama, t) == h + tail;
    if t != atama.0 && |tail| > 0 {
      assert (h + tail)[0] == tail[0];
    }
  }

  /** Each meld appears exactly when it contains the winning tile. */
  lemma WaitsCover(ms: Mentsu4, atama: (Hai, Hai), t: Hai)
    ensures forall j :: 0 <= j < 4 ==> (MentsuContainsTile(ms[j], t) <==> Listed(Waits(ms, atama, t), j))
  {
    var h: seq<(Machi, nat)> := if t == atama.0 then [(Tanki, PAIR_WAIT_INDEX)] else [];
    var tail := MeldWaits(ms, t, |ms|);
    MeldWaitsCover(ms, t, |ms|);
    forall j | 0 <= j < 4
      ensures MentsuContainsTile(ms[j], t) <==> Listed(Waits(ms, atama, t), j)
    {
      ListedAfterPair(h, tail, j);
    }
  }

  /** Each meld entry carries that meld's wait, and no meld is listed twice. */
  lemma WaitsTagged(ms: Mentsu4, atama: (Hai, Hai), t: Hai)
    ensures var w := Waits(ms, atama, t);
      && (forall k :: 0 <= k < |w| && w[k].1 < 4 ==> Some(w[k].0) == MeldWait(ms[w[k].1], t))
      && (forall k, l :: 0 <= k < l < |w| ==> w[k].1 != w[l].1)
  {
    var h: seq<(Machi, nat)> := if t == atama.0 then [(Tanki, PAIR_WAIT_INDEX)] else [];
    var tail := MeldWaits(ms, t, |ms|);
    MeldWaitsTagged(ms, t, |ms|);
    var w := h + tail;
    forall k | 0 <= k < |w| && w[k].1 < 4
      ensures Some(w[k].0) == MeldWait(ms[w[k].1], t)
    {
      assert k >= |h| && w[k] == tail[k - |h|];
    }
    forall k, l | 0 <= k < l < |w|
      ensures w[k].1 != w[l].1
    {
      assert w[l] == tail[l - |h|];
      if k >= |h| {
        assert w[k] == tail[k - |h|];
      }
    }
  }

  /** There is no wait at all exactly when the winning tile is neither the pair
      tile nor in any meld. */
  lemma NoWaitIff(ms: Mentsu4, atama: (Hai, Hai), t: Hai)
    ensures Waits(ms, atama, t) == [] <==>
      t != atama.0 && forall j :: 0 <= j < 4 ==> !MentsuContainsTile(ms[j], t)
  {
    WaitsCover(ms, atama, t);
    var w := Waits(ms, atama, t);
    if w != [] && t != atama.0 {
      MeldWaitsTagged(ms, t, |ms|);
      assert w[0] == MeldWaits(ms, t, |ms|)[0];
      assert Listed(w, w[0].1);
    }
  }

  /** determine_wait_type: push the pair wait, then scan the four melds. */
  method DetermineWaitType(ms: Mentsu4, atama: (Hai, Hai), agariHai: Hai) returns (waits: seq<(Machi, nat)>)
    ensures waits == Waits(ms, atama, agariHai)
  {
    waits := [];
    if agariHai == atama.0 {
      waits := waits + [(Tanki, PAIR_WAIT_INDEX)];
    }
    ghost var head := waits;
    var i := 0;
    while i < 4
      invariant 0 <= i <= 4
      invariant waits == head + MeldWaits(ms, agariHai, i)
    {
      var m := ms[i];
      if MentsuContainsTile(m, agariHai) {
        var machi: Machi;
        if m.mentsuType == Koutsu || m.mentsuType == Kantsu {
          machi := Shanpon;
        } else if agariHai == m.tiles[1] {
          machi := Kanchan;
        } else if agariHai == m.tiles[0] {
          machi := if TileToIndex(m.tiles[2]) % TILES_PER_SUHAI == 8 then Penchan else Ryanmen;
        } else {
          machi := if TileToIndex(m.tiles[0]) % TILES_PER_SUHAI == 0 then Penchan else Ryanmen;
        }
        waits := waits + [(machi, i)];
      }
      i := i + 1;
    }
  }
}
