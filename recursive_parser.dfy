/** The exhaustive backtracking decomposition of a count vector into
    concealed triplets and sequences
    (src/implements/raw_hand_organizer/recursive_parser.rs). */
module RecursiveParser {
  import opened Tiles
  import opened HandTypes
  import opened Wrappers

  /** Sum of all counts. */
  function Total(c: seq<nat>): nat
  {
    if |c| == 0 then 0 else Total(c[..|c| - 1]) + c[|c| - 1]
  }

  lemma {:induction false} TotalUpdate(c: seq<nat>, i: nat, v: nat)
    requires i < |c|
    ensures Total(c[i := v]) + c[i] == Total(c) + v
    decreases |c|
  {
    var n := |c| - 1;
    if i == n {
      assert c[i := v][..n] == c[..n];
    } else {
      assert c[i := v][..n] == c[..n][i := v];
      TotalUpdate(c[..n], i, v);
    }
  }

  /** Total of the all-zero vector is zero, and a vector with total zero is all zero. */
  lemma {:induction false} TotalZero(c: seq<nat>)
    ensures Total(c) == 0 <==> forall k :: 0 <= k < |c| ==> c[k] == 0
    decreases |c|
  {
    if |c| > 0 {
      var n := |c| - 1;
      TotalZero(c[..n]);
      assert forall k :: 0 <= k < n ==> c[..n][k] == c[k];
    }
  }

  /** The lowest index at or after `from` whose count is nonzero, or 34. */
  function FirstNonzero(c: Counts, from: nat): (j: nat)
    requires from <= TILE_COUNT
    ensures from <= j <= TILE_COUNT
    ensures j < TILE_COUNT ==> c[j] > 0
    ensures forall k :: from <= k < j ==> c[k] == 0
    decreases TILE_COUNT - from
  {
    if from == TILE_COUNT || c[from] > 0 then from else FirstNonzero(c, from + 1)
  }

  /** The concealed triplet the search builds at index `i`. */
  function KoutsuAt(i: nat): Mentsu
    requires i < TILE_COUNT
  {
    var t := IndexToTile(i);
    Mentsu(Koutsu, false, [t, t, t, t])
  }

  /** Index `i` can start a sequence: a suited rank 1..7. */
  predicate ShuntsuStart(i: nat)
  {
    i < SUHAI_TILES_COUNT && i % TILES_PER_SUHAI < MAX_SHUNTSU_START
  }

  /** The concealed sequence the search builds from index `i`; the fourth
      slot repeats the third. */
  function ShuntsuAt(i: nat): Mentsu
    requires ShuntsuStart(i)
  {
    Mentsu(Shuntsu, false, [IndexToTile(i), IndexToTile(i + 1), IndexToTile(i + 2), IndexToTile(i + 2)])
  }

  predicate CanTakeShuntsu(c: Counts, i: nat)
  {
    ShuntsuStart(i) && c[i] > 0 && c[i + 1] > 0 && c[i + 2] > 0
  }

  /** The vector with three tiles at i removed. */
  function TakeKoutsu(c: Counts, i: nat): (r: Counts)
    requires i < TILE_COUNT && c[i] >= 3
    ensures Total(r) + 3 == Total(c)
  {
    TotalUpdate(c, i, c[i] - 3);
    c[i := c[i] - 3]
  }

  /** The vector with one tile each at i, i+1 and i+2 removed. */
  function TakeShuntsu(c: Counts, i: nat): (r: Counts)
    requires CanTakeShuntsu(c, i)
    ensures Total(r) + 3 == Total(c)
  {
    var r: Counts := seq(TILE_COUNT, k requires 0 <= k < TILE_COUNT => if i <= k < i + 3 then c[k] - 1 else c[k]);
    var c1 := c[i := c[i] - 1];
    var c2 := c1[i + 1 := c1[i + 1] - 1];
    TotalUpdate(c, i, c[i] - 1);
    TotalUpdate(c1, i + 1, c1[i + 1] - 1);
    TotalUpdate(c2, i + 2, c2[i + 2] - 1);
    assert r == c2[i + 2 := c2[i + 2] - 1];
    r
  }

  /** Each list of `ds`, with `p` in front. */
  function Prefixed(p: seq<Mentsu>, ds: seq<seq<Mentsu>>): seq<seq<Mentsu>>
  {
    seq(|ds|, k requires 0 <= k < |ds| => p + ds[k])
  }

  /** Every meld list the search reports, in the order it reports them: at the
      lowest nonzero index, first all readings that use a triplet there, then
      all that use a sequence starting there. An all-zero vector is reported
      once, with no further melds. */
  function Decompositions(c: Counts): seq<seq<Mentsu>>
    decreases Total(c), 1
  {
    var i := FirstNonzero(c, 0);
    if i == TILE_COUNT then [[]]
    else TripletReadings(c, i) + SequenceReadings(c, i)
  }

  /** The readings that take a triplet at index `i`. */
  function TripletReadings(c: Counts, i: nat): seq<seq<Mentsu>>
    requires i < TILE_COUNT
    decreases Total(c), 0
  {
    if c[i] >= 3 then
      Prefixed([KoutsuAt(i)], Decompositions(TakeKoutsu(c, i)))
    else []
  }

  /** The readings that take a sequence starting at index `i`. */
  function SequenceReadings(c: Counts, i: nat): seq<seq<Mentsu>>
    requires i < TILE_COUNT
    decreases Total(c), 0
  {
    if CanTakeShuntsu(c, i) then
      Prefixed([ShuntsuAt(i)], Decompositions(TakeShuntsu(c, i)))
    else []
  }

  /** An all-zero vector is reported once, as the current stack. */
  lemma AllZeroReported(c: Counts, m: seq<Mentsu>)
    requires FirstNonzero(c, 0) == TILE_COUNT
    ensures Prefixed(m, Decompositions(c)) == [m]
  {
    assert m + [] == m;
  }

  /** The log after both branches is the log of all decompositions. */
  lemma BranchesReported(c: Counts, m: seq<Mentsu>, e: seq<seq<Mentsu>>)
    requires FirstNonzero(c, 0) < TILE_COUNT
    ensures var i := FirstNonzero(c, 0);
      (e + Prefixed(m, TripletReadings(c, i))) + Prefixed(m, SequenceReadings(c, i))
      == e + Prefixed(m, Decompositions(c))
  {
    var i := FirstNonzero(c, 0);
    PrefixedConcat(m, TripletReadings(c, i), SequenceReadings(c, i));
  }

  /** The log of the triplet branch, read as readings of the vector before the triplet was taken. */
  lemma TripletReported(c: Counts, i: nat, m: seq<Mentsu>, e: seq<seq<Mentsu>>)
    requires i < TILE_COUNT && c[i] >= 3
    ensures e + Prefixed(m + [KoutsuAt(i)], Decompositions(TakeKoutsu(c, i)))
      == e + Prefixed(m, TripletReadings(c, i))
  {
    PrefixedCompose(m, [KoutsuAt(i)], Decompositions(TakeKoutsu(c, i)));
  }

  /** The log of the sequence branch, read as readings of the vector before the sequence was taken. */
  lemma SequenceReported(c: Counts, i: nat, m: seq<Mentsu>, e: seq<seq<Mentsu>>)
    requires CanTakeShuntsu(c, i)
    ensures e + Prefixed(m + [ShuntsuAt(i)], Decompositions(TakeShuntsu(c, i)))
      == e + Prefixed(m, SequenceReadings(c, i))
  {
    PrefixedCompose(m, [ShuntsuAt(i)], Decompositions(TakeShuntsu(c, i)));
  }

  lemma PrefixedConcat(p: seq<Mentsu>, a: seq<seq<Mentsu>>, b: seq<seq<Mentsu>>)
    ensures Prefixed(p, a + b) == Prefixed(p, a) + Prefixed(p, b)
  {
    assert forall k :: 0 <= k < |a| ==> (a + b)[k] == a[k];
    assert forall k :: |a| <= k < |a| + |b| ==> (a + b)[k] == b[k - |a|];
  }

  lemma PrefixedCompose(p: seq<Mentsu>, q: seq<Mentsu>, ds: seq<seq<Mentsu>>)
    ensures Prefixed(p, Prefixed(q, ds)) == Prefixed(p + q, ds)
  {
    forall k | 0 <= k < |ds|
      ensures Prefixed(p, Prefixed(q, ds))[k] == Prefixed(p + q, ds)[k]
    {
      assert p + (q + ds[k]) == (p + q) + ds[k];
    }
  }

  /** How many of a meld's three distinct slots hold the tile with index `k`
      (the fourth slot only repeats). */
  function SlotCount(m: Mentsu, k: nat): nat
  {
    (if TileToIndex(m.tiles[0]) == k then 1 else 0)
    + (if TileToIndex(m.tiles[1]) == k then 1 else 0)
    + (if TileToIndex(m.tiles[2]) == k then 1 else 0)
  }

  /** How many tiles with index `k` the melds of `d` use. */
  function MeldCount(d: seq<Mentsu>, k: nat): nat
  {
    if |d| == 0 then 0 else SlotCount(d[0], k) + MeldCount(d[1..], k)
  }

  /** The melds use exactly the tiles the vector counts. */
  predicate Exact(d: seq<Mentsu>, c: Counts)
  {
    forall k :: 0 <= k < TILE_COUNT ==> MeldCount(d, k) == c[k]
  }

  /** A meld of the shape the search builds: a concealed triplet, or a
      concealed sequence starting at rank 1..7. */
  predicate IsParsedMeld(m: Mentsu)
  {
    var i := TileToIndex(m.tiles[0]);
    m == KoutsuAt(i) || (ShuntsuStart(i) && m == ShuntsuAt(i))
  }

  predicate AllParsed(d: seq<Mentsu>)
  {
    forall n :: 0 <= n < |d| ==> IsParsedMeld(d[n])
  }

  lemma KoutsuSlots(i: nat, k: nat)
    requires i < TILE_COUNT
    ensures SlotCount(KoutsuAt(i), k) == if k == i then 3 else 0
  {
  }

  lemma ShuntsuSlots(i: nat, k: nat)
    requires ShuntsuStart(i)
    ensures SlotCount(ShuntsuAt(i), k) == if i <= k < i + 3 then 1 else 0
  {
  }

  lemma {:induction false} MeldCountRemove(d: seq<Mentsu>, n: nat, k: nat)
    requires n < |d|
    ensures MeldCount(d, k) == SlotCount(d[n], k) + MeldCount(d[..n] + d[n + 1..], k)
    decreases |d|
  {
    if n == 0 {
      assert d[..0] + d[1..] == d[1..];
    } else {
      MeldCountRemove(d[1..], n - 1, k);
      var rest := d[..n] + d[n + 1..];
      assert rest[0] == d[0];
      assert rest[1..] == d[1..][..n - 1] + d[1..][n..];
    }
  }

  lemma {:induction false} MeldCountPositive(d: seq<Mentsu>, k: nat)
    requires MeldCount(d, k) > 0
    ensures exists n :: 0 <= n < |d| && SlotCount(d[n], k) > 0
    decreases |d|
  {
    if SlotCount(d[0], k) == 0 {
      MeldCountPositive(d[1..], k);
      var n :| 0 <= n < |d[1..]| && SlotCount(d[1..][n], k) > 0;
      assert SlotCount(d[n + 1], k) > 0;
    }
  }

  /** A reading that uses exactly the counted tiles, in concealed melds of
      the parsed shapes, three tiles per meld. */
  predicate SoundReading(d: seq<Mentsu>, c: Counts)
  {
    (forall n :: 0 <= n < |d| ==> IsParsedMeld(d[n]) && !d[n].isMinchou)
    && Exact(d, c)
    && 3 * |d| == Total(c)
  }

  lemma ConsSound(m: Mentsu, d: seq<Mentsu>, c: Counts, r: Counts)
    requires SoundReading(d, r) && IsParsedMeld(m) && !m.isMinchou
    requires forall k :: 0 <= k < TILE_COUNT ==> c[k] == SlotCount(m, k) + r[k]
    requires Total(r) + 3 == Total(c)
    ensures SoundReading([m] + d, c)
  {
    var e := [m] + d;
    assert e[1..] == d;
    forall n | 0 <= n < |e|
      ensures IsParsedMeld(e[n]) && !e[n].isMinchou
    {
      if n > 0 {
        assert e[n] == d[n - 1];
      }
    }
  }

  lemma InPrefixed(p: seq<Mentsu>, ds: seq<seq<Mentsu>>, d: seq<Mentsu>)
    requires d in Prefixed(p, ds)
    ensures exists j :: 0 <= j < |ds| && d == p + ds[j]
  {
  }

  /** Soundness of the search: every reported reading is sound for the vector. */
  lemma {:induction false} DecompositionSound(c: Counts, d: seq<Mentsu>)
    requires d in Decompositions(c)
    ensures SoundReading(d, c)
    decreases Total(c), 1
  {
    var i := FirstNonzero(c, 0);
    if i == TILE_COUNT {
      assert d == [];
      TotalZero(c);
    } else if d in TripletReadings(c, i) {
      TripletReadingSound(c, i, d);
    } else {
      SequenceReadingSound(c, i, d);
    }
  }

  lemma {:induction false} TripletReadingSound(c: Counts, i: nat, d: seq<Mentsu>)
    requires i < TILE_COUNT && d in TripletReadings(c, i)
    ensures SoundReading(d, c)
    decreases Total(c), 0
  {
    var r := TakeKoutsu(c, i);
    var ds := Decompositions(r);
    InPrefixed([KoutsuAt(i)], ds, d);
    var j :| 0 <= j < |ds| && d == [KoutsuAt(i)] + ds[j];
    DecompositionSound(r, ds[j]);
    forall k | 0 <= k < TILE_COUNT
      ensures c[k] == SlotCount(KoutsuAt(i), k) + r[k]
    {
      KoutsuSlots(i, k);
    }
    ConsSound(KoutsuAt(i), ds[j], c, r);
  }

  lemma {:induction false} SequenceReadingSound(c: Counts, i: nat, d: seq<Mentsu>)
    requires i < TILE_COUNT && d in SequenceReadings(c, i)
    ensures SoundReading(d, c)
    decreases Total(c), 0
  {
    var r := TakeShuntsu(c, i);
    var ds := Decompositions(r);
    InPrefixed([ShuntsuAt(i)], ds, d);
    var j :| 0 <= j < |ds| && d == [ShuntsuAt(i)] + ds[j];
    DecompositionSound(r, ds[j]);
    forall k | 0 <= k < TILE_COUNT
      ensures c[k] == SlotCount(ShuntsuAt(i), k) + r[k]
    {
      ShuntsuSlots(i, k);
    }
    ConsSound(ShuntsuAt(i), ds[j], c, r);
  }

  /** Taking one meld out of a reading of `c` leaves a reading of what is left. */
  lemma RemoveMeld(d: seq<Mentsu>, n: nat, c: Counts, r: Counts)
    requires n < |d| && Exact(d, c)
    requires forall k :: 0 <= k < TILE_COUNT ==> c[k] == SlotCount(d[n], k) + r[k]
    requires AllParsed(d)
    ensures Exact(d[..n] + d[n + 1..], r)
    ensures AllParsed(d[..n] + d[n + 1..])
    ensures multiset(d) == multiset(d[..n] + d[n + 1..]) + multiset{d[n]}
  {
    var rest := d[..n] + d[n + 1..];
    forall k | 0 <= k < TILE_COUNT
      ensures MeldCount(rest, k) == r[k]
    {
      MeldCountRemove(d, n, k);
    }
    forall n' | 0 <= n' < |rest|
      ensures IsParsedMeld(rest[n'])
    {
      if n' < n { assert rest[n'] == d[n']; } else { assert rest[n'] == d[n' + 1]; }
    }
    assert d == d[..n] + [d[n]] + d[n + 1..];
  }

  /** A meld covering index `k` makes the reading use a tile with index `k`. */
  lemma CoveredCounted(d: seq<Mentsu>, n: nat, c: Counts, k: nat)
    requires n < |d| && Exact(d, c) && k < TILE_COUNT && SlotCount(d[n], k) > 0
    ensures c[k] >= SlotCount(d[n], k)
  {
    MeldCountRemove(d, n, k);
  }

  /** In any reading, the lowest counted tile is covered by a triplet or by a
      sequence that starts there. */
  lemma LowestCovered(c: Counts, d: seq<Mentsu>) returns (n: nat)
    requires AllParsed(d) && Exact(d, c)
    requires FirstNonzero(c, 0) < TILE_COUNT
    ensures n < |d|
    ensures var i := FirstNonzero(c, 0);
      (d[n] == KoutsuAt(i) && c[i] >= 3) || (CanTakeShuntsu(c, i) && d[n] == ShuntsuAt(i))
  {
    var i := FirstNonzero(c, 0);
    MeldCountPositive(d, i);
    n :| 0 <= n < |d| && SlotCount(d[n], i) > 0;
    var j := TileToIndex(d[n].tiles[0]);
    if d[n] == KoutsuAt(j) {
      KoutsuSlots(j, i);
      CoveredCounted(d, n, c, i);
    } else {
      LowestSequence(c, d, n, i, j);
    }
  }

  lemma LowestSequence(c: Counts, d: seq<Mentsu>, n: nat, i: nat, j: nat)
    requires n < |d| && Exact(d, c) && ShuntsuStart(j) && d[n] == ShuntsuAt(j)
    requires i == FirstNonzero(c, 0) && i < TILE_COUNT && SlotCount(d[n], i) > 0
    ensures j == i && CanTakeShuntsu(c, i)
  {
    ShuntsuSlots(j, i);
    ShuntsuSlots(j, j);
    CoveredCounted(d, n, c, j);
    ShuntsuSlots(j, j + 1);
    CoveredCounted(d, n, c, j + 1);
    ShuntsuSlots(j, j + 2);
    CoveredCounted(d, n, c, j + 2);
  }

  /** Completeness of the search: any split of the counted tiles into melds
      of the parsed shapes is reported, up to the order of the melds. */
  lemma {:induction false} DecompositionComplete(c: Counts, d: seq<Mentsu>)
    requires AllParsed(d) && Exact(d, c)
    ensures exists e :: e in Decompositions(c) && multiset(e) == multiset(d)
    decreases |d|, 1
  {
    var i := FirstNonzero(c, 0);
    if |d| == 0 {
      assert forall k :: 0 <= k < TILE_COUNT ==> c[k] == 0;
      assert i == TILE_COUNT;
      assert [] in Decompositions(c);
    } else {
      var j0 := TileToIndex(d[0].tiles[0]);
      assert SlotCount(d[0], j0) > 0;
      CoveredCounted(d, 0, c, j0);
      assert i < TILE_COUNT;
      var n := LowestCovered(c, d);
      if d[n] == KoutsuAt(i) && c[i] >= 3 {
        TripletComplete(c, i, d, n);
      } else {
        SequenceComplete(c, i, d, n);
      }
    }
  }

  lemma {:induction false} TripletComplete(c: Counts, i: nat, d: seq<Mentsu>, n: nat)
    requires AllParsed(d) && Exact(d, c)
    requires i == FirstNonzero(c, 0) && i < TILE_COUNT && c[i] >= 3
    requires n < |d| && d[n] == KoutsuAt(i)
    ensures exists e :: e in Decompositions(c) && multiset(e) == multiset(d)
    decreases |d|, 0
  {
    var rest := d[..n] + d[n + 1..];
    var r := TakeKoutsu(c, i);
    KoutsuRemoved(c, i, d, n);
    DecompositionComplete(r, rest);
    var e' :| e' in Decompositions(r) && multiset(e') == multiset(rest);
    TripletExtends(c, i, e');
    PrependSameMultiset(KoutsuAt(i), e', rest, d);
  }

  lemma {:induction false} SequenceComplete(c: Counts, i: nat, d: seq<Mentsu>, n: nat)
    requires AllParsed(d) && Exact(d, c)
    requires i == FirstNonzero(c, 0) && CanTakeShuntsu(c, i)
    requires n < |d| && d[n] == ShuntsuAt(i)
    ensures exists e :: e in Decompositions(c) && multiset(e) == multiset(d)
    decreases |d|, 0
  {
    var rest := d[..n] + d[n + 1..];
    var r := TakeShuntsu(c, i);
    ShuntsuRemoved(c, i, d, n);
    DecompositionComplete(r, rest);
    var e' :| e' in Decompositions(r) && multiset(e') == multiset(rest);
    SequenceExtends(c, i, e');
    PrependSameMultiset(ShuntsuAt(i), e', rest, d);
  }

  /** Putting back the meld that was taken out restores the reading's multiset. */
  lemma PrependSameMultiset(m: Mentsu, e: seq<Mentsu>, rest: seq<Mentsu>, d: seq<Mentsu>)
    requires multiset(e) == multiset(rest)
    requires multiset(d) == multiset(rest) + multiset{m}
    ensures multiset([m] + e) == multiset(d)
  {
  }

  /** Taking the lowest triplet out of a reading leaves a reading of the rest. */
  lemma KoutsuRemoved(c: Counts, i: nat, d: seq<Mentsu>, n: nat)
    requires AllParsed(d) && Exact(d, c)
    requires i < TILE_COUNT && c[i] >= 3
    requires n < |d| && d[n] == KoutsuAt(i)
    ensures AllParsed(d[..n] + d[n + 1..]) && Exact(d[..n] + d[n + 1..], TakeKoutsu(c, i))
    ensures multiset(d) == multiset(d[..n] + d[n + 1..]) + multiset{KoutsuAt(i)}
  {
    var r := TakeKoutsu(c, i);
    forall k | 0 <= k < TILE_COUNT
      ensures c[k] == SlotCount(d[n], k) + r[k]
    {
      KoutsuSlots(i, k);
    }
    RemoveMeld(d, n, c, r);
  }

  /** Taking the lowest sequence out of a reading leaves a reading of the rest. */
  lemma ShuntsuRemoved(c: Counts, i: nat, d: seq<Mentsu>, n: nat)
    requires AllParsed(d) && Exact(d, c)
    requires CanTakeShuntsu(c, i)
    requires n < |d| && d[n] == ShuntsuAt(i)
    ensures AllParsed(d[..n] + d[n + 1..]) && Exact(d[..n] + d[n + 1..], TakeShuntsu(c, i))
    ensures multiset(d) == multiset(d[..n] + d[n + 1..]) + multiset{ShuntsuAt(i)}
  {
    var r := TakeShuntsu(c, i);
    forall k | 0 <= k < TILE_COUNT
      ensures c[k] == SlotCount(d[n], k) + r[k]
    {
      ShuntsuSlots(i, k);
    }
    RemoveMeld(d, n, c, r);
  }

  /** A reading found after taking the lowest triplet is reported with it in front. */
  lemma TripletExtends(c: Counts, i: nat, e: seq<Mentsu>)
    requires i == FirstNonzero(c, 0) && i < TILE_COUNT && c[i] >= 3
    requires e in Decompositions(TakeKoutsu(c, i))
    ensures [KoutsuAt(i)] + e in Decompositions(c)
  {
    var ds := Decompositions(TakeKoutsu(c, i));
    var q :| 0 <= q < |ds| && ds[q] == e;
    assert [KoutsuAt(i)] + e == TripletReadings(c, i)[q];
  }

  /** A reading found after taking the lowest sequence is reported with it in front. */
  lemma SequenceExtends(c: Counts, i: nat, e: seq<Mentsu>)
    requires i == FirstNonzero(c, 0) && CanTakeShuntsu(c, i)
    requires e in Decompositions(TakeShuntsu(c, i))
    ensures [ShuntsuAt(i)] + e in Decompositions(c)
  {
    var ds := Decompositions(TakeShuntsu(c, i));
    var q :| 0 <= q < |ds| && ds[q] == e;
    assert [ShuntsuAt(i)] + e == SequenceReadings(c, i)[q];
  }

  lemma EmptyReadingIffEmpty(c: Counts)
    ensures [] in Decompositions(c) <==> Total(c) == 0
  {
    if [] in Decompositions(c) {
      DecompositionSound(c, []);
    }
    if Total(c) == 0 {
      TotalZero(c);
      assert FirstNonzero(c, 0) == TILE_COUNT;
    }
  }

  /** The earlier revision's search (riichi_calc/src/implements/raw_hand_organizer.rs):
      the same branches in the same order, stopping at the first reading found. */
  function FirstDecomposition(c: Counts): Option<seq<Mentsu>>
    decreases Total(c), 1
  {
    var i := FirstNonzero(c, 0);
    if i == TILE_COUNT then Some([])
    else
      var t := FirstTriplet(c, i);
      if t.Some? then t else FirstSequence(c, i)
  }

  /** The first reading that takes a triplet at index `i`. */
  function FirstTriplet(c: Counts, i: nat): Option<seq<Mentsu>>
    requires i < TILE_COUNT
    decreases Total(c), 0
  {
    if c[i] >= 3 then
      match FirstDecomposition(TakeKoutsu(c, i))
      case Some(d) => Some([KoutsuAt(i)] + d)
      case None => None
    else None
  }

  /** The first reading that takes a sequence starting at index `i`. */
  function FirstSequence(c: Counts, i: nat): Option<seq<Mentsu>>
    requires i < TILE_COUNT
    decreases Total(c), 0
  {
    if CanTakeShuntsu(c, i) then
      match FirstDecomposition(TakeShuntsu(c, i))
      case Some(d) => Some([ShuntsuAt(i)] + d)
      case None => None
    else None
  }

  /** The triplet branch succeeds exactly when the search after taking the
      triplet does, and the stack then holds the triplet and that reading. */
  lemma FirstTripletStep(c: Counts, i: nat, m0: seq<Mentsu>, m: seq<Mentsu>)
    requires i < TILE_COUNT && c[i] >= 3
    ensures var d := FirstDecomposition(TakeKoutsu(c, i));
      && FirstTriplet(c, i).Some? == d.Some?
      && (d.Some? && m == (m0 + [KoutsuAt(i)]) + d.value ==> m == m0 + FirstTriplet(c, i).value)
  {
    match FirstDecomposition(TakeKoutsu(c, i)) {
      case Some(v) =>
        assert FirstTriplet(c, i) == Some([KoutsuAt(i)] + v);
        assert (m0 + [KoutsuAt(i)]) + v == m0 + ([KoutsuAt(i)] + v);
      case None =>
        assert FirstTriplet(c, i) == None;
    }
  }

  /** The sequence branch succeeds exactly when the search after taking the
      sequence does, and the stack then holds the sequence and that reading. */
  lemma FirstSequenceStep(c: Counts, i: nat, m0: seq<Mentsu>, m: seq<Mentsu>)
    requires i < TILE_COUNT && CanTakeShuntsu(c, i)
    ensures var d := FirstDecomposition(TakeShuntsu(c, i));
      && FirstSequence(c, i).Some? == d.Some?
      && (d.Some? && m == (m0 + [ShuntsuAt(i)]) + d.value ==> m == m0 + FirstSequence(c, i).value)
  {
    match FirstDecomposition(TakeShuntsu(c, i)) {
      case Some(v) =>
        assert FirstSequence(c, i) == Some([ShuntsuAt(i)] + v);
        assert (m0 + [ShuntsuAt(i)]) + v == m0 + ([ShuntsuAt(i)] + v);
      case None =>
        assert FirstSequence(c, i) == None;
    }
  }

  /** Stopping at the first reading finds exactly the head of the exhaustive
      enumeration, and finds nothing exactly when there is no reading. */
  lemma {:induction false} FirstDecompositionIsHead(c: Counts)
    ensures FirstDecomposition(c) == if Decompositions(c) == [] then None else Some(Decompositions(c)[0])
    decreases Total(c), 1
  {
    var i := FirstNonzero(c, 0);
    if i < TILE_COUNT {
      FirstTripletIsHead(c, i);
      FirstSequenceIsHead(c, i);
      HeadOfConcat(TripletReadings(c, i), SequenceReadings(c, i), FirstTriplet(c, i), FirstSequence(c, i));
    }
  }

  /** The first element of a concatenation comes from its first part when
      that part is not empty. */
  lemma HeadOfConcat(a: seq<seq<Mentsu>>, b: seq<seq<Mentsu>>, x: Option<seq<Mentsu>>, y: Option<seq<Mentsu>>)
    requires x == (if a == [] then None else Some(a[0]))
    requires y == (if b == [] then None else Some(b[0]))
    ensures (if x.Some? then x else y) == if a + b == [] then None else Some((a + b)[0])
  {
  }

  lemma {:induction false} FirstTripletIsHead(c: Counts, i: nat)
    requires i < TILE_COUNT
    ensures var tr := TripletReadings(c, i);
      FirstTriplet(c, i) == if tr == [] then None else Some(tr[0])
    decreases Total(c), 0
  {
    if c[i] >= 3 {
      FirstDecompositionIsHead(TakeKoutsu(c, i));
    }
  }

  lemma {:induction false} FirstSequenceIsHead(c: Counts, i: nat)
    requires i < TILE_COUNT
    ensures var sr := SequenceReadings(c, i);
      FirstSequence(c, i) == if sr == [] then None else Some(sr[0])
    decreases Total(c), 0
  {
    if CanTakeShuntsu(c, i) {
      FirstDecompositionIsHead(TakeShuntsu(c, i));
    }
  }

  /** A parser over a caller-owned count buffer. `mentsu` is the meld stack
      the search pushes and pops; `emitted` is the sequence of meld lists the
      callback has received so far. */
  class Parser {
    const counts: array<nat>
    var mentsu: seq<Mentsu>
    var emitted: seq<seq<Mentsu>>

    constructor(buffer: array<nat>, initial: seq<Mentsu>)
      ensures counts == buffer && mentsu == initial && emitted == []
    {
      counts := buffer;
      mentsu := initial;
      emitted := [];
    }

    /** Reports every decomposition of the buffer, each behind the current
        meld stack, and leaves the buffer and the stack as it found them. */
    method FindAllMentsu()
      requires counts.Length == TILE_COUNT
      modifies this, counts
      ensures counts[..] == old(counts[..])
      ensures mentsu == old(mentsu)
      ensures emitted == old(emitted) + Prefixed(old(mentsu), Decompositions(old(counts[..])))
      decreases Total(counts[..]), 1
    {
      var i := 0;
      while i < TILE_COUNT && counts[i] == 0
        invariant 0 <= i <= TILE_COUNT
        invariant forall k :: 0 <= k < i ==> counts[k] == 0
      {
        i := i + 1;
      }
      ghost var c0: Counts := counts[..];
      assert i == FirstNonzero(c0, 0);
      if i == TILE_COUNT {
        AllZeroReported(c0, mentsu);
        emitted := emitted + [mentsu];
        return;
      }
      ghost var m0 := mentsu;
      ghost var e0 := emitted;
      FindKoutsu(i);
      ghost var e1 := emitted;
      FindShuntsu(i);
      assert emitted == e1 + Prefixed(m0, SequenceReadings(c0, i));
      BranchesReported(c0, m0, e0);
    }

    /** find_mentsu_recursive of the earlier revision: the same search over
        the same buffer and stack, returning at the first reading. On success
        the stack holds that reading behind the old stack and the buffer is
        used up; otherwise both are as they were. Nothing is reported. */
    method FindFirstMentsu() returns (found: bool)
      requires counts.Length == TILE_COUNT
      modifies this, counts
      ensures emitted == old(emitted)
      ensures found <==> FirstDecomposition(old(counts[..])).Some?
      ensures found ==> mentsu == old(mentsu) + FirstDecomposition(old(counts[..])).value
      ensures found ==> forall k :: 0 <= k < TILE_COUNT ==> counts[k] == 0
      ensures !found ==> mentsu == old(mentsu) && counts[..] == old(counts[..])
      decreases Total(counts[..]), 1
    {
      var i := 0;
      while i < TILE_COUNT && counts[i] == 0
        invariant 0 <= i <= TILE_COUNT
        invariant forall k :: 0 <= k < i ==> counts[k] == 0
      {
        i := i + 1;
      }
      ghost var c0: Counts := counts[..];
      assert i == FirstNonzero(c0, 0);
      if i == TILE_COUNT {
        assert mentsu == old(mentsu) + [];
        return true;
      }
      found := FindFirstKoutsu(i, c0);
      if !found {
        found := FindFirstShuntsu(i, c0);
      }
    }

    /** The triplet branch of the first-reading search. */
    method FindFirstKoutsu(i: nat, ghost c0: Counts) returns (found: bool)
      requires counts.Length == TILE_COUNT && i < TILE_COUNT && counts[..] == c0
      modifies this, counts
      ensures emitted == old(emitted)
      ensures found <==> FirstTriplet(c0, i).Some?
      ensures found ==> mentsu == old(mentsu) + FirstTriplet(c0, i).value
      ensures found ==> forall k :: 0 <= k < TILE_COUNT ==> counts[k] == 0
      ensures !found ==> mentsu == old(mentsu) && counts[..] == c0
      decreases Total(c0), 0
    {
      if !(counts[i] >= 3) {
        return false;
      }
      ghost var m0 := mentsu;
      var tile := IndexToTile(i);
      TakeKoutsuTiles(i);
      mentsu := mentsu + [Mentsu(Koutsu, false, [tile, tile, tile, tile])];
      found := FindFirstMentsu();
      FirstTripletStep(c0, i, m0, mentsu);
      if !found {
        mentsu := mentsu[..|mentsu| - 1];
        ReturnKoutsuTiles(i, c0);
      }
    }

    /** The sequence branch of the first-reading search. */
    method FindFirstShuntsu(i: nat, ghost c0: Counts) returns (found: bool)
      requires counts.Length == TILE_COUNT && i < TILE_COUNT && counts[..] == c0
      modifies this, counts
      ensures emitted == old(emitted)
      ensures found <==> FirstSequence(c0, i).Some?
      ensures found ==> mentsu == old(mentsu) + FirstSequence(c0, i).value
      ensures found ==> forall k :: 0 <= k < TILE_COUNT ==> counts[k] == 0
      ensures !found ==> mentsu == old(mentsu) && counts[..] == c0
      decreases Total(c0), 0
    {
      if !(i < SUHAI_TILES_COUNT && i % TILES_PER_SUHAI < MAX_SHUNTSU_START && counts[i] > 0 && counts[i + 1] > 0 && counts[i + 2] > 0) {
        return false;
      }
      ghost var m0 := mentsu;
      var tile1 := IndexToTile(i);
      var tile2 := IndexToTile(i + 1);
      var tile3 := IndexToTile(i + 2);
      TakeShuntsuTiles(i);
      mentsu := mentsu + [Mentsu(Shuntsu, false, [tile1, tile2, tile3, tile3])];
      found := FindFirstMentsu();
      FirstSequenceStep(c0, i, m0, mentsu);
      if !found {
        mentsu := mentsu[..|mentsu| - 1];
        ReturnShuntsuTiles(i, c0);
      }
    }

    /** The triplet branch at the lowest nonzero index `i`. */
    method FindKoutsu(i: nat)
      requires counts.Length == TILE_COUNT && i < TILE_COUNT
      modifies this, counts
      ensures counts[..] == old(counts[..])
      ensures mentsu == old(mentsu)
      ensures emitted == old(emitted) + Prefixed(old(mentsu), TripletReadings(old(counts[..]), i))
      decreases Total(counts[..]), 0
    {
      if counts[i] >= 3 {
        ghost var c0: Counts := counts[..];
        ghost var m0 := mentsu;
        var tile := IndexToTile(i);
        TakeKoutsuTiles(i);
        mentsu := mentsu + [Mentsu(Koutsu, false, [tile, tile, tile, tile])];
        assert mentsu == m0 + [KoutsuAt(i)];
        ghost var e0 := emitted;
        FindAllMentsu();
        assert emitted == e0 + Prefixed(m0 + [KoutsuAt(i)], Decompositions(TakeKoutsu(c0, i)));
        mentsu := mentsu[..|mentsu| - 1];
        ReturnKoutsuTiles(i, c0);
        TripletReported(c0, i, m0, e0);
      } else {
        assert TripletReadings(counts[..], i) == [];
        assert Prefixed(mentsu, []) == [];
      }
    }

    /** The sequence branch at the lowest nonzero index `i`. */
    method FindShuntsu(i: nat)
      requires counts.Length == TILE_COUNT && i < TILE_COUNT
      modifies this, counts
      ensures counts[..] == old(counts[..])
      ensures mentsu == old(mentsu)
      ensures emitted == old(emitted) + Prefixed(old(mentsu), SequenceReadings(old(counts[..]), i))
      decreases Total(counts[..]), 0
    {
      if i < SUHAI_TILES_COUNT && i % TILES_PER_SUHAI < MAX_SHUNTSU_START && counts[i] > 0 && counts[i + 1] > 0 && counts[i + 2] > 0 {
        ghost var c0: Counts := counts[..];
        ghost var m0 := mentsu;
        var tile1 := IndexToTile(i);
        var tile2 := IndexToTile(i + 1);
        var tile3 := IndexToTile(i + 2);
        TakeShuntsuTiles(i);
        mentsu := mentsu + [Mentsu(Shuntsu, false, [tile1, tile2, tile3, tile3])];
        assert mentsu == m0 + [ShuntsuAt(i)];
        ghost var e0 := emitted;
        FindAllMentsu();
        assert emitted == e0 + Prefixed(m0 + [ShuntsuAt(i)], Decompositions(TakeShuntsu(c0, i)));
        mentsu := mentsu[..|mentsu| - 1];
        ReturnShuntsuTiles(i, c0);
        SequenceReported(c0, i, m0, e0);
      } else {
        assert SequenceReadings(counts[..], i) == [];
        assert Prefixed(mentsu, []) == [];
      }
    }

    /** Removes three tiles at i from the buffer. */
    method TakeKoutsuTiles(i: nat)
      requires counts.Length == TILE_COUNT && i < TILE_COUNT && counts[i] >= 3
      modifies counts
      ensures counts[..] == TakeKoutsu(old(counts[..]), i)
    {
      counts[i] := counts[i] - 3;
    }

    /** Puts the three tiles of a triplet taken from `c` back into the buffer. */
    method ReturnKoutsuTiles(i: nat, ghost c: Counts)
      requires counts.Length == TILE_COUNT && i < TILE_COUNT && c[i] >= 3 && counts[..] == TakeKoutsu(c, i)
      modifies counts
      ensures counts[..] == c
    {
      counts[i] := counts[i] + 3;
    }

    /** Removes one tile each at i, i+1 and i+2 from the buffer. */
    method TakeShuntsuTiles(i: nat)
      requires counts.Length == TILE_COUNT && CanTakeShuntsu(counts[..], i)
      modifies counts
      ensures counts[..] == TakeShuntsu(old(counts[..]), i)
    {
      counts[i] := counts[i] - 1;
      counts[i + 1] := counts[i + 1] - 1;
      counts[i + 2] := counts[i + 2] - 1;
    }

    /** Puts the three tiles of a sequence taken from `c` back into the buffer. */
    method ReturnShuntsuTiles(i: nat, ghost c: Counts)
      requires counts.Length == TILE_COUNT && CanTakeShuntsu(c, i) && counts[..] == TakeShuntsu(c, i)
      modifies counts
      ensures counts[..] == c
    {
      counts[i] := counts[i] + 1;
      counts[i + 1] := counts[i + 1] + 1;
      counts[i + 2] := counts[i + 2] + 1;
    }
  }
}
