/** Identical sequences (src/implements/yaku_checkers/standard/peikou.rs):
    one pair of identical sequences is Iipeikou, two pairs Ryanpeikou. */
module PeikouCheck {
  import opened Tiles
  import opened HandTypes
  import opened SeqLemmas

  /** The first tiles of the melds, with multiplicity. */
  function FirstTiles(ms: seq<Mentsu>): (r: multiset<Hai>)
    ensures |r| == |ms|
  {
    if ms == [] then multiset{}
    else FirstTiles(ms[..|ms| - 1]) + multiset{ms[|ms| - 1].tiles[0]}
  }

  /** Number of pairs among the tiles with a key in keys: the sum of
      halved multiplicities. */
  ghost function HalfSum(c: multiset<Hai>, keys: set<Hai>): nat
    decreases keys
  {
    if keys == {} then 0
    else
      var k :| k in keys;
      c[k] / 2 + HalfSum(c, keys - {k})
  }

  /** The distinct tiles of a multiset. */
  ghost function Support(c: multiset<Hai>): set<Hai>
  {
    set t | t in c
  }

  /** Number of pairs of identical sequences. */
  ghost function PairCount(ms: seq<Mentsu>): nat
  {
    var c := FirstTiles(ms);
    HalfSum(c, Support(c))
  }

  /** check_peikou as a statement: (Iipeikou, Ryanpeikou). */
  ghost function Peikou(ms: seq<Mentsu>): (bool, bool)
  {
    if |ms| < 2 then (false, false) else (PairCount(ms) == 1, PairCount(ms) == 2)
  }

  /** Any key can be taken out of the sum first. */
  lemma {:induction false} HalfSumRemove(c: multiset<Hai>, keys: set<Hai>, k: Hai)
    requires k in keys
    ensures HalfSum(c, keys) == c[k] / 2 + HalfSum(c, keys - {k})
    decreases keys
  {
    var j :| j in keys && HalfSum(c, keys) == c[j] / 2 + HalfSum(c, keys - {j});
    if j != k {
      HalfSumRemove(c, keys - {j}, k);
      HalfSumRemove(c, keys - {k}, j);
      assert keys - {j} - {k} == keys - {k} - {j};
    }
  }

  /** Each pair uses two sequences: there are at most half as many pairs as
      keys' multiplicities. */
  lemma {:induction false} HalfSumBound(c: multiset<Hai>, keys: set<Hai>)
    requires keys == Support(c)
    ensures 2 * HalfSum(c, keys) <= |c|
    decreases keys
  {
    if keys != {} {
      var k :| k in keys;
      HalfSumRemove(c, keys, k);
      var rest := c[k := 0];
      assert Support(rest) == keys - {k};
      HalfSumBound(rest, keys - {k});
      HalfSumAgree(c, rest, keys - {k});
      assert c == rest + multiset{}[k := c[k]];
    }
  }

  /** The sum reads only the multiplicities of its keys. */
  lemma {:induction false} HalfSumAgree(c: multiset<Hai>, d: multiset<Hai>, keys: set<Hai>)
    requires forall t :: t in keys ==> c[t] == d[t]
    ensures HalfSum(c, keys) == HalfSum(d, keys)
    decreases keys
  {
    if keys != {} {
      var k :| k in keys;
      HalfSumRemove(c, keys, k);
      HalfSumRemove(d, keys, k);
      HalfSumAgree(c, d, keys - {k});
    }
  }

  /** The two yaku exclude each other, and neither holds with fewer than
      four sequences for Ryanpeikou or two for Iipeikou. */
  lemma PeikouBounds(ms: seq<Mentsu>)
    ensures !(Peikou(ms).0 && Peikou(ms).1)
    ensures Peikou(ms).1 ==> |ms| >= 4
  {
    var c := FirstTiles(ms);
    HalfSumBound(c, Support(c));
  }

  /** The order of the sequences does not matter. */
  lemma PeikouPermutation(a: seq<Mentsu>, b: seq<Mentsu>)
    requires multiset(a) == multiset(b)
    ensures Peikou(a) == Peikou(b)
  {
    FirstTilesPermutation(a, b);
    assert |a| == |multiset(a)| == |b|;
  }

  /** First tiles of a concatenation. */
  lemma {:induction false} FirstTilesConcat(u: seq<Mentsu>, v: seq<Mentsu>)
    ensures FirstTiles(u + v) == FirstTiles(u) + FirstTiles(v)
    decreases |v|
  {
    if v == [] {
      assert u + v == u;
    } else {
      var p := v[..|v| - 1];
      assert (u + v)[..|u + v| - 1] == u + p;
      FirstTilesConcat(u, p);
    }
  }

  /** Taking one meld out of the list takes its first tile out. */
  lemma FirstTilesRemoveAt(b: seq<Mentsu>, j: nat)
    requires j < |b|
    ensures FirstTiles(b) == FirstTiles(b[..j] + b[j + 1..]) + multiset{b[j].tiles[0]}
  {
    var u, v := b[..j], b[j + 1..];
    var t := multiset{b[j].tiles[0]};
    Slices(b, j);
    calc {
      FirstTiles(b);
      { FirstTilesConcat(b[..j + 1], v); }
      FirstTiles(b[..j + 1]) + FirstTiles(v);
      (FirstTiles(u) + t) + FirstTiles(v);
      (FirstTiles(u) + FirstTiles(v)) + t;
      { FirstTilesConcat(u, v); }
      FirstTiles(u + v) + t;
    }
  }

  /** Taking one meld out of the list takes it out of the multiset. */
  lemma MultisetRemoveAt(b: seq<Mentsu>, j: nat)
    requires j < |b|
    ensures multiset(b[..j] + b[j + 1..]) == multiset(b) - multiset{b[j]}
  {
    assert b == b[..j] + [b[j]] + b[j + 1..];
    assert multiset(b) == multiset(b[..j]) + multiset{b[j]} + multiset(b[j + 1..]);
  }

  /** Permuted melds have the same first tiles. */
  lemma {:induction false} FirstTilesPermutation(a: seq<Mentsu>, b: seq<Mentsu>)
    requires multiset(a) == multiset(b)
    ensures FirstTiles(a) == FirstTiles(b)
    decreases |a|
  {
    if a == [] {
      assert |b| == |multiset(b)| == 0;
    } else {
      var n := |a| - 1;
      var x := a[n];
      assert x in multiset(b);
      var j :| 0 <= j < |b| && b[j] == x;
      MultisetRemoveAt(a, n);
      MultisetRemoveAt(b, j);
      assert a[..n] + a[n + 1..] == a[..n];
      FirstTilesPermutation(a[..n], b[..j] + b[j + 1..]);
      FirstTilesRemoveAt(a, n);
      FirstTilesRemoveAt(b, j);
    }
  }

  /** Two identical copies of each of two sequences give Ryanpeikou. */
  lemma RyanpeikouOfTwoPairs(ms: seq<Mentsu>, x: Hai, y: Hai)
    requires |ms| == 4 && x != y
    requires ms[0].tiles[0] == x && ms[1].tiles[0] == x
    requires ms[2].tiles[0] == y && ms[3].tiles[0] == y
    ensures Peikou(ms) == (false, true)
  {
    PairCountOfFour(ms, multiset{x, x, y, y});
    var c := FirstTiles(ms);
    assert Support(c) == {x, y};
    HalfSumRemove(c, {x, y}, x);
    assert {x, y} - {x} == {y};
    HalfSumRemove(c, {y}, y);
  }

  /** The same sequence four times also counts as two pairs, Ryanpeikou. */
  lemma RyanpeikouOfFourCopies(ms: seq<Mentsu>, x: Hai)
    requires |ms| == 4 && forall k :: 0 <= k < 4 ==> ms[k].tiles[0] == x
    ensures Peikou(ms) == (false, true)
  {
    PairCountOfFour(ms, multiset{x, x, x, x});
    var c := FirstTiles(ms);
    assert Support(c) == {x};
    HalfSumRemove(c, {x}, x);
  }

  /** One pair and two other distinct sequences give Iipeikou. */
  lemma IipeikouOfOnePair(ms: seq<Mentsu>, x: Hai, y: Hai, z: Hai)
    requires |ms| == 4 && x != y && y != z && x != z
    requires ms[0].tiles[0] == x && ms[1].tiles[0] == x
    requires ms[2].tiles[0] == y && ms[3].tiles[0] == z
    ensures Peikou(ms) == (true, false)
  {
    PairCountOfFour(ms, multiset{x, x, y, z});
    var c := FirstTiles(ms);
    assert Support(c) == {x, y, z};
    HalfSumRemove(c, {x, y, z}, x);
    assert {x, y, z} - {x} == {y, z};
    HalfSumRemove(c, {y, z}, y);
    assert {y, z} - {y} == {z};
    HalfSumRemove(c, {z}, z);
  }

  /** First tiles of a four-meld list. */
  lemma PairCountOfFour(ms: seq<Mentsu>, c: multiset<Hai>)
    requires |ms| == 4
    requires c == multiset{ms[0].tiles[0], ms[1].tiles[0], ms[2].tiles[0], ms[3].tiles[0]}
    ensures FirstTiles(ms) == c
  {
    assert ms[..1][..0] == [];
    assert FirstTiles(ms[..1]) == multiset{ms[0].tiles[0]};
    assert ms[..2][..1] == ms[..1];
    assert FirstTiles(ms[..2]) == multiset{ms[0].tiles[0], ms[1].tiles[0]};
    assert ms[..3][..2] == ms[..2];
    assert FirstTiles(ms[..3]) == multiset{ms[0].tiles[0], ms[1].tiles[0], ms[2].tiles[0]};
    assert ms[..3] == ms[..|ms| - 1];
  }

  /** The map holds exactly the nonzero multiplicities of the multiset. */
  ghost predicate Tallies(counts: map<Hai, nat>, seen: multiset<Hai>)
  {
    (forall t :: t in counts ==> counts[t] == seen[t] > 0) &&
    (forall t :: t !in counts ==> seen[t] == 0)
  }

  /** Counting one more tile keeps the map in step. */
  lemma TalliesAdd(counts: map<Hai, nat>, seen: multiset<Hai>, t: Hai)
    requires Tallies(counts, seen)
    ensures Tallies(counts[t := (if t in counts then counts[t] else 0) + 1], seen + multiset{t})
  {
  }

  /** The map's keys are the distinct tiles. */
  lemma TalliesKeys(counts: map<Hai, nat>, seen: multiset<Hai>)
    requires Tallies(counts, seen)
    ensures counts.Keys == Support(seen)
    ensures forall t :: t in counts ==> counts[t] == seen[t]
  {
  }

  /** The counting pass of check_peikou: how many sequences start with each
      tile. */
  method CountFirstTiles(shuntsu: seq<Mentsu>) returns (counts: map<Hai, nat>)
    ensures counts.Keys == Support(FirstTiles(shuntsu))
    ensures forall t :: t in counts ==> counts[t] == FirstTiles(shuntsu)[t]
  {
    counts := map[];
    ghost var seen: multiset<Hai> := multiset{};
    var i := 0;
    while i < |shuntsu|
      invariant 0 <= i <= |shuntsu|
      invariant seen == FirstTiles(shuntsu[..i])
      invariant Tallies(counts, seen)
    {
      var t := shuntsu[i].tiles[0];
      PrefixStep(shuntsu, i);
      TalliesAdd(counts, seen, t);
      var c := if t in counts then counts[t] else 0;
      counts := counts[t := c + 1];
      seen := seen + multiset{t};
      i := i + 1;
    }
    assert shuntsu[..i] == shuntsu;
    TalliesKeys(counts, seen);
  }

  /** check_peikou: count the sequences per first tile, then add up the
      halved counts. */
  method CheckPeikou(shuntsu: seq<Mentsu>) returns (r: (bool, bool))
    ensures r == Peikou(shuntsu)
  {
    if |shuntsu| < 2 {
      return (false, false);
    }
    var counts := CountFirstTiles(shuntsu);
    ghost var all := FirstTiles(shuntsu);
    var pairs := 0;
    var keys := counts.Keys;
    while keys != {}
      invariant keys <= counts.Keys
      invariant pairs + HalfSum(all, keys) == PairCount(shuntsu)
      decreases |keys|
    {
      var t :| t in keys;
      HalfSumRemove(all, keys, t);
      pairs := pairs + counts[t] / 2;
      keys := keys - {t};
    }
    r := (pairs == 1, pairs == 2);
  }
}
