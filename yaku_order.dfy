/** The order in which the yaku checkers push their entries
    (src/implements/yaku_checkers/standard/mod.rs and yakuman/mod.rs), and
    lists grown by conditional pushes along a fixed pattern of entries. */
module YakuOrder {
  import opened YakuTypes

  /** Position of an entry in the checkers' push order: 0..28 as
      find_standard_yaku pushes them (situational entries, yakuhai,
      meld-shape entries, terminal entries, flushes), then the game-state
      yakuman, the yakuman of check_standard_yakuman and the two kokushi
      entries; 29 for seven pairs and the dora entries. */
  function Ord(y: Yaku): (k: nat)
    ensures k <= 45
  {
    match y
    case DaburuRiichi => 0
    case Riichi => 1
    case Ippatsu => 2
    case MenzenTsumo => 3
    case HaiteiRaoyue => 4
    case HouteiRaoyui => 5
    case RinshanKaihou => 6
    case Chankan => 7
    case YakuhaiHaku => 8
    case YakuhaiHatsu => 9
    case YakuhaiChun => 10
    case YakuhaiBakaze => 11
    case YakuhaiJikaze => 12
    case Pinfu => 13
    case Tanyao => 14
    case Ryanpeikou => 15
    case Iipeikou => 16
    case SanshokuDoujun => 17
    case Ittsu => 18
    case Toitoi => 19
    case Sanankou => 20
    case Sankantsu => 21
    case SanshokuDoukou => 22
    case Shousangen => 23
    case Honroutou => 24
    case Junchan => 25
    case Chanta => 26
    case Chinitsu => 27
    case Honitsu => 28
    case Tenhou => 30
    case Chiihou => 31
    case Renhou => 32
    case Tsuuiisou => 33
    case Chinroutou => 34
    case Ryuuiisou => 35
    case Suukantsu => 36
    case SuuankouTanki => 37
    case Suuankou => 38
    case Daisangen => 39
    case Daisuushi => 40
    case Shousuushi => 41
    case JunseiChuurenPoutou => 42
    case ChuurenPoutou => 43
    case KokushiMusou => 44
    case KokushiMusouJusanmen => 45
    case _ => 29
  }

  /** Entries in strictly increasing push order (so each at most once). */
  predicate Increasing(p: seq<Yaku>)
  {
    forall i, j :: 0 <= i < j < |p| ==> Ord(p[i]) < Ord(p[j])
  }

  /** Neighbouring entries in strictly increasing push order. */
  predicate Adjacent(p: seq<Yaku>)
  {
    forall i :: 0 <= i < |p| - 1 ==> Ord(p[i]) < Ord(p[i + 1])
  }

  lemma {:induction false} AdjacentChain(p: seq<Yaku>, i: nat, j: nat)
    requires Adjacent(p) && i < j < |p|
    ensures Ord(p[i]) < Ord(p[j])
    decreases j - i
  {
    if i + 1 < j {
      AdjacentChain(p, i + 1, j);
    }
  }

  lemma AdjacentIncreasing(p: seq<Yaku>)
    requires Adjacent(p)
    ensures Increasing(p)
  {
    forall i, j | 0 <= i < j < |p|
      ensures Ord(p[i]) < Ord(p[j])
    {
      AdjacentChain(p, i, j);
    }
  }

  /** Increasing entries are pairwise distinct. */
  lemma IncreasingDistinct(p: seq<Yaku>)
    requires Increasing(p)
    ensures forall i, j :: 0 <= i < j < |p| ==> p[i] != p[j]
  {
  }

  /** The list grown by pushing p[i] whenever f[i] holds, for i below n, in
      that order. */
  function Pushes(p: seq<Yaku>, f: seq<bool>, n: nat): seq<Yaku>
    requires n <= |p| && n <= |f|
  {
    if n == 0 then [] else Pushes(p, f, n - 1) + (if f[n - 1] then [p[n - 1]] else [])
  }

  /** One more step: push p[k] when its condition holds. */
  lemma PushStep(p: seq<Yaku>, f: seq<bool>, k: nat, prev: seq<Yaku>, next: seq<Yaku>)
    requires k < |p| && k < |f| && prev == Pushes(p, f, k)
    requires next == if f[k] then prev + [p[k]] else prev
    ensures next == Pushes(p, f, k + 1)
  {
  }

  /** Every entry of the list was pushed by some step whose condition held,
      and every such step's entry is in the list; at most one entry per step. */
  lemma PushesMembers(p: seq<Yaku>, f: seq<bool>, n: nat)
    requires n <= |p| && n <= |f|
    ensures |Pushes(p, f, n)| <= n
    ensures forall y :: y in Pushes(p, f, n) ==> exists i :: 0 <= i < n && p[i] == y && f[i]
    ensures forall i :: 0 <= i < n && f[i] ==> p[i] in Pushes(p, f, n)
  {
    PushesLength(p, f, n);
    PushesFrom(p, f, n);
    PushesHas(p, f, n);
  }

  /** Every entry of the list was pushed by some step whose condition held. */
  lemma {:induction false} PushesFrom(p: seq<Yaku>, f: seq<bool>, n: nat)
    requires n <= |p| && n <= |f|
    ensures forall y :: y in Pushes(p, f, n) ==> exists i :: 0 <= i < n && p[i] == y && f[i]
  {
    if n > 0 {
      PushesFrom(p, f, n - 1);
      var prev := Pushes(p, f, n - 1);
      var last := if f[n - 1] then [p[n - 1]] else [];
      assert Pushes(p, f, n) == prev + last;
      forall y | y in prev + last
        ensures exists i :: 0 <= i < n && p[i] == y && f[i]
      {
        if y !in prev {
          assert p[n - 1] == y && f[n - 1];
        }
      }
    }
  }

  /** Every step whose condition held left its entry in the list. */
  lemma {:induction false} PushesHas(p: seq<Yaku>, f: seq<bool>, n: nat)
    requires n <= |p| && n <= |f|
    ensures forall i :: 0 <= i < n && f[i] ==> p[i] in Pushes(p, f, n)
  {
    if n > 0 {
      PushesHas(p, f, n - 1);
      var prev := Pushes(p, f, n - 1);
      var last := if f[n - 1] then [p[n - 1]] else [];
      assert Pushes(p, f, n) == prev + last;
    }
  }

  /** At most one entry per step. */
  lemma {:induction false} PushesLength(p: seq<Yaku>, f: seq<bool>, n: nat)
    requires n <= |p| && n <= |f|
    ensures |Pushes(p, f, n)| <= n
  {
    if n > 0 {
      PushesLength(p, f, n - 1);
    }
  }

  /** Every entry of the list comes from the pattern. */
  lemma PushesWithin(p: seq<Yaku>, f: seq<bool>, n: nat)
    requires n <= |p| && n <= |f|
    ensures forall y :: y in Pushes(p, f, n) ==> y in p[..n]
  {
    PushesMembers(p, f, n);
    forall y | y in Pushes(p, f, n)
      ensures y in p[..n]
    {
      var i :| 0 <= i < n && p[i] == y && f[i];
      assert p[..n][i] == y;
    }
  }

  /** Along an increasing pattern, an entry is in the list exactly when
      its own step's condition held. */
  lemma PushesMember(p: seq<Yaku>, f: seq<bool>, n: nat, k: nat)
    requires n <= |p| && n <= |f| && Increasing(p) && k < n
    ensures p[k] in Pushes(p, f, n) <==> f[k]
  {
    PushesMembers(p, f, n);
  }

  /** An entry whose push order is not in the pattern is never in the list. */
  lemma PushesAbsent(p: seq<Yaku>, f: seq<bool>, n: nat, y: Yaku)
    requires n <= |p| && n <= |f|
    requires forall i :: 0 <= i < n ==> Ord(p[i]) != Ord(y)
    ensures y !in Pushes(p, f, n)
  {
    PushesMembers(p, f, n);
  }

  /** Along an increasing pattern the list is increasing too: the entries
      come in push order, each at most once, and none ranks after p[n-1]. */
  lemma {:induction false} PushesIncreasing(p: seq<Yaku>, f: seq<bool>, n: nat)
    requires n <= |p| && n <= |f| && Increasing(p)
    ensures Increasing(Pushes(p, f, n))
    ensures n > 0 ==> forall y :: y in Pushes(p, f, n) ==> Ord(p[0]) <= Ord(y) <= Ord(p[n - 1])
  {
    if n > 0 {
      PushesIncreasing(p, f, n - 1);
      var prev := Pushes(p, f, n - 1);
      var last := if f[n - 1] then [p[n - 1]] else [];
      assert Pushes(p, f, n) == prev + last;
      if n > 1 {
        PushesRange(p, f, n - 1);
        assert Ord(p[n - 2]) < Ord(p[n - 1]);
      }
      IncreasingJoin(prev, last);
      PushesRange(p, f, n);
    }
  }

  /** Along an increasing pattern no entry ranks before p[0] or after
      p[n-1]. */
  lemma PushesRange(p: seq<Yaku>, f: seq<bool>, n: nat)
    requires 0 < n <= |p| && n <= |f| && Increasing(p)
    ensures forall y :: y in Pushes(p, f, n) ==> Ord(p[0]) <= Ord(y) <= Ord(p[n - 1])
  {
    PushesFrom(p, f, n);
    forall y | y in Pushes(p, f, n)
      ensures Ord(p[0]) <= Ord(y) <= Ord(p[n - 1])
    {
      var i :| 0 <= i < n && p[i] == y && f[i];
    }
  }

  /** Pushing along a prefix of the pattern does not look past it. */
  lemma {:induction false} PushesPrefix(p: seq<Yaku>, f: seq<bool>, q: seq<Yaku>, g: seq<bool>, n: nat)
    requires n <= |p| && n <= |f| && n <= |q| && n <= |g|
    requires forall i :: 0 <= i < n ==> p[i] == q[i] && f[i] == g[i]
    ensures Pushes(p, f, n) == Pushes(q, g, n)
  {
    if n > 0 {
      PushesPrefix(p, f, q, g, n - 1);
    }
  }

  /** Pushing along two patterns one after the other. */
  lemma {:induction false} PushesAppend(p1: seq<Yaku>, f1: seq<bool>, p2: seq<Yaku>, f2: seq<bool>, n: nat)
    requires |p1| == |f1| && n <= |p2| && n <= |f2|
    ensures Pushes(p1 + p2, f1 + f2, |p1| + n) == Pushes(p1, f1, |p1|) + Pushes(p2, f2, n)
  {
    if n == 0 {
      PushesPrefix(p1 + p2, f1 + f2, p1, f1, |p1|);
    } else {
      PushesAppend(p1, f1, p2, f2, n - 1);
      assert (p1 + p2)[|p1| + n - 1] == p2[n - 1];
      assert (f1 + f2)[|p1| + n - 1] == f2[n - 1];
    }
  }

  /** Pushing along two whole patterns one after the other. */
  lemma PushesConcat(p1: seq<Yaku>, f1: seq<bool>, p2: seq<Yaku>, f2: seq<bool>)
    requires |p1| == |f1| && |p2| == |f2|
    ensures Pushes(p1 + p2, f1 + f2, |p1 + p2|) == Pushes(p1, f1, |p1|) + Pushes(p2, f2, |p2|)
  {
    PushesAppend(p1, f1, p2, f2, |p2|);
  }

  /** Pushing along five whole patterns one after the other. */
  lemma PushesAppend5(a: seq<Yaku>, fa: seq<bool>, b: seq<Yaku>, fb: seq<bool>, c: seq<Yaku>, fc: seq<bool>,
                      d: seq<Yaku>, fd: seq<bool>, e: seq<Yaku>, fe: seq<bool>)
    requires |a| == |fa| && |b| == |fb| && |c| == |fc| && |d| == |fd| && |e| == |fe|
    ensures Pushes(a + b + c + d + e, fa + fb + fc + fd + fe, |a + b + c + d + e|) ==
      Pushes(a, fa, |a|) + Pushes(b, fb, |b|) + Pushes(c, fc, |c|) + Pushes(d, fd, |d|) + Pushes(e, fe, |e|)
  {
    PushesConcat(a, fa, b, fb);
    PushesConcat(a + b, fa + fb, c, fc);
    PushesConcat(a + b + c, fa + fb + fc, d, fd);
    PushesConcat(a + b + c + d, fa + fb + fc + fd, e, fe);
  }

  /** Two increasing patterns, the first ranking wholly before the second,
      make one increasing pattern. */
  lemma IncreasingAppend(a: seq<Yaku>, b: seq<Yaku>)
    requires Increasing(a) && Increasing(b)
    requires |a| > 0 && |b| > 0 && Ord(a[|a| - 1]) < Ord(b[0])
    ensures Increasing(a + b)
  {
    forall i, j | 0 <= i < j < |a + b|
      ensures Ord((a + b)[i]) < Ord((a + b)[j])
    {
      if i < |a| && j >= |a| {
        assert Ord(a[i]) <= Ord(a[|a| - 1]);
        assert Ord(b[0]) <= Ord(b[j - |a|]);
      }
    }
  }

  /** Two increasing lists, every entry of the first ranking before every
      entry of the second, make one increasing list. */
  lemma IncreasingJoin(a: seq<Yaku>, b: seq<Yaku>)
    requires Increasing(a) && Increasing(b)
    requires forall x, y :: x in a && y in b ==> Ord(x) < Ord(y)
    ensures Increasing(a + b)
  {
    forall i, j | 0 <= i < j < |a + b|
      ensures Ord((a + b)[i]) < Ord((a + b)[j])
    {
      if i < |a| && j >= |a| {
        assert a[i] in a && b[j - |a|] in b;
      }
    }
  }

  /** One entry when the condition holds: a conditional push. */
  function Opt(c: bool, y: Yaku): seq<Yaku>
  {
    if c then [y] else []
  }

  /** Eleven steps written out, one conditional push each. */
  lemma Unroll11(p: seq<Yaku>, f: seq<bool>)
    requires 11 <= |p| && 11 <= |f|
    ensures Pushes(p, f, 11) ==
      Opt(f[0], p[0]) + Opt(f[1], p[1]) + Opt(f[2], p[2]) + Opt(f[3], p[3]) + Opt(f[4], p[4]) +
      Opt(f[5], p[5]) + Opt(f[6], p[6]) + Opt(f[7], p[7]) + Opt(f[8], p[8]) + Opt(f[9], p[9]) +
      Opt(f[10], p[10])
  {
    Unroll10(p, f);
  }

  /** Ten steps written out. */
  lemma Unroll10(p: seq<Yaku>, f: seq<bool>)
    requires 10 <= |p| && 10 <= |f|
    ensures Pushes(p, f, 10) ==
      Opt(f[0], p[0]) + Opt(f[1], p[1]) + Opt(f[2], p[2]) + Opt(f[3], p[3]) + Opt(f[4], p[4]) +
      Opt(f[5], p[5]) + Opt(f[6], p[6]) + Opt(f[7], p[7]) + Opt(f[8], p[8]) + Opt(f[9], p[9])
  {
    Unroll9(p, f);
  }

  /** Nine steps written out. */
  lemma Unroll9(p: seq<Yaku>, f: seq<bool>)
    requires 9 <= |p| && 9 <= |f|
    ensures Pushes(p, f, 9) ==
      Opt(f[0], p[0]) + Opt(f[1], p[1]) + Opt(f[2], p[2]) + Opt(f[3], p[3]) + Opt(f[4], p[4]) +
      Opt(f[5], p[5]) + Opt(f[6], p[6]) + Opt(f[7], p[7]) + Opt(f[8], p[8])
  {
    Unroll8(p, f);
  }

  /** An entry pushed unconditionally in front of a pattern. */
  lemma {:induction false} PushesHead(y: Yaku, p: seq<Yaku>, f: seq<bool>, n: nat)
    requires n <= |p| && n <= |f|
    ensures Pushes([y] + p, [true] + f, n + 1) == [y] + Pushes(p, f, n)
  {
    if n > 0 {
      PushesHead(y, p, f, n - 1);
      assert ([y] + p)[n] == p[n - 1] && ([true] + f)[n] == f[n - 1];
    }
  }

  /** Eight steps written out. */
  lemma Unroll8(p: seq<Yaku>, f: seq<bool>)
    requires 8 <= |p| && 8 <= |f|
    ensures Pushes(p, f, 8) ==
      Opt(f[0], p[0]) + Opt(f[1], p[1]) + Opt(f[2], p[2]) + Opt(f[3], p[3]) + Opt(f[4], p[4]) +
      Opt(f[5], p[5]) + Opt(f[6], p[6]) + Opt(f[7], p[7])
  {
    var s := Opt(f[0], p[0]) + Opt(f[1], p[1]) + Opt(f[2], p[2]) + Opt(f[3], p[3]);
    assert Pushes(p, f, 1) == Opt(f[0], p[0]);
    assert Pushes(p, f, 2) == Opt(f[0], p[0]) + Opt(f[1], p[1]);
    assert Pushes(p, f, 3) == Opt(f[0], p[0]) + Opt(f[1], p[1]) + Opt(f[2], p[2]);
    assert Pushes(p, f, 4) == s;
    assert Pushes(p, f, 5) == s + Opt(f[4], p[4]);
    assert Pushes(p, f, 6) == s + Opt(f[4], p[4]) + Opt(f[5], p[5]);
    assert Pushes(p, f, 7) == s + Opt(f[4], p[4]) + Opt(f[5], p[5]) + Opt(f[6], p[6]);
  }

  /** Three steps written out. */
  lemma Unroll3(p: seq<Yaku>, f: seq<bool>)
    requires 3 <= |p| && 3 <= |f|
    ensures Pushes(p, f, 3) == Opt(f[0], p[0]) + Opt(f[1], p[1]) + Opt(f[2], p[2])
  {
    assert Pushes(p, f, 1) == Opt(f[0], p[0]);
  }
}
