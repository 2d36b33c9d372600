/** Flush checks (src/implements/yaku_checkers/standard/color.rs): one suit
    with honors (Honitsu) or one suit without (Chinitsu). */
module ColorCheck {
  import opened Tiles
  import opened Wrappers

  /** Some honor among the first n tiles. */
  predicate HonorIn(ts: seq<Hai>, n: nat)
    requires n <= |ts|
  {
    exists i :: 0 <= i < n && !ts[i].Suhai?
  }

  /** Some suited tile among the first n tiles. */
  predicate SuitedIn(ts: seq<Hai>, n: nat)
    requires n <= |ts|
  {
    exists i :: 0 <= i < n && ts[i].Suhai?
  }

  /** All suited tiles among the first n share one suit. */
  predicate OneSuitIn(ts: seq<Hai>, n: nat)
    requires n <= |ts|
  {
    forall i, j :: 0 <= i < n && 0 <= j < n && ts[i].Suhai? && ts[j].Suhai? ==> ts[i].suit == ts[j].suit
  }

  /** Suit of the first suited tile among the first n. */
  function FirstSuitIn(ts: seq<Hai>, n: nat): Option<Suit>
    requires n <= |ts|
  {
    if n == 0 then None
    else
      var f := FirstSuitIn(ts, n - 1);
      if f.Some? then f else if ts[n - 1].Suhai? then Some(ts[n - 1].suit) else None
  }

  /** The suit reported is that of the earliest suited tile, and there is one
      exactly when some tile is suited. */
  lemma {:induction false} FirstSuitSpec(ts: seq<Hai>, n: nat)
    requires n <= |ts|
    ensures FirstSuitIn(ts, n).Some? <==> SuitedIn(ts, n)
    ensures FirstSuitIn(ts, n).Some? ==>
      exists i :: 0 <= i < n && ts[i].Suhai? && FirstSuitIn(ts, n).value == ts[i].suit
        && forall j :: 0 <= j < i ==> !ts[j].Suhai?
  {
    if n > 0 {
      FirstSuitSpec(ts, n - 1);
      if FirstSuitIn(ts, n - 1).None? && ts[n - 1].Suhai? {
        assert forall j :: 0 <= j < n - 1 ==> !ts[j].Suhai?;
      }
    }
  }

  /** Once a suited tile has been seen the reported suit no longer changes. */
  lemma {:induction false} FirstSuitStays(ts: seq<Hai>, n: nat, m: nat)
    requires n <= m <= |ts| && FirstSuitIn(ts, n).Some?
    ensures FirstSuitIn(ts, m) == FirstSuitIn(ts, n)
    decreases m - n
  {
    if n < m {
      FirstSuitStays(ts, n + 1, m);
    }
  }

  /** The result of check_color as a statement about the whole list:
      (Honitsu, Chinitsu, first suit). Honitsu needs an honor and at most one
      suit; Chinitsu needs a suited tile, no honor and one suit. */
  function Color(ts: seq<Hai>): (bool, bool, Option<Suit>)
  {
    var n := |ts|;
    (HonorIn(ts, n) && OneSuitIn(ts, n),
     SuitedIn(ts, n) && !HonorIn(ts, n) && OneSuitIn(ts, n),
     FirstSuitIn(ts, n))
  }

  /** Chinitsu and Honitsu never hold together; an empty list gives neither;
      an all-honor list counts as Honitsu, as the source's flags leave it. */
  lemma ColorFacts(ts: seq<Hai>)
    ensures !(Color(ts).0 && Color(ts).1)
    ensures ts == [] ==> !Color(ts).0 && !Color(ts).1 && Color(ts).2.None?
    ensures ts != [] && (forall i :: 0 <= i < |ts| ==> !ts[i].Suhai?) ==>
      Color(ts).0 && !Color(ts).1 && Color(ts).2.None?
  {
    FirstSuitSpec(ts, |ts|);
    if ts != [] && (forall i :: 0 <= i < |ts| ==> !ts[i].Suhai?) {
      assert !ts[0].Suhai?;
    }
  }

  /** A flush (either kind) has one suit, and the reported suit is that suit. */
  lemma ColorSuit(ts: seq<Hai>, i: nat)
    requires i < |ts| && ts[i].Suhai?
    requires Color(ts).0 || Color(ts).1
    ensures Color(ts).2 == Some(ts[i].suit)
  {
    FirstSuitSpec(ts, |ts|);
  }

  /** check_color: scan once, stopping at the first tile of a second suit. */
  method CheckColor(ts: seq<Hai>) returns (r: (bool, bool, Option<Suit>))
    ensures r == Color(ts)
  {
    var suit: Option<Suit> := None;
    var hasJihai := false;
    var isHonitsu := true;
    var isChinitsu := true;
    ghost var firstIdx := 0;
    var i := 0;
    while i < |ts|
      invariant 0 <= i <= |ts|
      invariant isHonitsu && suit == FirstSuitIn(ts, i) && OneSuitIn(ts, i)
      invariant hasJihai == HonorIn(ts, i) && isChinitsu == !hasJihai
      invariant suit.Some? ==> firstIdx < i && ts[firstIdx].Suhai? && suit.value == ts[firstIdx].suit
      invariant suit.None? ==> !SuitedIn(ts, i)
    {
      match ts[i] {
        case Suhai(_, s) =>
          if suit.None? {
            suit := Some(s);
            firstIdx := i;
          } else if suit != Some(s) {
            isHonitsu := false;
            isChinitsu := false;
            assert !OneSuitIn(ts, |ts|) by {
              assert ts[firstIdx].suit != ts[i].suit;
            }
            FirstSuitStays(ts, i, |ts|);
            break;
          }
        case Kazehai(_) =>
          hasJihai := true;
          isChinitsu := false;
        case Sangenhai(_) =>
          hasJihai := true;
          isChinitsu := false;
      }
      i := i + 1;
    }
    if !hasJihai && suit.None? {
      isHonitsu := false;
      isChinitsu := false;
    }
    if !hasJihai {
      isHonitsu := false;
    }
    if isHonitsu || isChinitsu {
      FirstSuitSpec(ts, |ts|);
    }
    r := (isHonitsu, isChinitsu, suit);
  }

  /** check_honitsu: the Honitsu flag and the suit. */
  function CheckHonitsu(ts: seq<Hai>): (r: (bool, Option<Suit>))
    ensures r.0 ==> HonorIn(ts, |ts|) && !Color(ts).1
    ensures r.1 == FirstSuitIn(ts, |ts|)
  {
    (Color(ts).0, Color(ts).2)
  }

  /** check_chinitsu: the Chinitsu flag and the suit. */
  function CheckChinitsu(ts: seq<Hai>): (r: (bool, Option<Suit>))
    ensures r.0 ==> r.1.Some? && !Color(ts).0
    ensures r.0 ==> forall i :: 0 <= i < |ts| ==> ts[i].Suhai? && ts[i].suit == r.1.value
  {
    var c := Color(ts);
    FirstSuitSpec(ts, |ts|);
    (c.1, c.2)
  }
}
