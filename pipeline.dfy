/** The calculation pipeline (src/implements/mod.rs): organize the hand,
    evaluate its yaku, score it. The source wires one organization through
    the evaluator; the choice among several organizations is stated here as
    the highest total payment, the first one on ties. */
module AgariPipeline {
  import opened Wrappers
  import opened GameTypes
  import opened YakuTypes
  import opened YakuOrder
  import opened HandTypes
  import opened InputTypes
  import opened ScoringTypes
  import opened HandOrganizer
  import opened YakumanCheck
  import opened YakuCheck
  import opened Points
  import opened HanCalc
  import opened FuCalc
  import opened ScoreCalc

  // ---------------------------------------------------------------------
  // One organization
  // ---------------------------------------------------------------------

  /** calculate_agari for one organization: check_all_yaku's error is
      passed through, its result is scored. */
  ghost function AgariOf(org: HandOrganization, input: UserInput): Result<AgariResult>
  {
    match AllYaku(org, input.playerContext, input.gameContext, input.agariType)
    case Err(e) => Err(e)
    case Ok(yr) => Ok(CalculateScore(yr, input.playerContext, input.gameContext, input.agariType))
  }

  method CalculateAgariFor(org: HandOrganization, input: UserInput) returns (r: Result<AgariResult>)
    ensures r == AgariOf(org, input)
  {
    var player, game, agariType := input.playerContext, input.gameContext, input.agariType;
    var yakuResult := CheckAllYaku(org, player, game, agariType);
    if yakuResult.Err? {
      return Err(yakuResult.error);
    }
    r := Ok(CalculateScore(yakuResult.value, player, game, agariType));
  }

  /** A hand with a yakuman is paid as one: the yakuman limit, 13 han per
      yakuman weight, no red-five credit, and first-turn wins listed
      exactly when the game flags them. */
  lemma YakumanAgari(org: HandOrganization, input: UserInput)
    requires ResolveHandStructure(org, input.agariType).Ok?
    requires GameStateYakuman(input.gameContext) + ResolveHandStructure(org, input.agariType).value.1 != []
    ensures AgariOf(org, input).Ok?
    ensures var r := AgariOf(org, input).value;
      && r.limitName == Some(HandLimit.Yakuman) && r.numAkadora == 0
      && r.han == 13 * YakumanCount(r.yakuList) && r.han >= 13
      && (Tenhou in r.yakuList <==> input.gameContext.isTenhou)
  {
    var player, game, agariType := input.playerContext, input.gameContext, input.agariType;
    YakumanDecides(org, player, game, agariType);
    var yr := AllYaku(org, player, game, agariType).value;
    YakumanCountZero(yr.yakuList);
    YakumanScore(yr, player, game, agariType);
  }

  // ---------------------------------------------------------------------
  // As written: a hand without yaku is paid
  // ---------------------------------------------------------------------

  /** A four-melds-one-pair hand that satisfies no yaku and was not
      declared riichi is not rejected: check_all_yaku returns an empty list
      and calculate_score pays it at zero han, fu times four basic points. */
  lemma YakulessHandIsPaid(org: HandOrganization, input: UserInput)
    requires org.YonmentsuIchiatama?
    requires var res := ResolveHandStructure(org, input.agariType);
      && res.Ok? && GameStateYakuman(input.gameContext) + res.value.1 == []
      && RegularYaku(res.value.0, input.playerContext, input.gameContext, input.agariType) == []
      && !YakuCheck.Riichi(input.playerContext)
    ensures AgariOf(org, input).Ok?
    ensures var r := AgariOf(org, input).value;
      r.yakuList == [] && r.han == 0 && r.limitName.None? && r.totalPayment > 0
  {
    var player, game, agariType := input.playerContext, input.gameContext, input.agariType;
    var s := ResolveHandStructure(org, agariType).value.0;
    assert s.YonmentsuIchiatama? || s.ChuurenPoutou?;
    OnlyResolutionFails(org, player, game, agariType);
    assert AllYaku(org, player, game, agariType) == Ok(YakuResult(s, [], 0));
    EmptyListPaid(s, player, game, agariType);
  }

  /** An empty list on a four-melds-one-pair structure scores zero han and
      at least 20 fu, which the basic-point formula still pays. */
  lemma EmptyListPaid(s: HandStructure, player: PlayerContext, game: GameContext, agariType: AgariType)
    requires s.YonmentsuIchiatama? || s.ChuurenPoutou?
    ensures var r := CalculateScore(YakuResult(s, [], 0), player, game, agariType);
      r.yakuList == [] && r.han == 0 && r.limitName.None? && r.totalPayment > 0
  {
    HandFuBounds(s, [], player, game, agariType);
    var fu := Fu(s, [], player, game, agariType);
    assert Pow2(2) == 4;
    assert BasicPoints(0, fu) == (fu * 4, None);
    RoundUp100Least(fu * 4 * 1);
    RoundUp100Least(fu * 4 * 2);
    RoundUp100Least(fu * 4 * 4);
    RoundUp100Least(fu * 4 * 6);
  }

  // ---------------------------------------------------------------------
  // Corrected: a win needs a yaku
  // ---------------------------------------------------------------------

  /** calculate_agari for one organization, rejecting a hand whose yaku
      list is empty with the evaluator's own error. */
  ghost function LegalAgariOf(org: HandOrganization, input: UserInput): Result<AgariResult>
  {
    match AgariOf(org, input)
    case Err(e) => Err(e)
    case Ok(r) => if r.yakuList == [] then Err(NO_YAKU_FOUND) else Ok(r)
  }

  method CalculateLegalAgariFor(org: HandOrganization, input: UserInput) returns (r: Result<AgariResult>)
    ensures r == LegalAgariOf(org, input)
  {
    r := CalculateAgariFor(org, input);
    if r.Ok? && r.value.yakuList == [] {
      r := Err(NO_YAKU_FOUND);
    }
  }

  /** An accepted hand is worth at least one han, and every failure is the
      evaluator's "No Yaku Found": the organization fits no shape, or it
      fits one but satisfies no yaku. */
  lemma LegalAgariHasHan(org: HandOrganization, input: UserInput)
    ensures LegalAgariOf(org, input).Ok? ==> LegalAgariOf(org, input).value.han >= 1
    ensures LegalAgariOf(org, input).Err? <==>
      ResolveHandStructure(org, input.agariType).Err? ||
      AllYaku(org, input.playerContext, input.gameContext, input.agariType).value.yakuList == []
    ensures LegalAgariOf(org, input).Err? ==> LegalAgariOf(org, input).error == NO_YAKU_FOUND
  {
    var player, game, agariType := input.playerContext, input.gameContext, input.agariType;
    OnlyResolutionFails(org, player, game, agariType);
    ResolveErrIff(org, agariType);
    if LegalAgariOf(org, input).Ok? {
      var yr := AllYaku(org, player, game, agariType).value;
      var ys := yr.yakuList;
      if YakumanCount(ys) > 0 {
        YakumanScore(yr, player, game, agariType);
      } else {
        YakumanCountZero(ys);
        forall y | y in ys
          ensures YakumanValue(y) == 0
        {
          YakumanValueOrd(y);
        }
        HanBounds(ys, player.isMenzen);
        RegularScore(yr, player, game, agariType);
      }
    }
  }

  // ---------------------------------------------------------------------
  // Choosing among organizations
  // ---------------------------------------------------------------------

  /** The best accepted result of a list of candidates: the highest total
      payment, the earliest one on ties. */
  function Pick(cs: seq<Result<AgariResult>>): Option<AgariResult>
  {
    if cs == [] then None else Better(Pick(cs[..|cs| - 1]), cs[|cs| - 1])
  }

  /** The better of the best so far and the next candidate. */
  function Better(prev: Option<AgariResult>, c: Result<AgariResult>): Option<AgariResult>
  {
    match c
    case Err(_) => prev
    case Ok(r) => if prev.None? || r.totalPayment > prev.value.totalPayment then Some(r) else prev
  }

  lemma PickSnoc(cs: seq<Result<AgariResult>>, c: Result<AgariResult>)
    ensures Pick(cs + [c]) == Better(Pick(cs), c)
  {
    assert (cs + [c])[..|cs|] == cs;
  }

  /** The accepted or rejected result of each organization, in order. */
  ghost function Candidates(orgs: seq<HandOrganization>, input: UserInput): (cs: seq<Result<AgariResult>>)
    ensures |cs| == |orgs|
    ensures forall i :: 0 <= i < |orgs| ==> cs[i] == LegalAgariOf(orgs[i], input)
  {
    seq(|orgs|, i requires 0 <= i < |orgs| => LegalAgariOf(orgs[i], input))
  }

  /** The whole calculation: an organizer error is returned as is; with no
      accepted organization, "No Yaku Found". */
  ghost function Agari(input: UserInput): Result<AgariResult>
    requires |input.closedKans| + |input.openMelds| <= 4
  {
    match Organize(input)
    case Err(e) => Err(e)
    case Ok(orgs) =>
      match Pick(Candidates(orgs, input))
      case None => Err(NO_YAKU_FOUND)
      case Some(r) => Ok(r)
  }

  /** The selection loop: each organization is evaluated and scored in
      turn, keeping a strictly better payment. */
  method PickBest(orgs: seq<HandOrganization>, input: UserInput) returns (best: Option<AgariResult>)
    ensures best == Pick(Candidates(orgs, input))
  {
    ghost var cs := Candidates(orgs, input);
    best := None;
    for i := 0 to |orgs|
      invariant best == Pick(cs[..i])
    {
      var candidate := CalculateLegalAgariFor(orgs[i], input);
      assert cs[..i + 1] == cs[..i] + [candidate];
      PickSnoc(cs[..i], candidate);
      best := Better(best, candidate);
    }
    assert cs[..|orgs|] == cs;
  }

  method CalculateAgari(input: UserInput) returns (r: Result<AgariResult>)
    requires |input.closedKans| + |input.openMelds| <= 4
    ensures r == Agari(input)
  {
    var organization := OrganizeHand(input);
    if organization.Err? {
      return Err(organization.error);
    }
    var best := PickBest(organization.value, input);
    if best.None? {
      return Err(NO_YAKU_FOUND);
    }
    r := Ok(best.value);
  }

  /** The choice is one of the accepted results, comes before every other
      result paying as much, and no accepted result pays more; there is no
      choice exactly when every candidate is rejected. */
  lemma {:induction false} PickSpec(cs: seq<Result<AgariResult>>)
    ensures Pick(cs).None? <==> forall j :: 0 <= j < |cs| ==> cs[j].Err?
    ensures Pick(cs).Some? ==>
      var b := Pick(cs).value;
      && (exists i :: 0 <= i < |cs| && cs[i] == Ok(b) &&
            forall j :: 0 <= j < i && cs[j].Ok? ==> cs[j].value.totalPayment < b.totalPayment)
      && (forall j :: 0 <= j < |cs| && cs[j].Ok? ==> cs[j].value.totalPayment <= b.totalPayment)
  {
    if cs != [] {
      var init := cs[..|cs| - 1];
      PickSpec(init);
      assert forall j :: 0 <= j < |init| ==> init[j] == cs[j];
      var prev := Pick(init);
      var c := cs[|cs| - 1];
      if c.Ok? && (prev.None? || c.value.totalPayment > prev.value.totalPayment) {
        assert cs[|cs| - 1] == Ok(c.value);
      } else if prev.Some? {
        var i :| 0 <= i < |init| && init[i] == Ok(prev.value) &&
          forall j :: 0 <= j < i && init[j].Ok? ==> init[j].value.totalPayment < prev.value.totalPayment;
        assert cs[i] == Ok(prev.value);
      }
    }
  }

  /** The calculation fails only with the organizer's errors or "No Yaku
      Found"; when it succeeds, its result is that of one organization the
      organizer produced, paying at least as much as any other accepted
      organization and worth at least one han. */
  lemma AgariSpec(input: UserInput)
    requires |input.closedKans| + |input.openMelds| <= 4
    ensures Agari(input).Err? ==> Agari(input).error in {CHI_ERROR, NO_PAIR_ERROR, NO_YAKU_FOUND}
    ensures Agari(input).Ok? ==>
      var orgs, r := Organize(input).value, Agari(input).value;
      && (exists i :: 0 <= i < |orgs| && LegalAgariOf(orgs[i], input) == Ok(r))
      && (forall j :: 0 <= j < |orgs| && LegalAgariOf(orgs[j], input).Ok? ==>
            LegalAgariOf(orgs[j], input).value.totalPayment <= r.totalPayment)
      && r.han >= 1
  {
    OrganizeErrors(input);
    if Organize(input).Ok? {
      var orgs := Organize(input).value;
      var cs := Candidates(orgs, input);
      PickSpec(cs);
      if Agari(input).Ok? {
        var r := Agari(input).value;
        var i :| 0 <= i < |cs| && cs[i] == Ok(r);
        LegalAgariHasHan(orgs[i], input);
      }
    }
  }
}
