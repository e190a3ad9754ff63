/** What the game promises across handlers: the day and the community level
    only move forward, infection and victory are terminal, entering resets the
    visit, the hard-coded decision flow, the zone tie-break, and the concrete
    scenarios of a work-from-home day, a social event and a hundred safe days. */
module PandemicGameProperties {
  import opened Wrappers
  import opened ChosenOptions
  import opened PandemicGameData
  import opened PandemicGame

  // ---------------------------------------------------------------------------
  // Day, community level and infection over one handler
  // ---------------------------------------------------------------------------

  /** How one handler may change the day counter, the community level and the
      infected flag: either nothing changes, or a safe day passes (day + 1,
      community level grown and capped at 1, days survived = day). Infection is
      never undone, and is only ever set without a day passing. */
  predicate Advances(s: Session, t: Session)
  {
    && (s.infected ==> t.infected)
    && (t.infected && !s.infected ==> t.day == s.day)
    && (t.day == s.day ==> t.communityLevel == s.communityLevel && t.daysSurvived == s.daysSurvived)
    && (t.day == s.day + 1 ==>
          && !t.infected
          && t.daysSurvived == t.day
          && t.communityLevel == MinReal(1.0, s.communityLevel + CommunityGrowth))
    && (t.day == s.day || t.day == s.day + 1)
  }

  /** A key press never resolves a visit: movement and entering leave the day,
      the community level and the infected flag alone. */
  lemma KeyKeepsDay(s: Session, key: Key, draw: real)
    requires 0.0 <= draw < 1.0
    requires ValidSession(s)
    ensures var t := KeyState(s, key, draw);
      t.day == s.day && t.communityLevel == s.communityLevel
      && t.daysSurvived == s.daysSurvived && t.infected == s.infected
  {
    if s.location == Overworld && (key == Enter || key == Space) {
      var z := CurrentZone(s);
      if z.Some? {
        var i :| 0 <= i < |Zones| && Zones[i] == z.value && FirstHit(Zones, i, s.charX, s.charY);
        ZonesEnterable(i);
      }
    }
  }

  lemma ResolveAdvances(s: Session, draw: real)
    requires 0.0 <= draw < 1.0
    requires ReadyToResolve(s)
    ensures Advances(s, ResolveState(s, draw))
  {
  }

  /** Answering a prompt either changes nothing of the day, community level
      and infection, or passes exactly one safe day, or infects the player on
      the same day. */
  lemma AnswerAdvances(s: Session, optIndex: nat, draw: real)
    requires 0.0 <= draw < 1.0
    requires ValidSession(s) && AwaitingAnswer(s)
    requires s.currentPrompt.Some? && optIndex < |s.currentPrompt.value.options|
    ensures s.chosenLocation.Some?
    ensures Advances(s, AnswerState(s, optIndex, draw))
  {
    match AnswerRoute(s, optIndex)
    case BackToOverworld => LeaveRoute(s, optIndex, draw);
    case EndVisit => EndRoute(s, optIndex, draw);
    case NextPrompt => ContinueRoute(s, optIndex, draw);
  }

  /** What an answer does to the day and to the visit, one lemma per route. */
  predicate AnswerEffect(s: Session, t: Session)
  {
    && Advances(s, t)
    && (AwaitingAnswer(t) ==> t.location == s.location && t.decisionStep == s.decisionStep + 1 && t.day == s.day)
  }

  lemma LeaveRoute(s: Session, optIndex: nat, draw: real)
    requires 0.0 <= draw < 1.0
    requires ValidSession(s) && AwaitingAnswer(s)
    requires s.currentPrompt.Some? && optIndex < |s.currentPrompt.value.options|
    requires AnswerRoute(s, optIndex) == BackToOverworld
    ensures s.chosenLocation.Some?
    ensures AnswerEffect(s, AnswerState(s, optIndex, draw))
  {
    AnsweredReady(s, optIndex);
    assert AnswerState(s, optIndex, draw) == OverworldState(Answered(s, optIndex));
  }

  lemma EndRoute(s: Session, optIndex: nat, draw: real)
    requires 0.0 <= draw < 1.0
    requires ValidSession(s) && AwaitingAnswer(s)
    requires s.currentPrompt.Some? && optIndex < |s.currentPrompt.value.options|
    requires AnswerRoute(s, optIndex) == EndVisit
    ensures s.chosenLocation.Some?
    ensures AnswerEffect(s, AnswerState(s, optIndex, draw))
  {
    AnsweredReady(s, optIndex);
    AnswerEnds(s, optIndex, draw);
    ResolveAdvances(Answered(s, optIndex), draw);
    ResolveEndsVisit(Answered(s, optIndex), draw);
  }

  lemma ContinueRoute(s: Session, optIndex: nat, draw: real)
    requires 0.0 <= draw < 1.0
    requires ValidSession(s) && AwaitingAnswer(s)
    requires s.currentPrompt.Some? && optIndex < |s.currentPrompt.value.options|
    requires AnswerRoute(s, optIndex) == NextPrompt
    ensures s.chosenLocation.Some?
    ensures AnswerEffect(s, AnswerState(s, optIndex, draw))
  {
    AwaitingHasLocation(s);
    AnsweredReady(s, optIndex);
    var s1 := Answered(s, optIndex);
    var s2 := s1.(decisionStep := s1.decisionStep + 1);
    var t := DecisionState(s2, s2.location, draw);
    assert AnswerState(s, optIndex, draw) == t by {
      AnswerContinues(s, optIndex, draw);
    }
    DecisionAdvances(s2, draw);
  }

  /** Showing the next prompt changes nothing of the day; resolving when
      there is none advances as a resolution does. */
  lemma DecisionAdvances(s: Session, draw: real)
    requires 0.0 <= draw < 1.0
    requires ReadyToResolve(s)
    ensures Advances(s, DecisionState(s, s.location, draw))
    ensures var t := DecisionState(s, s.location, draw);
      AwaitingAnswer(t) ==> t.location == s.location && t.decisionStep == s.decisionStep && t.day == s.day
  {
    if s.decisionStep >= |Decisions(s.location)| {
      ResolveAdvances(s, draw);
      ResolveEndsVisit(s, draw);
    }
  }

  /** Resolving a visit leaves no prompt awaiting: the player is infected,
      back in town, or past the last day. */
  lemma ResolveEndsVisit(s: Session, draw: real)
    requires 0.0 <= draw < 1.0
    requires ReadyToResolve(s)
    ensures !AwaitingAnswer(ResolveState(s, draw))
  {
  }

  /** Victory happens exactly when a safe day takes day 100 to day 101. */
  lemma VictoryOnlyFromLastDay(s: Session, optIndex: nat, draw: real)
    requires 0.0 <= draw < 1.0
    requires ValidSession(s) && AwaitingAnswer(s)
    requires s.currentPrompt.Some? && optIndex < |s.currentPrompt.value.options|
    ensures s.chosenLocation.Some?
    ensures Victory(AnswerState(s, optIndex, draw)) <==> s.day == LastDay && AnswerState(s, optIndex, draw).day == LastDay + 1
  {
    AnswerAdvances(s, optIndex, draw);
  }

  /** Once infected or victorious, no key does anything: the location view
      is never left for the town, so the arrow and Enter keys stay ignored. */
  lemma TerminalIsAbsorbing(s: Session, key: Key, draw: real)
    requires 0.0 <= draw < 1.0
    requires ValidSession(s) && Terminal(s)
    ensures KeyState(s, key, draw) == s
    ensures !AwaitingAnswer(s)
  {
  }

  // ---------------------------------------------------------------------------
  // Movement and entering
  // ---------------------------------------------------------------------------

  /** A step right followed by a step left is undone when the first is not clamped. */
  lemma RightThenLeftReturns(s: Session, draw: real)
    requires 0.0 <= draw < 1.0
    requires s.location == Overworld && s.charX + MoveStep <= MaxX && s.charX >= MinX
    ensures KeyState(KeyState(s, ArrowRight, draw), ArrowLeft, draw) == s
  {
  }

  /** A step down followed by a step up is undone when the first is not clamped. */
  lemma DownThenUpReturns(s: Session, draw: real)
    requires 0.0 <= draw < 1.0
    requires s.location == Overworld && s.charY + MoveStep <= MaxY && s.charY >= MinY
    ensures KeyState(KeyState(s, ArrowDown, draw), ArrowUp, draw) == s
  {
  }

  /** Entering the zone under the character starts a fresh visit there: the
      visit record is emptied and the first prompt is on screen. Away from
      every zone, Enter does nothing. */
  lemma EnterStartsFreshVisit(s: Session, draw: real)
    requires 0.0 <= draw < 1.0
    requires ValidSession(s) && s.location == Overworld
    ensures var t := KeyState(s, Enter, draw);
      match CurrentZone(s)
      case None => t == s
      case Some(z) =>
        && t.location == z.id
        && t.chosenLocation == Some(z.id)
        && t.decisionStep == 0
        && t.chosenOptions == []
        && |Decisions(z.id)| > 0
        && t.currentPrompt == Some(Decisions(z.id)[0])
        && AwaitingAnswer(t)
  {
    var z := CurrentZone(s);
    if z.Some? {
      var i :| 0 <= i < |Zones| && Zones[i] == z.value && FirstHit(Zones, i, s.charX, s.charY);
      ZonesEnterable(i);
    }
  }

  /** Where the buffers of two zones overlap, the zone declared first wins,
      even over a zone whose own rectangle holds the position: (80, 54) is in
      the social event's rectangle and in the school's buffer, and is the school. */
  lemma OverlapGoesToFirstDeclared()
    ensures InBox(Zones[3], 80, 54) && !InBox(Zones[2], 80, 54)
    ensures FirstZone(Zones, 80, 54) == Some(Zones[2])
  {
  }

  /** The back button abandons the visit: back in town with no roll, the day,
      the community level and the answers given so far all as they were. */
  lemma BackAbandonsVisit(s: Session)
    requires ValidSession(s) && AwaitingAnswer(s)
    ensures var t := BackState(s);
      && t.location == Overworld && !Terminal(t)
      && t.day == s.day && t.communityLevel == s.communityLevel
      && t.chosenOptions == s.chosenOptions && t.chosenLocation == s.chosenLocation
  {
  }

  /** A zone click with an id that names no location still opens the
      location view for that id, but writes no prompt of its own: the
      previous prompt stays on screen and every key is ignored. The back
      button of the view returns to the town, on the same day and level.
      (The previous prompt's option buttons also stay live; those clicks are
      not part of this model.) */
  lemma UnknownZoneKeepsOldPrompt(s: Session, locId: string, draw: real)
    requires 0.0 <= draw < 1.0
    requires s.location == Overworld && locId != "" && locId !in LocationIds
    ensures var t := ZoneClickState(s, locId, draw);
      && t.location == locId && t.currentPrompt == s.currentPrompt
      && (forall key :: KeyState(t, key, draw) == t)
      && BackState(t).location == Overworld && BackState(t).day == s.day
      && BackState(t).communityLevel == s.communityLevel
  {
  }

  // ---------------------------------------------------------------------------
  // The decision flow
  // ---------------------------------------------------------------------------

  /** The flow advances to the next prompt only on these four answers, and
      only when they carry a non-zero multiplier. */
  lemma NextPromptExactly(decisionId: string, optId: string, riskMod: real)
    ensures Next(decisionId, optId, riskMod) == NextPrompt <==>
      riskMod != 0.0 &&
      ((decisionId == "go_social" && optId == "yes")
       || (decisionId == "confirm_social" && optId == "yes")
       || (decisionId == "go_school" && optId == "yes")
       || (decisionId == "work_from_home" && optId == "no"))
    ensures Next(decisionId, optId, riskMod) == BackToOverworld <==> decisionId == "stay_home" && optId == "no"
  {
  }

  /** Every answer either shows the next prompt of the same visit or ends
      the visit; a prompt is never asked twice in one visit. */
  lemma AnswerMovesForward(s: Session, optIndex: nat, draw: real)
    requires 0.0 <= draw < 1.0
    requires ValidSession(s) && AwaitingAnswer(s)
    requires s.currentPrompt.Some? && optIndex < |s.currentPrompt.value.options|
    ensures s.chosenLocation.Some?
    ensures var t := AnswerState(s, optIndex, draw);
      AwaitingAnswer(t) ==> t.location == s.location && t.decisionStep == s.decisionStep + 1 && t.day == s.day
  {
    match AnswerRoute(s, optIndex)
    case BackToOverworld => LeaveRoute(s, optIndex, draw);
    case EndVisit => EndRoute(s, optIndex, draw);
    case NextPrompt => ContinueRoute(s, optIndex, draw);
  }

  /** "No" to staying home goes back to town: nothing is resolved, the day
      and the community level stay. */
  lemma LeavingHomeResolvesNothing(s: Session, optIndex: nat, draw: real)
    requires 0.0 <= draw < 1.0
    requires ValidSession(s) && AwaitingAnswer(s)
    requires s.currentPrompt.Some? && optIndex < |s.currentPrompt.value.options|
    requires s.currentPrompt.value.id == "stay_home" && s.currentPrompt.value.options[optIndex].id == "no"
    ensures s.chosenLocation.Some?
    ensures var t := AnswerState(s, optIndex, draw);
      t.location == Overworld && t.day == s.day && t.communityLevel == s.communityLevel && !t.infected
  {
    AwaitingHasLocation(s);
  }

  /** Any other answer with a zero multiplier ends the visit safely, whatever
      the draw: the product of the visit is zero, so no roll happens. */
  lemma ZeroRiskAnswerIsSafe(s: Session, optIndex: nat, draw: real)
    requires 0.0 <= draw < 1.0
    requires ValidSession(s) && AwaitingAnswer(s)
    requires s.currentPrompt.Some? && optIndex < |s.currentPrompt.value.options|
    requires s.currentPrompt.value.options[optIndex].riskMod == 0.0
    requires !(s.currentPrompt.value.id == "stay_home" && s.currentPrompt.value.options[optIndex].id == "no")
    ensures s.chosenLocation.Some?
    ensures var t := AnswerState(s, optIndex, draw);
      !t.infected && t.day == s.day + 1 && t.communityLevel == MinReal(1.0, s.communityLevel + CommunityGrowth)
  {
    AwaitingHasLocation(s);
    var decision := s.currentPrompt.value;
    var opt := decision.options[optIndex];
    var r := Put(s.chosenOptions, decision.id, Chosen(opt.id, opt.riskMod));
    GetFindsEntry(r, decision.id);
    ProductZeroIff(r);
  }

  /** At the hospital the first answer always ends the visit, so the
      waiting-room mask prompt is never shown: "yes" to testing carries a zero
      multiplier, and "no" is not one of the answers that advance. */
  lemma HospitalVisitEndsAfterOneAnswer(s: Session, optIndex: nat, draw: real)
    requires 0.0 <= draw < 1.0
    requires ValidSession(s) && AwaitingAnswer(s) && s.location == "hospital"
    requires s.currentPrompt.Some? && optIndex < |s.currentPrompt.value.options|
    ensures s.chosenLocation.Some?
    ensures !AwaitingAnswer(AnswerState(s, optIndex, draw))
  {
    AwaitingHasLocation(s);
    var decision := s.currentPrompt.value;
    var opt := decision.options[optIndex];
    assert Next(decision.id, opt.id, opt.riskMod) == EndVisit;
    var s1 := s.(chosenOptions := Put(s.chosenOptions, decision.id, Chosen(opt.id, opt.riskMod)));
    ResolveKeepsValid(s1, draw);
  }

  // ---------------------------------------------------------------------------
  // Scenarios
  // ---------------------------------------------------------------------------

  /** Working from home is safe whatever the draw: the day advances and the
      community level grows by the fixed increment. */
  lemma WorkFromHomeDay(s: Session, draw: real)
    requires 0.0 <= draw < 1.0
    requires ValidSession(s) && AwaitingAnswer(s) && s.location == "work" && s.decisionStep == 0
    ensures s.currentPrompt.Some? && |s.currentPrompt.value.options| == 2
    ensures s.chosenLocation.Some?
    ensures var t := AnswerState(s, 0, draw);
      !t.infected && t.day == s.day + 1 && t.communityLevel == MinReal(1.0, s.communityLevel + CommunityGrowth)
  {
    ZeroRiskAnswerIsSafe(s, 0, draw);
  }

  /** At a social event, having said yes twice, declining the mask leaves a
      multiplier of 1: the player is infected exactly when the draw falls
      below the capped no-distancing risk of the social row. */
  lemma SocialEventWithoutMask(s: Session, draw: real)
    requires 0.0 <= draw < 1.0
    requires ValidSession(s) && AwaitingAnswer(s) && s.location == "social" && s.decisionStep == 2
    requires s.chosenOptions == [Entry("go_social", Chosen("yes", 1.0)), Entry("confirm_social", Chosen("yes", 1.0))]
    ensures s.currentPrompt.Some? && |s.currentPrompt.value.options| == 2
    ensures s.chosenLocation.Some?
    ensures AnswerState(s, 1, draw).infected <==>
      draw < MinReal(RollCap, CalcInfectionRisk("social", false, s.communityLevel, s.agent))
  {
    AwaitingHasLocation(s);
    var e := Entry("mask_sd", Chosen("no", 1.0));
    assert Keys(s.chosenOptions) == ["go_social", "confirm_social"] by {
      assert s.chosenOptions[1..][1..] == [];
    }
    var r := Put(s.chosenOptions, "mask_sd", Chosen("no", 1.0));
    assert r == s.chosenOptions + [e];
    ProductSnoc(s.chosenOptions, e);
    assert Product(s.chosenOptions) == 1.0 by {
      var c := s.chosenOptions;
      assert c[1..][1..] == [];
      assert Product(c[1..][1..]) == 1.0;
      assert Product(c[1..]) == c[1].value.riskMod * Product(c[1..][1..]);
      assert Product(c) == c[0].value.riskMod * Product(c[1..]);
    }
    assert !UsesSD(r);
  }

  /** `n` safe days in a row. */
  function SafeDays(s: Session, n: nat): Session
    decreases n
  {
    if n == 0 then s else SafeDays(SafeDayState(s), n - 1)
  }

  lemma {:induction false} SafeDaysEffect(s: Session, n: nat)
    requires s.communityLevel <= 1.0
    decreases n
    ensures SafeDays(s, n).day == s.day + n
    ensures SafeDays(s, n).communityLevel == MinReal(1.0, s.communityLevel + (n as real) * CommunityGrowth)
    ensures SafeDays(s, n).infected == s.infected
  {
    if n > 0 {
      SafeDaysEffect(SafeDayState(s), n - 1);
    }
  }

  /** A hundred safe days from a fresh game reach day 101 and victory; the
      community level is already capped at 1 after 24 of them. */
  lemma HundredSafeDaysWin(agent: AgentState)
    ensures SafeDays(StartState(agent), 24).communityLevel == 1.0
    ensures SafeDays(StartState(agent), 100).day == LastDay + 1
    ensures Victory(SafeDays(StartState(agent), 100))
  {
    SafeDaysEffect(StartState(agent), 24);
    SafeDaysEffect(StartState(agent), 100);
  }
}
