/** The game session controller: one mutable `game` record, the per-location
    decision state machine, the infection resolution and day advance, and the
    keyboard movement over the town map. DOM work, timers and toasts are left
    out; only the state updates remain.

    Each handler is a method of class `Game`, proved against a pure transition
    function on a `Session` snapshot (`State() == ...State(old(State()), ...)`);
    the session invariant `ValidSession` is proved about those functions. */
module PandemicGame {
  import opened Wrappers
  import opened ChosenOptions
  import opened PandemicGameData

  const InitCommunityLevel: real := 0.05
  const CommunityGrowth: real := 0.04
  const MoveStep: int := 3
  const CharInitX: int := 50
  const CharInitY: int := 55
  const MinX: int := 2
  const MaxX: int := 98
  const MinY: int := 5
  const MaxY: int := 95
  const LastDay: int := 100
  const ZoneBuffer: int := 2

  // ---------------------------------------------------------------------------
  // Zones of the town map
  // ---------------------------------------------------------------------------

  datatype Zone = Zone(id: string, x: int, y: int, w: int, h: int)

  const Zones: seq<Zone> := [
    Zone("home", 10, 50, 18, 30),
    Zone("work", 45, 15, 20, 40),
    Zone("school", 75, 18, 18, 35),
    Zone("social", 72, 52, 22, 32),
    Zone("hospital", 10, 15, 18, 25)
  ]

  predicate InBox(z: Zone, px: int, py: int)
  {
    z.x <= px <= z.x + z.w && z.y <= py <= z.y + z.h
  }

  /** The zone's rectangle grown by the buffer on every side. */
  predicate InBuffered(z: Zone, px: int, py: int)
  {
    z.x - ZoneBuffer <= px <= z.x + z.w + ZoneBuffer && z.y - ZoneBuffer <= py <= z.y + z.h + ZoneBuffer
  }

  /** The loop of `getCurrentZone`: the first zone, in list order, whose box
      or buffered box contains the position. */
  function FirstZone(zones: seq<Zone>, px: int, py: int): (r: Option<Zone>)
    ensures r.Some? ==> exists i :: 0 <= i < |zones| && zones[i] == r.value && FirstHit(zones, i, px, py)
    ensures r.None? <==> forall i :: 0 <= i < |zones| ==> !InBuffered(zones[i], px, py)
  {
    if zones == [] then None
    else if InBox(zones[0], px, py) then Some(zones[0])
    else if InBuffered(zones[0], px, py) then Some(zones[0])
    else
      var r := FirstZone(zones[1..], px, py);
      assert r.Some? ==> FirstHit(zones, 1 + IndexOf(zones[1..], r.value, px, py), px, py) by {
        if r.Some? {
          var i := IndexOf(zones[1..], r.value, px, py);
          assert zones[1..][i] == zones[i + 1];
          forall j | 0 <= j < i + 1 ensures !InBuffered(zones[j], px, py) {
            if j > 0 { assert zones[1..][j - 1] == zones[j]; }
          }
        }
      }
      assert r.None? ==> forall i :: 0 <= i < |zones| ==> !InBuffered(zones[i], px, py) by {
        if r.None? {
          forall i | 0 <= i < |zones| ensures !InBuffered(zones[i], px, py) {
            if i > 0 { assert zones[1..][i - 1] == zones[i]; }
          }
        }
      }
      r
  }

  /** Zone `i` contains the buffered position and no earlier zone does. */
  predicate FirstHit(zones: seq<Zone>, i: int, px: int, py: int)
    requires 0 <= i < |zones|
  {
    InBuffered(zones[i], px, py) && forall j :: 0 <= j < i ==> !InBuffered(zones[j], px, py)
  }

  /** The position of the zone `FirstZone` found. */
  ghost function IndexOf(zones: seq<Zone>, z: Zone, px: int, py: int): (i: int)
    requires exists i :: 0 <= i < |zones| && zones[i] == z && FirstHit(zones, i, px, py)
    ensures 0 <= i < |zones| && zones[i] == z && FirstHit(zones, i, px, py)
  {
    var i :| 0 <= i < |zones| && zones[i] == z && FirstHit(zones, i, px, py); i
  }

  // ---------------------------------------------------------------------------
  // The session record and its invariant
  // ---------------------------------------------------------------------------

  /** A snapshot of the `game` record. */
  datatype Session = Session(
    day: int,
    daysSurvived: int,
    location: string,
    communityLevel: real,
    infected: bool,
    decisionStep: int,
    chosenLocation: Option<string>,
    chosenOptions: Record,
    currentPrompt: Option<Decision>,
    agent: Option<AgentState>,
    charX: int,
    charY: int)

  /** The game is over: infected, or survived past the last day. */
  predicate Terminal(s: Session)
  {
    s.infected || s.day > LastDay
  }

  predicate Victory(s: Session)
  {
    s.day > LastDay && !s.infected
  }

  /** A location can be entered: it is defined and has at least one decision. */
  predicate Enterable(locId: string)
  {
    locId != Overworld && locId in LocationIds
  }

  /** While a visit is on screen, the prompt shown is the current step's decision. */
  predicate VisitInProgress(s: Session)
  {
    && s.chosenLocation == Some(s.location)
    && Enterable(s.location)
    && 0 <= s.decisionStep < |Decisions(s.location)|
    && s.currentPrompt == Some(Decisions(s.location)[s.decisionStep])
  }

  /** The player can answer a prompt: a location view is shown and the game is not over. */
  predicate AwaitingAnswer(s: Session)
  {
    s.location != Overworld && !Terminal(s)
  }

  predicate ValidSession(s: Session)
  {
    && 1 <= s.day <= LastDay + 1
    && 0 <= s.daysSurvived <= s.day
    && InitCommunityLevel <= s.communityLevel <= 1.0
    && 0 <= s.decisionStep
    && MinX <= s.charX <= MaxX && MinY <= s.charY <= MaxY
    && DistinctKeys(s.chosenOptions)
    && !(s.infected && s.day > LastDay)
    && (Terminal(s) ==> s.location != Overworld)
    && (AwaitingAnswer(s) ==> VisitInProgress(s))
  }

  // ---------------------------------------------------------------------------
  // Transitions, one per handler of the source
  // ---------------------------------------------------------------------------

  /** `setScene`: an empty id means the town. */
  function SceneOf(locId: string): string
  {
    if locId == "" then Overworld else locId
  }

  function OverworldState(s: Session): Session
  {
    s.(location := Overworld)
  }

  /** `safeDay`: community level grows (capped at 1), the day advances; past
      the last day the victory screen is shown and the location is kept. */
  function SafeDayState(s: Session): Session
  {
    var day := s.day + 1;
    s.(communityLevel := MinReal(1.0, s.communityLevel + CommunityGrowth),
       day := day,
       daysSurvived := day,
       location := if day > LastDay then s.location else Overworld)
  }

  /** `resolveInfection`. */
  function ResolveState(s: Session, draw: real): Session
    requires 0.0 <= draw < 1.0
  {
    if s.chosenLocation.None? then s
    else
      var def := GetLocationDef(s.chosenLocation.value);
      if def.None? then s
      else
        var total := Product(s.chosenOptions);
        if total == 0.0 then SafeDayState(s)
        else if RollInfection(def.value, total, s.communityLevel, s.agent, s.chosenOptions, draw) then
          s.(infected := true)
        else SafeDayState(s)
  }

  /** `showLocationDecision`: show the current step's prompt, or end the visit
      when the step is past the last decision. */
  function DecisionState(s: Session, locId: string, draw: real): Session
    requires 0.0 <= draw < 1.0
  {
    var def := GetLocationDef(locId);
    if def.None? || def.value.decisions.None? then s
    else
      var ds := def.value.decisions.value;
      if !(0 <= s.decisionStep < |ds|) then ResolveState(s, draw)
      else s.(currentPrompt := Some(ds[s.decisionStep]))
  }

  /** `showLocationView`: reset the visit, then show the first prompt. */
  function EnterState(s: Session, locId: string, draw: real): Session
    requires 0.0 <= draw < 1.0
  {
    var s1 := s.(location := SceneOf(locId), chosenLocation := Some(locId),
                 decisionStep := 0, chosenOptions := []);
    DecisionState(s1, locId, draw)
  }

  /** Where an answer leads, as hard-coded by the option button handler. */
  datatype Step = BackToOverworld | EndVisit | NextPrompt

  function Next(decisionId: string, optId: string, riskMod: real): Step
  {
    if decisionId == "stay_home" && optId == "no" then BackToOverworld
    else if riskMod == 0.0 then EndVisit
    else if decisionId == "go_social" && optId == "yes" then NextPrompt
    else if decisionId == "confirm_social" && optId == "yes" then NextPrompt
    else if decisionId == "go_school" && optId == "yes" then NextPrompt
    else if decisionId == "work_from_home" && optId == "no" then NextPrompt
    else if decisionId == "work_from_home" && optId == "yes" then EndVisit
    else if decisionId == "mask_sd" || decisionId == "stay_home" then EndVisit
    else EndVisit
  }

  /** The answer to the prompt on screen, recorded under its decision id. */
  function Answered(s: Session, optIndex: nat): Session
    requires s.currentPrompt.Some? && optIndex < |s.currentPrompt.value.options|
  {
    var decision := s.currentPrompt.value;
    var opt := decision.options[optIndex];
    s.(chosenOptions := Put(s.chosenOptions, decision.id, Chosen(opt.id, opt.riskMod)))
  }

  /** A click on option `optIndex` of the prompt on screen. */
  function AnswerState(s: Session, optIndex: nat, draw: real): Session
    requires 0.0 <= draw < 1.0
    requires s.currentPrompt.Some? && optIndex < |s.currentPrompt.value.options|
    requires s.chosenLocation.Some?
  {
    RouteState(AnswerRoute(s, optIndex), Answered(s, optIndex), s.chosenLocation.value, draw)
  }

  /** Where the recorded answer `s1` leads: back to town, the end of the
      visit, or the next prompt of `locId`. */
  function RouteState(step: Step, s1: Session, locId: string, draw: real): Session
    requires 0.0 <= draw < 1.0
  {
    match step
    case BackToOverworld => OverworldState(s1)
    case EndVisit => ResolveState(s1, draw)
    case NextPrompt => DecisionState(s1.(decisionStep := s1.decisionStep + 1), locId, draw)
  }

  function CurrentZone(s: Session): Option<Zone>
  {
    FirstZone(Zones, s.charX, s.charY)
  }

  /** `tryEnterLocation`. */
  function TryEnterState(s: Session, draw: real): Session
    requires 0.0 <= draw < 1.0
  {
    var z := CurrentZone(s);
    if z.None? then s else EnterState(s, z.value.id, draw)
  }

  datatype Key = ArrowUp | ArrowDown | ArrowLeft | ArrowRight | Enter | Space | OtherKey

  /** `handleKeydown`: only in the town; arrows move by a clamped step,
      Enter and Space try to enter the zone under the character. */
  function KeyState(s: Session, key: Key, draw: real): Session
    requires 0.0 <= draw < 1.0
  {
    if s.location != Overworld then s
    else
      match key
      case ArrowUp => s.(charY := MaxInt(MinY, s.charY - MoveStep))
      case ArrowDown => s.(charY := MinInt(MaxY, s.charY + MoveStep))
      case ArrowLeft => s.(charX := MaxInt(MinX, s.charX - MoveStep))
      case ArrowRight => s.(charX := MinInt(MaxX, s.charX + MoveStep))
      case Enter => TryEnterState(s, draw)
      case Space => TryEnterState(s, draw)
      case OtherKey => s
  }

  /** The click handler of a town zone: only in the town, and only for a
      non-empty location id. */
  function ZoneClickState(s: Session, locId: string, draw: real): Session
    requires 0.0 <= draw < 1.0
  {
    if s.location != Overworld then s
    else if locId == "" then s
    else EnterState(s, locId, draw)
  }

  /** The back button of the location view: back to the town, with the visit
      left as it stands. */
  function BackState(s: Session): Session
  {
    s.(location := SceneOf(Overworld))
  }

  /** `startGame`: a fresh session for the given agent. */
  function StartState(agent: AgentState): Session
  {
    Session(1, 1, Overworld, InitCommunityLevel, false, 0, None, [], None, Some(agent), CharInitX, CharInitY)
  }

  // ---------------------------------------------------------------------------
  // The session invariant is kept by every handler under its preconditions
  // ---------------------------------------------------------------------------

  lemma ZonesEnterable(i: int)
    requires 0 <= i < |Zones|
    ensures Enterable(Zones[i].id)
  {
  }

  /** What holds of a visit at the moment it is resolved. */
  predicate ReadyToResolve(s: Session)
  {
    && 1 <= s.day <= LastDay
    && !s.infected
    && 0 <= s.daysSurvived <= s.day
    && InitCommunityLevel <= s.communityLevel <= 1.0
    && 0 <= s.decisionStep
    && MinX <= s.charX <= MaxX && MinY <= s.charY <= MaxY
    && DistinctKeys(s.chosenOptions)
    && s.chosenLocation == Some(s.location)
    && Enterable(s.location)
  }

  lemma ResolveKeepsValid(s: Session, draw: real)
    requires 0.0 <= draw < 1.0
    requires ReadyToResolve(s)
    ensures ValidSession(ResolveState(s, draw))
  {
  }

  lemma EnterKeepsValid(s: Session, locId: string, draw: real)
    requires 0.0 <= draw < 1.0
    requires ValidSession(s) && s.location == Overworld && Enterable(locId)
    ensures ValidSession(EnterState(s, locId, draw))
  {
  }

  lemma KeyKeepsValid(s: Session, key: Key, draw: real)
    requires 0.0 <= draw < 1.0
    requires ValidSession(s)
    ensures ValidSession(KeyState(s, key, draw))
  {
    if s.location == Overworld && (key == Enter || key == Space) {
      var z := CurrentZone(s);
      if z.Some? {
        var i :| 0 <= i < |Zones| && Zones[i] == z.value && FirstHit(Zones, i, s.charX, s.charY);
        ZonesEnterable(i);
        EnterKeepsValid(s, z.value.id, draw);
      }
    }
  }

  lemma ZoneClickKeepsValid(s: Session, locId: string, draw: real)
    requires 0.0 <= draw < 1.0
    requires ValidSession(s) && Enterable(locId)
    ensures ValidSession(ZoneClickState(s, locId, draw))
  {
    if s.location == Overworld {
      EnterKeepsValid(s, locId, draw);
    }
  }

  /** The back button sits in the location view, which is shown only while
      a prompt is awaiting an answer. */
  lemma BackKeepsValid(s: Session)
    requires ValidSession(s) && AwaitingAnswer(s)
    ensures ValidSession(BackState(s))
  {
  }

  lemma AwaitingHasLocation(s: Session)
    requires ValidSession(s) && AwaitingAnswer(s)
    ensures s.chosenLocation == Some(s.location)
  {
  }

  lemma AnswerKeepsValid(s: Session, optIndex: nat, draw: real)
    requires 0.0 <= draw < 1.0
    requires ValidSession(s) && AwaitingAnswer(s)
    requires s.currentPrompt.Some? && optIndex < |s.currentPrompt.value.options|
    ensures s.chosenLocation.Some?
    ensures ValidSession(AnswerState(s, optIndex, draw))
  {
    match AnswerRoute(s, optIndex)
    case BackToOverworld => AnswerLeavesValid(s, optIndex, draw);
    case EndVisit => AnswerEndsValid(s, optIndex, draw);
    case NextPrompt => AnswerContinuesValid(s, optIndex, draw);
  }

  lemma AnswerLeavesValid(s: Session, optIndex: nat, draw: real)
    requires 0.0 <= draw < 1.0
    requires ValidSession(s) && AwaitingAnswer(s)
    requires s.currentPrompt.Some? && optIndex < |s.currentPrompt.value.options|
    requires AnswerRoute(s, optIndex) == BackToOverworld
    ensures s.chosenLocation.Some?
    ensures ValidSession(AnswerState(s, optIndex, draw))
  {
    AnsweredReady(s, optIndex);
    AnswerLeaves(s, optIndex, draw);
  }

  lemma AnswerEndsValid(s: Session, optIndex: nat, draw: real)
    requires 0.0 <= draw < 1.0
    requires ValidSession(s) && AwaitingAnswer(s)
    requires s.currentPrompt.Some? && optIndex < |s.currentPrompt.value.options|
    requires AnswerRoute(s, optIndex) == EndVisit
    ensures s.chosenLocation.Some?
    ensures ValidSession(AnswerState(s, optIndex, draw))
  {
    AnsweredReady(s, optIndex);
    AnswerEnds(s, optIndex, draw);
    ResolveKeepsValid(Answered(s, optIndex), draw);
  }

  lemma AnswerContinuesValid(s: Session, optIndex: nat, draw: real)
    requires 0.0 <= draw < 1.0
    requires ValidSession(s) && AwaitingAnswer(s)
    requires s.currentPrompt.Some? && optIndex < |s.currentPrompt.value.options|
    requires AnswerRoute(s, optIndex) == NextPrompt
    ensures s.chosenLocation.Some?
    ensures ValidSession(AnswerState(s, optIndex, draw))
  {
    AnsweredReady(s, optIndex);
    AnswerContinues(s, optIndex, draw);
    var s1 := Answered(s, optIndex);
    DecisionKeepsValid(s1.(decisionStep := s1.decisionStep + 1), draw);
  }

  /** Where the answer `optIndex` to the prompt on screen leads. */
  function AnswerRoute(s: Session, optIndex: nat): Step
    requires s.currentPrompt.Some? && optIndex < |s.currentPrompt.value.options|
  {
    var opt := s.currentPrompt.value.options[optIndex];
    Next(s.currentPrompt.value.id, opt.id, opt.riskMod)
  }

  lemma AnswerLeaves(s: Session, optIndex: nat, draw: real)
    requires 0.0 <= draw < 1.0
    requires s.currentPrompt.Some? && optIndex < |s.currentPrompt.value.options|
    requires s.chosenLocation.Some? && AnswerRoute(s, optIndex) == BackToOverworld
    ensures AnswerState(s, optIndex, draw) == OverworldState(Answered(s, optIndex))
  {
  }

  lemma AnswerEnds(s: Session, optIndex: nat, draw: real)
    requires 0.0 <= draw < 1.0
    requires s.currentPrompt.Some? && optIndex < |s.currentPrompt.value.options|
    requires s.chosenLocation.Some? && AnswerRoute(s, optIndex) == EndVisit
    ensures AnswerState(s, optIndex, draw) == ResolveState(Answered(s, optIndex), draw)
  {
  }

  lemma AnswerContinues(s: Session, optIndex: nat, draw: real)
    requires 0.0 <= draw < 1.0
    requires s.currentPrompt.Some? && optIndex < |s.currentPrompt.value.options|
    requires s.chosenLocation.Some? && AnswerRoute(s, optIndex) == NextPrompt
    ensures var s1 := Answered(s, optIndex);
      AnswerState(s, optIndex, draw) == DecisionState(s1.(decisionStep := s1.decisionStep + 1), s.chosenLocation.value, draw)
  {
  }

  /** Recording an answer changes only the visit's answers, which keep
      distinct keys: the visit is ready to be resolved. */
  lemma AnsweredReady(s: Session, optIndex: nat)
    requires ValidSession(s) && AwaitingAnswer(s)
    requires s.currentPrompt.Some? && optIndex < |s.currentPrompt.value.options|
    ensures ReadyToResolve(Answered(s, optIndex))
    ensures var s1 := Answered(s, optIndex);
      && s1.day == s.day && s1.daysSurvived == s.daysSurvived
      && s1.communityLevel == s.communityLevel && s1.infected == s.infected
      && s1.location == s.location && s1.decisionStep == s.decisionStep
    ensures Answered(s, optIndex).(chosenOptions := s.chosenOptions) == s
  {
  }

  /** Showing the next prompt of a visit in progress keeps the invariant,
      and so does resolving the visit when there is no next prompt. */
  lemma DecisionKeepsValid(s: Session, draw: real)
    requires 0.0 <= draw < 1.0
    requires ReadyToResolve(s)
    ensures ValidSession(DecisionState(s, s.location, draw))
  {
    if s.decisionStep >= |Decisions(s.location)| {
      ResolveKeepsValid(s, draw);
    }
  }

  lemma StartValid(agent: AgentState)
    ensures ValidSession(StartState(agent))
  {
  }

  // ---------------------------------------------------------------------------
  // The mutable game record
  // ---------------------------------------------------------------------------

  class Game {
    var day: int
    var daysSurvived: int
    var location: string
    var communityLevel: real
    var infected: bool
    var decisionStep: int
    var chosenLocation: Option<string>
    var chosenOptions: Record
    var currentPrompt: Option<Decision>
    var agent: Option<AgentState>
    var charX: int
    var charY: int

    function State(): Session
      reads this
    {
      Session(day, daysSurvived, location, communityLevel, infected, decisionStep,
              chosenLocation, chosenOptions, currentPrompt, agent, charX, charY)
    }

    ghost predicate Valid()
      reads this
    {
      ValidSession(State())
    }

    /** The record as the script first creates it, before any game is started. */
    constructor ()
      ensures Valid()
      ensures State() == Session(1, 0, Overworld, InitCommunityLevel, false, 0, None, [], None, None, CharInitX, CharInitY)
    {
      day := 1;
      daysSurvived := 0;
      location := Overworld;
      communityLevel := InitCommunityLevel;
      infected := false;
      decisionStep := 0;
      chosenLocation := None;
      chosenOptions := [];
      currentPrompt := None;
      agent := None;
      charX := CharInitX;
      charY := CharInitY;
    }

    method SetScene(locId: string)
      modifies this
      ensures State() == old(State()).(location := SceneOf(locId))
    {
      location := if locId == "" then Overworld else locId;
    }

    method ShowOverworld()
      modifies this
      ensures State() == OverworldState(old(State()))
    {
      SetScene(Overworld);
    }

    method SafeDay()
      modifies this
      ensures State() == SafeDayState(old(State()))
    {
      communityLevel := MinReal(1.0, communityLevel + CommunityGrowth);
      day := day + 1;
      daysSurvived := day;
      if day > LastDay {
        return;
      }
      ShowOverworld();
    }

    method ResolveInfection(draw: real)
      requires 0.0 <= draw < 1.0
      modifies this
      ensures State() == ResolveState(old(State()), draw)
    {
      if chosenLocation.None? {
        return;
      }
      var def := GetLocationDef(chosenLocation.value);
      if def.None? {
        return;
      }
      var totalRiskMod := TotalRiskMod(chosenOptions);
      if totalRiskMod == 0.0 {
        SafeDay();
        return;
      }
      var caught := RollInfection(def.value, totalRiskMod, communityLevel, agent, chosenOptions, draw);
      if caught {
        infected := true;
      } else {
        SafeDay();
      }
    }

    method EndLocationVisit(draw: real)
      requires 0.0 <= draw < 1.0
      modifies this
      ensures State() == ResolveState(old(State()), draw)
    {
      ResolveInfection(draw);
    }

    method ShowLocationDecision(locId: string, draw: real)
      requires 0.0 <= draw < 1.0
      modifies this
      ensures State() == DecisionState(old(State()), locId, draw)
    {
      var def := GetLocationDef(locId);
      if def.None? || def.value.decisions.None? {
        return;
      }
      var ds := def.value.decisions.value;
      if !(0 <= decisionStep < |ds|) {
        EndLocationVisit(draw);
        return;
      }
      currentPrompt := Some(ds[decisionStep]);
    }

    method ShowLocationView(locId: string, draw: real)
      requires 0.0 <= draw < 1.0
      modifies this
      ensures State() == EnterState(old(State()), locId, draw)
    {
      SetScene(locId);
      chosenLocation := Some(locId);
      decisionStep := 0;
      chosenOptions := [];
      ShowLocationDecision(locId, draw);
    }

    /** The click handler of option button `optIndex` of the prompt on screen. */
    method ChooseOption(optIndex: nat, draw: real)
      requires 0.0 <= draw < 1.0
      requires Valid() && AwaitingAnswer(State())
      requires currentPrompt.Some? && optIndex < |currentPrompt.value.options|
      modifies this
      ensures Valid()
      ensures State() == AnswerState(old(State()), optIndex, draw)
    {
      ghost var s0 := State();
      AwaitingHasLocation(s0);
      AnswerKeepsValid(s0, optIndex, draw);
      var decision := currentPrompt.value;
      var locId := chosenLocation.value;
      var opt := decision.options[optIndex];
      var step := Next(decision.id, opt.id, opt.riskMod);
      assert step == AnswerRoute(s0, optIndex);
      chosenOptions := Put(chosenOptions, decision.id, Chosen(opt.id, opt.riskMod));
      assert State() == Answered(s0, optIndex);
      match step {
      case BackToOverworld =>
        ShowOverworld();
        AnswerLeaves(s0, optIndex, draw);
        assert State() == AnswerState(s0, optIndex, draw);
        assert Valid();
      case EndVisit =>
        EndLocationVisit(draw);
        AnswerEnds(s0, optIndex, draw);
        assert State() == AnswerState(s0, optIndex, draw);
        assert Valid();
      case NextPrompt =>
        decisionStep := decisionStep + 1;
        ShowLocationDecision(locId, draw);
        AnswerContinues(s0, optIndex, draw);
        assert State() == AnswerState(s0, optIndex, draw);
        assert Valid();
      }
    }

    function GetCurrentZone(): Option<Zone>
      reads this
    {
      FirstZone(Zones, charX, charY)
    }

    method TryEnterLocation(draw: real)
      requires 0.0 <= draw < 1.0
      modifies this
      ensures State() == TryEnterState(old(State()), draw)
    {
      var zone := GetCurrentZone();
      if zone.Some? {
        ShowLocationView(zone.value.id, draw);
      }
    }

    method HandleKeydown(key: Key, draw: real)
      requires 0.0 <= draw < 1.0
      requires Valid()
      modifies this
      ensures Valid()
      ensures State() == KeyState(old(State()), key, draw)
    {
      KeyKeepsValid(State(), key, draw);
      if location != Overworld {
        return;
      }
      match key {
        case ArrowUp => charY := MaxInt(MinY, charY - MoveStep);
        case ArrowDown => charY := MinInt(MaxY, charY + MoveStep);
        case ArrowLeft => charX := MaxInt(MinX, charX - MoveStep);
        case ArrowRight => charX := MinInt(MaxX, charX + MoveStep);
        case Enter => TryEnterLocation(draw);
        case Space => TryEnterLocation(draw);
        case OtherKey =>
      }
    }

    method ClickZone(locId: string, draw: real)
      requires 0.0 <= draw < 1.0
      requires Valid() && Enterable(locId)
      modifies this
      ensures Valid()
      ensures State() == ZoneClickState(old(State()), locId, draw)
    {
      ZoneClickKeepsValid(State(), locId, draw);
      if location != Overworld {
        return;
      }
      if locId != "" {
        ShowLocationView(locId, draw);
      }
    }

    method GoBack()
      requires Valid() && AwaitingAnswer(State())
      modifies this
      ensures Valid()
      ensures State() == BackState(old(State()))
    {
      BackKeepsValid(State());
      SetScene(Overworld);
    }

    /** `startGame`: replaces the record by a fresh one whose agent is drawn
        from `rng`, then shows the town. */
    method StartGame(rng: seq<real>)
      requires |rng| >= 7 && UniformDraws(rng)
      modifies this
      ensures Valid()
      ensures State() == StartState(GenerateAgentState(rng).0)
    {
      var generated := GenerateAgentState(rng).0;
      ResetRecord(generated);
      ShowOverworld();
    }

    /** The object literal `startGame` assigns to the record: day 1, the town,
        the initial community level, no visit, the character at its start. */
    method ResetRecord(generated: AgentState)
      modifies this
      ensures Valid()
      ensures State() == StartState(generated)
    {
      day := 1;
      daysSurvived := 1;
      location := Overworld;
      communityLevel := InitCommunityLevel;
      infected := false;
      decisionStep := 0;
      chosenLocation := None;
      chosenOptions := [];
      currentPrompt := None;
      agent := Some(generated);
      charX := CharInitX;
      charY := CharInitY;
      StartValid(generated);
    }
  }
}
