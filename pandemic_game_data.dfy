/** Static configuration and the infection risk model of the pandemic game:
    the per-location base table, the age and comorbidity modifiers, the agent
    generator, the location/decision table and the per-visit infection roll.
    Every `Math.random()` of the source is a parameter in [0,1). */
module PandemicGameData {
  import opened Wrappers
  import opened ChosenOptions

  // ---------------------------------------------------------------------------
  // Base infection probabilities per visit (no social distancing / with it)
  // ---------------------------------------------------------------------------

  datatype BaseRates = BaseRates(noSD: real, withSD: real)

  const Table6Base: map<string, BaseRates> := map[
    "social" := BaseRates(0.057, 0.040),
    "school" := BaseRates(0.038, 0.030),
    "work" := BaseRates(0.048, 0.032),
    "hospital" := BaseRates(0.040, 0.024)
  ]

  // ---------------------------------------------------------------------------
  // Agent state: age bracket, comorbidities, employment, gender
  // ---------------------------------------------------------------------------

  datatype AgeBracket = AgeBracket(id: string, caption: string, min: int, max: int, susceptibilityMod: real)

  const AgeBrackets: seq<AgeBracket> := [
    AgeBracket("0-19", "Age 0-19", 0, 19, 0.95),
    AgeBracket("20-43", "Age 20-43", 20, 43, 1.0),
    AgeBracket("44-53", "Age 44-53", 44, 53, 1.05),
    AgeBracket("54-63", "Age 54-63", 54, 63, 1.1),
    AgeBracket("64-73", "Age 64-73", 64, 73, 1.15),
    AgeBracket("74-83", "Age 74-83", 74, 83, 1.2),
    AgeBracket("84+", "Age 84+", 84, 99, 1.25)
  ]

  const ComorbidityMod: map<int, real> := map[0 := 1.0, 1 := 1.08, 2 := 1.15, 3 := 1.2]

  datatype Gender = Female | Male
  datatype EmploymentStatus = Employed | Student | Unemployed
  datatype EmploymentType = Essential | Nonessential

  datatype AgentState = AgentState(
    ageBracket: AgeBracket,
    ageLabel: string,
    gender: Gender,
    comorbidities: int,
    comorbidityLabel: string,
    employmentStatus: EmploymentStatus,
    employmentType: Option<EmploymentType>,
    seniorCenter: bool,
    susceptibilityMod: real)

  /** A stream of `Math.random()` results. */
  predicate UniformDraws(rng: seq<real>)
  {
    forall i :: 0 <= i < |rng| ==> 0.0 <= rng[i] < 1.0
  }

  function ComorbidityLabel(comorbidities: int): string
  {
    if comorbidities == 0 then "No comorbidities"
    else if comorbidities == 1 then "1 comorbidity"
    else "2+ comorbidities"
  }

  /** Draws a fresh agent from the stream `rng`, in the source's order of
      `Math.random()` calls: age bracket, comorbidity (a second draw only when
      the first says "has comorbidities"), employment status, employment type
      (only when employed), senior centre, gender. Returns the agent and the
      unused rest of the stream. */
  function GenerateAgentState(rng: seq<real>): (AgentState, seq<real>)
    requires |rng| >= 7 && UniformDraws(rng)
  {
    var ageIndex := (rng[0] * 7.0).Floor;
    var ageBracket := AgeBrackets[ageIndex];
    var comorbidities := if rng[1] < 0.5 then (if rng[2] < 0.6 then 1 else 2) else 0;
    var k := if rng[1] < 0.5 then 3 else 2;
    var employmentRoll := rng[k];
    var employmentStatus :=
      if employmentRoll < 0.6 then Employed
      else if employmentRoll < 0.75 then Student
      else Unemployed;
    var employmentType :=
      if employmentStatus == Employed then Some(if rng[k + 1] < 0.3 then Essential else Nonessential)
      else None;
    var k2 := if employmentStatus == Employed then k + 2 else k + 1;
    var seniorCenter := rng[k2] < 0.02;
    var gender := if rng[k2 + 1] < 0.5 then Female else Male;
    var agent := AgentState(
      ageBracket, ageBracket.caption, gender, comorbidities, ComorbidityLabel(comorbidities),
      employmentStatus, employmentType, seniorCenter,
      ageBracket.susceptibilityMod * ComorbidityMod[comorbidities]);
    (agent, rng[k2 + 2..])
  }

  /** The drawn agent is consistent: a listed age bracket captioned by its
      label, 0 to 2 comorbidities with the matching label, an employment type
      exactly when employed, and a susceptibility that is the product of the
      age and comorbidity modifiers. Drawing it consumes 5 to 7 values of
      the stream, from the front. */
  lemma GeneratedAgentConsistent(rng: seq<real>)
    requires |rng| >= 7 && UniformDraws(rng)
    ensures var (a, rest) := GenerateAgentState(rng);
      && a.ageBracket in AgeBrackets
      && a.ageLabel == a.ageBracket.caption
      && 0 <= a.comorbidities <= 2
      && a.comorbidities in ComorbidityMod
      && a.comorbidityLabel == ComorbidityLabel(a.comorbidities)
      && (a.employmentType.Some? <==> a.employmentStatus == Employed)
      && a.susceptibilityMod == a.ageBracket.susceptibilityMod * ComorbidityMod[a.comorbidities]
      && |rng| - 7 <= |rest| <= |rng| - 5
      && rest == rng[|rng| - |rest|..]
  {
  }

  /** The agent's susceptibility lies between the smallest and the largest
      product of an age modifier and a comorbidity modifier. */
  lemma SusceptibilityBounds(rng: seq<real>)
    requires |rng| >= 7 && UniformDraws(rng)
    ensures 0.95 <= GenerateAgentState(rng).0.susceptibilityMod <= 1.25 * 1.15
  {
  }

  /** The age bracket is uniform over the seven brackets: bracket `i` is drawn
      exactly when the first draw falls in [i/7, (i+1)/7). */
  lemma AgeBracketDrawn(rng: seq<real>, i: int)
    requires |rng| >= 7 && UniformDraws(rng)
    requires 0 <= i < |AgeBrackets|
    ensures GenerateAgentState(rng).0.ageBracket == AgeBrackets[i]
      <==> (i as real) / 7.0 <= rng[0] < ((i + 1) as real) / 7.0
  {
    var j := (rng[0] * 7.0).Floor;
    assert j as real <= rng[0] * 7.0 < j as real + 1.0;
    assert GenerateAgentState(rng).0.ageBracket == AgeBrackets[j];
    if j != i {
      assert AgeBrackets[j].id != AgeBrackets[i].id;
    }
  }

  /** Comorbidity count 0 with probability 0.5, 1 with 0.5 * 0.6, 2 otherwise. */
  lemma ComorbiditiesDrawn(rng: seq<real>)
    requires |rng| >= 7 && UniformDraws(rng)
    ensures GenerateAgentState(rng).0.comorbidities == 0 <==> rng[1] >= 0.5
    ensures GenerateAgentState(rng).0.comorbidities == 1 <==> rng[1] < 0.5 && rng[2] < 0.6
  {
  }

  // ---------------------------------------------------------------------------
  // Infection risk of one visit
  // ---------------------------------------------------------------------------

  /** The table row a location id is scored with: every id other than
      social, school and work (home and unknown ids included) uses the hospital row. */
  function LocKey(locId: string): (k: string)
    ensures k in Table6Base
    ensures locId in {"social", "school", "work"} ==> k == locId
    ensures locId !in {"social", "school", "work"} ==> k == "hospital"
  {
    if locId == "social" then "social"
    else if locId == "school" then "school"
    else if locId == "work" then "work"
    else "hospital"
  }

  /** The agent's susceptibility modifier; a missing agent or a zero
      (falsy) modifier counts as 1. */
  function AgentMod(agent: Option<AgentState>): (m: real)
    ensures m != 0.0
    ensures agent.None? ==> m == 1.0
    ensures agent.Some? && agent.value.susceptibilityMod != 0.0 ==> m == agent.value.susceptibilityMod
  {
    if agent.Some? && agent.value.susceptibilityMod != 0.0 then agent.value.susceptibilityMod else 1.0
  }

  function BaseProb(locId: string, usesSD: bool): (p: real)
    ensures 0.0 < p < 0.06
  {
    // The source's fallback to the work row never applies: every key names a row.
    var base := Table6Base[LocKey(locId)];
    if usesSD then base.withSD else base.noSD
  }

  function CommunityFactor(communityLevel: real): real
  {
    1.0 + communityLevel * 0.8
  }

  const RiskCap: real := 0.85

  /** Per-visit infection probability before the chosen options' multiplier. */
  function CalcInfectionRisk(locId: string, usesSD: bool, communityLevel: real, agent: Option<AgentState>): (r: real)
    ensures r <= RiskCap
    ensures communityLevel >= 0.0 && AgentMod(agent) > 0.0 ==> 0.0 < r
  {
    MinReal(RiskCap, RawRisk(locId, usesSD, communityLevel, agent))
  }

  /** Scaling two ordered products by the same non-negative factors keeps them ordered. */
  lemma ScaledMonotone(p1: real, p2: real, f1: real, f2: real, m: real)
    requires 0.0 <= p1 <= p2 && 0.0 <= f1 <= f2 && 0.0 <= m
    ensures p1 * f1 * m <= p2 * f2 * m
  {
    assert p1 * f1 <= p2 * f1;
    assert p2 * f1 <= p2 * f2;
  }

  /** The uncapped risk, before `Math.min(0.85, ...)`. */
  function RawRisk(locId: string, usesSD: bool, communityLevel: real, agent: Option<AgentState>): real
  {
    BaseProb(locId, usesSD) * CommunityFactor(communityLevel) * AgentMod(agent)
  }

  /** Raising the community level never lowers the risk. */
  lemma RiskMonotoneInCommunity(locId: string, usesSD: bool, c1: real, c2: real, agent: Option<AgentState>)
    requires 0.0 <= c1 <= c2
    requires AgentMod(agent) >= 0.0
    ensures CalcInfectionRisk(locId, usesSD, c1, agent) <= CalcInfectionRisk(locId, usesSD, c2, agent)
  {
    RawRiskMonotoneInCommunity(locId, usesSD, c1, c2, agent);
  }

  lemma RawRiskMonotoneInCommunity(locId: string, usesSD: bool, c1: real, c2: real, agent: Option<AgentState>)
    requires 0.0 <= c1 <= c2
    requires AgentMod(agent) >= 0.0
    ensures RawRisk(locId, usesSD, c1, agent) <= RawRisk(locId, usesSD, c2, agent)
  {
    ScaledMonotone(BaseProb(locId, usesSD), BaseProb(locId, usesSD),
                   CommunityFactor(c1), CommunityFactor(c2), AgentMod(agent));
  }

  /** Every row of the base table is no riskier with social distancing. */
  lemma TableRowsWithSDNotAbove(key: string)
    requires key in Table6Base
    ensures Table6Base[key].withSD <= Table6Base[key].noSD
  {
  }

  /** Social distancing never raises the risk, for a non-negative community factor. */
  lemma RiskWithSDNotAbove(locId: string, communityLevel: real, agent: Option<AgentState>)
    requires CommunityFactor(communityLevel) >= 0.0
    requires AgentMod(agent) >= 0.0
    ensures CalcInfectionRisk(locId, true, communityLevel, agent) <= CalcInfectionRisk(locId, false, communityLevel, agent)
  {
    RawRiskWithSDNotAbove(locId, communityLevel, agent);
  }

  lemma RawRiskWithSDNotAbove(locId: string, communityLevel: real, agent: Option<AgentState>)
    requires CommunityFactor(communityLevel) >= 0.0
    requires AgentMod(agent) >= 0.0
    ensures RawRisk(locId, true, communityLevel, agent) <= RawRisk(locId, false, communityLevel, agent)
  {
    TableRowsWithSDNotAbove(LocKey(locId));
    ScaledMonotone(BaseProb(locId, true), BaseProb(locId, false),
                   CommunityFactor(communityLevel), CommunityFactor(communityLevel), AgentMod(agent));
  }

  /** Home, unknown ids and the hospital are all scored with the hospital row. */
  lemma OtherLocationsUseHospitalRow(locId: string, usesSD: bool, communityLevel: real, agent: Option<AgentState>)
    requires locId != "social" && locId != "school" && locId != "work"
    ensures CalcInfectionRisk(locId, usesSD, communityLevel, agent)
         == CalcInfectionRisk("hospital", usesSD, communityLevel, agent)
  {
  }

  // ---------------------------------------------------------------------------
  // Locations, decisions and options
  // ---------------------------------------------------------------------------

  /** `LOCATION_DEFS`, keeping what the game logic reads: ids, contact
      counts, the order of the decisions and each option's multiplier and
      social-distancing flag. Labels, prompts, captions and scene classes
      are display text only. */
  datatype OptionDef = OptionDef(id: string, riskMod: real, usesSD: Option<bool>)
  datatype Decision = Decision(id: string, options: seq<OptionDef>)
  datatype LocationDef = LocationDef(id: string, baseContacts: Option<int>, decisions: Option<seq<Decision>>)

  const Overworld: string := "overworld"

  const LocationDefs: map<string, LocationDef> := map[
    "overworld" := LocationDef("overworld", None, None),
    "home" := LocationDef("home", Some(3), Some([
      Decision("stay_home", [
        OptionDef("yes", 0.0, None),
        OptionDef("no", 0.0, None)])])),
    "work" := LocationDef("work", Some(5), Some([
      Decision("work_from_home", [
        OptionDef("yes", 0.0, None),
        OptionDef("no", 1.0, None)]),
      Decision("mask_sd", [
        OptionDef("yes", 0.6, Some(true)),
        OptionDef("no", 1.0, Some(false))])])),
    "school" := LocationDef("school", Some(10), Some([
      Decision("go_school", [
        OptionDef("yes", 1.0, None),
        OptionDef("no", 0.0, None)]),
      Decision("mask_sd", [
        OptionDef("yes", 0.6, Some(true)),
        OptionDef("no", 1.0, Some(false))])])),
    "social" := LocationDef("social", Some(10), Some([
      Decision("go_social", [
        OptionDef("yes", 1.0, None),
        OptionDef("no", 0.0, None)]),
      Decision("confirm_social", [
        OptionDef("yes", 1.0, None),
        OptionDef("no", 0.0, None)]),
      Decision("mask_sd", [
        OptionDef("yes", 0.6, Some(true)),
        OptionDef("no", 1.0, Some(false))])])),
    "hospital" := LocationDef("hospital", Some(5), Some([
      Decision("get_tested", [
        OptionDef("yes", 0.0, None),
        OptionDef("no", 1.0, None)]),
      Decision("mask_sd", [
        OptionDef("yes", 0.2, Some(true)),
        OptionDef("no", 1.2, Some(false))])]))
  ]

  const LocationIds: set<string> := {"overworld", "home", "work", "school", "social", "hospital"}

  /** `LOCATION_DEFS[locId] || null`. */
  function GetLocationDef(locId: string): (r: Option<LocationDef>)
    ensures r.Some? <==> locId in LocationIds
    ensures r.Some? ==> r.value.id == locId
    ensures r.Some? ==> (r.value.decisions.None? <==> locId == Overworld)
    ensures r.Some? && r.value.decisions.Some? ==> |r.value.decisions.value| > 0
  {
    if locId in LocationDefs then Some(LocationDefs[locId]) else None
  }

  /** The decisions of a location, empty when it has none or is unknown. */
  function Decisions(locId: string): seq<Decision>
  {
    var def := GetLocationDef(locId);
    if def.Some? && def.value.decisions.Some? then def.value.decisions.value else []
  }

  /** Every configured option has a non-negative risk multiplier. */
  lemma RiskModsNonNegative(locId: string, i: int, j: int)
    requires 0 <= i < |Decisions(locId)| && 0 <= j < |Decisions(locId)[i].options|
    ensures Decisions(locId)[i].options[j].riskMod >= 0.0
  {
  }

  // ---------------------------------------------------------------------------
  // The infection roll of a finished visit
  // ---------------------------------------------------------------------------

  /** The visit counts as socially distanced exactly when the `mask_sd`
      decision was answered "yes". */
  function UsesSD(chosenOptions: Record): (b: bool)
    ensures b ==> "mask_sd" in Keys(chosenOptions)
  {
    var m := Get(chosenOptions, "mask_sd");
    m.Some? && m.value.option == "yes"
  }

  /** The last answer written to `mask_sd` decides distancing, whatever
      the record held before. */
  lemma MaskAnswerDecidesSD(r: Record, optId: string, riskMod: real)
    ensures UsesSD(Put(r, "mask_sd", Chosen(optId, riskMod))) <==> optId == "yes"
  {
  }

  const RollCap: real := 0.95

  /** The probability that `RollInfection` reports an infection over a
      uniform draw. */
  function InfectionProbability(def: LocationDef, totalRiskMod: real, communityLevel: real,
                                agent: Option<AgentState>, chosenOptions: Record): (p: real)
    ensures p <= RollCap
    ensures totalRiskMod == 0.0 || def.id == "home" ==> p == 0.0
    ensures totalRiskMod >= 0.0 && communityLevel >= 0.0 && AgentMod(agent) > 0.0 ==> 0.0 <= p
  {
    if totalRiskMod == 0.0 || def.id == "home" then 0.0
    else
      var baseRisk := CalcInfectionRisk(def.id, UsesSD(chosenOptions), communityLevel, agent);
      MinReal(RollCap, baseRisk * totalRiskMod)
  }

  /** `rollInfection`: short-circuits to safe for a zero multiplier or for
      home, otherwise compares one uniform draw with the capped risk. */
  function RollInfection(def: LocationDef, totalRiskMod: real, communityLevel: real,
                         agent: Option<AgentState>, chosenOptions: Record, draw: real): (infected: bool)
    requires 0.0 <= draw < 1.0
    ensures infected <==> draw < InfectionProbability(def, totalRiskMod, communityLevel, agent, chosenOptions)
    ensures infected ==> totalRiskMod != 0.0 && def.id != "home" && draw < RollCap
  {
    if totalRiskMod == 0.0 then false
    else
      var locId := def.id;
      if locId == "home" then false
      else
        var usesSD := UsesSD(chosenOptions);
        var baseRisk := CalcInfectionRisk(locId, usesSD, communityLevel, agent);
        var effectiveRisk := MinReal(RollCap, baseRisk * totalRiskMod);
        draw < effectiveRisk
  }

  /** A visit with a positive multiplier somewhere other than home can infect:
      a low enough draw does. */
  lemma InfectionPossible(def: LocationDef, totalRiskMod: real, communityLevel: real,
                          agent: Option<AgentState>, chosenOptions: Record)
    requires totalRiskMod > 0.0 && def.id != "home"
    requires communityLevel >= 0.0 && AgentMod(agent) > 0.0
    ensures RollInfection(def, totalRiskMod, communityLevel, agent, chosenOptions, 0.0)
  {
  }
}
