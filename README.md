# Pandemic Manager and the food-security stress test, in Dafny

This project models two browser widgets of a personal site.

**Pandemic Manager** is a 100-day survival game. The player walks a character
around a town map with the arrow keys. Enter opens the building under the
character. Each building asks a short series of yes/no decisions (stay home?
work from home? wear a mask?), and each answer carries a risk multiplier. When
a visit ends, the product of the multipliers scales a per-visit infection
probability. That probability comes from a location table, the community
infection level and the agent's age and comorbidities. One uniform draw then
decides infection, which ends the game, or a safe day, which advances the day
and raises the community level. Surviving past day 100 is victory.

**The stress test** multiplies baseline odds of food insecurity by the
adjusted odds ratios of a household profile and of the active life events. It
turns the odds back into a probability, rounds it to one decimal, and picks one
of five messages.

Modules:

- `Wrappers` (`wrappers.dfy`): `Option` and small min/max helpers.
- `ChosenOptions` (`chosen_options.dfy`): the `chosenOptions` object of a visit. It is keyed by decision id, keeps insertion order, and an existing key is overwritten in place. It also holds the product of its multipliers and the accumulation loop that computes that product.
- `PandemicGameData` (`pandemic-game-data.js`): the base-rate table, the agent generator, the infection risk, the location/decision table and the infection roll. These are pure functions. Every `Math.random()` becomes a parameter in [0, 1).
- `PandemicGame` (`pandemic-game.js`): the mutable `game` record as class `Game`, with one method per handler. Each method is proved against a pure transition function on a `Session` snapshot (`State() == XState(old(State()), ...)`). The session invariant `ValidSession` is proved to be kept by every handler under its stated preconditions: `ChooseOption` and `GoBack` during a visit, resolution only when the visit is ready to resolve, and `ClickZone` for configured ids. A click on an unknown zone id leaves the invariant (`UnknownZoneKeepsOldPrompt` states what it does instead).
- `PandemicGameProperties`: what the game promises across handlers. The day only moves forward, infection and victory are terminal, and the decision flow is fixed. It also covers concrete scenarios, including a hundred safe days.
- `StressTest` (`stress-test.js`): the multiplier, the probability, the rounding and the message, as pure functions. The page's `state` record is class `Simulator`, whose methods are proved against those functions.

Arithmetic is over exact reals. The source uses IEEE doubles, so every equality
here holds of the real-number computation the code approximates.

## Model

| member | source | states |
|---|---|---|
| ChosenOptions.Get | assets/js/pandemic-game-data.js:214 | Looking up a decision id finds nothing exactly when the id was never answered. |
| ChosenOptions.Put | assets/js/pandemic-game.js:221 | Recording an answer stores it under its decision id and leaves every other id's answer alone. A known id keeps its position; a new id is appended at the end. Distinct keys stay distinct. |
| ChosenOptions.ProductSnoc | assets/js/pandemic-game.js:268-271 | `Product`, the product of the recorded multipliers: appending one entry multiplies it by that entry's multiplier, so the left-to-right `totalRiskMod *=` loop computes `Product`. |
| ChosenOptions.ProductZeroIff | assets/js/pandemic-game.js:268-275 | The visit's total multiplier is zero exactly when some recorded answer has multiplier zero. |
| ChosenOptions.ProductSplitsAtKey | assets/js/pandemic-game.js:268-271 | With distinct keys, each decision contributes its current multiplier exactly once to the product. |
| ChosenOptions.PutReplacesFactor | assets/js/pandemic-game.js:221 | Answering a decision again replaces its factor rather than adding a second one: the product becomes the new multiplier times the product of the other decisions. |
| ChosenOptions.TotalRiskMod | assets/js/pandemic-game.js:268-271 | The loop over the keys in insertion order, starting from 1, returns the product of every recorded multiplier. |
| PandemicGameData.GeneratedAgentConsistent | assets/js/pandemic-game-data.js:33-56 | `GenerateAgentState`, the agent drawn from a stream of uniform values: it has a listed age bracket whose caption is its label. Its comorbidity count is 0..2 with the matching label. It has an employment type exactly when employed. Its susceptibility is the age modifier times the comorbidity modifier. Drawing it consumes 5 to 7 values from the front of the stream. |
| PandemicGameData.SusceptibilityBounds | assets/js/pandemic-game-data.js:54 | The agent's susceptibility lies within [0.95, 1.25*1.15]. |
| PandemicGameData.AgeBracketDrawn | assets/js/pandemic-game-data.js:35 | Bracket i is drawn exactly when the first draw lies in [i/7, (i+1)/7), so brackets are uniform. |
| PandemicGameData.ComorbiditiesDrawn | assets/js/pandemic-game-data.js:37 | No comorbidities exactly when the first comorbidity draw is at least 0.5; one comorbidity exactly when it is below 0.5 and the second draw is below 0.6. |
| PandemicGameData.LocKey | assets/js/pandemic-game-data.js:60 | Social, school and work use their own row; every other id, home and unknown ids included, uses the hospital row, which always exists. |
| PandemicGameData.AgentMod | assets/js/pandemic-game-data.js:64 | The agent's susceptibility, or 1 when there is no agent or the modifier is zero (falsy); never zero. |
| PandemicGameData.BaseProb | assets/js/pandemic-game-data.js:61-62 | The base probability of a visit is strictly between 0 and 0.06. |
| PandemicGameData.CalcInfectionRisk | assets/js/pandemic-game-data.js:59-66 | The risk never exceeds the 0.85 cap and is positive for a non-negative community level and a positive agent modifier. |
| PandemicGameData.RiskMonotoneInCommunity | assets/js/pandemic-game-data.js:63-65 | A higher community level never gives a lower risk. |
| PandemicGameData.RawRiskMonotoneInCommunity | assets/js/pandemic-game-data.js:63-65 | Before the cap, a higher community level never gives a lower risk. |
| PandemicGameData.TableRowsWithSDNotAbove | assets/js/pandemic-game-data.js:13-18 | In every row of the base table, the social-distancing rate is not above the plain rate. |
| PandemicGameData.RiskWithSDNotAbove | assets/js/pandemic-game-data.js:59-66 | Social distancing never raises the risk of any location. |
| PandemicGameData.RawRiskWithSDNotAbove | assets/js/pandemic-game-data.js:61-65 | Before the cap, social distancing never raises the risk of any location. |
| PandemicGameData.OtherLocationsUseHospitalRow | assets/js/pandemic-game-data.js:60 | Any id other than social, school and work is scored exactly like the hospital. |
| PandemicGameData.GetLocationDef | assets/js/pandemic-game-data.js:203-205 | A definition is found exactly for the six configured ids, and it carries that id. It has decisions exactly when it is not the town, and then at least one. |
| PandemicGameData.RiskModsNonNegative | assets/js/pandemic-game-data.js:68-194 | Every configured option's risk multiplier is non-negative. |
| PandemicGameData.UsesSD | assets/js/pandemic-game-data.js:213-216 | A visit counts as distanced only if the `mask_sd` decision has been answered. |
| PandemicGameData.MaskAnswerDecidesSD | assets/js/pandemic-game-data.js:213-216 | After `mask_sd` is answered, the visit counts as distanced exactly when the answer was "yes", whatever was recorded before. |
| PandemicGameData.InfectionProbability | assets/js/pandemic-game-data.js:207-221 | The infection probability is at most 0.95. It is exactly 0 for a zero multiplier or at home, and non-negative for non-negative inputs. |
| PandemicGameData.RollInfection | assets/js/pandemic-game-data.js:207-223 | Infection happens exactly when the draw falls below the infection probability, so never at home, never with a zero multiplier and never on a draw of 0.95 or more. |
| PandemicGameData.InfectionPossible | assets/js/pandemic-game-data.js:207-222 | A positive multiplier anywhere but home can infect: a draw of 0 does. |
| PandemicGame.FirstZone | assets/js/pandemic-game.js:442-455 | The zone found is the first in list order whose box, grown by the 2-unit buffer, holds the position. There is none exactly when no buffered box holds it. |
| PandemicGame.ZonesEnterable | assets/js/pandemic-game.js:32-38 | Every zone of the map names a location that has decisions. |
| PandemicGame.ResolveKeepsValid | assets/js/pandemic-game.js:264-299 | Resolving a visit keeps the session invariant. |
| PandemicGame.EnterKeepsValid | assets/js/pandemic-game.js:177-204 | Entering a location from the town keeps the session invariant. |
| PandemicGame.KeyKeepsValid | assets/js/pandemic-game.js:399-418 | Every key press keeps the session invariant, including moves at the map edges and entering. |
| PandemicGame.ZoneClickKeepsValid | assets/js/pandemic-game.js:534-540 | A click on the zone of a configured location keeps the session invariant. |
| PandemicGame.BackKeepsValid | assets/js/pandemic-game.js:527-531 | The back button of a location view keeps the session invariant. |
| PandemicGame.AnswerKeepsValid | assets/js/pandemic-game.js:217-260 | Any answer to the prompt on screen keeps the session invariant, whichever route it takes. |
| PandemicGame.StartValid | assets/js/pandemic-game.js:499-513 | A fresh game satisfies the session invariant. |
| PandemicGame.Game.constructor | assets/js/pandemic-game.js:18-30 | The initial record: day 1, no days survived, in town at community level 0.05, not infected, character at (50, 55). |
| PandemicGame.Game.SetScene | assets/js/pandemic-game.js:156-163 | Only the location changes; an empty id means the town. |
| PandemicGame.Game.ShowOverworld | assets/js/pandemic-game.js:165-175 | Only the location changes, to the town. |
| PandemicGame.Game.SafeDay | assets/js/pandemic-game.js:286-299 | The community level grows by 0.04, capped at 1. The day advances, and days survived becomes the new day. The town is shown unless the day passed 100. |
| PandemicGame.Game.ResolveInfection | assets/js/pandemic-game.js:264-284 | No visit or an unknown location changes nothing. A zero product is a safe day. Otherwise the roll either infects, keeping the day, or passes a safe day. |
| PandemicGame.Game.EndLocationVisit | assets/js/pandemic-game.js:347-349 | Ending a visit is resolving it. |
| PandemicGame.Game.ShowLocationDecision | assets/js/pandemic-game.js:193-204 | The current step's decision becomes the prompt. A step past the last decision resolves the visit. A location without decisions changes nothing. |
| PandemicGame.Game.ShowLocationView | assets/js/pandemic-game.js:177-191 | The visit is reset (scene, chosen location, step 0, no answers), then the first prompt is shown. |
| PandemicGame.Game.ChooseOption | assets/js/pandemic-game.js:217-260 | The answer is recorded, then the hard-coded routing applies: "no" to staying home returns to town; a zero multiplier ends the visit; four answers advance to the next prompt; all others end the visit. The session invariant is kept. |
| PandemicGame.Game.TryEnterLocation | assets/js/pandemic-game.js:479-484 | The location of the zone under the character is entered; away from every zone nothing changes. |
| PandemicGame.Game.HandleKeydown | assets/js/pandemic-game.js:399-418 | Outside the town nothing changes. Arrows move by 3, clamped to [2, 98] x [5, 95]. Enter and Space try to enter. The session invariant is kept. |
| PandemicGame.Game.ClickZone | assets/js/pandemic-game.js:534-540 | In town, a zone click enters its location; elsewhere nothing changes. The session invariant is kept. |
| PandemicGame.Game.GoBack | assets/js/pandemic-game.js:527-531 | The back button returns to the town and changes nothing else; the session invariant is kept. |
| PandemicGame.Game.StartGame | assets/js/pandemic-game.js:499-519 | A fresh record: day 1, one day survived, in town at level 0.05, a newly drawn agent, character at (50, 55). The invariant holds. |
| PandemicGame.Game.ResetRecord | assets/js/pandemic-game.js:500-513 | The record literal of a new game, with the given agent, satisfies the session invariant. |
| PandemicGameProperties.KeyKeepsDay | assets/js/pandemic-game.js:399-418 | No key press changes the day, the days survived, the community level or the infected flag. |
| PandemicGameProperties.ResolveAdvances | assets/js/pandemic-game.js:264-299 | Resolving a visit either infects on the same day or passes exactly one safe day with the community level grown and capped. |
| PandemicGameProperties.AnswerAdvances | assets/js/pandemic-game.js:217-299 | An answer either leaves day, level and infection alone, or passes exactly one safe day, or infects on the same day. Infection is never undone. |
| PandemicGameProperties.VictoryOnlyFromLastDay | assets/js/pandemic-game.js:286-293 | An answer leads to victory exactly when a safe day takes day 100 to day 101. |
| PandemicGameProperties.TerminalIsAbsorbing | assets/js/pandemic-game.js:399-400 | Once infected or victorious, no prompt is awaiting and every key is ignored. |
| PandemicGameProperties.RightThenLeftReturns | assets/js/pandemic-game.js:409-414 | An unclamped step right followed by a step left restores the session. |
| PandemicGameProperties.DownThenUpReturns | assets/js/pandemic-game.js:403-408 | An unclamped step down followed by a step up restores the session. |
| PandemicGameProperties.EnterStartsFreshVisit | assets/js/pandemic-game.js:479-484 | Enter over a zone starts a fresh visit there: answers emptied, step 0, the location's first prompt on screen. Away from zones, Enter changes nothing. |
| PandemicGameProperties.OverlapGoesToFirstDeclared | assets/js/pandemic-game.js:442-455 | The buffered box of an earlier zone wins even over a later zone's own box: (80, 54) lies in the social event's box but counts as the school. |
| PandemicGameProperties.BackAbandonsVisit | assets/js/pandemic-game.js:527-531 | The back button leaves a visit without resolving it. The player is back in town on the same day at the same level, and the answers given so far are left in the record. |
| PandemicGameProperties.UnknownZoneKeepsOldPrompt | assets/js/pandemic-game.js:177-195 | A zone click with an unconfigured id opens the location view for that id without writing a prompt of its own: the previous prompt stays and every key is ignored. The back button returns to town on the same day and at the same level. |
| PandemicGameProperties.NextPromptExactly | assets/js/pandemic-game.js:223-259 | `Next`, the hard-coded routing of an answer: it advances to the next prompt exactly on yes to going social, yes to confirming, yes to school and no to working from home, each with a non-zero multiplier. It returns to town exactly on no to staying home. |
| PandemicGameProperties.AnswerMovesForward | assets/js/pandemic-game.js:217-260 | After an answer the visit is either over or on the next step of the same location and day; no prompt is asked twice in one visit. |
| PandemicGameProperties.LeavingHomeResolvesNothing | assets/js/pandemic-game.js:223-226 | "No" to staying home returns to town with day, level and infection unchanged. |
| PandemicGameProperties.ZeroRiskAnswerIsSafe | assets/js/pandemic-game.js:227-230 | Any other zero-multiplier answer ends the visit with a safe day, whatever the draw. |
| PandemicGameProperties.HospitalVisitEndsAfterOneAnswer | assets/js/pandemic-game.js:223-259 | At the hospital the first answer always ends the visit, so the waiting-room mask prompt is never shown. |
| PandemicGameProperties.WorkFromHomeDay | assets/js/pandemic-game.js:227-230 | Working from home is a safe day whatever the draw. |
| PandemicGameProperties.SocialEventWithoutMask | assets/js/pandemic-game-data.js:207-222 | After yes, yes and no mask at the social event, infection happens exactly when the draw falls below the capped no-distancing social risk. |
| PandemicGameProperties.SafeDaysEffect | assets/js/pandemic-game.js:286-289 | n safe days advance the day by n and raise the community level by 0.04 per day, capped at 1; infection is untouched. |
| PandemicGameProperties.HundredSafeDaysWin | assets/js/pandemic-game.js:286-293 | From a fresh game the level is capped at 1 after 24 safe days, and 100 safe days reach day 101 and victory. |
| StressTest.KnownEventRaisesOdds | assets/js/stress-test.js:34-65 | Every listed life event has an odds ratio above 1. |
| StressTest.Factor | assets/js/stress-test.js:15-32 | A listed profile value's ratio is positive. |
| StressTest.FactorMissIff | assets/js/stress-test.js:15-32 | A profile value finds no ratio exactly when its category does not list it. |
| StressTest.FactorTableFacts | assets/js/stress-test.js:15-32 | Every listed profile ratio: renter 3.08, low income 2.70, degree 0.43, couple 0.51, and 1 for each of the four reference values. Four sample values of one category are not found under another. |
| StressTest.KnownIds | assets/js/stress-test.js:34-65 | The event table has an entry exactly for the five ids job_loss, worsening_finances, illness, crime and divorce. |
| StressTest.EventAor | assets/js/stress-test.js:206 | A found event odds ratio is above 1. |
| StressTest.EventFactor | assets/js/stress-test.js:206 | The existence guard of the event loop contributes at least 1, and exactly 1 for an id not in the table. |
| StressTest.Applied | assets/js/stress-test.js:199-202 | The truthiness guard of a profile factor never multiplies by zero, and applies a positive factor as it is. |
| StressTest.ProfileMultiplier | assets/js/stress-test.js:199-202 | The profile's combined multiplier is positive. |
| StressTest.EventsProduct | assets/js/stress-test.js:205-207 | The events' combined multiplier is at least 1: no event protects. |
| StressTest.Multiplier | assets/js/stress-test.js:196-207 | The composite multiplier is positive. |
| StressTest.EventsProductAppend | assets/js/stress-test.js:205-207 | The product over a concatenation of event lists is the product of the two products. |
| StressTest.EventsProductSwap | assets/js/stress-test.js:205-207 | The events' product does not depend on the order of the two parts. |
| StressTest.ProbabilityBounds | assets/js/stress-test.js:210-211 | `Probability`, the odds `o / (1 + o)` with `o = BASE_ODDS * m`: a non-negative multiplier gives a value in [0, 1), positive for a positive multiplier. |
| StressTest.ProbabilityIncreasing | assets/js/stress-test.js:210-211 | The probability strictly increases with the multiplier. |
| StressTest.OddsRoundTrip | assets/js/stress-test.js:210-211 | Converting the probability back to odds gives the base odds times the multiplier. |
| StressTest.NeutralMultiplierIsBaseline | assets/js/stress-test.js:11-12 | A multiplier of 1 gives exactly the 5.2 % baseline. |
| StressTest.Round1 | assets/js/stress-test.js:212 | The one-decimal rounding is a whole number of tenths within 0.05 of its input, and keeps non-negative values non-negative. |
| StressTest.Labels | assets/js/stress-test.js:260 | The labels exist exactly when every active id is known, and then they are the events' captions in list order. |
| StressTest.Classify | assets/js/stress-test.js:246-270 | There is no message exactly when an active id is unknown. With no events, the message is the stable baseline exactly below 6 %. With events, it is never one of the two no-event messages. |
| StressTest.BaselineIff | assets/js/stress-test.js:253-258 | With no events, the stable-baseline message shows exactly when the probability is below 5.95 %. |
| StressTest.CriticalIff | assets/js/stress-test.js:259-269 | With known events: critical exactly at 50.05 % or more; otherwise high impact exactly when the multiplier exceeds 5, resilience when it does not. |
| StressTest.IndexOf | assets/js/stress-test.js:183 | The first position of the id, or -1 exactly when it is absent. |
| StressTest.ToggleFlips | assets/js/stress-test.js:182-190 | `Toggled`, the push or splice of an event id: it flips the id's membership, keeps every other id's membership and creates no duplicate. |
| StressTest.ToggleTwiceAbsent | assets/js/stress-test.js:182-190 | Toggling an inactive id twice restores the event list exactly. |
| StressTest.ToggleTwiceMovesToEnd | assets/js/stress-test.js:182-190 | Toggling an active id twice moves it to the end of the list. |
| StressTest.ToggleTwicePresent | assets/js/stress-test.js:182-207 | Toggling an active id twice keeps the same ids and the same multiplier, but the order can change. |
| StressTest.AddEventFactor | assets/js/stress-test.js:184-185 | Activating an inactive event multiplies the events' product by that event's factor. |
| StressTest.UnknownEventIgnored | assets/js/stress-test.js:206 | An id the table does not list leaves the multiplier unchanged. |
| StressTest.AddingEventRaisesRisk | assets/js/stress-test.js:182-211 | Activating a listed event multiplies the composite multiplier by its odds ratio, so the probability strictly rises. |
| StressTest.AddingEventMultiplies | assets/js/stress-test.js:196-207 | Activating a listed event that is not yet active multiplies the composite multiplier by exactly its odds ratio. |
| StressTest.ProbabilityScaledUp | assets/js/stress-test.js:210-211 | Multiplying a positive multiplier by a ratio above 1 strictly raises the probability. |
| StressTest.InitialStateIsBaseline | assets/js/stress-test.js:67-74 | The page starts with multiplier 1, a 5.2 % probability shown as 5.2, and the stable-baseline message. |
| StressTest.ApplyFactor | assets/js/stress-test.js:199-202 | One guarded `multiplier *= x` step of a profile factor multiplies by the applied factor. |
| StressTest.Simulator.constructor | assets/js/stress-test.js:68-74 | The page state starts as owner, high income, high school, single, with no events. |
| StressTest.Simulator.SelectProfile | assets/js/stress-test.js:176 | A profile button sets its category's value and changes nothing else; the list stays duplicate-free. |
| StressTest.Simulator.ToggleEvent | assets/js/stress-test.js:182-192 | An event button toggles the id in the event list; the profile is unchanged and the list stays duplicate-free. |
| StressTest.Simulator.ComputeMultiplier | assets/js/stress-test.js:196-207 | The four guarded profile steps and the loop over the events compute the composite multiplier. |
| StressTest.Simulator.ProfileFactors | assets/js/stress-test.js:196-202 | The four guarded profile steps, from 1, compute the profile multiplier. |
| StressTest.Simulator.ApplyEventFactors | assets/js/stress-test.js:205-207 | The loop over the active events, in list order, multiplies its start value by the events' product. |
| StressTest.Simulator.UpdateSimulation | assets/js/stress-test.js:194-217 | The page's figures: the composite multiplier; a probability strictly between 0 and 1 from the multiplied odds; its one-decimal percentage, non-negative; and the message `Classify` gives. |

## Left out

- `cleanImage`, `preloadAssets`, `updateCharacter`, `updateZoneActive`, `updateTopbar`, `showToast`, `maybeShowResearchTip`, `showVictory`, `showGameOver` and the page's `init`: these only touch the DOM, images and timers. The model keeps only their effect on the session record. The end screens change no field, and infection is set by `Game.ResolveInfection`.
- `getRandomTip` and the research tips: presentation only. Every `Math.random()` call is a parameter in [0, 1): a draw for the infection roll, a stream of draws for the agent.
- `OVERWORLD_BUTTONS` and the display text of the configuration: the `label` and `bgClass` of a location, the `prompt` of a decision, the `label` of an option and the `desc` of a life event. No core function reads them, so they are not kept. `baseContacts` is kept as data, though nothing reads it either.
- `ai-portfolio.js` is not part of this model.
- Floating point: all arithmetic is over exact reals. Rounding errors of the doubles (for example a product of ratios landing just beside a rounding threshold) are not modelled.
- The option button stores `parseFloat(btn.dataset.mod)`, the multiplier round-tripped through its decimal text. The model stores the configured multiplier directly.
- PandemicGameData.BaseProb: the `|| TABLE6_BASE.work` fallback is not modelled, because every key the lookup can produce names a row.
- `Game.ChooseOption` requires that a prompt is on screen for a visit in progress and the game is not over. `Game.GoBack` likewise requires the location view to be shown for a visit in progress.
- Clicks on the option buttons of an earlier prompt that are still on screen after a click on an unknown zone are not modelled, because `Game.ChooseOption` requires a visit in progress. In the source those buttons stay live with their old decision and location: an old "no" to staying home returns to town, and an old "yes" to going social shows the next prompt of the old location.
- `Game.ClickZone` requires a configured location id. The zone ids come from the page's markup, and `UnknownZoneKeepsOldPrompt` states what happens with any other id.
- `updateGauge` (needle angle and colour thresholds) and the `${multiplier.toFixed(1)}` figure inside the high-impact message are left out. The message is modelled as its kind plus the joined event labels.
- `renderInterface`: which buttons carry the `active` class is presentation. The markup marks "Uni Degree" active while the state starts with `hs`; the model follows the state.
- StressTest.Round1: JavaScript's `toFixed(1)` rounds the exact binary value of the double. The model rounds the real value half away from zero, so exact ties may differ.
- StressTest.Classify: an active id missing from the event table would make the label lookup throw; the model returns `None` there. Event ids come only from the event table's buttons, so this does not occur on the page.
- StressTest.Probability: `requires BaseOdds * m != -1`. This only avoids a division by zero for negative multipliers, which the positive ratios never produce.
- StressTest.ToggleTwicePresent: toggling an active event twice does not restore the list exactly. The event moves to the end, so the labels are joined in another order; only the set of ids and the multiplier are restored.
- Where the code departs from the intended decision flow, the model follows the code:
  - at the hospital, "no" to testing ends the visit instead of asking the mask prompt (`HospitalVisitEndsAfterOneAnswer`);
  - a zone click with an unknown id is not ignored: it opens the location view, keeps the previous prompt on screen with its buttons live, and ignores keys. The back button returns to town, and so can an old "no" to staying home (`UnknownZoneKeepsOldPrompt`);
  - the back button abandons a visit without a roll and leaves its answers in the record (`BackAbandonsVisit`).
