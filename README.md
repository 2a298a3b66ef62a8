# Bronepehota — a verified model of the combat assistant

Bronepehota is a browser companion for a tabletop wargame. A player builds an
army from a catalogue of squads (soldiers with rank, armour, weapons and
properties) and machines (vehicles with weapons, ammunition, durability and a
table of speed sectors). During a game each unit card tracks moves, shots,
melee, dead soldiers, ammunition and damage. A combat assistant walks through
one attack: choose the action, enter the parameters, roll the dice, apply
the result. Two editions of the rules are supported. "tehnolog" counts cover
as extra armour. "fan" counts cover as extra distance and reads special
weapon effects (blast, repair, burst fire). An editor writes new catalogue
entries through three JSON-file API routes. A Python script repairs text
extracted with the wrong code page.

This project models that core in Dafny, one module per source file:

| module | source |
|---|---|
| `Strings` | JavaScript's `parseInt`, `\s`, `String(n)`, `toLowerCase`, `trim` and `includes`, written out for the grammars the application uses |
| `Types` | `src/lib/types.ts` |
| `EncodingRepair` | `scripts/extract_pdf_data.py` |
| `GameLogic` | `src/lib/game-logic.ts` |
| `Tehnolog`, `Fan` | `src/lib/rules/tehnolog.ts`, `src/lib/rules/fan.ts` |
| `RulesRegistry` | `src/lib/rules-registry.ts` |
| `CombatFlow` | `src/hooks/useCombatFlow.ts` |
| `CombatFlowController`, `CombatLog`, `CombatResults` | `src/components/combat/` |
| `ArmyBuilder`, `UnitCard`, `GameSession`, `UnitSelector`, `PointBudgetInput` | `src/components/` |
| `NumberStepper` | `src/components/ui/NumberStepper.tsx` |
| `UnitUtils` | `src/lib/unit-utils.ts` |
| `ArmlistRoutes` | `src/app/api/armlists/{squads,machines,factions}/route.ts` |
| `ArmlistEditor` | `src/components/ArmlistEditor.tsx` |

Modelling choices:
- Dice are a parameter. `Dice = nat -> int`, and `draw(i)` is the i-th throw.
  Bounds hold under `FairDice(draw, sides)`: every throw is between 1 and the
  die's maximum, and a die with no sides always shows 1, as
  `Math.floor(Math.random() * 0) + 1` does.
- The regular expressions are hand-written leftmost-match functions. The
  search keeps the leftmost match, as `String.prototype.match` does, and the
  case-insensitive flag is modelled for Latin and basic Cyrillic letters.
- React state that the source changes in place becomes a class:
  - the reducer hook: `CombatFlow.CombatFlowHook`
  - the controller: `CombatFlowController.Controller`
  - the editor's drafts: `ArmlistEditor.Editor`
  - the input widgets: `NumberStepper.Stepper`, `PointBudgetInput.BudgetField`,
    `UnitSelector.Selector`
  - the JSON file behind an API route: `ArmlistRoutes.Store`
  Each method's `ensures` states the new state as a function of the old one.
  The properties are proved about those functions.
- Pure helpers (army updates, unit-card toggles, formatting, the reducer itself)
  are functions over datatypes.
- Clock values, `Math.random()` suffixes and generated ids are parameters.

## Model

| member | source | states |
|---|---|---|
| EncodingRepair.TableEntries | scripts/extract_pdf_data.py:10-24 | the repair table maps exactly the Latin-1 letters U+00C0..U+00FF, each to the Cyrillic letter 0x350 above it (А..я) |
| EncodingRepair.FixText | scripts/extract_pdf_data.py:26-34 | the repaired text has the same length and each character is repaired on its own |
| EncodingRepair.FixEncoding | scripts/extract_pdf_data.py:26-34 | the loop keeps ASCII and Cyrillic characters, maps mis-decoded Latin-1 letters to Cyrillic, passes every other character through, and agrees with `FixText` |
| EncodingRepair.FixCharIsOffset | scripts/extract_pdf_data.py:28-33 | the per-character branches equal one offset rule: U+00C0..U+00FF shift by 0x350, everything else unchanged |
| EncodingRepair.FixTextIdempotent | scripts/extract_pdf_data.py:26-34 | repairing twice is repairing once |
| EncodingRepair.FixTextConcat | scripts/extract_pdf_data.py:26-34 | repair distributes over concatenation, so pages can be repaired separately |
| EncodingRepair.FixTextKeepsCorrectText | scripts/extract_pdf_data.py:28-31 | text made only of ASCII and Cyrillic comes back unchanged |
| EncodingRepair.FixTextKeepsCyrillicExample | scripts/extract_pdf_data.py:30-31 | "Привет" is left as it is |
| Types.FortificationNamesRoundTrip | src/lib/types.ts:65 | every cover level reads back from its name ("none", "light", "heavy") |
| Types.FortificationFromName | src/lib/types.ts:65 | a name is accepted only if it is the name of the level returned |
| Types.ModifiersAgree | src/lib/types.ts:72-76 | the modifier table adds the same amount to armour and to distance: 0, 1, 2 for none, light, heavy; zero exactly for no cover |
| Types.ModifiersMonotone | src/lib/types.ts:72-76 | heavier cover never gives a smaller modifier |
| GameLogic.ParseRollText | src/lib/game-logic.ts:5-16 | `parseRoll` reads back every roll written as "[n]D<sides>[+bonus]" |
| GameLogic.MatchRollText | src/lib/game-logic.ts:5-16 | the regular expression matches such a text at its start with the written dice, sides and bonus |
| GameLogic.ParseRollDefault | src/lib/game-logic.ts:5-16 | a text without a "D" falls back to the default roll of one D6 |
| GameLogic.FindRollWithoutD | src/lib/game-logic.ts:7-8 | the regular expression finds no match in a text without "D" |
| GameLogic.ParseRollExamples | src/lib/game-logic.ts:5-16 | "D6", "D12+2", "2D20", "3D6+1" parse to their dice, and the melee range "ББ" to the default |
| GameLogic.Draws | src/lib/game-logic.ts:18-30 | the rolled dice are the first n throws, in order |
| GameLogic.ExecuteRoll | src/lib/game-logic.ts:18-30 | melee range rolls nothing and totals 0; otherwise the loop throws the parsed number of dice and totals them plus the bonus |
| GameLogic.SumBounds | src/lib/game-logic.ts:24-28 | a sum of throws lies between count times the lowest face and count times the highest |
| GameLogic.RollBounds | src/lib/game-logic.ts:18-30 | with fair dice a roll totals between dice+bonus and dice*sides+bonus |
| GameLogic.TwoDiceBounds | src/lib/game-logic.ts:18-30 | "2D6+2" totals between 4 and 14 and records two throws |
| GameLogic.CalculateHit | src/lib/game-logic.ts:32-39 | the shot hits exactly when the roll's total reaches the distance; the recorded die is the first throw, absent when nothing was thrown |
| GameLogic.DamageRolls | src/lib/game-logic.ts:41-53 | one damage throw per die of the power, each raised by the bonus |
| GameLogic.CalculateDamage | src/lib/game-logic.ts:41-53 | the loop records the damage throws and counts those strictly above the armour |
| GameLogic.CountAboveAtMost | src/lib/game-logic.ts:41-53 | damage never exceeds the number of dice |
| GameLogic.CountAboveAntitone | src/lib/game-logic.ts:41-53 | more armour never gives more damage |
| GameLogic.CountAboveAll | src/lib/game-logic.ts:41-53 | when every throw beats the armour, every die wounds |
| GameLogic.CountAboveNone | src/lib/game-logic.ts:41-53 | when no throw beats the armour, there is no damage |
| GameLogic.DamageBounds | src/lib/game-logic.ts:41-53 | with fair dice each damage throw is between 1+bonus and sides+bonus; damage is at most the dice count, every die when the armour is below the lowest possible throw, none when it is at or above the highest |
| GameLogic.CalculateMelee | src/lib/game-logic.ts:55-78 | each side rolls one D6 plus its melee value; the attacker wins, the defender wins or it is a draw exactly as the totals compare |
| GameLogic.MeleeSymmetric | src/lib/game-logic.ts:55-78 | swapping the fighters and their dice swaps the winner |
| GameLogic.MeleeDecisiveSkill | src/lib/game-logic.ts:55-78 | a fighter six or more points better always wins with fair D6s |
| GameLogic.ValidateCombatParameters | src/lib/game-logic.ts:89-121 | each of the four errors is reported exactly when its check fails, in source order and at most once, and the parameters are valid exactly when no error is reported |
| GameLogic.FormatCombatResult | src/lib/game-logic.ts:126-147 | a melee result gives one text per winner: "Победа в ближнем бою" for the attacker, "Контратака" for the defender, "Ничья в ближнем бою" for a draw; otherwise a miss reads "Промах", a hit with 0 damage "Попадание, но не пробито", a hit with d damage "Попадание: d ранений" (d written in decimal with its sign), and a hit without a damage result or no hit at all "Завершено" |
| GameLogic.GetDiceType | src/lib/game-logic.ts:152-156 | a D20 roll shows the 20-sided die, else a D12 roll the 12-sided die, else the D6 |
| Tehnolog.CalculateHit | src/lib/rules/tehnolog.ts:10-17 | hit exactly when the total reaches the distance; the shown die is the first throw or 0; never a grenade |
| Tehnolog.MeleeRangeHit | src/lib/rules/tehnolog.ts:10-17 | at melee range nothing is rolled, and the hit succeeds only at distance 0 or less |
| Tehnolog.SingleDieHit | src/lib/rules/tehnolog.ts:10-17 | with one die the total is that die plus the bonus |
| Tehnolog.SingleDieExample | src/lib/rules/tehnolog.ts:10-17 | "D6+2" totals its die plus 2 |
| Tehnolog.CalculateDamage | src/lib/rules/tehnolog.ts:20-34 | the same throws and damage as the shared rule; special effects are ignored |
| Tehnolog.CalculateMelee | src/lib/rules/tehnolog.ts:36-53 | melee is the shared rule |
| Tehnolog.MeleeRollsAreD6 | src/lib/rules/tehnolog.ts:36-53 | both melee throws are between 1 and 6 |
| Fan.ParseAoEEffect | src/lib/rules/fan.ts:5-16 | a blast reading has a radius of zero or more; its value is stated by `Fan.AoELeftmost`, `Fan.AoEAtIntro` and `Fan.AoEAtShape` |
| Fan.ParseRepairEffect | src/lib/rules/fan.ts:18-28 | a repair reading has an amount of zero or more and no range; its value is stated by `Fan.RepairLeftmost` and `Fan.RepairAtIff` |
| Fan.ParseBurstEffect | src/lib/rules/fan.ts:30-42 | a burst reading has a count and takes the first min(count, 3) of the directions front, left, right |
| Fan.SearchLeftmost | src/lib/rules/fan.ts:7 | `match` without the g flag fails exactly when no position matches, and otherwise returns the match at the leftmost position that matches |
| Fan.AoELeftmost | src/lib/rules/fan.ts:7-15 | no blast is read exactly when no position starts one; otherwise the blast read is the one at the leftmost position that starts one |
| Fan.AoEFirstAt | src/lib/rules/fan.ts:7-15 | the blast at the first position that starts one is the blast read |
| Fan.AoEAtIntro | src/lib/rules/fan.ts:7-13 | "Взрыв", white space, digits, "ш", optional white space, a dash, optional white space and a dice formula is a blast whose radius is the value of those digits and whose damage is the text of that formula |
| Fan.AoEAtShape | src/lib/rules/fan.ts:7-13 | conversely, a blast read at a position starts with "Взрыв", its radius is the value of the digits after the white space, and its damage is digits, "D" and digits |
| Fan.AoEFormulaIntro | src/lib/rules/fan.ts:7 | `\s*[-–]\s*(\d+D\d+)` reads the dice formula after the dash and its white space |
| Fan.DiceEndIs | src/lib/rules/fan.ts:7 | `\d+D\d+` matches exactly when digits, a "D" (either case) and digits follow, and ends after the second digits |
| Fan.AoERadiusSkip | src/lib/rules/fan.ts:7 | `\s+` before the radius may be any run of white space |
| Fan.AoEFormulaSkip | src/lib/rules/fan.ts:7 | `\s*` before the dash may be any run of white space |
| Fan.AoERadiusNeedsDigit | src/lib/rules/fan.ts:7 | without a digit no radius is read |
| Fan.RepairLeftmost | src/lib/rules/fan.ts:20-27 | no repair is read exactly when no position starts one; otherwise the repair read is the one at the leftmost position that starts one |
| Fan.RepairFirstAt | src/lib/rules/fan.ts:20-27 | the repair at the first position that starts one is the repair read |
| Fan.RepairAtIff | src/lib/rules/fan.ts:20-25 | a repair starts at a position exactly when "Ремонт", at least one white space and at least one digit follow there, and its amount is the value of those digits, with no range |
| Fan.BurstLeftmost | src/lib/rules/fan.ts:32-40 | no burst is read exactly when no position starts one; otherwise the burst read is the one at the leftmost position that starts one |
| Fan.BurstFirstAt | src/lib/rules/fan.ts:32-40 | the burst at the first position that starts one is the burst read |
| Fan.MatchesShaped | src/lib/rules/fan.ts:5-42 | every match of each effect pattern has the shape of that effect |
| Fan.Search | src/lib/rules/fan.ts:5-42 | the leftmost match has the shape of its effect |
| Fan.NoDigitsNoSpecial | src/lib/rules/fan.ts:5-42 | a description with no digit is no effect at all |
| Fan.NoLetterZe | src/lib/rules/fan.ts:5-16 | a text without the letter "з" is not a blast |
| Fan.NoLetterEm | src/lib/rules/fan.ts:18-28 | a text without the letter "м" is not a repair |
| Fan.AoEExampleMatch | src/lib/rules/fan.ts:5-16 | "Взрыв 2ш - 1D20" is a blast of radius 2 with damage "1D20" |
| Fan.AoETextExample | src/lib/rules/fan.ts:79-87 | that text becomes the blast result "Взрыв в радиусе 2ш", with no extra damage |
| Fan.RepairExampleMatch | src/lib/rules/fan.ts:18-28 | "Ремонт 2" is a repair of 2 |
| Fan.RepairTextExample | src/lib/rules/fan.ts:89-97 | that text becomes "Ремонт 2 повреждений" with damage -2 |
| Fan.LazyReaches | src/lib/rules/fan.ts:32 | the lazy `.*?` reaches a directions part that follows on the same line |
| Fan.BurstAtIntro | src/lib/rules/fan.ts:32-40 | a shot count, white space and "выстрел", then on the same line a count of directions, is a burst of that many shots |
| Fan.BurstExampleMatch | src/lib/rules/fan.ts:30-42 | "3 выстрела 3х направл" is a burst of 3 in all three directions |
| Fan.BurstExampleNotAoE | src/lib/rules/fan.ts:79-87 | the burst text is not read as a blast first |
| Fan.BurstExampleNotRepair | src/lib/rules/fan.ts:89-97 | the burst text is not read as a repair first |
| Fan.BurstTextExample | src/lib/rules/fan.ts:99-107 | the burst text becomes a burst result aimed at the three directions |
| Fan.RepairHeals | src/lib/rules/fan.ts:116-123 | a structured repair reports its amount as negative damage |
| Fan.CalculateHit | src/lib/rules/fan.ts:50-57 | the fan hit is decided like tehnolog's |
| Fan.CalculateDamage | src/lib/rules/fan.ts:59-136 | the shared throws and damage, plus the special effect read from the text or the structured effect |
| Fan.CalculateMelee | src/lib/rules/fan.ts:138-155 | melee is the shared rule |
| RulesRegistry.GetDefaultRulesVersion | src/lib/rules-registry.ts:12-14 | the default edition is tehnolog, without special effects |
| RulesRegistry.GetRulesVersion | src/lib/rules-registry.ts:17-19 | the record returned is the one asked for; only fan supports special effects |
| RulesRegistry.GetAllRulesVersions | src/lib/rules-registry.ts:22-24 | the list holds the registry entry of each key, in key order |
| RulesRegistry.AllVersionsListed | src/lib/rules-registry.ts:22-24 | every edition is listed once |
| RulesRegistry.IsValidRulesVersion | src/lib/rules-registry.ts:27-29 | a name is valid exactly when it names a registered edition |
| RulesRegistry.ParseRulesVersion | src/lib/rules-registry.ts:27-29 | a valid name reads back as the edition of that name |
| RulesRegistry.ParseIdName | src/lib/rules-registry.ts:6-9 | each edition's name reads back as that edition |
| RulesRegistry.ValidIds | src/lib/rules-registry.ts:6-9 | "tehnolog" and "fan" are valid; "official" and "" are not |
| RulesRegistry.RulesHit | src/lib/rules-registry.ts:6-9 | the hit through the registry succeeds exactly when the total reaches the distance |
| RulesRegistry.HitSameInBothEditions | src/lib/rules-registry.ts:6-9 | both editions decide a hit identically |
| RulesRegistry.RulesMelee | src/lib/rules-registry.ts:6-9 | both editions use the shared melee rule |
| RulesRegistry.DamageSameInBothEditions | src/lib/rules-registry.ts:6-9 | both editions roll the same damage; tehnolog reports no special effect |
| RulesRegistry.RulesDamage | src/lib/rules-registry.ts:6-9 | damage through the registry is the shared rule, with a special effect only in an edition that supports it |
| CombatFlow.StartFromAnyState | src/hooks/useCombatFlow.ts:47-58 | starting a combat forgets the previous state entirely and opens action selection for the unit |
| CombatFlow.SelectThenBack | src/hooks/useCombatFlow.ts:60-72 | selecting an action opens parameters; going back restores the state with no action chosen |
| CombatFlow.BackToParametersKeeps | src/hooks/useCombatFlow.ts:74-78 | going back to parameters changes only the phase |
| CombatFlow.SetParametersOnly | src/hooks/useCombatFlow.ts:80-87 | setting parameters changes only the parameters; an empty update changes nothing; setting twice equals setting once |
| CombatFlow.MergeFields | src/hooks/useCombatFlow.ts:80-87 | each given field replaces the old value and each missing field keeps it |
| CombatFlow.RollLifecycle | src/hooks/useCombatFlow.ts:89-110 | rolling enters the rolling phase with a blank dice display; completing shows the result and stops rolling |
| CombatFlow.AnimationOverwritten | src/hooks/useCombatFlow.ts:97-110 | dice shown during the animation are replaced by those of the completed roll |
| CombatFlow.CloseIdempotent | src/hooks/useCombatFlow.ts:118-123 | close and cancel return to the initial state, are idempotent, and an unknown action changes nothing |
| CombatFlow.ReduceKeepsConsistent | src/hooks/useCombatFlow.ts:42-125 | every action keeps the state consistent: the unit type recorded is the type of the unit chosen |
| CombatFlow.GoBackSteps | src/hooks/useCombatFlow.ts:389-416 | back from parameters reaches action selection, back from results reaches parameters; otherwise back closes the flow, and the flow stays open exactly when going back was possible |
| CombatFlow.CoverIsNoSpecial | src/hooks/useCombatFlow.ts:236-242 | the cover level passed in the special-effect slot is never read as a special effect |
| CombatFlow.ShotArms | src/hooks/useCombatFlow.ts:188-214 | a squad soldier or machine weapon that exists gives its range and power; an index with no soldier or weapon is an error with the source's message, and no choice at all gives the defaults |
| CombatFlow.ShotRules | src/hooks/useCombatFlow.ts:188-261 | a shot fails exactly when it is not allowed or no weapon is found; otherwise hit and damage follow the chosen edition, with damage only on a hit |
| CombatFlow.ShotIgnoresCover | src/hooks/useCombatFlow.ts:216-220 | the cover level does not change a shot's outcome |
| CombatFlow.GrenadeRules | src/hooks/useCombatFlow.ts:266-305 | the throw rolls one D6 for distance (1 to 6 with a fair die), compared with nothing, so it always succeeds; the damage is one D20 |
| CombatFlow.ParseRollD20 | src/hooks/useCombatFlow.ts:266-305 | the grenade's "D20" is one twenty-sided die |
| CombatFlow.AttackerMelee | src/hooks/useCombatFlow.ts:310-330 | a squad soldier who exists gives its melee value; an index with no soldier is an error, and a machine or no choice gives the defaults |
| CombatFlow.MeleeRules | src/hooks/useCombatFlow.ts:310-347 | melee fails exactly when not allowed or the soldier is missing; otherwise it is the edition's melee |
| CombatFlow.AfterRollPhase | src/hooks/useCombatFlow.ts:352-363 | a finished roll shows its result; a failed one leaves the flow rolling |
| CombatFlow.StoredVersion | src/hooks/useCombatFlow.ts:134-140 | a saved edition name is adopted only when it is registered; otherwise the current edition stays |
| CombatFlow.StoredVersionAgrees | src/hooks/useCombatFlow.ts:134-140 | the adopted edition is always registered, and agrees with the source whenever the saved name is valid |
| CombatFlow.StaleVersionUnregistered | src/hooks/useCombatFlow.ts:134-140 | the source adopts the saved name "official", which is not registered |
| CombatFlow.CombatFlowHook.LoadRulesVersion | src/hooks/useCombatFlow.ts:134-140 | loading a saved edition changes only the edition, as `StoredVersion` decides |
| CombatFlow.CombatFlowHook.Dispatch | src/hooks/useCombatFlow.ts:42-125 | dispatch applies the reducer and keeps the state consistent |
| CombatFlow.CombatFlowHook.GoBack | src/hooks/useCombatFlow.ts:389-400 | back dispatches the step for the current phase |
| CombatFlow.CombatFlowHook.ExecuteShot | src/hooks/useCombatFlow.ts:188-261 | the shot's result is `ShotOutcome`; when a shot is not allowed the state is unchanged |
| CombatFlow.CombatFlowHook.ExecuteGrenade | src/hooks/useCombatFlow.ts:266-305 | the grenade's result is `GrenadeOutcome` and it is shown |
| CombatFlow.CombatFlowHook.ExecuteMelee | src/hooks/useCombatFlow.ts:310-347 | the melee result is `MeleeOutcome`; when melee is not allowed the state is unchanged |
| CombatFlow.CombatFlowHook.ExecuteAction | src/hooks/useCombatFlow.ts:352-363 | the chosen action is dispatched to its executor; with none chosen it is an error and nothing changes |
| CombatFlowController.EntryFor | src/components/combat/CombatFlowController.tsx:23-31 | an entry carries the result, its time and the applied flag; its id starts with the unit id and a dash |
| CombatFlowController.PrependKeepsNewestFirst | src/components/combat/CombatFlowController.tsx:23-31 | prepending an entry no older than the first keeps the log newest first |
| CombatFlowController.Controller.AddToCombatLog | src/components/combat/CombatFlowController.tsx:23-31 | the new entry goes in front of the log, and applied defaults to false |
| CombatFlowController.Controller.ClearCombatLog | src/components/combat/CombatFlowController.tsx:33-35 | the log is empty |
| CombatLog.InsertByTime | src/components/combat/CombatLog.tsx:20-22 | inserting keeps the log newest first and adds exactly the one entry |
| CombatLog.SortNewestFirst | src/components/combat/CombatLog.tsx:20-22 | the displayed log is a permutation of the entries, newest first |
| CombatLog.SortSortedUnchanged | src/components/combat/CombatLog.tsx:20-22 | a log already newest first is shown in its own order |
| CombatLog.SortIdempotent | src/components/combat/CombatLog.tsx:20-22 | sorting twice is sorting once |
| CombatLog.InsertByTimeStable | src/components/combat/CombatLog.tsx:21 | an inserted entry goes ahead of the entries of its own time and leaves their order alone |
| CombatLog.SortStable | src/components/combat/CombatLog.tsx:21 | the sort is stable: the entries of each time are shown in the order they were logged, as `Array.prototype.sort` guarantees |
| CombatLog.GetActionLabel | src/components/combat/CombatLog.tsx:42-53 | "shot" is shown as "Выстрел", "melee" as "Ближний бой", "grenade" as "Граната", and any other action type as it is |
| CombatLog.ActionLabelsDistinct | src/components/combat/CombatLog.tsx:42-53 | the three action types get three different labels, none equal to a raw type name |
| CombatLog.GetResultSummary | src/components/combat/CombatLog.tsx:55-69 | melee shows the winner, a miss "Промах", no wound "Не пробито", a wound "-n HP" or "-n ранений", anything else "Завершено" |
| CombatLog.DamageSummaryReadsBack | src/components/combat/CombatLog.tsx:55-69 | the wounds in a damage summary read back as the damage |
| CombatLog.SummaryAgreesWithFormat | src/components/combat/CombatLog.tsx:55-69 | the log's summary agrees with the result formatter on melee, misses and unhit results |
| CombatResults.CoverBonus | src/components/combat/CombatResults.tsx:27-41 | the displayed cover bonus is the type table's armour and distance modifier |
| CombatResults.EffectiveDistance | src/components/combat/CombatResults.tsx:27-33 | fan adds the cover bonus to the distance |
| CombatResults.EffectiveArmor | src/components/combat/CombatResults.tsx:35-41 | tehnolog adds the cover bonus to the armour |
| CombatResults.AtMostOneRaised | src/components/combat/CombatResults.tsx:27-41 | cover never lowers either value, raises at most one of them, and raises the one its edition names exactly when there is cover |
| CombatResults.FortificationBonusDisplay | src/components/combat/CombatResults.tsx:43-51 | no bonus is shown without cover; otherwise the shown bonus is positive |
| CombatResults.ShownTarget | src/components/combat/CombatResults.tsx:84-88 | a grenade shows the distance as entered, other actions the effective distance |
| CombatResults.ShownPenetrating | src/components/combat/CombatResults.tsx:125-127 | the dice marked as penetrating are those above the effective armour |
| CombatResults.MarksVersusDamage | src/components/combat/CombatResults.tsx:125-127 | the marks agree with the damage unless tehnolog cover raises the shown armour, and never mark more dice than wounded |
| ArmyBuilder.FreshActions | src/components/ArmyBuilder.tsx:61-63 | a squad gets one clear action record per soldier, a machine one |
| ArmyBuilder.NewUnit | src/components/ArmyBuilder.tsx:54-66 | a new unit has no dead, no grenade used, fresh actions, and a machine starts at full durability and ammunition with no shots |
| ArmyBuilder.AddUnit | src/components/ArmyBuilder.tsx:53-73 | adding appends the new unit, adds its cost and changes nothing else |
| ArmyBuilder.FindUnit | src/components/ArmyBuilder.tsx:76-77 | the unit found has the instance id; none is found exactly when no unit has it |
| ArmyBuilder.FindUnitIsFirst | src/components/ArmyBuilder.tsx:76-77 | `find` returns the first unit with the instance id |
| ArmyBuilder.Without | src/components/ArmyBuilder.tsx:81 | filtering drops exactly the units with the id |
| ArmyBuilder.WithoutConcat | src/components/ArmyBuilder.tsx:81 | filtering works piece by piece, so the units that stay keep their order and their repetitions |
| ArmyBuilder.RemoveUnit | src/components/ArmyBuilder.tsx:75-84 | an unknown id changes nothing; otherwise the unit is filtered out and its cost subtracted |
| ArmyBuilder.ClearArmy | src/components/ArmyBuilder.tsx:328 | clearing empties the army and zeroes its cost |
| ArmyBuilder.AddKeepsTally | src/components/ArmyBuilder.tsx:53-73 | adding keeps the total equal to the sum of unit costs, and keeps ids unique when the new id is fresh |
| ArmyBuilder.RemoveKeepsTally | src/components/ArmyBuilder.tsx:75-84 | removing keeps the total equal to the sum of unit costs and ids unique |
| ArmyBuilder.CostSumWithout | src/components/ArmyBuilder.tsx:75-84 | filtering a unique id out removes exactly that unit's cost |
| ArmyBuilder.ClearTallied | src/components/ArmyBuilder.tsx:328 | a cleared army is tallied |
| ArmyBuilder.FilterCatalogue | src/components/ArmyBuilder.tsx:86-94 | the catalogue shows exactly the templates of the chosen faction whose lower-cased name contains the lower-cased search |
| ArmyBuilder.Select | src/components/ArmyBuilder.tsx:86-94 | `filter` keeps exactly the elements its callback accepts, never more than it was given |
| ArmyBuilder.SelectConcat | src/components/ArmyBuilder.tsx:86-94 | `filter` works piece by piece |
| ArmyBuilder.FilterCatalogueConcat | src/components/ArmyBuilder.tsx:86-94 | the offered templates keep their catalogue order and their repetitions |
| ArmyBuilder.EmptySearchOffersAll | src/components/ArmyBuilder.tsx:86-94 | with no faction filter and an empty search, every template is offered |
| GameSession.UpdateUnit | src/components/GameSession.tsx:32-37 | the unit with the instance id is replaced, every other unit and the army's other fields are kept |
| GameSession.UpdateThenFind | src/components/GameSession.tsx:32-37 | after an update the unit is found as updated; an unknown id changes nothing; ids stay unique; updating twice is updating once |
| GameSession.StartNewTurn | src/components/GameSession.tsx:56-80 | a new turn resets every unit and returns to the first unit |
| GameSession.NewTurnKeeps | src/components/GameSession.tsx:56-80 | a new turn keeps the unit's identity, dead soldiers, durability, ammunition and grenade |
| GameSession.NewTurnClears | src/components/GameSession.tsx:56-80 | a new turn clears every soldier's actions, the machine's flags, shot count and weapon shots; a squad is then done only when all are dead, a machine only when destroyed |
| GameSession.StartNewTurnIdempotent | src/components/GameSession.tsx:56-80 | two new turns in a row equal one |
| GameSession.ActiveUnitsCount | src/components/GameSession.tsx:82-87 | the count is 0 exactly when no unit is active, and all exactly when every unit is |
| GameSession.NewTurnKeepsActive | src/components/GameSession.tsx:82-87 | a new turn does not change how many units are active |
| GameSession.JsRemainder | src/components/GameSession.tsx:89-90 | JavaScript's `%` is undefined (NaN) for an empty army and keeps the dividend's sign |
| GameSession.CarouselSteps | src/components/GameSession.tsx:89-90 | next and previous wrap around the army and undo each other |
| GameSession.CarouselEmpty | src/components/GameSession.tsx:89-90 | with no units both steps give NaN |
| GameSession.GetUnitStatus | src/components/GameSession.tsx:93-103 | a squad is dead when all soldiers are dead and done when the card says so; a machine is dead at zero durability |
| GameSession.DeadIffInactive | src/components/GameSession.tsx:82-103 | a unit counts as dead exactly when it is not counted active |
| UnitCard.AllDeadIsDone | src/components/UnitCard.tsx:41-47 | a squad whose soldiers are all dead is done |
| UnitCard.ToggleAction | src/components/UnitCard.tsx:52-59 | toggling flips one flag of one soldier and leaves everything else |
| UnitCard.ToggleActionTwice | src/components/UnitCard.tsx:52-59 | toggling twice restores the unit |
| UnitCard.ToggleDead | src/components/UnitCard.tsx:61-67 | the soldier's dead mark flips and no other soldier's does |
| UnitCard.ToggleDeadTwice | src/components/UnitCard.tsx:61-67 | toggling twice restores who is dead |
| UnitCard.Clamp | src/components/UnitCard.tsx:69-79 | a stat stays between 0 and its maximum, unchanged when already inside |
| UnitCard.UpdateMachineStat | src/components/UnitCard.tsx:69-79 | durability or ammunition moves by the step, clamped to its range; reaching 0 durability also marks the machine done; nothing else changes |
| UnitCard.ToggleMachineDestroyed | src/components/UnitCard.tsx:81-87 | a destroyed machine is restored to 1 durability and not done; otherwise it is destroyed and done |
| UnitCard.ToggleDestroyedAlternates | src/components/UnitCard.tsx:81-87 | the toggle alternates destroyed and not destroyed |
| UnitCard.FindSector | src/components/UnitCard.tsx:89-94 | the speed comes from the first sector holding the durability; none only when no sector does |
| UnitCard.GetMachineSpeed | src/components/UnitCard.tsx:89-94 | a destroyed machine does not move; otherwise it moves at the speed of the first matching sector, or 0 |
| UnitCard.MarkWeaponFired | src/components/UnitCard.tsx:518-529 | marking records the weapon's shot, counts one more shot and spends one round, never below zero |
| UnitCard.ResetWeapon | src/components/UnitCard.tsx:541-548 | resetting clears the weapon's mark and counts one shot fewer, never below zero |
| UnitCard.MarkThenReset | src/components/UnitCard.tsx:518-548 | mark then reset restores the machine except for the spent round |
| UnitCard.FiredWeaponCannotShoot | src/components/UnitCard.tsx:469-475 | a marked weapon cannot shoot again this turn |
| UnitCard.ResetTurn | src/components/UnitCard.tsx:309-314 | the reset button clears a squad's actions and grenade, or a machine's flags |
| UnitCard.MarkSoldier | src/components/UnitCard.tsx:121-132 | marking sets the soldier's flag, extends the list with clear records when needed, and leaves the other soldiers |
| UnitCard.MarkSoldierTwice | src/components/UnitCard.tsx:121-132 | marking twice is marking once |
| UnitCard.ApplyResult | src/components/UnitCard.tsx:116-162 | a squad shot marks the soldier as having shot, a squad melee as having fought, a squad grenade marks the shot and uses the grenade; a machine shot or grenade spends a round (never below 0), counts one more shot for the turn and for the weapon (weapon 0 when none is recorded), and marks the machine as having shot; a machine melee marks it as having fought; a squad result without a soldier changes nothing; each case leaves the rest of the unit as it was |
| UnitCard.GrenadeLosesShotMark | src/components/UnitCard.tsx:121-132 | as written, a squad's grenade keeps the grenade mark but loses the shot mark |
| UnitCard.ApplyResultAgrees | src/components/UnitCard.tsx:116-162 | the corrected rule agrees with the source on every result except a squad grenade |
| UnitCard.ApplyResultRepeats | src/components/UnitCard.tsx:116-162 | applying a squad result twice is applying it once, while a machine's shot is counted again each time |
| UnitCard.AppliedEntry | src/components/UnitCard.tsx:164-175 | applying logs the shown result as applied, and only when there is one |
| UnitSelector.TotalCost | src/components/UnitSelector.tsx:50-52 | an empty army costs 0, and non-negative costs give a non-negative total |
| UnitSelector.TotalCostIsTally | src/components/UnitSelector.tsx:50-52 | the selector's total is the army's tally of unit costs |
| UnitSelector.RemainingPoints | src/components/UnitSelector.tsx:54 | remaining plus spent is the budget |
| UnitSelector.AvailableSquads | src/components/UnitSelector.tsx:57 | exactly the squads of the chosen faction are offered |
| UnitSelector.AvailableSquadsConcat | src/components/UnitSelector.tsx:57 | the offered squads keep their order and their repetitions |
| UnitSelector.AffordableStaysWithinBudget | src/components/UnitSelector.tsx:60 | a squad is affordable exactly when adding it keeps the army within the budget |
| UnitSelector.BudgetColorCross | src/components/UnitSelector.tsx:66-72 | green above half of the budget left, yellow from a fifth to a half, red below a fifth |
| UnitSelector.BudgetColorMonotone | src/components/UnitSelector.tsx:66-72 | more points left never gives a worse colour |
| UnitSelector.ToBattleAfterEdits | src/components/UnitSelector.tsx:252-253 | the battle button is enabled after adding a unit and disabled after clearing |
| UnitSelector.Selector.HandleAddUnit | src/components/UnitSelector.tsx:74-81 | a unit is added exactly when affordable; otherwise the warning shows |
| UnitSelector.Selector.HideWarning | src/components/UnitSelector.tsx:77 | the warning is hidden |
| PointBudgetInput.ValidateInput | src/components/PointBudgetInput.tsx:35-60 | an empty text, a non-number, a non-positive number and one above 10000 are each rejected with their own message; any other number is accepted as parsed |
| PointBudgetInput.TypedBudgetAccepted | src/components/PointBudgetInput.tsx:35-60 | a typed number is accepted exactly when it is between 1 and 10000 |
| PointBudgetInput.BudgetField.HandlePresetClick | src/components/PointBudgetInput.tsx:62-66 | a preset clears the custom text and error and selects that preset alone |
| PointBudgetInput.BudgetField.HandleCustomChange | src/components/PointBudgetInput.tsx:68-76 | typing shows the validation error and reports the budget only when valid |
| PointBudgetInput.BudgetField.HandleCustomBlur | src/components/PointBudgetInput.tsx:78-83 | leaving the field revalidates it and reports a valid budget |
| PointBudgetInput.BudgetField.HandleKeyDown | src/components/PointBudgetInput.tsx:85-90 | Escape clears the custom text and error; other keys change nothing |
| NumberStepper.ClampTo | src/components/ui/NumberStepper.tsx:59-69 | a value is clamped into the range and unchanged when inside |
| NumberStepper.Decremented | src/components/ui/NumberStepper.tsx:33-39 | minus steps down, not below the minimum |
| NumberStepper.Incremented | src/components/ui/NumberStepper.tsx:41-47 | plus steps up, not above the maximum |
| NumberStepper.ButtonsMatchEnabled | src/components/ui/NumberStepper.tsx:73-74 | a button changes the value exactly when it is enabled, and the result stays in range |
| NumberStepper.StepsUndo | src/components/ui/NumberStepper.tsx:33-47 | a step up undoes a step down and back, away from the bounds |
| NumberStepper.Stepper.Decrement | src/components/ui/NumberStepper.tsx:33-39 | minus reports the decremented value only when it changes |
| NumberStepper.Stepper.Increment | src/components/ui/NumberStepper.tsx:41-47 | plus reports the incremented value only when it changes |
| NumberStepper.Stepper.HandleInputChange | src/components/ui/NumberStepper.tsx:49-57 | typed text is kept and a number is reported clamped into range |
| NumberStepper.Stepper.HandleBlur | src/components/ui/NumberStepper.tsx:59-69 | leaving the field shows a number again: the clamped one typed, or the previous value |
| NumberStepper.Stepper.HandleFocus | src/components/ui/NumberStepper.tsx:71 | focus changes only the focus flag |
| Strings.ParseIntToString | src/components/ui/NumberStepper.tsx:53 | `parseInt` reads back every integer `String` writes |
| Strings.Trim | src/components/ArmlistEditor.tsx:551-566 | trimming gives the text with its white space cut from both ends: a piece of the text with only white space before and after it and none at either of its ends; it is empty exactly for blank text |
| UnitUtils.UnitsOfType | src/lib/unit-utils.ts:44 | the filter keeps exactly the units of the template |
| UnitUtils.CountOfPositive | src/lib/unit-utils.ts:23-29 | a template is counted exactly when some unit has it |
| UnitUtils.CountOfAppend | src/lib/unit-utils.ts:23-29 | adding a unit adds one to its template's count only |
| UnitUtils.CountByUnitType | src/lib/unit-utils.ts:23-29 | the loop's map has a key for each template present, with its count, and the counts add up to the number of units |
| UnitUtils.CountMapSum | src/lib/unit-utils.ts:23-29 | the counts add up to the number of units |
| UnitUtils.GetNextInstanceNumber | src/lib/unit-utils.ts:43-46 | numbering starts at 1, and is 1 exactly when no unit of the template exists |
| UnitUtils.NextNumberAfterAdd | src/lib/unit-utils.ts:43-46 | adding a unit of the template moves its next number up by one |
| UnitUtils.AssignInstanceNumber | src/lib/unit-utils.ts:55-60 | the number is set and nothing else changes |
| UnitUtils.CanAddUnit | src/lib/unit-utils.ts:69-72 | a unit can be added while its next number stays within 99 |
| UnitUtils.AddKeepsLimit | src/lib/unit-utils.ts:69-72 | adding an allowed unit keeps its template within 99 |
| UnitUtils.ValidateAddUnit | src/lib/unit-utils.ts:86-97 | validation succeeds exactly when the unit can be added, otherwise with the 99-unit message |
| UnitUtils.FormatUnitNumber | src/lib/unit-utils.ts:110-118 | "#n" for a set number, "#(fallback+1)" otherwise, "" with neither |
| UnitUtils.FormatCountBadge | src/lib/unit-utils.ts:130-135 | no badge for zero; otherwise the decimal digits of the count |
| ArmlistRoutes.FindIndex | src/app/api/armlists/squads/route.ts:46 | the index of the first record with the id, or -1 exactly when none has it |
| ArmlistRoutes.Upserted | src/app/api/armlists/squads/route.ts:45-54 | a known id is replaced in place, a new one appended, and all other records kept |
| ArmlistRoutes.WithoutId | src/app/api/armlists/squads/route.ts:80-82 | deleting drops exactly the records with the id, and the length is kept exactly when none had it |
| ArmlistRoutes.DeleteAfterUpsert | src/app/api/armlists/squads/route.ts:45-89 | deleting a record just saved leaves what deleting would have left before |
| ArmlistRoutes.UpsertIdempotent | src/app/api/armlists/squads/route.ts:45-54 | saving a record twice is saving it once |
| ArmlistRoutes.DeleteIdempotent | src/app/api/armlists/squads/route.ts:80-82 | deleting twice is deleting once |
| ArmlistRoutes.Store.Records | src/app/api/armlists/squads/route.ts:8-15 | an unreadable file reads as an empty list |
| ArmlistRoutes.Store.Get | src/app/api/armlists/squads/route.ts:21-31 | GET returns the stored records |
| ArmlistRoutes.Store.Post | src/app/api/armlists/squads/route.ts:33-65 | a record missing a required field is refused with 400 and nothing written; otherwise it is upserted with 200 |
| ArmlistRoutes.Store.Delete | src/app/api/armlists/squads/route.ts:67-98 | no id gives 400, an unknown id 404, and otherwise the records with the id are deleted |
| ArmlistEditor.Slug | src/components/ArmlistEditor.tsx:66-72 | a slug is lower-case letters and digits separated by single underscores, none at either end; which letters and where the underscores go is stated by `ArmlistEditor.SlugKeepsChars` and `ArmlistEditor.SlugOfWords` |
| ArmlistEditor.GenerateId | src/components/ArmlistEditor.tsx:66-72 | an id is the faction, an underscore and the slug of the name |
| ArmlistEditor.CollapseRuns | src/components/ArmlistEditor.tsx:69 | the result is slug characters and single underscores, never longer than the text; a run of other characters at the start becomes a leading underscore |
| ArmlistEditor.CollapseKeepsChars | src/components/ArmlistEditor.tsx:69 | collapsing keeps every slug character of the text, in order, and adds none |
| ArmlistEditor.CollapseSlugRun | src/components/ArmlistEditor.tsx:69 | a run of slug characters is copied as it is and ends any run of other characters |
| ArmlistEditor.CollapseOtherRun | src/components/ArmlistEditor.tsx:69 | a run of other characters becomes exactly one underscore |
| ArmlistEditor.CollapseRunContinues | src/components/ArmlistEditor.tsx:69 | inside a run, more characters other than slug characters add nothing |
| ArmlistEditor.CollapseTrailingRun | src/components/ArmlistEditor.tsx:69 | a run of other characters after the last word leaves a trailing underscore |
| ArmlistEditor.CollapseWords | src/components/ArmlistEditor.tsx:69 | two words joined by a run of other characters collapse to the words joined by one underscore |
| ArmlistEditor.CollapseTrailingExample | src/components/ArmlistEditor.tsx:69 | "ab!" collapses to "ab_" |
| ArmlistEditor.StripUnderscores | src/components/ArmlistEditor.tsx:70 | the result is the text with only underscores cut from both ends and none left at either of its ends; text without outer underscores is unchanged |
| ArmlistEditor.SlugKeepsChars | src/components/ArmlistEditor.tsx:66-72 | the slug keeps every letter and digit of the lower-cased name, in order |
| ArmlistEditor.SlugOfWords | src/components/ArmlistEditor.tsx:66-72 | two lower-case words joined by characters that are not slug characters after lower-casing give the words joined by one underscore |
| ArmlistEditor.SlugWordsExample | src/components/ArmlistEditor.tsx:66-72 | "a b" becomes "a_b" |
| ArmlistEditor.StripKeepsChars | src/components/ArmlistEditor.tsx:70 | stripping the outer underscores keeps every slug character |
| ArmlistEditor.SlugIdempotent | src/components/ArmlistEditor.tsx:66-72 | a slug is its own slug |
| ArmlistEditor.SlugExample | src/components/ArmlistEditor.tsx:66-72 | "T-!34." becomes "t_34" and the id "polaris_t_34" |
| ArmlistEditor.SaveId | src/components/ArmlistEditor.tsx:126-130 | a set id is kept, otherwise one is generated; it is never empty |
| ArmlistEditor.SavedSquad | src/components/ArmlistEditor.tsx:126-136 | the saved squad fills the missing faction with "polaris" and the missing cost with 0 |
| ArmlistEditor.SavedMachine | src/components/ArmlistEditor.tsx:167-182 | the saved machine defaults rank 2, fire rate 1, and ammunition, durability and cost 0 |
| ArmlistEditor.SavedSquadAccepted | src/components/ArmlistEditor.tsx:424 | a squad the save button allows passes the route's check, which refuses exactly a nameless or soldierless squad |
| ArmlistEditor.SavedMachineAccepted | src/components/ArmlistEditor.tsx:877 | a machine the save button allows passes the route's check, which refuses exactly a nameless machine |
| ArmlistEditor.RemoveAt | src/components/ArmlistEditor.tsx:295-301 | removing an index drops that item and shifts the rest; an index out of range changes nothing |
| ArmlistEditor.RemoveLastAdded | src/components/ArmlistEditor.tsx:279-301 | removing the item just added restores the list |
| ArmlistEditor.EditSoldierChangesOneField | src/components/ArmlistEditor.tsx:303-308 | each edit (rank, speed, range, power, melee, armour, image) sets its own field to the new value and changes nothing else, props included |
| ArmlistEditor.WithProp | src/components/ArmlistEditor.tsx:310-318 | a property is appended only when absent |
| ArmlistEditor.WithPropKeepsDistinct | src/components/ArmlistEditor.tsx:310-318 | properties stay distinct, and adding twice is adding once |
| ArmlistEditor.PropToAdd | src/components/ArmlistEditor.tsx:551-566 | blank text adds nothing; other text adds itself with its white space cut from both ends |
| ArmlistEditor.EditWeapon | src/components/ArmlistEditor.tsx:621-627 | the edited field takes the value; a blank special becomes no special |
| ArmlistEditor.Editor.AddSoldier | src/components/ArmlistEditor.tsx:279-293 | a default soldier is appended |
| ArmlistEditor.Editor.RemoveSoldier | src/components/ArmlistEditor.tsx:295-301 | the soldier at the index is removed |
| ArmlistEditor.Editor.UpdateSoldier | src/components/ArmlistEditor.tsx:303-308 | only the soldier at the index is edited |
| ArmlistEditor.Editor.AddSoldierProp | src/components/ArmlistEditor.tsx:310-318 | the property is added to that soldier once |
| ArmlistEditor.Editor.RemoveSoldierProp | src/components/ArmlistEditor.tsx:320-325 | the property at the index is removed from that soldier |
| ArmlistEditor.Editor.AddWeapon | src/components/ArmlistEditor.tsx:605-611 | a default weapon is appended |
| ArmlistEditor.Editor.RemoveWeapon | src/components/ArmlistEditor.tsx:613-619 | the weapon at the index is removed |
| ArmlistEditor.Editor.UpdateWeapon | src/components/ArmlistEditor.tsx:621-627 | only the weapon at the index is edited |
| ArmlistEditor.Editor.AddSpeedSector | src/components/ArmlistEditor.tsx:629-635 | a default sector is appended |
| ArmlistEditor.Editor.RemoveSpeedSector | src/components/ArmlistEditor.tsx:637-643 | the sector at the index is removed |
| ArmlistEditor.Editor.UpdateSpeedSector | src/components/ArmlistEditor.tsx:645-650 | only the sector at the index is edited |

## Left out

- Randomness: `rollDie` is replaced by the `Dice` parameter, and the `Math.random()` suffixes of log-entry ids by a `suffix` parameter.
- Time: `Date.now()` timestamps are parameters. Dice animation delays (`animateDiceRoll`) and the initiative roll's `setInterval` in `GameSession` are not modelled.
- File I/O: the JSON files behind the API routes are an in-memory `Option<seq<Record>>` (None when unreadable). Write failures and the 500 responses are not modelled.
- `src/app/api/armlists/upload-image/route.ts`, the `fetch` calls between components and routes, and the army import and export are not modelled.
- `localStorage` is a parameter: the saved edition name is passed in.
- The script's command-line entry point, which reads and writes files, is not modelled; `FixEncoding` models its text repair.
- Presentational components (dice displays, modals, selectors, progress indicators) and all rendering and styling are not modelled. The `CombatAssistant` component is not modelled.
- React effects run when their dependencies change. The model applies each effect once. `UnitCard.ApplyResultRepeats` states what a repeated run would do.
- The editor's mode switch and initial data load are not modelled.
- NaN and `undefined` in numeric fields are not modelled: numbers are integers, and missing optional fields are `Option` values.
- Strings.ToLower: folds only Latin A–Z and the Cyrillic capitals U+0400–U+042F, not all of Unicode.
- Strings.ParseInt: values are exact integers, with no rounding to a double for very long digit runs.
- UnitSelector.GetBudgetColor: the percentage is computed over exact reals, not IEEE doubles.
- ArmlistEditor.Editor.UpdateSoldier: requires an index inside the list; JavaScript would grow a sparse array for an index past the end.
- ArmlistEditor.Editor.UpdateWeapon: requires an index inside the list, for the same reason.
- ArmlistEditor.Editor.UpdateSpeedSector: requires an index inside the list, for the same reason.
- ArmlistEditor.Editor.AddSoldierProp: the source mutates the soldier object shared with the previous state. The model replaces the soldier with a new value, so that aliasing is not modelled.
- ArmlistEditor.Editor.RemoveSoldierProp: same aliasing as above, also not modelled.
- ArmlistRoutes.Store.Post: the three routes differ only in their required fields (soldiers for squads, colour for factions). One generic store models them, with `MissingRequired` selecting the rule by record kind.

## Findings

| source | as written | input that shows it | evidently intended | confidence | as-written member | corrected member |
|---|---|---|---|---|---|---|
| src/hooks/useCombatFlow.ts:134-140 | any non-empty saved name is adopted as the rules edition, unchecked | a stored name "official" left by an earlier version: the edition becomes "official" and the registry lookup fails | adopt the saved name only when it is registered | medium, not executed | CombatFlow.StoredVersionAsWritten | CombatFlow.StoredVersion |
| src/components/UnitCard.tsx:121-132 | for a squad's grenade, two updates are built from the same old unit, so the second (grenade used) overwrites the first (soldier marked as having shot) | a grenade result for soldier 0 of a squad with no actions taken: afterwards the grenade is used but soldier 0 is not marked as shot | both marks survive | high, not executed | UnitCard.ApplyResultAsWritten | UnitCard.ApplyResult |
