# Code Blue game engine in Dafny

This project models the game engine of *Code Blue*, a TypeScript/React
emergency-medicine role-playing game, and proves properties of that model.
The engine has the following parts:
- the central game store (player stats, shift clock, case queues, the
  diagnostic board and NPC relationships);
- the dialogue state machine;
- the narrative case interpreter and its effect language;
- the mass-casualty incident (MCI) simulation;
- the 2d6 dice and skill-check rules;
- the selection of "internal voices";
- crafting and the input sanitiser;
- the case generator;
- the CPC rapid-diagnosis exam, and the progress bar, lab results and
  vital-signs monitor views;
- the game-state hooks.

Each core source file is modelled by one Dafny module:

| module | file | source |
|---|---|---|
| `GameStore` | game_store.dfy | store/gameStore.ts (with the background bonus table of types/character.ts) |
| `DialogueStore` | dialogue_store.dfy | store/dialogueStore.ts |
| `NarrativeCase` | case_engine.dfy | lib/CaseEngine.ts (with the case types it runs on) |
| `Mci` | mci_manager.dfy | lib/MCIManager.ts |
| `Dice` | dice.dfy | utils/dice.ts |
| `SkillChecks` | skill_checks.dfy | utils/skillChecks.ts |
| `InternalVoices` | internal_voices.dfy | lib/internalVoices.ts |
| `Crafting` | crafting.dfy | lib/CraftingEngine.ts |
| `Security` | security.dfy | utils/security.ts |
| `CaseGenerator` | case_generator.dfy | utils/caseGenerator.ts |
| `CpcMode` | cpc_mode.dfy | components/game/CPCMode.tsx |
| `ProgressBar` | progress_bar.dfy | components/ui/ProgressBar.tsx |
| `LabResults` | lab_results.dfy | components/game/LabResults.tsx |
| `VitalSignsMonitor` | vital_signs_monitor.dfy | components/game/VitalSignsMonitor.tsx |
| `UseGameState` | use_game_state.dfy | hooks/useGameState.ts |
| `Common`, `Skills`, `Medical` | common.dfy, skills.dfy, medical.dfy | shared helpers; the skill table of data/skills.ts; the records of types/medical.ts and the Mrs Martinez case |

**Stateful code.** Code that updates state in place is modelled as classes:
- the zustand stores, `GameStore.Store` and `DialogueStore.Dialogue`;
- the two engine classes, `NarrativeCase.CaseEngine` and `Mci.MCIManager`;
- the component state, `CpcMode.CpcExam`, `VitalSignsMonitor.WaveformBuffer`
  and `VitalSignsMonitor.RhythmQuiz`.

Each class has the source's fields. Every method says exactly what the new
state is. Most do so by tying `State()` to a specification function of the
old state, and they keep the class invariant `Valid()`. The invariants
include the clamps on player stats and relationships, duplicate-free visited
nodes, and that every MCI patient has its HR and O2 vitals. The properties
that span several calls are lemmas about those specification functions.

**Loops.** Loops in the source are methods with loop invariants, each proved
against a function:
- `createInitialSkills`, `getSkillModifier` and `getLessonBonuses`;
- `successProbability`, whose loop `previewSkillCheck` calls (the preview
  itself is straight-line code);
- `CaseEngine.applyEffects` and `MCIManager.tick`;
- the waveform frame update.

**Inputs from outside.** Randomness, clocks and ids are parameters:
- the dice, `crypto`/`Math.random` values, `uuid` ids and `Date.now()`
  timestamps;
- the random case pick;
- the voice-line table, `getSkillVoiceLine` (a function from skill and
  trigger to an optional line).

**Numbers.**
- Whole-number game values are `int`.
- Probabilities, vital signs, lab values and percentages are `real`.
  JavaScript numbers are doubles, and the model computes with exact values
  (see "Left out").
- JavaScript's `%` on a negative number and `Math.floor`/`Math.ceil`/
  `Math.round` are written out explicitly.

## Model

| member | source | states |
|---|---|---|
| Common.Clamp | code-blue/src/store/gameStore.ts:182-226 | `Math.max(lo, Math.min(hi, x))` lies in [lo, hi], keeps x inside it, and gives the nearer bound outside it |
| Common.NatToStringRoundTrip | code-blue/src/hooks/useGameState.ts:223-227 | the decimal text of a whole number reads back as that number |
| Dice.DieFromRandomWord | code-blue/src/utils/dice.ts:30-34 | the cryptographic path maps any 32-bit random word to a face from 1 to 6 |
| Dice.DieFromUnitInterval | code-blue/src/utils/dice.ts:35-36 | the `Math.random` fallback maps any x in [0, 1) to a face from 1 to 6 |
| Dice.GetCriticalType | code-blue/src/utils/dice.ts:48-52 | a critical success exactly on a natural 12, a critical failure exactly on a natural 2, otherwise none |
| Dice.CriticalMatchesDoubles | code-blue/src/utils/dice.ts:48-66 | for two faces in 1..6 whose sum is the natural, a critical failure is exactly snake eyes and a critical success exactly boxcars |
| Dice.WaysCountsPairs | code-blue/src/utils/dice.ts:87-90 | each probability table entry, in 36ths, is the number of ordered face pairs with that sum (1, 2, ..., 6, ..., 2, 1) |
| Dice.TableSumsToOne | code-blue/src/utils/dice.ts:87-90 | the table's ways for sums 2 to 12 add to 36, so its probabilities add to 1 |
| Dice.SuccessProbability | code-blue/src/utils/dice.ts:95-111 | the loop's sum is the specified chance: 35/36 for a target of at most 2, 0 above 12, otherwise the table's tail from the target to 12 |
| Dice.TailWaysMonotone | code-blue/src/utils/dice.ts:105-110 | a higher target never has more winning ways |
| Dice.SuccessChanceDependsOnDifference | code-blue/src/utils/dice.ts:95-98 | raising the DC and the modifier by the same amount leaves the chance unchanged: only dc - modifier matters |
| Dice.SuccessChanceBounds | code-blue/src/utils/dice.ts:95-111 | the chance is between 0 and 35/36 |
| Dice.SuccessChanceMonotoneInDc | code-blue/src/utils/dice.ts:95-111 | a harder DC never raises the chance |
| Dice.SuccessChanceMonotoneInModifier | code-blue/src/utils/dice.ts:95-111 | a larger modifier never lowers the chance |
| Dice.WinningWaysTail | code-blue/src/utils/dice.ts:95-111 | counting the sums that win under the check rule (boxcars always, snake eyes never, else natural at least the target) gives the table's tail, or only boxcars above 12 |
| Dice.SuccessChanceVersusWinningRolls | code-blue/src/utils/dice.ts:95-111 | the reported chance is the exact share of winning rolls for a target up to 12; above 12 it reports 0 although boxcars still wins 1 time in 36 |
| Dice.ProbabilityDescriptionLadder | code-blue/src/utils/dice.ts:116-125 | the description never drops as the probability rises, and it is "Impossible" exactly when p is at most 0 |
| Dice.GetProbabilityColor | code-blue/src/utils/dice.ts:130-134 | the colour is green exactly when the description is "Likely" or better (p at least 0.70) |
| Dice.DCDescriptionLadder | code-blue/src/utils/dice.ts:140-160 | the DC description never drops as the DC rises, and each named DC constant (6 to 18) gets its own name |
| Dice.WithAdvantage | code-blue/src/utils/dice.ts:169-173 | one of the two rolls, with a natural at least both naturals; a tie keeps the first |
| Dice.WithDisadvantage | code-blue/src/utils/dice.ts:178-182 | one of the two rolls, with a natural at most both naturals; a tie keeps the first |
| SkillChecks.TotalModifierAppend | code-blue/src/utils/skillChecks.ts:56 | the modifier total of two lists joined is the sum of their totals |
| SkillChecks.SingleModifierTotal | code-blue/src/utils/skillChecks.ts:56 | a single modifier totals its own value |
| SkillChecks.ModifierTotalBreakdown | code-blue/src/utils/skillChecks.ts:34-56 | the assembled modifiers total the skill level plus the lesson bonus plus the situational modifiers plus 1 when assisted |
| SkillChecks.NarrativeLadder | code-blue/src/utils/skillChecks.ts:116-148 | the narrative tier never drops as the margin rises, every success band is above every failure band, and criticals override the margin |
| SkillChecks.ResolveSkillCheck | code-blue/src/utils/skillChecks.ts:27-108 | the result carries the check's skill and DC, the assembled modifiers and their total, margin = final - DC, a passive natural of 7 with no critical, the narrative for its outcome, and a voice exactly when the voice table has a line (priority 10 on a critical, else 5) |
| SkillChecks.RolledCheckSuccess | code-blue/src/utils/skillChecks.ts:67-76 | a rolled check's final result is natural + total; it succeeds on boxcars, fails on snake eyes, and otherwise succeeds exactly when the natural reaches dc - total |
| SkillChecks.PassiveCheckSuccess | code-blue/src/utils/skillChecks.ts:59-76 | a passive check's final result is 7 + total, and it succeeds exactly when that reaches the DC |
| SkillChecks.SuccessMonotoneInDc | code-blue/src/utils/skillChecks.ts:67-76 | a check that succeeds still succeeds against a lower DC with the same dice |
| SkillChecks.PreviewSkillCheck | code-blue/src/utils/skillChecks.ts:165-205 | the preview, computed by calling the `successProbability` loop, is the specified preview: same modifiers, their total, and `successProbability(dc, total)` |
| SkillChecks.PreviewAgreesWithResolution | code-blue/src/utils/skillChecks.ts:165-205 | the preview shows the same modifier breakdown and total as the resolution, and for a reachable target its probability is the exact share of winning rolls |
| SkillChecks.GetDCDescriptionFromValue | code-blue/src/utils/skillChecks.ts:207-215 | the description is the dice module's DC description |
| SkillChecks.ResolveOpposedCheck | code-blue/src/utils/skillChecks.ts:231-274 | the attacker rolls against 10 + the defender's level, the defender's passive result is 7 + its level, margin = attacker - defender, and the winner is attacker, defender or tie exactly when the margin is positive, negative or zero |
| SkillChecks.OpposedAttackerSuccessWins | code-blue/src/utils/skillChecks.ts:259-266 | an attacker who succeeds with no critical always wins |
| SkillChecks.OpposedWinDespiteFailedCheck | code-blue/src/utils/skillChecks.ts:238-266 | the converse fails: a natural 8 misses the attacker's DC of 10 yet beats a passive 7 |
| SkillChecks.OpposedIgnoresDefenderDc | code-blue/src/utils/skillChecks.ts:231-274 | the defender's own DC argument has no effect on the outcome |
| InternalVoices.CreateVoice | code-blue/src/lib/internalVoices.ts:296-310 | the voice carries the given skill, text and priority, and the skill's name, voice name and category from the skills table |
| InternalVoices.RaisedInWhen | code-blue/src/lib/internalVoices.ts:62-112 | a conditional voice is raised exactly when its condition holds |
| InternalVoices.RaisedInAppend | code-blue/src/lib/internalVoices.ts:62-112 | a voice is in a joined list exactly when it is in one of the parts |
| InternalVoices.DangerVoicesExact | code-blue/src/lib/internalVoices.ts:62-112 | TRIAGE 8 is raised exactly for HR over 120 or under 50 with TRIAGE at least 1; TRIAGE 10 exactly for systolic under 90; INTERPRETATION 10 for SpO2 under 88, 6 for 88 to under 92; DIFFERENTIAL 5 for temperature over 101.5 |
| InternalVoices.SituationVoicesExact | code-blue/src/lib/internalVoices.ts:118-184 | EMERGENCY opens with COMPOSURE 9 and DRIVE 8; EXAMINING voices need PHYSICAL_EXAM at least 2 and HISTORY at least 1; TALKING needs EMPATHY at least 2; LEARNING gives MEMORY; ROUTINE gives nothing; no priority is above 9 |
| InternalVoices.WellbeingVoicesExact | code-blue/src/lib/internalVoices.ts:190-220 | DRIVE 4 exactly when energy is under 30, COMPOSURE 5 exactly when stress is over 70, all priorities from 3 to 5 |
| InternalVoices.OwnLine | code-blue/src/lib/internalVoices.ts:229-290 | a skill's own line gives one voice of that skill and priority when the line is non-empty, else none |
| InternalVoices.RaisedOne | code-blue/src/lib/internalVoices.ts:229-290 | a list of at most one voice raises exactly that voice |
| InternalVoices.RaisedIn2 | code-blue/src/lib/internalVoices.ts:229-252 | a voice is in two joined lists exactly when it is in one of them |
| InternalVoices.RaisedIn3 | code-blue/src/lib/internalVoices.ts:257-290 | a voice is in three joined lists exactly when it is in one of them |
| InternalVoices.PreCheckVoicesExact | code-blue/src/lib/internalVoices.ts:229-252 | the skill's own pre-check line (priority 7) is raised exactly when it exists; DOUBT 5 exactly for DC at least 12 with level under 3 and a DOUBT line |
| InternalVoices.PostCheckVoicesExact | code-blue/src/lib/internalVoices.ts:257-290 | the skill's own line at priority 10 if critical, else 6, exactly when it exists; COMPOSURE 8 exactly on a critical failure; DRIVE 7 exactly on a critical success |
| InternalVoices.FormatVoiceForDisplayProperties | code-blue/src/lib/internalVoices.ts:315-330 | the prefix is the voice name's length, upper case with no lower-case letter; the text is unchanged; and voices of different categories get different classes |
| InternalVoices.InsertByPriority | code-blue/src/lib/internalVoices.ts:54 | inserting one voice adds exactly one element |
| InternalVoices.InsertIsPermutation | code-blue/src/lib/internalVoices.ts:54 | an insertion adds exactly the new voice to the multiset |
| InternalVoices.SortByPriority | code-blue/src/lib/internalVoices.ts:54 | the sort keeps the length |
| InternalVoices.InsertKeepsSorted | code-blue/src/lib/internalVoices.ts:54 | inserting into a list sorted highest first keeps it sorted, and adds only the new voice |
| InternalVoices.SortIsSorted | code-blue/src/lib/internalVoices.ts:54 | the sort's result is sorted highest first and is a permutation of its input |
| InternalVoices.WithPriorityAppend | code-blue/src/lib/internalVoices.ts:54 | the voices of one priority in a joined list are those of each part, in order |
| InternalVoices.WithPriorityNone | code-blue/src/lib/internalVoices.ts:54 | a list whose priorities are all below p has no voice of priority p |
| InternalVoices.WithPrioritySingle | code-blue/src/lib/internalVoices.ts:54 | a single voice has priority p or contributes nothing |
| InternalVoices.InsertIsStable | code-blue/src/lib/internalVoices.ts:54 | an insertion puts the new voice after the voices of equal priority |
| InternalVoices.SortIsStable | code-blue/src/lib/internalVoices.ts:54 | the sort keeps voices of equal priority in their original order (`Array.prototype.sort` is stable) |
| InternalVoices.Take | code-blue/src/lib/internalVoices.ts:55 | `slice(0, maxVoices)` is a prefix of at most maxVoices elements, and a negative count drops that many from the end |
| InternalVoices.SortedSplit | code-blue/src/lib/internalVoices.ts:54-55 | a prefix of a sorted list is sorted and ranks at least as high as everything after it |
| InternalVoices.LeftOutIsInSuffix | code-blue/src/lib/internalVoices.ts:54-55 | a voice cut off by the slice is in the part after the cut |
| InternalVoices.TakeSortedIsTop | code-blue/src/lib/internalVoices.ts:54-55 | sorting then slicing gives a sorted prefix of the sorted candidates, at most maxVoices long, with no left-out voice of higher priority |
| InternalVoices.ContextualVoicesAreTopPriority | code-blue/src/lib/internalVoices.ts:31-56 | `getContextualVoices` returns, sorted highest first, the at most maxVoices candidates of highest priority |
| InternalVoices.InsertAfterLeaders | code-blue/src/lib/internalVoices.ts:54 | inserting a voice no higher than a leading run leaves that run in front |
| InternalVoices.SortKeepsLeaders | code-blue/src/lib/internalVoices.ts:54 | a sorted leading run that outranks the rest stays in front after sorting |
| InternalVoices.EmergencyCandidates | code-blue/src/lib/internalVoices.ts:31-56 | in an emergency without vitals the candidates start with COMPOSURE 9 and DRIVE 8, and every later one has priority at most 5 |
| InternalVoices.EmergencyLeadsWithComposure | code-blue/src/lib/internalVoices.ts:31-56 | with room for two voices, an emergency shows COMPOSURE 9 first and DRIVE 8 second |
| GameStore.AllSkillsListed | code-blue/src/store/gameStore.ts:31-67 | the skill list that `createInitialSkills` walks holds every skill |
| GameStore.CreateInitialSkills | code-blue/src/store/gameStore.ts:31-67 | every skill gets an entry, equal to its level for the background (0 plus the background bonus) |
| GameStore.BonusForAbsent | code-blue/src/store/gameStore.ts:58-64 | a skill that no bonus entry names gets no bonus |
| GameStore.BonusForBounded | code-blue/src/types/character.ts:150-187 | with distinct skills and bonuses from 0 to 2, each skill's bonus is from 0 to 2 |
| GameStore.InitialLevelBounds | code-blue/src/store/gameStore.ts:31-67 | every starting level is from 0 to 2 |
| GameStore.BonusEntriesWellFormed | code-blue/src/types/character.ts:150-187 | each background names each skill at most once, with a bonus from 0 to 2 |
| GameStore.LessonBonusAppend | code-blue/src/store/gameStore.ts:358-372 | the lesson bonus of two joined lesson lists is the sum of their bonuses |
| GameStore.AddLessonRaisesModifier | code-blue/src/store/gameStore.ts:190-210 | learning a lesson raises a skill's modifier by exactly that lesson's SKILL_BONUS values for the skill |
| GameStore.EffectBonusNone | code-blue/src/store/gameStore.ts:358-372 | effects that never target the skill with a SKILL_BONUS add nothing |
| GameStore.FindEntry | code-blue/src/store/gameStore.ts:287 | `findIndex`: the first entry with the id, or -1 exactly when none has it |
| GameStore.FindEntrySameIds | code-blue/src/store/gameStore.ts:293-318 | lists with the same ids in the same places find the same index |
| GameStore.PinnedOnly | code-blue/src/store/gameStore.ts:320-322 | the kept entries are all pinned and no more than before |
| GameStore.PinnedOnlyExact | code-blue/src/store/gameStore.ts:320-322 | an entry is kept exactly when it is on the board and pinned |
| GameStore.PinnedOnlySingle | code-blue/src/store/gameStore.ts:320-322 | one entry is kept exactly when it is pinned; with `PinnedOnlyAppend` the kept entries are the pinned ones in board order |
| GameStore.UnpinnedOnly | code-blue/src/store/gameStore.ts:374-378 | the selected entries are all unpinned and no more than before |
| GameStore.UnpinnedOnlyExact | code-blue/src/store/gameStore.ts:374-378 | an entry is selected exactly when it is on the board and unpinned |
| GameStore.UnpinnedOnlyAppend | code-blue/src/store/gameStore.ts:374-378 | selecting from a joined list selects from each part |
| GameStore.UnpinnedOnlySingle | code-blue/src/store/gameStore.ts:374-378 | one entry is selected exactly when it is unpinned |
| GameStore.PinnedCountsAddUp | code-blue/src/store/gameStore.ts:273-276 | the pinned and the unpinned counts add to the number of entries |
| GameStore.PinnedOnlyAppend | code-blue/src/store/gameStore.ts:320-322 | filtering a joined list filters each part |
| GameStore.PinnedOnlyIdempotent | code-blue/src/store/gameStore.ts:320-322 | clearing the unpinned entries twice is the same as once |
| GameStore.AddEntry | code-blue/src/store/gameStore.ts:273-284 | the entry is appended exactly when the board holds fewer entries than its slots or the entry is pinned; otherwise the board is unchanged |
| GameStore.AddGuardVersusCanAdd | code-blue/src/store/gameStore.ts:273-284 | an unpinned entry that `addBoardEntry` accepts also passes `canAddBoardEntry`, but on a full board of pinned entries `canAddBoardEntry` says yes while `addBoardEntry` refuses |
| GameStore.AllPinnedNoneUnpinned | code-blue/src/store/gameStore.ts:374-378 | a board of pinned entries has no unpinned ones |
| GameStore.RemoveEntry | code-blue/src/store/gameStore.ts:286-291 | when the first entry with the id is unpinned, exactly that entry is spliced out and the entries before and after it keep their order; a missing id or a pinned entry leaves the board as it was |
| GameStore.RemoveKeepsPinned | code-blue/src/store/gameStore.ts:286-291 | removal never loses a pinned entry |
| GameStore.PinnedOnlyDelete | code-blue/src/store/gameStore.ts:286-291 | deleting an unpinned entry leaves the pinned entries as they were |
| GameStore.PinEntry | code-blue/src/store/gameStore.ts:293-298 | the first entry with the id ends up pinned with nothing else of it changed, every other entry is untouched, and a missing id leaves the board as it was |
| GameStore.UnpinEntry | code-blue/src/store/gameStore.ts:300-305 | the first entry with the id ends up unpinned unless it is a LESSON; a LESSON entry or a missing id leaves the board as it was; every other entry is untouched |
| GameStore.PinIdempotent | code-blue/src/store/gameStore.ts:293-305 | pinning twice is pinning once, and unpinning undoes pinning an unpinned non-LESSON entry |
| GameStore.AddLink | code-blue/src/store/gameStore.ts:311-316 | after the guarded push the id occurs at least once, no more often than before if it was already there, and no other id changes |
| GameStore.LinkAt | code-blue/src/store/gameStore.ts:307-318 | adding a link to one entry keeps every entry's id, pin and kind |
| GameStore.LinkEntries | code-blue/src/store/gameStore.ts:307-318 | keeps every entry's id, pin and kind, and changes nothing unless both ids exist |
| GameStore.LinkConnectsBoth | code-blue/src/store/gameStore.ts:307-318 | each of the two entries links to the other, once if it did not before; their other links and all other entries are unchanged |
| GameStore.LinkSymmetric | code-blue/src/store/gameStore.ts:307-318 | linking a to b is the same as linking b to a |
| GameStore.LinkIdempotent | code-blue/src/store/gameStore.ts:307-318 | linking the same two entries again changes nothing |
| GameStore.LinkAtPresent | code-blue/src/store/gameStore.ts:307-318 | adding a link an entry already has changes nothing (`includes` guards the push) |
| GameStore.LessonIdsAppend | code-blue/src/store/gameStore.ts:190-210 | the pinned lesson entries of a joined board are those of each part |
| GameStore.LessonIdsDelete | code-blue/src/store/gameStore.ts:286-291 | deleting an unpinned entry keeps every pinned lesson entry |
| GameStore.LessonIdsPointwise | code-blue/src/store/gameStore.ts:300-318 | boards that agree entry by entry on pinned lessons have the same ones |
| GameStore.LessonIdsOfPinned | code-blue/src/store/gameStore.ts:320-322 | clearing unpinned entries keeps every pinned lesson |
| GameStore.LessonsSurviveBoardActions | code-blue/src/store/gameStore.ts:286-322 | remove, unpin, link and clear all keep every pinned lesson entry, in order |
| GameStore.RemoveKeepsLessons | code-blue/src/store/gameStore.ts:286-298 | removing an entry keeps every pinned lesson entry (only unpinned entries can be removed) |
| GameStore.UnpinKeepsLessons | code-blue/src/store/gameStore.ts:300-305 | unpinning keeps every pinned lesson entry |
| GameStore.LinkKeepsLessons | code-blue/src/store/gameStore.ts:307-318 | linking keeps every pinned lesson entry |
| GameStore.AddLessonAddsPinnedLesson | code-blue/src/store/gameStore.ts:190-210 | `addLesson` appends one pinned LESSON entry, which the clear and the shift start keep |
| GameStore.FindCase | code-blue/src/store/gameStore.ts:265 | the first active case with the id, or -1 exactly when there is none |
| GameStore.CompletedQueues | code-blue/src/store/gameStore.ts:264-270 | the first active case with the id moves to the end of the completed cases; the total count and the multiset of cases are kept; an unknown id changes nothing |
| GameStore.ApplyChange | code-blue/src/store/gameStore.ts:325-342 | professional becomes the delta clamped to [-3, 3] and personal the delta clamped to [0, 4], so each takes the delta whenever it fits; exactly one history event is appended; nothing else changes |
| GameStore.InitializeIn | code-blue/src/store/gameStore.ts:344-355 | the NPC gets an entry, the keys grow by that NPC only, and existing relationships are untouched |
| GameStore.RelationshipRules | code-blue/src/store/gameStore.ts:325-355 | initializing twice is initializing once, a new NPC starts from the default record, and an update adds one history event |
| GameStore.Store.constructor | code-blue/src/store/gameStore.ts:141-151 | the store starts in the initial state: main menu, no previous phase, no player, shift 0, 480 minutes, empty queues and board, 4 slots, no relationships, high score 0 |
| GameStore.Store.CheckHighScore | code-blue/src/store/gameStore.ts:153-157 | the high score becomes the maximum of the old one and the score; nothing else changes |
| GameStore.Store.SetPhase | code-blue/src/store/gameStore.ts:160-163 | the current phase becomes the previous phase and the new phase is current |
| GameStore.Store.CreatePlayer | code-blue/src/store/gameStore.ts:166-180 | a new player with the given identity, background skills, no lessons, energy 100, stress 0, shift 0 and no XP |
| GameStore.Store.UpdateSkill | code-blue/src/store/gameStore.ts:182-188 | the skill moves by the delta, clamped to [-2, 7]; no change without a player |
| GameStore.Store.AddLesson | code-blue/src/store/gameStore.ts:190-210 | the lesson is appended to the player's lessons and a pinned LESSON entry to the board; no change without a player |
| GameStore.Store.UpdateEnergy | code-blue/src/store/gameStore.ts:212-218 | energy moves by the delta, clamped to [0, 100]; no change without a player |
| GameStore.Store.UpdateStress | code-blue/src/store/gameStore.ts:220-226 | stress moves by the delta, clamped to [0, 100]; no change without a player |
| GameStore.Store.AddXP | code-blue/src/store/gameStore.ts:228-232 | XP grows by the amount; no change without a player |
| GameStore.Store.StartShift | code-blue/src/store/gameStore.ts:235-246 | the next shift number, 480 minutes, no active cases, the player on the new shift with full energy, the board cut to its pinned entries in order (`PinnedOnlyExact`, `PinnedOnlyAppend`), and phase SHIFT_START |
| GameStore.Store.EndShift | code-blue/src/store/gameStore.ts:248-250 | only the phase changes, to SHIFT_END |
| GameStore.Store.AdvanceTime | code-blue/src/store/gameStore.ts:252-258 | the clock drops by the minutes but not below 0; only for positive minutes does energy drop by floor(minutes / 30), not below 0 |
| GameStore.Store.AddCase | code-blue/src/store/gameStore.ts:260-262 | the case is appended to the active cases |
| GameStore.Store.CompleteCase | code-blue/src/store/gameStore.ts:264-270 | the queues become those of `CompletedQueues` (first matching case moved, count kept) |
| GameStore.Store.AddBoardEntry | code-blue/src/store/gameStore.ts:273-284 | the board becomes the guarded append of the stamped entry; nothing else changes |
| GameStore.Store.RemoveBoardEntry | code-blue/src/store/gameStore.ts:286-291 | the board becomes `RemoveEntry` of it: pinned entries are never removed |
| GameStore.Store.PinBoardEntry | code-blue/src/store/gameStore.ts:293-298 | the board becomes `PinEntry` of it |
| GameStore.Store.UnpinBoardEntry | code-blue/src/store/gameStore.ts:300-305 | the board becomes `UnpinEntry` of it: LESSON entries stay pinned |
| GameStore.Store.LinkBoardEntries | code-blue/src/store/gameStore.ts:307-318 | the board becomes `LinkEntries` of it (symmetric and idempotent) |
| GameStore.Store.ClearUnpinnedEntries | code-blue/src/store/gameStore.ts:320-322 | the board becomes `PinnedOnly` of it: exactly its pinned entries (`PinnedOnlyExact`), in board order (`PinnedOnlyAppend`, `PinnedOnlySingle`); nothing else changes |
| GameStore.Store.UpdateRelationship | code-blue/src/store/gameStore.ts:325-342 | an unknown NPC changes nothing; a known one gets the clamped change and one history event |
| GameStore.Store.InitializeRelationship | code-blue/src/store/gameStore.ts:344-355 | relationships become `InitializeIn` of them: an existing one is kept |
| GameStore.Store.GetSkillModifier | code-blue/src/store/gameStore.ts:358-372 | the loop returns the skill's level plus the SKILL_BONUS values of every lesson aimed at it, 0 without a player |
| DialogueStore.Visit | code-blue/src/store/dialogueStore.ts:132-134 | the id is added only when it is not already visited, so the visited list stays duplicate-free and keeps its old contents as a prefix |
| DialogueStore.FindChoice | code-blue/src/store/dialogueStore.ts:150 | the first choice with the id, or -1 exactly when there is none |
| DialogueStore.NodeAt | code-blue/src/store/dialogueStore.ts:222-226 | `getCurrentNode` finds a node exactly when a tree is loaded, the node id is non-empty and the tree holds it |
| DialogueStore.OfferChoice | code-blue/src/store/dialogueStore.ts:229-247 | a choice is locked exactly when it requires a skill the player has below its minimum level (default 0), and has a lock reason exactly when locked |
| DialogueStore.OfferChoices | code-blue/src/store/dialogueStore.ts:229-247 | the choices keep their order and number, each offered as `OfferChoice` says |
| DialogueStore.OfferChoiceMonotone | code-blue/src/store/dialogueStore.ts:229-247 | raising a skill never locks a choice that was open |
| DialogueStore.Dialogue.constructor | code-blue/src/store/dialogueStore.ts:104-112 | the store starts inactive with no tree, no node and empty lists |
| DialogueStore.Dialogue.StartDialogue | code-blue/src/store/dialogueStore.ts:115-125 | active on the tree's start node, the start node the only visited node, no choices or voices, typing |
| DialogueStore.Dialogue.AdvanceToNode | code-blue/src/store/dialogueStore.ts:128-143 | an id the tree lacks changes nothing; otherwise the node becomes current, is visited once, and its voices are queued |
| DialogueStore.Dialogue.SelectChoice | code-blue/src/store/dialogueStore.ts:146-175 | an unknown choice changes nothing; otherwise the choice is logged and its target entered unchecked; `thrown` says when the current node id is missing from the tree |
| DialogueStore.Dialogue.EndDialogue | code-blue/src/store/dialogueStore.ts:178-184 | the dialogue ends with no tree or node, and `hasVisitedNode` answers as before |
| DialogueStore.Dialogue.AddInternalVoice | code-blue/src/store/dialogueStore.ts:187-191 | the queue becomes the stable priority sort of the old queue plus the voice: sorted highest first, and exactly one voice more |
| DialogueStore.Dialogue.DisplayNextVoice | code-blue/src/store/dialogueStore.ts:194-204 | an empty queue returns nothing and changes nothing; otherwise the head moves to the end of the displayed voices, keeping the total |
| DialogueStore.Dialogue.ClearVoices | code-blue/src/store/dialogueStore.ts:207-210 | both voice lists are emptied; nothing else changes |
| DialogueStore.Dialogue.SetTyping | code-blue/src/store/dialogueStore.ts:213-215 | only the typing flag changes |
| DialogueStore.Dialogue.SetDisplayedText | code-blue/src/store/dialogueStore.ts:217-219 | only the displayed text changes |
| DialogueStore.SelectToMissingNodeLeavesNoNode | code-blue/src/store/dialogueStore.ts:146-175 | a choice leading to a node the tree lacks leaves the dialogue on a node `getCurrentNode` cannot find, with no voices queued |
| NarrativeCase.CheckRequirements | code-blue/src/lib/CaseEngine.ts:72-86 | true exactly when every requirement is met (FLAG in flags, ITEM in inventory, SKILL and VITAL always), so true for none |
| NarrativeCase.VitalRequirementAlwaysMet | code-blue/src/lib/CaseEngine.ts:72-86 | a VITAL requirement (such as the HR gate of case PC091) never blocks a choice |
| NarrativeCase.AvailableChoices | code-blue/src/lib/CaseEngine.ts:32-37 | only options whose requirements pass, no more than there are |
| NarrativeCase.AvailableChoicesAppend | code-blue/src/lib/CaseEngine.ts:32-37 | filtering joined options filters each part in order |
| NarrativeCase.AvailableChoicesExact | code-blue/src/lib/CaseEngine.ts:32-37 | a choice is available exactly when it is an option whose requirements pass |
| NarrativeCase.Logged | code-blue/src/lib/CaseEngine.ts:141-143 | one "[t m] message" line is appended to the history; nothing else changes |
| NarrativeCase.Without | code-blue/src/lib/CaseEngine.ts:97-101 | every copy of the key is gone and every other flag stays |
| NarrativeCase.EffectCore | code-blue/src/lib/CaseEngine.ts:91-133 | ADD_FLAG appends the key exactly when it is truthy and missing; REMOVE_FLAG removes all copies; ADD_ITEM appends even a held item; MODIFY_VITALS overwrites the vital; MODIFY_RELATIONSHIP adds to the current value (default 0); each kind changes only its own field, REMOVE_ITEM and WIN change nothing, clock and stress never move, and at most one history line is added |
| NarrativeCase.ApplyEffect | code-blue/src/lib/CaseEngine.ts:88-139 | the effect, followed by its description logged after it; time and stress unchanged |
| NarrativeCase.ApplyAllAppend | code-blue/src/lib/CaseEngine.ts:88-139 | applying two effect lists in a row is applying their concatenation |
| NarrativeCase.ApplyAll | code-blue/src/lib/CaseEngine.ts:88-139 | applying effects in order never changes time or stress and never shortens the history: the old log is a prefix of the new |
| NarrativeCase.ApplyAllKeepsFlagsDistinct | code-blue/src/lib/CaseEngine.ts:88-139 | effects never give a flag a duplicate: a flag list without duplicates stays so |
| NarrativeCase.WithoutNoDuplicates | code-blue/src/lib/CaseEngine.ts:97-101 | removing a flag from a duplicate-free list keeps it duplicate-free |
| NarrativeCase.FindChoice | code-blue/src/lib/CaseEngine.ts:43 | the first option with the id, or -1 exactly when there is none |
| NarrativeCase.AfterChoiceOrder | code-blue/src/lib/CaseEngine.ts:50-69 | effects first (time still unchanged), then the time cost, then the next node's onEnter; each stage only extends the history |
| NarrativeCase.ChoiceStepRules | code-blue/src/lib/CaseEngine.ts:39-70 | "Node not found", "Choice not found" and "Requirements not met" change nothing, each if and only if its case holds (requirements judged on the first option with the id); success happens exactly when that first option's requirements hold, applies that option, which is among the available choices, and moves to its next node |
| NarrativeCase.CaseEngine.constructor | code-blue/src/lib/CaseEngine.ts:8-18 | starts on the start node, from a copy of the initial state with that node's onEnter applied |
| NarrativeCase.CaseEngine.Log | code-blue/src/lib/CaseEngine.ts:141-143 | the state becomes `Logged` of it; case and node unchanged |
| NarrativeCase.CaseEngine.ApplyEffectCore | code-blue/src/lib/CaseEngine.ts:91-133 | the state becomes `EffectCore` of it; case and node unchanged |
| NarrativeCase.CaseEngine.ApplyEffects | code-blue/src/lib/CaseEngine.ts:88-139 | the loop applies the effects in order: the state becomes `ApplyAll` of it |
| NarrativeCase.CaseEngine.MakeChoice | code-blue/src/lib/CaseEngine.ts:39-70 | the outcome, state and node are those of `ChoiceStep` |
| Mci.Consume | code-blue/src/lib/MCIManager.ts:64-76 | exactly the chosen resource drops by one |
| Mci.InitialTtl | code-blue/src/lib/MCIManager.ts:82-89 | the time to critical is 60, 120, 300 or 600 seconds, and 600 exactly for the easiest cases |
| Mci.HarderIsSooner | code-blue/src/lib/MCIManager.ts:82-89 | a harder case deteriorates sooner |
| Mci.TickPatient | code-blue/src/lib/MCIManager.ts:36-53 | settled patients are untouched; others count down; an unsettled, non-critical patient whose countdown reaches 0 turns CRITICAL with HR +20 and O2 -5, and otherwise keeps its status; a CRITICAL patient dies once the countdown reaches -60 and otherwise stays critical; only a critical patient can die; vitals change only with the status; nothing else of the patient changes |
| Mci.NoDoubleTransition | code-blue/src/lib/MCIManager.ts:41-53 | a patient that was not critical cannot become deceased in the same tick |
| Mci.BeddedPatientRelapses | code-blue/src/lib/MCIManager.ts:39-48 | a STABILIZING patient past its deadline is critical again |
| Mci.TickAll | code-blue/src/lib/MCIManager.ts:36-54 | every patient in order is ticked |
| Mci.Deaths | code-blue/src/lib/MCIManager.ts:48-51 | no more deaths than patients |
| Mci.DeathsAreNewlyDeceased | code-blue/src/lib/MCIManager.ts:41-53 | the deaths counted equal the patients newly deceased after the tick |
| Mci.TickRules | code-blue/src/lib/MCIManager.ts:33-55 | lives lost never fall and rise by the newly deceased, the dead stay dead, and the patient count is kept |
| Mci.MCIManager.constructor | code-blue/src/lib/MCIManager.ts:7-17 | an inactive incident with the given resources, no patients and zero counters |
| Mci.MCIManager.StartIncident | code-blue/src/lib/MCIManager.ts:19-31 | active, one patient per case in order (waiting, yellow, unassigned, time to critical by difficulty) |
| Mci.MCIManager.Tick | code-blue/src/lib/MCIManager.ts:33-55 | the state becomes `TickState` of it (no change while inactive) |
| Mci.MCIManager.AssignTriage | code-blue/src/lib/MCIManager.ts:57-62 | only that patient's triage level changes; an index out of range changes nothing |
| Mci.MCIManager.AssignResource | code-blue/src/lib/MCIManager.ts:64-76 | false with no change for a bad index or an exhausted resource; otherwise that resource drops by one and a bed makes the patient STABILIZING, whatever its status |
| Crafting.FindRecipe | code-blue/src/lib/CraftingEngine.ts:34 | a recipe with the id from the list, or none exactly when no recipe has it |
| Crafting.AllHeld | code-blue/src/lib/CraftingEngine.ts:37 | true exactly when every ingredient is in the inventory |
| Crafting.CanCraft | code-blue/src/lib/CraftingEngine.ts:33-38 | true exactly for a known recipe whose ingredients are all held |
| Crafting.CanCraftMonotone | code-blue/src/lib/CraftingEngine.ts:33-38 | holding more items never turns a craftable recipe uncraftable |
| Crafting.Craft | code-blue/src/lib/CraftingEngine.ts:40-57 | success exactly when craftable, with the recipe's result; otherwise "Unknown recipe" or "Missing ingredients" and no item; the inventory is not an output |
| Crafting.FrozenCastCutter | code-blue/src/lib/CraftingEngine.ts:9-24 | ethyl chloride and a cast cutter make the frozen cast cutter, and ethyl chloride alone is missing ingredients |
| Security.TrimStart | code-blue/src/utils/security.ts:20 | drops exactly the leading whitespace: a suffix not starting with whitespace |
| Security.TrimEnd | code-blue/src/utils/security.ts:20 | drops exactly the trailing whitespace: a prefix not ending with whitespace |
| Security.Trim | code-blue/src/utils/security.ts:20 | a slice of the input that neither starts nor ends with whitespace |
| Security.StripControl | code-blue/src/utils/security.ts:20 | no character of the stripped class remains, and the text gets no longer |
| Security.StripControlCounts | code-blue/src/utils/security.ts:20 | every other character keeps its number of occurrences |
| Security.StripControlAppend | code-blue/src/utils/security.ts:20 | stripping a joined text strips each part |
| Security.Sanitize | code-blue/src/utils/security.ts:16-27 | the cleaned (trimmed, then stripped) text cut to at most maxLength characters, as a prefix, with no stripped character |
| Security.KeepsLayoutCharacters | code-blue/src/utils/security.ts:20 | tab, LF and CR inside the trimmed text all survive when nothing is cut |
| Security.ShieldedSpace | code-blue/src/utils/security.ts:20 | a control character at the edge shields whitespace from the trim: "\u0001 a" gives " a" |
| Security.PlainSpace | code-blue/src/utils/security.ts:20 | without it the space is trimmed: " a" gives "a" |
| CaseGenerator.GenerateCase | code-blue/src/utils/caseGenerator.ts:10-47 | shift 1 at difficulty 1 is Mrs Martinez unchanged; otherwise her case with fresh "case-"/"patient-" ids and one placeholder's name, age, sex, complaint and acuity |
| CaseGenerator.GeneratedAcuityInRange | code-blue/src/utils/caseGenerator.ts:24-46 | every generated patient has an acuity from 1 to 5 |
| CaseGenerator.IncomingCaseChance | code-blue/src/utils/caseGenerator.ts:49-64 | 0.5 with no load, 0.3 for 1 to 2 cases, 0.1 for 3 to 4, 0 from 5, always within [0, 0.5] |
| CaseGenerator.ChanceFallsWithLoad | code-blue/src/utils/caseGenerator.ts:49-64 | more load never raises the chance, whatever the time remaining |
| CpcMode.Answer | code-blue/src/components/game/CPCMode.tsx:143-165 | ignored with no case or during feedback; correct adds 100 + 10 x streak, extends the streak and adds 5 s up to 60; wrong resets the streak and takes 10 s down to 0; score never falls |
| CpcMode.Tick | code-blue/src/components/game/CPCMode.tsx:111-125 | runs only while playing with time left; counts down a second, and the last second sets 0 and GAME_OVER; time stays in [0, 60] |
| CpcMode.Started | code-blue/src/components/game/CPCMode.tsx:127-134 | score 0, streak 0, 60 seconds, playing, on the picked case with no feedback |
| CpcMode.WrongAnswerAtZeroStalls | code-blue/src/components/game/CPCMode.tsx:113-159 | a wrong answer that empties the clock leaves the exam playing at 0, and the ticker never ends it |
| CpcMode.CorrectRounds | code-blue/src/components/game/CPCMode.tsx:136-165 | rounds of correct answers keep the exam state valid |
| CpcMode.Triangle | code-blue/src/components/game/CPCMode.tsx:149 | 0 + 1 + ... + (k - 1) equals k(k - 1)/2 |
| CpcMode.StreakScore | code-blue/src/components/game/CPCMode.tsx:146-155 | k correct answers in a row extend the streak by k and add 100k plus 10 for every answer earlier in the streak |
| CpcMode.TimerBar | code-blue/src/components/game/CPCMode.tsx:250-257 | the exam's bar is the share of sixty seconds, carries the caller's "Time Remaining" aria-label, and draws no label row |
| CpcMode.CpcExam.constructor | code-blue/src/components/game/CPCMode.tsx:103-108 | the start screen: score 0, 60 seconds, no case, no streak, no feedback |
| CpcMode.CpcExam.StartGame | code-blue/src/components/game/CPCMode.tsx:127-134 | the state becomes `Started` of it |
| CpcMode.CpcExam.NextCase | code-blue/src/components/game/CPCMode.tsx:136-141 | the picked case is current and the feedback is cleared |
| CpcMode.CpcExam.HandleAnswer | code-blue/src/components/game/CPCMode.tsx:143-165 | the state becomes `Answer` of it |
| CpcMode.CpcExam.TimerTick | code-blue/src/components/game/CPCMode.tsx:111-125 | the state becomes `Tick` of it |
| CpcMode.CpcExam.HandleExit | code-blue/src/components/game/CPCMode.tsx:167-170 | the store's high score becomes the maximum of it and the exam score; nothing else in the store changes |
| ProgressBar.Round | code-blue/src/components/ui/ProgressBar.tsx:59 | `Math.round` is within half of its argument, halves rounding up |
| ProgressBar.ScaledBounds | code-blue/src/components/ui/ProgressBar.tsx:53 | for a positive max, value/max x 100 is at least 100 from max up, at most 0 from 0 down, and within [0, 100] in between |
| ProgressBar.Percentage | code-blue/src/components/ui/ProgressBar.tsx:53 | the clamp of value/max x 100 to [0, 100]: the plain ratio inside, 100 at or above max, 0 at or below 0, and NaN only for 0/0 |
| ProgressBar.PercentageMonotone | code-blue/src/components/ui/ProgressBar.tsx:53 | a larger value never gives a smaller bar |
| ProgressBar.BarAttributes | code-blue/src/components/ui/ProgressBar.tsx:56-63 | role progressbar, aria-valuenow = round(value), aria-valuemin = 0, aria-valuemax = max, aria-label when a label is given, each unless a caller prop overrides it |
| ProgressBar.CallerLabelWins | code-blue/src/components/ui/ProgressBar.tsx:62-63 | a caller's aria-label wins over the label prop |
| LabResults.LeadingDigits | code-blue/src/components/game/LabResults.tsx:156 | the longest run of digits at the start of a text |
| LabResults.ParseFloat | code-blue/src/components/game/LabResults.tsx:156 | the empty text and a text that cannot start a number read as NaN |
| LabResults.ScanNumber | code-blue/src/components/game/LabResults.tsx:156 | what `parseFloat` reads is a well-formed numeral: digit strings with at least one digit |
| LabResults.LeadingDigitsOfRun | code-blue/src/components/game/LabResults.tsx:156 | a run of digits followed by a non-digit is read to exactly its end |
| LabResults.ScanWhole | code-blue/src/components/game/LabResults.tsx:156 | whole digits followed by text that cannot continue the number scan as exactly those digits |
| LabResults.ScanWholeAndFraction | code-blue/src/components/game/LabResults.tsx:156 | digits, a point and fraction digits scan as exactly the whole and fraction digits |
| LabResults.ScanSign | code-blue/src/components/game/LabResults.tsx:156 | a leading `-` negates, a leading `+` is dropped, an unsigned text is read as it is |
| LabResults.ParseFloatReadsNumber | code-blue/src/components/game/LabResults.tsx:156 | any text of the form sign, digits, optional fraction, then non-numeric text parses to exactly the number those digits spell |
| LabResults.ParseFloatOfNat | code-blue/src/components/game/LabResults.tsx:156 | the decimal text of any whole number parses back to that number |
| LabResults.ParseFloatNegative | code-blue/src/components/game/LabResults.tsx:156 | "-3" parses to -3 |
| LabResults.ParseFloatFraction | code-blue/src/components/game/LabResults.tsx:156 | "7.40 mmol" parses to 7.4: parsing stops at the first character that cannot continue the number |
| LabResults.ScanFractionExample | code-blue/src/components/game/LabResults.tsx:156 | "7.40 mmol" scans as whole digits "7" and fraction digits "40" |
| LabResults.PositiveIsNaN | code-blue/src/components/game/LabResults.tsx:156-159 | a qualitative result such as "Positive" reads as NaN |
| LabResults.ValueStatus | code-blue/src/components/game/LabResults.tsx:106-117 | no range is normal; normal exactly inside the range; with a margin of 30% of the width: critical-low below low - m, low up to low, high up to high + m, critical-high above |
| LabResults.StatusMonotone | code-blue/src/components/game/LabResults.tsx:106-117 | the status climbs with the value through critical-low, low, normal, high, critical-high |
| LabResults.DisplayedStatus | code-blue/src/components/game/LabResults.tsx:156-159 | a value that is not a number is shown as normal |
| LabResults.HasCritical | code-blue/src/components/game/LabResults.tsx:257-262 | true exactly when some value is numeric, has a range and is critical |
| LabResults.FilterValues | code-blue/src/components/game/LabResults.tsx:372-380 | keeps only numeric, ranged values the filter accepts, no more than there were |
| LabResults.FilterValuesExact | code-blue/src/components/game/LabResults.tsx:372-380 | a value is kept exactly when it is in the panel and the filter accepts it |
| LabResults.FilterValuesAppend | code-blue/src/components/game/LabResults.tsx:372-380 | filtering a joined list filters each part, so kept values stay in order |
| LabResults.FilterValuesSingle | code-blue/src/components/game/LabResults.tsx:372-380 | one value is kept exactly when the filter accepts it |
| LabResults.HasCriticalIffFiltered | code-blue/src/components/game/LabResults.tsx:257-262 | a panel has a critical value exactly when the critical filter leaves something |
| LabResults.CriticalWithinAbnormal | code-blue/src/components/game/LabResults.tsx:372-380 | the critical values are the critical ones among the abnormal values |
| LabResults.FilterPanels | code-blue/src/components/game/LabResults.tsx:369-382 | "all" leaves the panels unchanged; otherwise every panel shown is non-empty and holds only accepted values |
| LabResults.NonEmptyExact | code-blue/src/components/game/LabResults.tsx:382 | a panel survives the length filter exactly when it has values |
| LabResults.NonEmptyAppend | code-blue/src/components/game/LabResults.tsx:382 | the length filter keeps the panels in order |
| LabResults.ShownFromInput | code-blue/src/components/game/LabResults.tsx:369-381 | a mapped panel is an input panel with only its values filtered, so it holds only accepted values |
| LabResults.FilterPanelsShowsEvery | code-blue/src/components/game/LabResults.tsx:369-382 | under a filter, every input panel left with values is shown, its name, time and status kept |
| LabResults.FilterPanelsFromInput | code-blue/src/components/game/LabResults.tsx:369-382 | under a filter, every panel shown is an input panel with its values filtered |
| LabResults.FilterPanelsAppend | code-blue/src/components/game/LabResults.tsx:369-382 | the panels shown keep their input order |
| LabResults.FilterPanelsSingle | code-blue/src/components/game/LabResults.tsx:369-382 | one panel is shown, filtered, exactly when its filtered values are not empty |
| VitalSignsMonitor.VitalStatusOf | code-blue/src/components/game/VitalSignsMonitor.tsx:213-224 | critical outside the range widened by 20% of its width on each side, warning inside that band but outside the range, normal inside the range |
| VitalSignsMonitor.HasCritical | code-blue/src/components/game/VitalSignsMonitor.tsx:409-415 | the alarm holds exactly when HR, systolic, RR, SpO2 or temperature leaves its widened range |
| VitalSignsMonitor.MartinezNotCritical | code-blue/src/components/game/VitalSignsMonitor.tsx:409-415 | Mrs Martinez's systolic of 142 is only a warning, and her monitor raises no alarm |
| VitalSignsMonitor.Ceil | code-blue/src/components/game/VitalSignsMonitor.tsx:273 | `Math.ceil`: the least whole number not below its argument |
| VitalSignsMonitor.ShiftPush | code-blue/src/components/game/VitalSignsMonitor.tsx:286-288 | `shift()` then `push`: drops the oldest sample and appends the new one, keeping a non-empty buffer's length |
| VitalSignsMonitor.AdvanceKeepsLatest | code-blue/src/components/game/VitalSignsMonitor.tsx:284-289 | a non-empty buffer keeps its length and holds the latest samples: the old ones then the new ones, cut from the end |
| VitalSignsMonitor.EmptyBufferHoldsOne | code-blue/src/components/game/VitalSignsMonitor.tsx:273-289 | a buffer of a zero-width canvas does not keep its length: it holds the latest sample only |
| VitalSignsMonitor.FrameSamples | code-blue/src/components/game/VitalSignsMonitor.tsx:284-289 | a frame takes as many samples as `newPoints` says (none at zero speed) |
| VitalSignsMonitor.NewPoints | code-blue/src/components/game/VitalSignsMonitor.tsx:284 | `ceil(speed x elapsed)` samples, none at zero speed |
| VitalSignsMonitor.WaveformBuffer.constructor | code-blue/src/components/game/VitalSignsMonitor.tsx:273-274 | ceil(width) zero samples (none for a width in (-1, 0]), time and last frame 0 |
| VitalSignsMonitor.WaveformBuffer.Animate | code-blue/src/components/game/VitalSignsMonitor.tsx:276-289 | records the timestamp, advances the clock by the elapsed seconds (none on the first frame), and shifts in that frame's samples |
| VitalSignsMonitor.WaveformBuffer.ShiftIn | code-blue/src/components/game/VitalSignsMonitor.tsx:285-289 | the loop leaves the buffer as the samples pushed one after another |
| VitalSignsMonitor.RhythmQuiz.constructor | code-blue/src/components/game/VitalSignsMonitor.tsx:728-730 | unanswered, nothing selected, not correct |
| VitalSignsMonitor.RhythmQuiz.HandleGuess | code-blue/src/components/game/VitalSignsMonitor.tsx:746-754 | only the first guess is recorded and reported, correct exactly when it names the rhythm shown; later guesses change and report nothing |
| UseGameState.ShiftBoundaries | code-blue/src/hooks/useGameState.ts:42-44 | a fresh store is not in a shift, and a store after `startShift` is |
| UseGameState.UsePlayer | code-blue/src/hooks/useGameState.ts:69-88 | the player's own figures, or with no player every skill 0, no lessons, energy 100, stress 0, no XP and no background |
| UseGameState.HasLesson | code-blue/src/hooks/useGameState.ts:64-66 | true exactly when there is a player with a lesson of that id |
| UseGameState.HasLessonIn | code-blue/src/hooks/useGameState.ts:64-66 | true exactly when some lesson has the id |
| UseGameState.ViewWithinClamps | code-blue/src/hooks/useGameState.ts:60-88 | on a valid store the view's figures lie inside the store's clamps and agree with `getSkillLevel` |
| UseGameState.EffectBonusOffTarget | code-blue/src/hooks/useGameState.ts:108-119 | effects that do not target the skill add no bonus |
| UseGameState.NoBonusOffTarget | code-blue/src/hooks/useGameState.ts:108-119 | a skill no lesson targets gets no bonus, so leaving it out of the record loses nothing |
| UseGameState.GetLessonBonuses | code-blue/src/hooks/useGameState.ts:108-119 | one entry exactly per targeted skill, each the sum of the SKILL_BONUS values aimed at it, the same amount `getSkillModifier` adds to the level; an empty record without a player |
| UseGameState.JsRem60 | code-blue/src/hooks/useGameState.ts:226 | JavaScript's `% 60`: the ordinary remainder for a non-negative dividend, and a remainder with the dividend's sign otherwise |
| UseGameState.PadStart2 | code-blue/src/hooks/useGameState.ts:226 | texts of length 2 or more stay; shorter ones are filled on the left with '0' to length 2 |
| UseGameState.TwoDigits | code-blue/src/hooks/useGameState.ts:226 | minutes under 60 are written with exactly two digits that read back as the minutes |
| UseGameState.TimeDisplayReadsBack | code-blue/src/hooks/useGameState.ts:223-227 | the clock reads hours, a colon and two digits of minutes under 60, and hours x 60 + minutes is the time remaining |
| UseGameState.NegativeClock | code-blue/src/hooks/useGameState.ts:223-227 | a negative clock keeps JavaScript's signs: -5 minutes shows as "-1:-5" |
| UseGameState.ShiftProgress | code-blue/src/hooks/useGameState.ts:229-231 | within [0, 100] for a clock in [0, 480]: 0 at the start of the shift and 100 at its end |
| UseGameState.ProgressAdvances | code-blue/src/hooks/useGameState.ts:229-231 | each minute that passes adds 100/480 percent, so the bar only fills |

## Left out

- Rendering is not part of this model. That covers React/JSX, framer-motion, canvas drawing, CSS classes beyond the probability colour, DOM focus and the other components and screens (board views, modals, menus, intro sequence, shift screens).
- The headless-browser script verification/verify_progressbar.py is browser automation. The attribute contract it looks for is `ProgressBar.BarAttributes` together with `CpcMode.TimerBar`.
- The trigonometric waveform generators are floating-point `Math.sin`/`Math.cos` numerics, so the waveform buffer takes its generator as a function parameter.
- Randomness, `uuid`, `Date.now()` and the voice-line lookup `getSkillVoiceLine` are parameters: the dice, a 32-bit word or unit-interval value, the case pick, ids, timestamps and a voice-line table.
- The CPC exam's one-second interval and its 800 ms follow-up `setTimeout` are calls the caller makes to `TimerTick` and `NextCase`. The asystole artifact and other timers elsewhere in the UI are not modelled.
- The zustand `persist`/`devtools`/immer middleware, storage hydration and subscriptions are not modelled. Each store action is one method on one object.
- Exact values versus doubles: probabilities, vital signs, lab values and percentages are exact reals. JavaScript's rounding of doubles (for instance in `0.1 + 0.2`), infinities and NaN are not modelled, except that `ProgressBar.Percentage` gives NaN for 0/0 as `None`.
- `LabResults.ParseFloat`: reads only an optional sign, digits and an optional fraction. Leading whitespace, exponents, "Infinity" and hexadecimal forms are not modelled.
- `Security.Sanitize` works on Unicode code points, whereas JavaScript's `length` and `substring` count UTF-16 code units. Surrogate pairs are not modelled.
- `SECURITY_LIMITS` is declared in utils/security.ts but used by no code in the core, so it is a set of constants with no operation to model.
- `InternalVoices.FormatVoiceForDisplay`: upper-cases ASCII letters only, where `toUpperCase` maps all of Unicode. Every voice name in data/skills.ts is ASCII, so no voice the game shows is affected.
- `NarrativeCase.EffectCore`: effect values are whole numbers. The `Number()` conversion of string values and non-numeric values are not modelled.
- `NarrativeCase.CheckRequirements`: the requirement's `value` and `operator` fields are not read by the source, so the model has no such fields.
- `Mci.MCIManager.StartIncident` requires every case to carry HR and O2 vitals. The source would compute NaN vitals otherwise.
- `Mci.InitialTtl`: difficulties are an enumeration, so an unknown difficulty string is not modelled. It would fall back to 600 seconds, like Easy.
- `Mci.MCIManager.GetState`, `NarrativeCase.CaseEngine.GetCurrentNode`/`GetAvailableChoices` and `DialogueStore.Dialogue.GetCurrentNode`/`GetAvailableChoices`/`HasVisitedNode` are functions of the object's fields with no separate contract. Their properties are stated through `NodeAt`, `OfferChoices`, `AvailableChoices` and `EndDialogue`. The model returns values, so `getState` handing out a reference the caller could mutate is not modelled.
- The MCI score and lives-saved counters are kept but, as in the source, never changed.
- The constructor of `NarrativeCase.CaseEngine` copies the initial state because the model has values, not references. That the source's deep copy protects the case data is therefore implicit.
- `VitalSignsMonitor.WaveformBuffer`: the length of the buffer is invariant only for a canvas of positive width (`AdvanceKeepsLatest`). For width 0 the buffer grows to one sample (`EmptyBufferHoldsOne`).
- `VitalSignsMonitor.RhythmQuiz.HandleGuess`: the `onAnswer` callback is its returned value.
- `UseGameState`: the hooks' React memoisation, `useShallow` and the store subscription are not modelled. Each hook value is a function of a store snapshot. `IsInShift`, `SkillLevel` and `TimeDisplay` are plain functions whose properties are the lemmas beside them.
- The lab reference texts (`labReferences`) and the data files (cases, NPCs, skills and backgrounds) hold no logic. Only the parts the model needs are transcribed: the skill table, the background bonuses, the Mrs Martinez case and the recipes.
- The older duplicate copy of VitalSignsMonitor.tsx at the repository root has the same `getVitalStatus` and is not modelled a second time.
- The season-import script and the sound hooks do file-system and audio I/O, and are not modelled.
