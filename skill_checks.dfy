/** Skill-check resolution (utils/skillChecks.ts): the modifier breakdown, the
    rolled or passive check with critical overrides, the narrative line, the
    pre-roll preview and opposed checks. The dice and the voice line are inputs
    (the random draws are outside the model). */
module SkillChecks {
  import opened Common
  import opened Skills
  import opened Dice

  datatype Modifier = Modifier(source: string, value: int)

  /** `SkillCheckParams`, with the optional fields at their defaults when absent:
      no situational modifiers, not passive. */
  datatype SkillCheckParams = SkillCheckParams(
    skillId: SkillId, dc: int, situationalModifiers: seq<Modifier>,
    assistedBy: Option<string>, isPassive: bool)

  datatype ResolvedCheck = ResolvedCheck(
    skillId: SkillId, dc: int, success: bool, roll: DiceRoll,
    modifiers: seq<Modifier>, totalModifier: int, finalResult: int, margin: int,
    criticalType: CriticalType, narrativeResult: string,
    internalVoice: Option<InternalVoice>)

  /** `modifiers.reduce((sum, m) => sum + m.value, 0)`. */
  function TotalModifier(mods: seq<Modifier>): int {
    if mods == [] then 0 else TotalModifier(mods[..|mods| - 1]) + mods[|mods| - 1].value
  }

  lemma {:induction false} TotalModifierAppend(a: seq<Modifier>, b: seq<Modifier>)
    ensures TotalModifier(a + b) == TotalModifier(a) + TotalModifier(b)
    decreases |b|
  {
    if b == [] {
      assert a + b == a;
    } else {
      TotalModifierAppend(a, b[..|b| - 1]);
      assert (a + b)[..|a + b| - 1] == a + b[..|b| - 1];
    }
  }

  /** The skill's own level, named after the skill. */
  function BaseModifier(id: SkillId, playerSkills: PlayerSkills): seq<Modifier> {
    [Modifier(Info(id).name, Level(playerSkills, id))]
  }

  /** The lesson bonus, when it is not zero. */
  function LessonModifier(id: SkillId, lessonBonuses: PlayerSkills): seq<Modifier> {
    if Level(lessonBonuses, id) != 0 then [Modifier("Learned Lesson", Level(lessonBonuses, id))] else []
  }

  /** +1 when the check is assisted by someone (a truthy name). */
  function AssistModifier(assistedBy: Option<string>): seq<Modifier> {
    if Truthy(assistedBy) then [Modifier("Assisted by " + assistedBy.value, 1)] else []
  }

  /** The modifier list both `resolveSkillCheck` and `previewSkillCheck` build:
      the skill level, a non-zero lesson bonus, the situational modifiers, and
      +1 when someone assists. */
  function BuildModifiers(params: SkillCheckParams, playerSkills: PlayerSkills, lessonBonuses: PlayerSkills): seq<Modifier> {
    BaseModifier(params.skillId, playerSkills)
    + LessonModifier(params.skillId, lessonBonuses)
    + params.situationalModifiers
    + AssistModifier(params.assistedBy)
  }

  lemma SingleModifierTotal(m: Modifier)
    ensures TotalModifier([m]) == m.value
  {
    assert [m][..0] == [];
  }

  /** The total is the skill level plus the lesson bonus plus the situational
      modifiers, plus one when assisted. */
  lemma ModifierTotalBreakdown(params: SkillCheckParams, playerSkills: PlayerSkills, lessonBonuses: PlayerSkills)
    ensures TotalModifier(BuildModifiers(params, playerSkills, lessonBonuses)) ==
      Level(playerSkills, params.skillId) + Level(lessonBonuses, params.skillId)
      + TotalModifier(params.situationalModifiers)
      + (if Truthy(params.assistedBy) then 1 else 0)
  {
    var base := BaseModifier(params.skillId, playerSkills);
    var lesson := LessonModifier(params.skillId, lessonBonuses);
    var assist := AssistModifier(params.assistedBy);
    TotalModifierAppend(base, lesson);
    TotalModifierAppend(base + lesson, params.situationalModifiers);
    TotalModifierAppend(base + lesson + params.situationalModifiers, assist);
    SingleModifierTotal(base[0]);
    if lesson != [] {
      SingleModifierTotal(lesson[0]);
    }
    if assist != [] {
      SingleModifierTotal(assist[0]);
    }
  }

  /** How a check reads once resolved, from a critical failure up to a
      critical success. */
  datatype NarrativeTier =
    | CatastrophicFailure | SeriousFailure | NotQuite | SoClose
    | JustEnough | Solid | Exceptional | PerfectClarity

  function Tier(success: bool, margin: int, critical: CriticalType): NarrativeTier {
    if critical == CriticalSuccess then PerfectClarity
    else if critical == CriticalFailure then CatastrophicFailure
    else if success then
      (if margin >= 5 then Exceptional else if margin >= 2 then Solid else JustEnough)
    else
      (if margin <= -5 then SeriousFailure else if margin <= -2 then NotQuite else SoClose)
  }

  function TierRank(t: NarrativeTier): int {
    match t
    case CatastrophicFailure => 0
    case SeriousFailure => 1
    case NotQuite => 2
    case SoClose => 3
    case JustEnough => 4
    case Solid => 5
    case Exceptional => 6
    case PerfectClarity => 7
  }

  function NarrativeText(t: NarrativeTier, skillName: string): string {
    match t
    case PerfectClarity => "A moment of perfect clarity. Your " + skillName + " exceeds all expectations."
    case CatastrophicFailure => "Everything that could go wrong, does. A catastrophic failure of " + skillName + "."
    case Exceptional => "Exceptional success. Your " + skillName + " shines through brilliantly."
    case Solid => "Solid work. Your " + skillName + " proves reliable."
    case JustEnough => "Just enough. Your " + skillName + " carries you through—barely."
    case SeriousFailure => "A serious failure. Your " + skillName + " fails you completely."
    case NotQuite => "Not quite. Your " + skillName + " isn't enough this time."
    case SoClose => "So close. Your " + skillName + " nearly succeeds."
  }

  /** `generateNarrative`. */
  function GenerateNarrative(skillId: SkillId, success: bool, margin: int, critical: CriticalType): string {
    NarrativeText(Tier(success, margin, critical), Info(skillId).name)
  }

  /** Criticals decide the tier outright; otherwise a success always reads
      better than a failure and a larger margin never reads worse. */
  lemma NarrativeLadder(s1: bool, m1: int, s2: bool, m2: int)
    requires s1 == (m1 >= 0) && s2 == (m2 >= 0)
    requires m1 <= m2
    ensures TierRank(Tier(s1, m1, NoCritical)) <= TierRank(Tier(s2, m2, NoCritical))
    ensures s1 != s2 ==> TierRank(Tier(s1, m1, NoCritical)) < 4 <= TierRank(Tier(s2, m2, NoCritical))
    ensures Tier(s1, m1, CriticalSuccess) == PerfectClarity && Tier(s1, m1, CriticalFailure) == CatastrophicFailure
  {
  }

  /** The roll `resolveSkillCheck` uses: the dice for a rolled check, a flat 7
      with no dice for a passive one. */
  function EffectiveRoll(params: SkillCheckParams, dice: DiceRoll): DiceRoll {
    if params.isPassive then DiceRoll(0, 0, 7) else dice
  }

  /** `resolveSkillCheck`, with the two dice already rolled and the voice line
      table passed in. */
  function ResolveSkillCheck(params: SkillCheckParams, playerSkills: PlayerSkills, lessonBonuses: PlayerSkills,
                             dice: DiceRoll, lines: VoiceLines): (r: ResolvedCheck)
    ensures r.skillId == params.skillId && r.dc == params.dc
    ensures r.modifiers == BuildModifiers(params, playerSkills, lessonBonuses)
    ensures r.totalModifier == Level(playerSkills, params.skillId) + Level(lessonBonuses, params.skillId)
      + TotalModifier(params.situationalModifiers) + (if Truthy(params.assistedBy) then 1 else 0)
    ensures r.margin == r.finalResult - params.dc
    ensures params.isPassive ==> r.criticalType == NoCritical && r.roll.natural == 7
    ensures r.narrativeResult == GenerateNarrative(params.skillId, r.success, r.margin, r.criticalType)
    ensures r.internalVoice.Some? <==> Truthy(lines(params.skillId, if r.success then CheckSuccess else CheckFailure))
    ensures r.internalVoice.Some? ==>
      r.internalVoice.value.skillId == params.skillId
      && r.internalVoice.value.priority == (if r.criticalType != NoCritical then 10 else 5)
  {
    var mods := BuildModifiers(params, playerSkills, lessonBonuses);
    ModifierTotalBreakdown(params, playerSkills, lessonBonuses);
    var total := TotalModifier(mods);
    var roll := EffectiveRoll(params, dice);
    var finalResult := roll.natural + total;
    var margin := finalResult - params.dc;
    var critical := if params.isPassive then NoCritical else GetCriticalType(roll);
    var success :=
      if critical == CriticalSuccess then true
      else if critical == CriticalFailure then false
      else finalResult >= params.dc;
    var voiceText := lines(params.skillId, if success then CheckSuccess else CheckFailure);
    var skill := Info(params.skillId);
    var voice :=
      if Truthy(voiceText) then
        Some(InternalVoice(params.skillId, skill.name, skill.voiceName, voiceText.value,
                           if critical != NoCritical then 10 else 5, skill.category))
      else None;
    ResolvedCheck(params.skillId, params.dc, success, roll, mods, total, finalResult, margin,
                  critical, GenerateNarrative(params.skillId, success, margin, critical), voice)
  }

  /** A rolled check succeeds exactly by the dice rule: boxcars always, snake eyes
      never, otherwise when the natural reaches `dc - totalModifier`. */
  lemma RolledCheckSuccess(params: SkillCheckParams, playerSkills: PlayerSkills, lessonBonuses: PlayerSkills,
                           dice: DiceRoll, lines: VoiceLines)
    requires !params.isPassive
    ensures var r := ResolveSkillCheck(params, playerSkills, lessonBonuses, dice, lines);
      r.finalResult == dice.natural + r.totalModifier
      && r.criticalType == GetCriticalType(dice)
      && (r.success <==> WinsWith(dice.natural, params.dc - r.totalModifier))
  {
  }

  /** A passive check has no criticals: it succeeds exactly when 7 plus the
      modifiers reaches the DC. */
  lemma PassiveCheckSuccess(params: SkillCheckParams, playerSkills: PlayerSkills, lessonBonuses: PlayerSkills,
                            dice: DiceRoll, lines: VoiceLines)
    requires params.isPassive
    ensures var r := ResolveSkillCheck(params, playerSkills, lessonBonuses, dice, lines);
      r.finalResult == 7 + r.totalModifier && (r.success <==> r.finalResult >= params.dc)
  {
  }

  /** With the same dice, lowering the DC never turns a success into a failure. */
  lemma SuccessMonotoneInDc(params: SkillCheckParams, dc: int, playerSkills: PlayerSkills, lessonBonuses: PlayerSkills,
                            dice: DiceRoll, lines: VoiceLines)
    requires dc <= params.dc
    requires ResolveSkillCheck(params, playerSkills, lessonBonuses, dice, lines).success
    ensures ResolveSkillCheck(params.(dc := dc), playerSkills, lessonBonuses, dice, lines).success
  {
  }

  /** `previewSkillCheck`'s result. */
  datatype CheckPreview = CheckPreview(
    skillId: SkillId, skillName: string, dc: int, dcDescription: string,
    totalModifier: int, probability: real, probabilityDescription: string,
    modifierBreakdown: seq<Modifier>)

  /** The preview the source computes, as a value. */
  function Preview(params: SkillCheckParams, playerSkills: PlayerSkills, lessonBonuses: PlayerSkills): CheckPreview {
    var mods := BuildModifiers(params, playerSkills, lessonBonuses);
    var total := TotalModifier(mods);
    var p := SuccessChance(params.dc, total);
    CheckPreview(params.skillId, Info(params.skillId).name, params.dc, GetDCDescriptionFromValue(params.dc),
                 total, p, GetProbabilityDescription(p), mods)
  }

  method PreviewSkillCheck(params: SkillCheckParams, playerSkills: PlayerSkills, lessonBonuses: PlayerSkills)
    returns (preview: CheckPreview)
    ensures preview == Preview(params, playerSkills, lessonBonuses)
  {
    var mods := BuildModifiers(params, playerSkills, lessonBonuses);
    var total := TotalModifier(mods);
    var p := SuccessProbability(params.dc, total);
    preview := CheckPreview(params.skillId, Info(params.skillId).name, params.dc, GetDCDescriptionFromValue(params.dc),
                            total, p, GetProbabilityDescription(p), mods);
  }

  /** The preview shows the same modifiers and total the roll will use, and for a
      rolled check with a target of at most 12 its probability is the exact share
      of the 36 dice outcomes that succeed. */
  lemma PreviewAgreesWithResolution(params: SkillCheckParams, playerSkills: PlayerSkills, lessonBonuses: PlayerSkills,
                                    dice: DiceRoll, lines: VoiceLines)
    ensures var pv := Preview(params, playerSkills, lessonBonuses);
      var r := ResolveSkillCheck(params, playerSkills, lessonBonuses, dice, lines);
      pv.modifierBreakdown == r.modifiers && pv.totalModifier == r.totalModifier
      && (params.dc - r.totalModifier <= 12 ==>
            pv.probability == WinningWays(params.dc - r.totalModifier, 2) as real / 36.0)
  {
    var r := ResolveSkillCheck(params, playerSkills, lessonBonuses, dice, lines);
    SuccessChanceVersusWinningRolls(params.dc, r.totalModifier);
  }

  /** The preview's private copy of the DC ladder. */
  function GetDCDescriptionFromValue(dc: int): (d: string)
    ensures d == GetDCDescription(dc)
  {
    if dc <= 6 then "Trivial"
    else if dc <= 8 then "Easy"
    else if dc <= 10 then "Moderate"
    else if dc <= 12 then "Hard"
    else if dc <= 14 then "Very Hard"
    else if dc <= 16 then "Extreme"
    else "Legendary"
  }

  datatype Winner = Attacker | Defender | Tie

  datatype OpposedCheckResult = OpposedCheckResult(
    attacker: ResolvedCheck, defender: ResolvedCheck, winner: Winner, margin: int)

  /** `resolveOpposedCheck`: the attacker rolls against 10 plus the defender's
      level; the defender checks passively against the attacker's result;
      the higher final result wins. The defender's own `dc` is not used. */
  function ResolveOpposedCheck(attackerSkill: SkillId, attackerModifiers: seq<Modifier>,
                               defenderSkill: SkillId, defenderDc: int,
                               attackerSkills: PlayerSkills, defenderSkills: PlayerSkills,
                               dice: DiceRoll, lines: VoiceLines): (o: OpposedCheckResult)
    ensures o.attacker.dc == 10 + Level(defenderSkills, defenderSkill)
    ensures o.defender.finalResult == 7 + Level(defenderSkills, defenderSkill)
    ensures o.margin == o.attacker.finalResult - o.defender.finalResult
    ensures o.winner == Attacker <==> o.margin > 0
    ensures o.winner == Defender <==> o.margin < 0
    ensures o.winner == Tie <==> o.margin == 0
  {
    var defenderPassive := 10 + Level(defenderSkills, defenderSkill);
    var a := ResolveSkillCheck(SkillCheckParams(attackerSkill, defenderPassive, attackerModifiers, None, false),
                               attackerSkills, map[], dice, lines);
    var d := ResolveSkillCheck(SkillCheckParams(defenderSkill, a.finalResult, [], None, true),
                               defenderSkills, map[], dice, lines);
    var winner :=
      if a.finalResult > d.finalResult then Attacker
      else if d.finalResult > a.finalResult then Defender
      else Tie;
    OpposedCheckResult(a, d, winner, a.finalResult - d.finalResult)
  }

  /** An attacker whose own check succeeds without a critical always wins the
      contest. */
  lemma OpposedAttackerSuccessWins(attackerSkill: SkillId, attackerModifiers: seq<Modifier>,
                                   defenderSkill: SkillId, defenderDc: int,
                                   attackerSkills: PlayerSkills, defenderSkills: PlayerSkills,
                                   dice: DiceRoll, lines: VoiceLines)
    ensures var o := ResolveOpposedCheck(attackerSkill, attackerModifiers, defenderSkill, defenderDc,
                                         attackerSkills, defenderSkills, dice, lines);
      o.attacker.success && o.attacker.criticalType == NoCritical ==> o.winner == Attacker
  {
    var o := ResolveOpposedCheck(attackerSkill, attackerModifiers, defenderSkill, defenderDc,
                                 attackerSkills, defenderSkills, dice, lines);
    if o.attacker.success && o.attacker.criticalType == NoCritical {
      RolledCheckSuccess(SkillCheckParams(attackerSkill, o.attacker.dc, attackerModifiers, None, false),
                         attackerSkills, map[], dice, lines);
    }
  }

  /** The converse fails: rolling 8 with no modifiers against a defender of
      level 0 misses the attacker's DC of 10 and still wins the contest. */
  lemma OpposedWinDespiteFailedCheck(defenderDc: int, lines: VoiceLines)
    ensures var o := ResolveOpposedCheck(Triage, [], Composure, defenderDc, map[], map[], DiceRoll(4, 4, 8), lines);
      o.winner == Attacker && !o.attacker.success
  {
    var a := ResolveSkillCheck(SkillCheckParams(Triage, 10, [], None, false), map[], map[], DiceRoll(4, 4, 8), lines);
    RolledCheckSuccess(SkillCheckParams(Triage, 10, [], None, false), map[], map[], DiceRoll(4, 4, 8), lines);
    assert a.totalModifier == 0;
    assert !a.success;
  }

  /** The defender's `dc` has no influence on the outcome. */
  lemma OpposedIgnoresDefenderDc(attackerSkill: SkillId, attackerModifiers: seq<Modifier>,
                                 defenderSkill: SkillId, dc1: int, dc2: int,
                                 attackerSkills: PlayerSkills, defenderSkills: PlayerSkills,
                                 dice: DiceRoll, lines: VoiceLines)
    ensures ResolveOpposedCheck(attackerSkill, attackerModifiers, defenderSkill, dc1, attackerSkills, defenderSkills, dice, lines)
         == ResolveOpposedCheck(attackerSkill, attackerModifiers, defenderSkill, dc2, attackerSkills, defenderSkills, dice, lines)
  {
  }
}
