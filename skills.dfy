/** The twenty skills of the game (the `SkillId` union of types/game.ts) with
    the name, voice name and category the skills table in data/skills.ts gives
    each of them. A player's skills are a
    record keyed by skill; a lookup that finds nothing reads as 0, as the
    source's `playerSkills[id] ?? 0` does. */
module Skills {
  import opened Common

  datatype SkillId =
    | Triage | Differential | Pathophysiology | History
    | PhysicalExam | Procedure | Pharmacology | Interpretation
    | Bedside | Empathy | Communication | Hierarchy | Teamwork | Advocacy
    | Composure | Instinct | Doubt | Drive | Memory | Humanity

  datatype SkillCategory = Clinical | Social | Psychological

  datatype SkillInfo = SkillInfo(name: string, voiceName: string, category: SkillCategory)

  /** Every skill, in the order the source lists them. */
  const AllSkills: seq<SkillId> := [
    Triage, Differential, Pathophysiology, History,
    PhysicalExam, Procedure, Pharmacology, Interpretation,
    Bedside, Empathy, Communication, Hierarchy, Teamwork, Advocacy,
    Composure, Instinct, Doubt, Drive, Memory, Humanity]

  /** The string key the source uses for a skill ('TRIAGE', 'PHYSICAL_EXAM', ...). */
  function SkillKey(s: SkillId): string {
    match s
    case Triage => "TRIAGE"
    case Differential => "DIFFERENTIAL"
    case Pathophysiology => "PATHOPHYSIOLOGY"
    case History => "HISTORY"
    case PhysicalExam => "PHYSICAL_EXAM"
    case Procedure => "PROCEDURE"
    case Pharmacology => "PHARMACOLOGY"
    case Interpretation => "INTERPRETATION"
    case Bedside => "BEDSIDE"
    case Empathy => "EMPATHY"
    case Communication => "COMMUNICATION"
    case Hierarchy => "HIERARCHY"
    case Teamwork => "TEAMWORK"
    case Advocacy => "ADVOCACY"
    case Composure => "COMPOSURE"
    case Instinct => "INSTINCT"
    case Doubt => "DOUBT"
    case Drive => "DRIVE"
    case Memory => "MEMORY"
    case Humanity => "HUMANITY"
  }

  /** The skills table: display name, voice name and category. */
  function Info(s: SkillId): SkillInfo {
    match s
    case Triage => SkillInfo("Triage", "The Alarm", Clinical)
    case Differential => SkillInfo("Differential", "The List-Maker", Clinical)
    case Pathophysiology => SkillInfo("Pathophysiology", "The Professor", Clinical)
    case History => SkillInfo("History", "The Detective", Clinical)
    case PhysicalExam => SkillInfo("Physical Exam", "The Hands", Clinical)
    case Procedure => SkillInfo("Procedure", "The Technician", Clinical)
    case Pharmacology => SkillInfo("Pharmacology", "The Chemist", Clinical)
    case Interpretation => SkillInfo("Interpretation", "The Analyst", Clinical)
    case Bedside => SkillInfo("Bedside", "The Healer", Social)
    case Empathy => SkillInfo("Empathy", "The Mirror", Social)
    case Communication => SkillInfo("Communication", "The Translator", Social)
    case Hierarchy => SkillInfo("Hierarchy", "The Navigator", Social)
    case Teamwork => SkillInfo("Teamwork", "The Teammate", Social)
    case Advocacy => SkillInfo("Advocacy", "The Champion", Social)
    case Composure => SkillInfo("Composure", "The Professional", Psychological)
    case Instinct => SkillInfo("Instinct", "The Gut", Psychological)
    case Doubt => SkillInfo("Doubt", "The Critic", Psychological)
    case Drive => SkillInfo("Drive", "The Engine", Psychological)
    case Memory => SkillInfo("Memory", "The Student", Psychological)
    case Humanity => SkillInfo("Humanity", "The Person", Psychological)
  }

  type PlayerSkills = map<SkillId, int>

  /** `playerSkills[skillId] ?? 0`. */
  function Level(skills: PlayerSkills, s: SkillId): int {
    if s in skills then skills[s] else 0
  }

  /** One line of commentary from a skill's internal voice (`InternalVoice` in
      types/game.ts). */
  datatype InternalVoice = InternalVoice(
    skillId: SkillId, skillName: string, voiceName: string,
    text: string, priority: int, category: SkillCategory)

  /** The moments a skill's voice lines are written for. */
  datatype VoiceTrigger =
    | Idle | Observation | CheckBefore | CheckSuccess | CheckFailure | Danger | Emotional

  /** `getSkillVoiceLine`: the line the voice table picks for a skill and a
      trigger, or None when the skill has no line for it. The table and the
      random pick are outside the model, so callers receive it as a parameter. */
  type VoiceLines = (SkillId, VoiceTrigger) -> Option<string>

  /** `record[key] ?? 0` on a record keyed by strings. */
  function LookupOr0(m: map<string, int>, key: string): int {
    if key in m then m[key] else 0
  }
}
