/** Contextual internal-voice commentary (lib/internalVoices.ts): voices raised
    by dangerous vitals, by the situation, by fatigue and stress, and around a
    skill check; the candidates are sorted by priority (stably, highest first)
    and cut to the requested number. */
module InternalVoices {
  import opened Common
  import opened Skills
  import Medical

  // The fixed lines of commentary, as the source words them.
  const PressureLine := "Blood pressure is dropping. This patient is crashing."
  const BreatheLine := "Breathe. You can panic later. Not now."
  const MissedSomethingLine := "Did you miss something? Should you go back and check?"
  const FeverLine := "Fever. Infection is on the list. What's the source?"
  const HandsLine := "Look at the hands. Check the nails. The body tells you things."
  const MoveLine := "Move. Every second matters."
  const OxygenBorderlineLine := "Oxygen is borderline. Keep watching."
  const PayAttentionLine := "Pay attention. You'll need to remember this."
  const OxygenLowLine := "SpO2 in the 80s. They need oxygen now."
  const TachycardiaLine := "That heart rate is too fast. Something is wrong."
  const BradycardiaLine := "That's bradycardia. Watch for it to drop further."
  const MoreToStoryLine := "There's more to this story. Keep asking."
  const ScaredLine := "They're scared. You can see it in how they hold themselves."
  const OverwhelmedLine := "This is too much. It's okay to feel overwhelmed. But not now."
  const HungryLine := "You haven't eaten in hours. Your body is telling you something."
  const TiredLine := "You're tired. So what? Keep moving."
  const ShakingLine := "Your hands are shaking. Take a breath."
  const DontPanicLine := "Don't let them see you panic."
  const GotThisLine := "Yes. That's it. You've got this."

  datatype Situation = Examining | Talking | Waiting | Emergency | Routine | Learning

  /** The parts of `VoiceContext` the selection reads (scene, patient, recent
      checks and time of shift are carried by the source but never read). */
  datatype VoiceContext = VoiceContext(
    situation: Situation, vitals: Option<Medical.VitalSigns>, playerSkills: PlayerSkills,
    playerEnergy: int, playerStress: int)

  /** `createVoice`: a line spoken by a skill, with that skill's name, voice
      name and category. */
  function CreateVoice(skillId: SkillId, text: string, priority: int): (v: InternalVoice)
    ensures v.skillId == skillId && v.text == text && v.priority == priority
    ensures v.skillName == Info(skillId).name && v.voiceName == Info(skillId).voiceName
    ensures v.category == Info(skillId).category
  {
    var skill := Info(skillId);
    InternalVoice(skillId, skill.name, skill.voiceName, text, priority, skill.category)
  }

  /** Some voice in `vs` is spoken by `skill` at `priority`. */
  predicate Raised(vs: seq<InternalVoice>, skill: SkillId, priority: int) {
    exists i :: 0 <= i < |vs| && vs[i].skillId == skill && vs[i].priority == priority
  }

  function When(c: bool, v: InternalVoice): seq<InternalVoice> {
    if c then [v] else []
  }

  // ------------------------------------------------------------------
  // Danger detection
  // ------------------------------------------------------------------

  function HeartRateVoice(vitals: Medical.VitalSigns, playerSkills: PlayerSkills): seq<InternalVoice> {
    When((vitals.heartRate > 120.0 || vitals.heartRate < 50.0) && Level(playerSkills, Triage) >= 1,
         CreateVoice(Triage,
                     if vitals.heartRate > 120.0 then TachycardiaLine
                     else BradycardiaLine,
                     8))
  }

  function PressureVoice(vitals: Medical.VitalSigns): seq<InternalVoice> {
    When(vitals.systolic < 90.0, CreateVoice(Triage, PressureLine, 10))
  }

  function OxygenVoice(vitals: Medical.VitalSigns): seq<InternalVoice> {
    When(vitals.oxygenSaturation < 92.0,
         CreateVoice(Interpretation,
                     if vitals.oxygenSaturation < 88.0 then OxygenLowLine
                     else OxygenBorderlineLine,
                     if vitals.oxygenSaturation < 88.0 then 10 else 6))
  }

  function FeverVoice(vitals: Medical.VitalSigns): seq<InternalVoice> {
    When(vitals.temperature > 101.5, CreateVoice(Differential, FeverLine, 5))
  }

  /** `checkVitalsForDanger`. */
  function CheckVitalsForDanger(vitals: Medical.VitalSigns, playerSkills: PlayerSkills): seq<InternalVoice> {
    HeartRateVoice(vitals, playerSkills) + PressureVoice(vitals) + OxygenVoice(vitals) + FeverVoice(vitals)
  }

  lemma RaisedInWhen(c: bool, v: InternalVoice, skill: SkillId, priority: int)
    ensures Raised(When(c, v), skill, priority) <==> c && v.skillId == skill && v.priority == priority
  {
    if c && v.skillId == skill && v.priority == priority {
      assert When(c, v)[0] == v;
    }
  }

  lemma RaisedInAppend(a: seq<InternalVoice>, b: seq<InternalVoice>, skill: SkillId, priority: int)
    ensures Raised(a + b, skill, priority) <==> Raised(a, skill, priority) || Raised(b, skill, priority)
  {
    if Raised(a + b, skill, priority) {
      var i :| 0 <= i < |a + b| && (a + b)[i].skillId == skill && (a + b)[i].priority == priority;
      if i >= |a| {
        assert b[i - |a|] == (a + b)[i];
      }
    }
    if Raised(a, skill, priority) {
      var j :| 0 <= j < |a| && a[j].skillId == skill && a[j].priority == priority;
      assert (a + b)[j] == a[j];
    }
    if Raised(b, skill, priority) {
      var j :| 0 <= j < |b| && b[j].skillId == skill && b[j].priority == priority;
      assert (a + b)[|a| + j] == b[j];
    }
  }

  /** Each alarm sounds exactly when its reading crosses its threshold: a fast
      or slow heart only for a player with some Triage, falling pressure and
      low oxygen always, fever above 101.5. */
  lemma DangerVoicesExact(vitals: Medical.VitalSigns, playerSkills: PlayerSkills)
    ensures var d := CheckVitalsForDanger(vitals, playerSkills);
      |d| <= 4
      && (Raised(d, Triage, 8) <==> (vitals.heartRate > 120.0 || vitals.heartRate < 50.0) && Level(playerSkills, Triage) >= 1)
      && (Raised(d, Triage, 10) <==> vitals.systolic < 90.0)
      && (Raised(d, Interpretation, 10) <==> vitals.oxygenSaturation < 88.0)
      && (Raised(d, Interpretation, 6) <==> 88.0 <= vitals.oxygenSaturation < 92.0)
      && (Raised(d, Differential, 5) <==> vitals.temperature > 101.5)
  {
    var h, p, o, f := HeartRateVoice(vitals, playerSkills), PressureVoice(vitals), OxygenVoice(vitals), FeverVoice(vitals);
    forall skill: SkillId, priority: int
      ensures Raised(h + p + o + f, skill, priority) <==>
        Raised(h, skill, priority) || Raised(p, skill, priority) || Raised(o, skill, priority) || Raised(f, skill, priority)
    {
      RaisedInAppend(h, p, skill, priority);
      RaisedInAppend(h + p, o, skill, priority);
      RaisedInAppend(h + p + o, f, skill, priority);
    }
    var hrBad := (vitals.heartRate > 120.0 || vitals.heartRate < 50.0) && Level(playerSkills, Triage) >= 1;
    var hv := CreateVoice(Triage, if vitals.heartRate > 120.0 then TachycardiaLine
                                  else BradycardiaLine, 8);
    var pv := CreateVoice(Triage, PressureLine, 10);
    var ov := CreateVoice(Interpretation, if vitals.oxygenSaturation < 88.0 then OxygenLowLine
                                          else OxygenBorderlineLine,
                          if vitals.oxygenSaturation < 88.0 then 10 else 6);
    var fv := CreateVoice(Differential, FeverLine, 5);
    forall skill: SkillId, priority: int
      ensures Raised(h, skill, priority) <==> hrBad && skill == Triage && priority == 8
      ensures Raised(p, skill, priority) <==> vitals.systolic < 90.0 && skill == Triage && priority == 10
      ensures Raised(o, skill, priority) <==> vitals.oxygenSaturation < 92.0 && skill == Interpretation && priority == ov.priority
      ensures Raised(f, skill, priority) <==> vitals.temperature > 101.5 && skill == Differential && priority == 5
    {
      RaisedInWhen(hrBad, hv, skill, priority);
      RaisedInWhen(vitals.systolic < 90.0, pv, skill, priority);
      RaisedInWhen(vitals.oxygenSaturation < 92.0, ov, skill, priority);
      RaisedInWhen(vitals.temperature > 101.5, fv, skill, priority);
    }
  }

  // ------------------------------------------------------------------
  // Situation and wellbeing
  // ------------------------------------------------------------------

  /** `getSituationVoices`. */
  function GetSituationVoices(context: VoiceContext): seq<InternalVoice> {
    var skills := context.playerSkills;
    match context.situation
    case Emergency =>
      [CreateVoice(Composure, BreatheLine, 9),
       CreateVoice(Drive, MoveLine, 8)]
    case Examining =>
      When(Level(skills, PhysicalExam) >= 2,
           CreateVoice(PhysicalExam, HandsLine, 4))
      + When(Level(skills, History) >= 1, CreateVoice(History, MoreToStoryLine, 3))
    case Talking =>
      When(Level(skills, Empathy) >= 2,
           CreateVoice(Empathy, ScaredLine, 4))
    case Waiting =>
      When(Level(skills, Doubt) >= 0, CreateVoice(Doubt, MissedSomethingLine, 3))
    case Learning =>
      [CreateVoice(Memory, PayAttentionLine, 4)]
    case Routine => []
  }

  /** What each situation says, and for whom: an emergency always brings
      Composure then Drive, examining needs skill, waiting brings Doubt unless
      Doubt is negative, routine brings nothing. */
  lemma SituationVoicesExact(context: VoiceContext)
    ensures var s := GetSituationVoices(context);
      var skills := context.playerSkills;
      (context.situation == Emergency ==>
         |s| == 2 && s[0].skillId == Composure && s[0].priority == 9
         && s[1].skillId == Drive && s[1].priority == 8)
      && (context.situation == Examining ==>
            |s| == (if Level(skills, PhysicalExam) >= 2 then 1 else 0) + (if Level(skills, History) >= 1 then 1 else 0)
            && (Raised(s, PhysicalExam, 4) <==> Level(skills, PhysicalExam) >= 2)
            && (Raised(s, History, 3) <==> Level(skills, History) >= 1))
      && (context.situation == Talking ==> (|s| == 1 <==> Level(skills, Empathy) >= 2))
      && (context.situation == Waiting ==> (|s| == 1 <==> Level(skills, Doubt) >= 0))
      && (context.situation == Learning ==> |s| == 1 && s[0].skillId == Memory)
      && (context.situation == Routine ==> s == [])
      && (forall i :: 0 <= i < |s| ==> s[i].priority <= 9)
  {
    if context.situation == Examining {
      var skills := context.playerSkills;
      var a := When(Level(skills, PhysicalExam) >= 2,
                    CreateVoice(PhysicalExam, HandsLine, 4));
      var b := When(Level(skills, History) >= 1, CreateVoice(History, MoreToStoryLine, 3));
      RaisedInAppend(a, b, PhysicalExam, 4);
      RaisedInAppend(a, b, History, 3);
      RaisedInWhen(Level(skills, PhysicalExam) >= 2, CreateVoice(PhysicalExam, HandsLine, 4), PhysicalExam, 4);
      RaisedInWhen(Level(skills, PhysicalExam) >= 2, CreateVoice(PhysicalExam, HandsLine, 4), History, 3);
      RaisedInWhen(Level(skills, History) >= 1, CreateVoice(History, MoreToStoryLine, 3), PhysicalExam, 4);
      RaisedInWhen(Level(skills, History) >= 1, CreateVoice(History, MoreToStoryLine, 3), History, 3);
    }
  }

  /** `getWellbeingVoices`. */
  function GetWellbeingVoices(energy: int, stress: int): seq<InternalVoice> {
    (if energy < 30 then
       [CreateVoice(Humanity, HungryLine, 3),
        CreateVoice(Drive, TiredLine, 4)]
     else [])
    + (if stress > 70 then
         [CreateVoice(Composure, ShakingLine, 5),
          CreateVoice(Humanity, OverwhelmedLine, 4)]
       else [])
  }

  lemma WellbeingVoicesExact(energy: int, stress: int)
    ensures var w := GetWellbeingVoices(energy, stress);
      |w| == (if energy < 30 then 2 else 0) + (if stress > 70 then 2 else 0)
      && (Raised(w, Drive, 4) <==> energy < 30)
      && (Raised(w, Composure, 5) <==> stress > 70)
      && (forall i :: 0 <= i < |w| ==> 3 <= w[i].priority <= 5)
  {
    var w := GetWellbeingVoices(energy, stress);
    if energy < 30 {
      assert w[1].skillId == Drive && w[1].priority == 4;
    }
    if stress > 70 {
      var k := if energy < 30 then 2 else 0;
      assert w[k].skillId == Composure && w[k].priority == 5;
    }
  }

  // ------------------------------------------------------------------
  // Around a skill check
  // ------------------------------------------------------------------

  /** A skill's own line, as a voice, when the table has a (truthy) line. */
  function OwnLine(skillId: SkillId, line: Option<string>, priority: int): (v: seq<InternalVoice>)
    ensures |v| == (if Truthy(line) then 1 else 0)
    ensures forall i :: 0 <= i < |v| ==> v[i].skillId == skillId && v[i].priority == priority
  {
    if Truthy(line) then [CreateVoice(skillId, line.value, priority)] else []
  }

  lemma RaisedOne(v: seq<InternalVoice>, skill: SkillId, priority: int, s: SkillId, p: int)
    requires |v| <= 1 && forall i :: 0 <= i < |v| ==> v[i].skillId == s && v[i].priority == p
    ensures Raised(v, skill, priority) <==> |v| == 1 && skill == s && priority == p
  {
    if |v| == 1 && skill == s && priority == p {
      assert v[0].skillId == skill && v[0].priority == priority;
    }
  }

  lemma RaisedIn2(a: seq<InternalVoice>, b: seq<InternalVoice>, skill: SkillId, priority: int)
    ensures Raised(a + b, skill, priority) <==> Raised(a, skill, priority) || Raised(b, skill, priority)
  {
    RaisedInAppend(a, b, skill, priority);
  }

  lemma RaisedIn3(a: seq<InternalVoice>, b: seq<InternalVoice>, c: seq<InternalVoice>, skill: SkillId, priority: int)
    ensures Raised(a + b + c, skill, priority) <==>
      Raised(a, skill, priority) || Raised(b, skill, priority) || Raised(c, skill, priority)
  {
    RaisedInAppend(a, b, skill, priority);
    RaisedInAppend(a + b, c, skill, priority);
  }

  /** `getPreCheckVoices`: the skill's own line before its check, and Doubt's
      line before a hard check (DC 12 or more) for a player below level 3. */
  function GetPreCheckVoices(skillId: SkillId, dc: int, playerSkillLevel: int, lines: VoiceLines): seq<InternalVoice> {
    OwnLine(skillId, lines(skillId, CheckBefore), 7)
    + OwnLine(Doubt, if dc >= 12 && playerSkillLevel < 3 then lines(Doubt, CheckBefore) else None, 5)
  }

  lemma PreCheckVoicesExact(skillId: SkillId, dc: int, playerSkillLevel: int, lines: VoiceLines)
    ensures var v := GetPreCheckVoices(skillId, dc, playerSkillLevel, lines);
      var hard := dc >= 12 && playerSkillLevel < 3 && Truthy(lines(Doubt, CheckBefore));
      |v| == (if Truthy(lines(skillId, CheckBefore)) then 1 else 0) + (if hard then 1 else 0)
      && (Raised(v, skillId, 7) <==> Truthy(lines(skillId, CheckBefore)))
      && (Raised(v, Doubt, 5) <==> hard)
  {
    var a := OwnLine(skillId, lines(skillId, CheckBefore), 7);
    var b := OwnLine(Doubt, if dc >= 12 && playerSkillLevel < 3 then lines(Doubt, CheckBefore) else None, 5);
    RaisedIn2(a, b, skillId, 7);
    RaisedIn2(a, b, Doubt, 5);
    RaisedOne(a, skillId, 7, skillId, 7);
    RaisedOne(a, Doubt, 5, skillId, 7);
    RaisedOne(b, skillId, 7, Doubt, 5);
    RaisedOne(b, Doubt, 5, Doubt, 5);
  }

  /** `getPostCheckVoices`: the skill's reaction (priority 10 on a critical,
      6 otherwise), then Composure after a critical failure or Drive after a
      critical success. */
  function GetPostCheckVoices(skillId: SkillId, success: bool, isCritical: bool, lines: VoiceLines): seq<InternalVoice> {
    OwnLine(skillId, lines(skillId, if success then CheckSuccess else CheckFailure), if isCritical then 10 else 6)
    + When(!success && isCritical, CreateVoice(Composure, DontPanicLine, 8))
    + When(success && isCritical, CreateVoice(Drive, GotThisLine, 7))
  }

  lemma PostCheckVoicesExact(skillId: SkillId, success: bool, isCritical: bool, lines: VoiceLines)
    ensures var v := GetPostCheckVoices(skillId, success, isCritical, lines);
      var own := lines(skillId, if success then CheckSuccess else CheckFailure);
      |v| == (if Truthy(own) then 1 else 0) + (if isCritical then 1 else 0)
      && (Raised(v, skillId, if isCritical then 10 else 6) <==> Truthy(own))
      && (Raised(v, Composure, 8) <==> !success && isCritical)
      && (Raised(v, Drive, 7) <==> success && isCritical)
  {
    var own := lines(skillId, if success then CheckSuccess else CheckFailure);
    var p := if isCritical then 10 else 6;
    var a := OwnLine(skillId, own, p);
    var b := When(!success && isCritical, CreateVoice(Composure, DontPanicLine, 8));
    var c := When(success && isCritical, CreateVoice(Drive, GotThisLine, 7));
    RaisedIn3(a, b, c, skillId, p);
    RaisedIn3(a, b, c, Composure, 8);
    RaisedIn3(a, b, c, Drive, 7);
    RaisedOne(a, skillId, p, skillId, p);
    RaisedOne(a, Composure, 8, skillId, p);
    RaisedOne(a, Drive, 7, skillId, p);
    RaisedOne(b, skillId, p, Composure, 8);
    RaisedOne(b, Composure, 8, Composure, 8);
    RaisedOne(b, Drive, 7, Composure, 8);
    RaisedOne(c, skillId, p, Drive, 7);
    RaisedOne(c, Composure, 8, Drive, 7);
    RaisedOne(c, Drive, 7, Drive, 7);
  }

  // ------------------------------------------------------------------
  // Display
  // ------------------------------------------------------------------

  datatype DisplayedVoice = DisplayedVoice(prefix: string, text: string, categoryClass: string)

  /** `toUpperCase` on ASCII letters; every other character is left alone. */
  function UpperChar(c: char): char {
    if 'a' <= c <= 'z' then (c as int - 32) as char else c
  }

  function ToUpper(s: string): string {
    seq(|s|, i requires 0 <= i < |s| => UpperChar(s[i]))
  }

  function CategoryClass(category: SkillCategory): string {
    match category
    case Clinical => "skill-clinical"
    case Social => "skill-social"
    case Psychological => "skill-psychological"
  }

  /** `formatVoiceForDisplay`. */
  function FormatVoiceForDisplay(voice: InternalVoice): DisplayedVoice {
    DisplayedVoice(ToUpper(voice.voiceName), voice.text, CategoryClass(voice.category))
  }

  /** The prefix is the voice name in capitals, letter for letter: the same
      length, no lower-case ASCII letter left, and capitalising again changes
      nothing; each category has its own class. */
  lemma FormatVoiceForDisplayProperties(voice: InternalVoice, other: InternalVoice)
    ensures var d := FormatVoiceForDisplay(voice);
      |d.prefix| == |voice.voiceName|
      && (forall i :: 0 <= i < |d.prefix| ==> !('a' <= d.prefix[i] <= 'z'))
      && ToUpper(d.prefix) == d.prefix
      && d.text == voice.text
    ensures other.category != voice.category ==>
      FormatVoiceForDisplay(other).categoryClass != FormatVoiceForDisplay(voice).categoryClass
  {
  }

  // ------------------------------------------------------------------
  // Stable sort by priority, highest first
  // ------------------------------------------------------------------

  predicate SortedByPriority(s: seq<InternalVoice>) {
    forall i, j :: 0 <= i < j < |s| ==> s[i].priority >= s[j].priority
  }

  /** Insert `v` after every voice of at least its priority. */
  function InsertByPriority(t: seq<InternalVoice>, v: InternalVoice): (r: seq<InternalVoice>)
    ensures |r| == |t| + 1
  {
    if t == [] || t[0].priority < v.priority then [v] + t
    else [t[0]] + InsertByPriority(t[1..], v)
  }

  lemma {:induction false} InsertIsPermutation(t: seq<InternalVoice>, v: InternalVoice)
    ensures multiset(InsertByPriority(t, v)) == multiset(t) + multiset{v}
    decreases |t|
  {
    if t != [] && !(t[0].priority < v.priority) {
      InsertIsPermutation(t[1..], v);
      assert t == [t[0]] + t[1..];
    }
  }

  /** `candidates.sort((a, b) => b.priority - a.priority)`: Array.prototype.sort
      is stable, so this is an insertion sort that keeps equal priorities in
      their original order. */
  function SortByPriority(s: seq<InternalVoice>): (r: seq<InternalVoice>)
    ensures |r| == |s|
  {
    if s == [] then [] else InsertByPriority(SortByPriority(s[..|s| - 1]), s[|s| - 1])
  }

  lemma {:induction false} InsertKeepsSorted(t: seq<InternalVoice>, v: InternalVoice)
    requires SortedByPriority(t)
    ensures SortedByPriority(InsertByPriority(t, v))
    ensures forall i :: 0 <= i < |InsertByPriority(t, v)| ==>
      InsertByPriority(t, v)[i] == v || (exists j :: 0 <= j < |t| && InsertByPriority(t, v)[i] == t[j])
    decreases |t|
  {
    if t == [] || t[0].priority < v.priority {
    } else {
      InsertKeepsSorted(t[1..], v);
      var rest := InsertByPriority(t[1..], v);
      var r := [t[0]] + rest;
      forall i | 0 <= i < |rest|
        ensures rest[i].priority <= t[0].priority
      {
        if rest[i] != v {
          var j :| 0 <= j < |t[1..]| && rest[i] == t[1..][j];
          assert rest[i] == t[j + 1];
        }
      }
      forall i | 0 <= i < |r|
        ensures r[i] == v || (exists j :: 0 <= j < |t| && r[i] == t[j])
      {
        if i == 0 {
          assert r[0] == t[0];
        } else if r[i] != v {
          var j :| 0 <= j < |t[1..]| && rest[i - 1] == t[1..][j];
          assert r[i] == t[j + 1];
        }
      }
    }
  }

  lemma {:induction false} SortIsSorted(s: seq<InternalVoice>)
    ensures SortedByPriority(SortByPriority(s))
    ensures multiset(SortByPriority(s)) == multiset(s)
  {
    if s != [] {
      SortIsSorted(s[..|s| - 1]);
      InsertKeepsSorted(SortByPriority(s[..|s| - 1]), s[|s| - 1]);
      InsertIsPermutation(SortByPriority(s[..|s| - 1]), s[|s| - 1]);
      assert s == s[..|s| - 1] + [s[|s| - 1]];
    }
  }

  /** The voices of priority exactly `p`, in order. */
  function WithPriority(s: seq<InternalVoice>, p: int): seq<InternalVoice> {
    if s == [] then [] else (if s[0].priority == p then [s[0]] else []) + WithPriority(s[1..], p)
  }

  lemma {:induction false} WithPriorityAppend(a: seq<InternalVoice>, b: seq<InternalVoice>, p: int)
    ensures WithPriority(a + b, p) == WithPriority(a, p) + WithPriority(b, p)
    decreases |a|
  {
    if a == [] {
      assert a + b == b;
    } else {
      WithPriorityAppend(a[1..], b, p);
      assert (a + b)[1..] == a[1..] + b;
      assert (a + b)[0] == a[0];
      var head := if a[0].priority == p then [a[0]] else [];
      assert WithPriority(a + b, p) == head + WithPriority(a[1..] + b, p);
      assert WithPriority(a, p) == head + WithPriority(a[1..], p);
    }
  }

  lemma {:induction false} WithPriorityNone(s: seq<InternalVoice>, p: int)
    requires forall i :: 0 <= i < |s| ==> s[i].priority < p
    ensures WithPriority(s, p) == []
    decreases |s|
  {
    if s != [] {
      WithPriorityNone(s[1..], p);
    }
  }

  lemma WithPrioritySingle(v: InternalVoice, p: int)
    ensures WithPriority([v], p) == if v.priority == p then [v] else []
  {
    assert [v][1..] == [];
  }

  lemma {:induction false} InsertIsStable(t: seq<InternalVoice>, v: InternalVoice, p: int)
    requires SortedByPriority(t)
    ensures WithPriority(InsertByPriority(t, v), p) == WithPriority(t, p) + WithPriority([v], p)
    decreases |t|
  {
    WithPrioritySingle(v, p);
    if t == [] {
      assert InsertByPriority(t, v) == [v];
    } else if t[0].priority < v.priority {
      var r := [v] + t;
      assert InsertByPriority(t, v) == r;
      assert r[0] == v && r[1..] == t;
      assert WithPriority(r, p) == WithPriority([v], p) + WithPriority(t, p);
      if v.priority == p {
        assert forall i :: 0 <= i < |t| ==> t[i].priority <= t[0].priority;
        WithPriorityNone(t, p);
      }
    } else {
      var rest := t[1..];
      assert SortedByPriority(rest) by {
        forall i, j | 0 <= i < j < |rest|
          ensures rest[i].priority >= rest[j].priority
        {
          assert rest[i] == t[i + 1] && rest[j] == t[j + 1];
        }
      }
      InsertIsStable(rest, v, p);
      var ins := InsertByPriority(rest, v);
      var r := [t[0]] + ins;
      assert InsertByPriority(t, v) == r;
      assert r[0] == t[0] && r[1..] == ins;
      var head := if t[0].priority == p then [t[0]] else [];
      assert WithPriority(r, p) == head + WithPriority(ins, p);
      assert WithPriority(t, p) == head + WithPriority(rest, p);
    }
  }

  /** Stability: among voices of one priority the sort keeps the order they
      were raised in. */
  lemma {:induction false} SortIsStable(s: seq<InternalVoice>, p: int)
    ensures WithPriority(SortByPriority(s), p) == WithPriority(s, p)
  {
    if s != [] {
      var init, last := s[..|s| - 1], s[|s| - 1];
      SortIsStable(init, p);
      SortIsSorted(init);
      InsertIsStable(SortByPriority(init), last, p);
      assert s == init + [last];
      WithPriorityAppend(init, [last], p);
    }
  }

  /** `slice(0, maxVoices)`: a negative end counts back from the end. */
  function Take(s: seq<InternalVoice>, maxVoices: int): (r: seq<InternalVoice>)
    ensures |r| <= |s| && r == s[..|r|]
    ensures maxVoices >= 0 ==> |r| == Min(maxVoices, |s|)
    ensures maxVoices < 0 ==> |r| == Max(0, |s| + maxVoices)
  {
    if maxVoices >= 0 then s[..Min(maxVoices, |s|)] else s[..Max(0, |s| + maxVoices)]
  }

  /** The candidates `getContextualVoices` collects before sorting. */
  function Candidates(context: VoiceContext): seq<InternalVoice> {
    (if context.vitals.Some? then CheckVitalsForDanger(context.vitals.value, context.playerSkills) else [])
    + GetSituationVoices(context)
    + (if context.playerEnergy < 30 || context.playerStress > 70
       then GetWellbeingVoices(context.playerEnergy, context.playerStress) else [])
  }

  /** `getContextualVoices(context, maxVoices)` (the source's default is 3). */
  function GetContextualVoices(context: VoiceContext, maxVoices: int): seq<InternalVoice> {
    Take(SortByPriority(Candidates(context)), maxVoices)
  }

  lemma SortedSplit(sorted: seq<InternalVoice>, n: int)
    requires SortedByPriority(sorted) && 0 <= n <= |sorted|
    ensures SortedByPriority(sorted[..n])
    ensures forall i, j :: 0 <= i < n && 0 <= j < |sorted| - n ==> sorted[..n][i].priority >= sorted[n..][j].priority
  {
    forall i, j | 0 <= i < n && 0 <= j < |sorted| - n
      ensures sorted[..n][i].priority >= sorted[n..][j].priority
    {
      assert sorted[..n][i] == sorted[i] && sorted[n..][j] == sorted[n + j];
    }
  }

  lemma LeftOutIsInSuffix(sorted: seq<InternalVoice>, n: int, w: InternalVoice)
    requires 0 <= n <= |sorted|
    requires w in multiset(sorted) - multiset(sorted[..n])
    ensures exists j :: n <= j < |sorted| && sorted[j] == w
  {
    var r, rest := sorted[..n], sorted[n..];
    assert sorted == r + rest;
    assert multiset(sorted) == multiset(r) + multiset(rest);
    assert w in multiset(rest);
    var k :| 0 <= k < |rest| && rest[k] == w;
    assert sorted[n + k] == w;
  }

  /** A prefix of the sorted candidates is sorted, and no candidate after the
      cut outranks one before it. */
  lemma TakeSortedIsTop(c: seq<InternalVoice>, maxVoices: int)
    ensures var sorted := SortByPriority(c);
      var r := Take(sorted, maxVoices);
      multiset(sorted) == multiset(c)
      && SortedByPriority(r) && r == sorted[..|r|]
      && (maxVoices >= 0 ==> |r| == Min(maxVoices, |c|))
      && (forall i, j :: 0 <= i < |r| && |r| <= j < |sorted| ==> r[i].priority >= sorted[j].priority)
  {
    var sorted := SortByPriority(c);
    SortIsSorted(c);
    var r := Take(sorted, maxVoices);
    forall i, j | 0 <= i < |r| && |r| <= j < |sorted|
      ensures r[i].priority >= sorted[j].priority
    {
      assert r[i] == sorted[i];
    }
  }

  /** The selection is sorted, holds the first `maxVoices` of the candidates in
      sorted order, and no candidate left out outranks one chosen. */
  lemma ContextualVoicesAreTopPriority(context: VoiceContext, maxVoices: int)
    ensures var c := Candidates(context);
      var sorted := SortByPriority(c);
      var r := GetContextualVoices(context, maxVoices);
      multiset(sorted) == multiset(c)
      && SortedByPriority(r) && r == sorted[..|r|]
      && (maxVoices >= 0 ==> |r| == Min(maxVoices, |c|))
      && (forall i, j :: 0 <= i < |r| && |r| <= j < |sorted| ==> r[i].priority >= sorted[j].priority)
  {
    TakeSortedIsTop(Candidates(context), maxVoices);
  }

  /** Inserting a voice that no leader outranks less leaves the leaders in front. */
  lemma {:induction false} InsertAfterLeaders(lead: seq<InternalVoice>, rest: seq<InternalVoice>, v: InternalVoice)
    requires forall i :: 0 <= i < |lead| ==> v.priority <= lead[i].priority
    ensures InsertByPriority(lead + rest, v) == lead + InsertByPriority(rest, v)
    decreases |lead|
  {
    if lead != [] {
      var t := lead + rest;
      assert t[0] == lead[0] && t != [];
      assert !(t[0].priority < v.priority);
      assert t[1..] == lead[1..] + rest;
      assert InsertByPriority(t, v) == [t[0]] + InsertByPriority(t[1..], v);
      assert forall i :: 0 <= i < |lead[1..]| ==> v.priority <= lead[1..][i].priority by {
        forall i | 0 <= i < |lead[1..]|
          ensures v.priority <= lead[1..][i].priority
        {
          assert lead[1..][i] == lead[i + 1];
        }
      }
      InsertAfterLeaders(lead[1..], rest, v);
      assert lead + InsertByPriority(rest, v) == [lead[0]] + (lead[1..] + InsertByPriority(rest, v));
    } else {
      assert lead + rest == rest;
    }
  }

  /** Voices raised after a sorted group of leaders, none outranking any of
      them, sort in behind the leaders. */
  lemma {:induction false} SortKeepsLeaders(lead: seq<InternalVoice>, w: seq<InternalVoice>)
    requires SortByPriority(lead) == lead
    requires forall i, j :: 0 <= i < |lead| && 0 <= j < |w| ==> w[j].priority <= lead[i].priority
    ensures |SortByPriority(lead + w)| >= |lead|
    ensures SortByPriority(lead + w)[..|lead|] == lead
    decreases |w|
  {
    if w == [] {
      assert lead + w == lead;
    } else {
      var init, last := w[..|w| - 1], w[|w| - 1];
      SortKeepsLeaders(lead, init);
      assert (lead + w)[..|lead + w| - 1] == lead + init;
      assert (lead + w)[|lead + w| - 1] == last;
      var sortedInit := SortByPriority(lead + init);
      var tail := sortedInit[|lead|..];
      assert sortedInit == lead + tail;
      InsertAfterLeaders(lead, tail, last);
    }
  }

  lemma EmergencyCandidates(context: VoiceContext)
    requires context.situation == Emergency && context.vitals.None?
    ensures var c := Candidates(context);
      |c| >= 2 && c[..2] == GetSituationVoices(context)
      && c[0] == CreateVoice(Composure, BreatheLine, 9)
      && c[1] == CreateVoice(Drive, MoveLine, 8)
      && forall j :: 2 <= j < |c| ==> c[j].priority <= 5
  {
    var s := GetSituationVoices(context);
    var w := if context.playerEnergy < 30 || context.playerStress > 70
             then GetWellbeingVoices(context.playerEnergy, context.playerStress) else [];
    WellbeingVoicesExact(context.playerEnergy, context.playerStress);
    assert Candidates(context) == [] + s + w;
    LeadersThenLow(s, w);
  }

  /** Two leaders followed by voices of priority at most 5. */
  lemma LeadersThenLow(s: seq<InternalVoice>, w: seq<InternalVoice>)
    requires s == [CreateVoice(Composure, BreatheLine, 9), CreateVoice(Drive, MoveLine, 8)]
    requires forall i :: 0 <= i < |w| ==> w[i].priority <= 5
    ensures var c := [] + s + w;
      |c| >= 2 && c[..2] == s && c[0] == s[0] && c[1] == s[1]
      && forall j :: 2 <= j < |c| ==> c[j].priority <= 5
  {
    var c := [] + s + w;
    assert c == s + w;
    assert c[..2] == s;
    forall j | 2 <= j < |c|
      ensures c[j].priority <= 5
    {
      assert c[j] == w[j - 2];
    }
  }

  /** With no vitals to read, an emergency always leads with Composure then
      Drive: no situation or wellbeing voice outranks them. */
  lemma EmergencyLeadsWithComposure(context: VoiceContext, maxVoices: int)
    requires context.situation == Emergency && context.vitals.None?
    requires maxVoices >= 2
    ensures var r := GetContextualVoices(context, maxVoices);
      |r| >= 2 && r[0] == CreateVoice(Composure, BreatheLine, 9)
      && r[1] == CreateVoice(Drive, MoveLine, 8)
  {
    EmergencyCandidates(context);
    var c := Candidates(context);
    var lead, w := c[..2], c[2..];
    assert c == lead + w;
    assert SortByPriority(lead) == lead by {
      assert lead[..|lead| - 1] == [lead[0]] && [lead[0]][..0] == [];
      assert SortByPriority([lead[0]]) == InsertByPriority([], lead[0]) == [lead[0]];
      assert InsertByPriority([lead[0]], lead[1]) == [lead[0]] + InsertByPriority([lead[0]][1..], lead[1]);
      assert [lead[0]][1..] == [];
      assert lead == [lead[0]] + [lead[1]];
    }
    assert forall j :: 0 <= j < |w| ==> w[j] == c[j + 2];
    SortKeepsLeaders(lead, w);
  }
}
