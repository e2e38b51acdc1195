/** The game-state hooks (hooks/useGameState.ts): what the views derive from
    the store. That is whether a shift is running, the player's figures with
    their defaults when there is no player, the lesson bonuses per skill, and
    the shift clock as `h:mm` and as a percentage of the shift. The React
    memoisation and the store subscription are not modelled: each hook
    value is a function of the store's state. */
module UseGameState {
  import opened Common
  import opened Skills
  import GameStore

  // ------------------------------------------------------------------
  // useGameState
  // ------------------------------------------------------------------

  /** `isInShift`. */
  predicate IsInShift(st: GameStore.Snapshot) {
    st.currentPhase != GameStore.MainMenu && st.currentPhase != GameStore.CharacterCreation
    && st.currentShiftNumber > 0
  }

  /** A fresh store is not in a shift; once `startShift` has run, the store is
      in a shift (the phase is SHIFT_START and the shift number is at least 1). */
  lemma ShiftBoundaries(st: GameStore.Snapshot)
    requires GameStore.ValidState(st)
    ensures !IsInShift(GameStore.InitialSnapshot)
    ensures IsInShift(st.(currentShiftNumber := st.currentShiftNumber + 1, currentPhase := GameStore.ShiftStart))
  {
  }

  // ------------------------------------------------------------------
  // usePlayer
  // ------------------------------------------------------------------

  /** What `usePlayer` hands to the views. */
  datatype PlayerView = PlayerView(
    skills: PlayerSkills, lessons: seq<GameStore.Lesson>, energy: int, stress: int, xp: int,
    background: Option<GameStore.Background>)

  /** Every skill at 0: the record `safeSkills` falls back on. */
  const ZeroSkills: PlayerSkills := map s | s in AllSkills :: 0

  /** `usePlayer`'s figures: the player's own, or, with no player, every skill
      at 0, no lessons, energy 100, stress 0, no XP and no background. */
  function UsePlayer(player: Option<GameStore.Player>): (v: PlayerView)
    ensures player.None? ==>
      && (forall s: SkillId :: s in v.skills && v.skills[s] == 0)
      && v.lessons == [] && v.energy == 100 && v.stress == 0 && v.xp == 0 && v.background.None?
    ensures player.Some? ==>
      && v.skills == player.value.skills && v.lessons == player.value.lessons
      && v.energy == player.value.energy && v.stress == player.value.stress
      && v.xp == player.value.totalXP && v.background == Some(player.value.background)
  {
    if player.Some? then
      var p := player.value;
      PlayerView(p.skills, p.lessons, p.energy, p.stress, p.totalXP, Some(p.background))
    else
      assert forall s: SkillId :: s in AllSkills by {
        forall s: SkillId ensures s in AllSkills { GameStore.AllSkillsListed(s); }
      }
      PlayerView(ZeroSkills, [], 100, 0, 0, None)
  }

  /** `getSkillLevel`: `player?.skills[skillId] ?? 0`. */
  function SkillLevel(player: Option<GameStore.Player>, s: SkillId): int {
    if player.None? then 0 else Level(player.value.skills, s)
  }

  /** `hasLesson`: some lesson of the player has the id; never without a
      player. */
  function HasLesson(player: Option<GameStore.Player>, lessonId: string): (b: bool)
    ensures b <==> player.Some? && exists i :: 0 <= i < |player.value.lessons| && player.value.lessons[i].id == lessonId
  {
    player.Some? && HasLessonIn(player.value.lessons, lessonId)
  }

  function HasLessonIn(lessons: seq<GameStore.Lesson>, lessonId: string): (b: bool)
    ensures b <==> exists i :: 0 <= i < |lessons| && lessons[i].id == lessonId
  {
    if lessons == [] then false
    else
      var n := |lessons| - 1;
      assert forall i :: 0 <= i < n ==> lessons[..n][i] == lessons[i];
      HasLessonIn(lessons[..n], lessonId) || lessons[n].id == lessonId
  }

  /** The view agrees with `getSkillLevel` on every skill, and on a valid
      store its figures lie inside the store's clamps. */
  lemma {:induction false} ViewWithinClamps(st: GameStore.Snapshot)
    requires GameStore.ValidState(st)
    ensures var v := UsePlayer(st.player);
      && 0 <= v.energy <= 100 && 0 <= v.stress <= 100
      && forall s: SkillId :: s in v.skills && -2 <= v.skills[s] <= 7 && v.skills[s] == SkillLevel(st.player, s)
  {
    var v := UsePlayer(st.player);
    if st.player.Some? {
      assert GameStore.ValidPlayer(st.player.value, st.currentShiftNumber);
    }
  }

  // ------------------------------------------------------------------
  // useSkillCheck
  // ------------------------------------------------------------------

  /** The skills that some SKILL_BONUS effect in the list targets. */
  function EffectTargets(effects: seq<GameStore.LessonEffect>): set<string> {
    if effects == [] then {}
    else
      var e := effects[|effects| - 1];
      EffectTargets(effects[..|effects| - 1]) + (if e.kind == GameStore.SkillBonus then {e.target} else {})
  }

  /** The skills that some lesson's SKILL_BONUS effect targets. */
  function LessonTargets(lessons: seq<GameStore.Lesson>): set<string> {
    if lessons == [] then {}
    else LessonTargets(lessons[..|lessons| - 1]) + EffectTargets(lessons[|lessons| - 1].effects)
  }

  lemma {:induction false} EffectBonusOffTarget(effects: seq<GameStore.LessonEffect>, k: string)
    requires k !in EffectTargets(effects)
    ensures GameStore.EffectBonus(effects, k) == 0
    decreases |effects|
  {
    if effects != [] {
      EffectBonusOffTarget(effects[..|effects| - 1], k);
    }
  }

  /** A skill no lesson targets gets no bonus, so leaving it out of the
      bonus record (`bonuses[skillId] ?? 0` reads 0) loses nothing. */
  lemma {:induction false} NoBonusOffTarget(lessons: seq<GameStore.Lesson>, k: string)
    requires k !in LessonTargets(lessons)
    ensures GameStore.LessonBonus(lessons, k) == 0
    decreases |lessons|
  {
    if lessons != [] {
      NoBonusOffTarget(lessons[..|lessons| - 1], k);
      EffectBonusOffTarget(lessons[|lessons| - 1].effects, k);
    }
  }

  /** `getLessonBonuses`: for each lesson and each of its effects, a
      SKILL_BONUS adds its value to its target's entry. The record holds an
      entry exactly for the targeted skills, each the sum of the SKILL_BONUS
      values aimed at it, which is what `getSkillModifier` adds on top of the
      skill's level. */
  method GetLessonBonuses(player: Option<GameStore.Player>) returns (bonuses: map<string, int>)
    ensures player.None? ==> bonuses == map[]
    ensures player.Some? ==> bonuses.Keys == LessonTargets(player.value.lessons)
    ensures player.Some? ==>
      forall k :: k in bonuses ==> bonuses[k] == GameStore.LessonBonus(player.value.lessons, k)
    ensures player.Some? ==> forall s: SkillId ::
      GameStore.SkillModifier(player, s) == Level(player.value.skills, s) + LookupOr0(bonuses, SkillKey(s))
  {
    bonuses := map[];
    if player.None? {
      return;
    }
    var lessons := player.value.lessons;
    for i := 0 to |lessons|
      invariant bonuses.Keys == LessonTargets(lessons[..i])
      invariant forall k :: LookupOr0(bonuses, k) == GameStore.LessonBonus(lessons[..i], k)
    {
      assert lessons[..i + 1][..i] == lessons[..i];
      var effects := lessons[i].effects;
      for j := 0 to |effects|
        invariant bonuses.Keys == LessonTargets(lessons[..i]) + EffectTargets(effects[..j])
        invariant forall k ::
          LookupOr0(bonuses, k) == GameStore.LessonBonus(lessons[..i], k) + GameStore.EffectBonus(effects[..j], k)
      {
        assert effects[..j + 1][..j] == effects[..j];
        var effect := effects[j];
        if effect.kind == GameStore.SkillBonus {
          var skillId := effect.target;
          bonuses := bonuses[skillId := LookupOr0(bonuses, skillId) + effect.value];
        }
      }
      assert effects[..|effects|] == effects;
    }
    assert lessons[..|lessons|] == lessons;
  }

  // ------------------------------------------------------------------
  // useShift
  // ------------------------------------------------------------------

  /** JavaScript's `a % 60`: the remainder takes the sign of the dividend. */
  function JsRem60(a: int): (r: int)
    ensures a >= 0 ==> r == a % 60
    ensures a < 0 ==> -60 < r <= 0 && (a - r) % 60 == 0
  {
    if a >= 0 then a % 60 else -((-a) % 60)
  }

  /** `padStart(2, '0')`. */
  function PadStart2(s: string): (r: string)
    ensures |s| >= 2 ==> r == s
    ensures |s| < 2 ==> |r| == 2 && r[2 - |s|..] == s && forall i :: 0 <= i < 2 - |s| ==> r[i] == '0'
  {
    if |s| >= 2 then s else if |s| == 1 then "0" + s else "00"
  }

  /** `timeDisplay`: `Math.floor(t / 60)`, a colon, and `t % 60` padded to two
      digits. */
  function TimeDisplay(timeRemaining: int): string {
    var hours := timeRemaining / 60;
    var minutes := JsRem60(timeRemaining);
    IntToString(hours) + ":" + PadStart2(IntToString(minutes))
  }

  /** The minutes of a clock, written with two digits. */
  lemma TwoDigits(m: nat)
    requires m < 60
    ensures var mm := PadStart2(NatToString(m));
      |mm| == 2 && AllDigits(mm) && DigitsValue(mm) == m
  {
    var s := NatToString(m);
    NatToStringRoundTrip(m);
    if m >= 10 {
      assert NatToString(m / 10) == [DigitChar(m / 10)];
    } else {
      var mm := PadStart2(s);
      assert mm == ['0', DigitChar(m)];
      assert mm[..1] == "0";
    }
  }

  /** Reading a clock of the shift back: hours, a colon, two digits of
      minutes under 60, and together they make the minutes left. */
  lemma TimeDisplayReadsBack(timeRemaining: nat)
    ensures var r := TimeDisplay(timeRemaining); var k := |r| - 3;
      && |r| >= 4 && r[k] == ':' && AllDigits(r[..k]) && AllDigits(r[k + 1..])
      && DigitsValue(r[k + 1..]) < 60
      && DigitsValue(r[..k]) * 60 + DigitsValue(r[k + 1..]) == timeRemaining
  {
    var h := NatToString(timeRemaining / 60);
    var mm := PadStart2(NatToString(timeRemaining % 60));
    TwoDigits(timeRemaining % 60);
    NatToStringRoundTrip(timeRemaining / 60);
    var r := TimeDisplay(timeRemaining);
    assert r == h + ":" + mm;
    assert r[..|h|] == h;
    assert r[|h| + 1..] == mm;
  }

  /** A negative clock keeps JavaScript's signs: -5 minutes reads "-1:-5". */
  lemma NegativeClock()
    ensures TimeDisplay(-5) == "-1:-5"
  {
    assert JsRem60(-5) == -5;
    assert -5 / 60 == -1;
  }

  /** `shiftProgress`: the share of the 480-minute shift used up, in percent. */
  function ShiftProgress(timeRemaining: int): (p: real)
    ensures 0 <= timeRemaining <= GameStore.ShiftMinutes ==> 0.0 <= p <= 100.0
    ensures timeRemaining == GameStore.ShiftMinutes ==> p == 0.0
    ensures timeRemaining == 0 ==> p == 100.0
  {
    (480 - timeRemaining) as real / 480.0 * 100.0
  }

  /** Each minute that passes moves the bar on by 100/480 percent, so the
      bar only fills as the clock runs down. */
  lemma ProgressAdvances(timeRemaining: int, minutes: int)
    ensures ShiftProgress(timeRemaining - minutes) == ShiftProgress(timeRemaining) + minutes as real * 100.0 / 480.0
    ensures minutes >= 0 ==> ShiftProgress(timeRemaining) <= ShiftProgress(timeRemaining - minutes)
  {
  }
}
