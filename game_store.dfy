/** The central game store (store/gameStore.ts): one record holding the game
    phase, the player, the shift clock, the case queue, the diagnostic board
    and the NPC relationships, changed in place by the store's actions.

    The store is the class `Store`; `State()` gives its fields as one value, so
    every action states its whole new state as an update of the old one. The
    board, the case queue and the relationships are also given as pure
    functions on values, and the rules the store promises are lemmas about
    those. Fresh ids (`uuid()`) and timestamps (`Date.now()`) are parameters. */
module GameStore {
  import opened Common
  import opened Skills
  import Medical

  datatype GamePhase =
    | MainMenu | CharacterCreation | IntroSequence | Orientation | ShiftStart
    | Gameplay | PatientEncounter | Dialogue | SkillCheck | Board | ShiftEnd
    | Debrief | DemoEnd | CpcExam | GameOver

  datatype Background = Emt | Research | LateBloomer | Legacy

  datatype PersonalityAxes = PersonalityAxes(confidence: int, approach: int, outlook: int)

  datatype LessonEffectType = SkillBonus | UnlockDialogue | UnlockAction | PassiveHint

  /** A lesson effect; `value` is the number a SKILL_BONUS adds. */
  datatype LessonEffect = LessonEffect(kind: LessonEffectType, target: string, value: int)

  /** A lesson as the caller describes it, before the store gives it an id. */
  datatype LessonDetails = LessonDetails(
    name: string, description: string, unlockedFrom: string, effects: seq<LessonEffect>)

  datatype Lesson = Lesson(
    id: string, name: string, description: string, unlockedFrom: string, effects: seq<LessonEffect>)

  datatype Player = Player(
    id: string, name: string, background: Background, personality: PersonalityAxes,
    skills: PlayerSkills, lessons: seq<Lesson>, energy: int, stress: int,
    currentShift: int, totalXP: int, unlockedMilestones: seq<string>)

  datatype BoardEntryType =
    | SymptomEntry | FindingEntry | DifferentialEntry | TestResultEntry | LessonEntry | NoteEntry

  datatype BoardEntry = BoardEntry(
    id: string, kind: BoardEntryType, content: string, description: Option<string>,
    pinned: bool, linkedTo: seq<string>, source: string, createdAt: int)

  /** A board entry as the caller describes it, before it gets an id and a time. */
  datatype NewBoardEntry = NewBoardEntry(
    kind: BoardEntryType, content: string, description: Option<string>,
    pinned: bool, linkedTo: seq<string>, source: string)

  datatype RelationshipEvent = RelationshipEvent(
    shiftNumber: int, description: string, professionalDelta: int, personalDelta: int, timestamp: int)

  datatype Relationship = Relationship(
    npcId: string, professional: int, personal: int, storyProgress: int,
    flags: map<string, bool>, history: seq<RelationshipEvent>)

  datatype RelationshipChange = RelationshipChange(
    npcId: string, professionalDelta: int, personalDelta: int, reason: string)

  /** All the fields of the store, as one value. */
  datatype Snapshot = Snapshot(
    currentPhase: GamePhase, previousPhase: Option<GamePhase>, player: Option<Player>,
    currentShiftNumber: int, shiftTimeRemaining: int,
    activeCases: seq<Medical.PatientCase>, completedCases: seq<Medical.PatientCase>,
    boardEntries: seq<BoardEntry>, maxBoardSlots: int,
    relationships: map<string, Relationship>, highScore: int)

  /** Length of a shift, in minutes. */
  const ShiftMinutes := 480

  const InitialSnapshot :=
    Snapshot(MainMenu, None, None, 0, ShiftMinutes, [], [], [], 4, map[], 0)

  // ------------------------------------------------------------------
  // Invariant of the store
  // ------------------------------------------------------------------

  ghost predicate ValidPlayer(p: Player, shiftNumber: int) {
    (forall s: SkillId :: s in p.skills && -2 <= p.skills[s] <= 7)
    && 0 <= p.energy <= 100 && 0 <= p.stress <= 100
    && 0 <= p.currentShift <= shiftNumber
  }

  ghost predicate ValidRelationship(key: string, r: Relationship) {
    r.npcId == key && -3 <= r.professional <= 3 && 0 <= r.personal <= 4
  }

  /** What every action keeps: every stat inside its clamp, a full skill
      record, the clock and counters non-negative and four board slots. */
  ghost predicate ValidState(st: Snapshot) {
    (st.player.Some? ==> ValidPlayer(st.player.value, st.currentShiftNumber))
    && st.currentShiftNumber >= 0 && st.shiftTimeRemaining >= 0
    && st.maxBoardSlots == 4 && st.highScore >= 0
    && forall k :: k in st.relationships ==> ValidRelationship(k, st.relationships[k])
  }

  // ------------------------------------------------------------------
  // Initial skills
  // ------------------------------------------------------------------

  /** The background bonuses of types/character.ts, in their listed order. */
  function BonusEntries(b: Background): seq<(SkillId, int)> {
    match b
    case Emt =>
      [(Triage, 2), (Composure, 2), (PhysicalExam, 1), (Procedure, 1),
       (Teamwork, 1), (Instinct, 1), (Drive, 1)]
    case Research =>
      [(Differential, 2), (Pathophysiology, 2), (Pharmacology, 1),
       (Interpretation, 1), (Memory, 2), (Doubt, 1)]
    case LateBloomer =>
      [(Bedside, 2), (Empathy, 2), (Communication, 1), (History, 1),
       (Teamwork, 1), (Instinct, 1), (Humanity, 2), (Advocacy, 1)]
    case Legacy =>
      [(Hierarchy, 2), (Procedure, 1), (Pharmacology, 1), (Composure, 1),
       (Doubt, 1), (Drive, 1), (Memory, 1)]
  }

  /** Sum of the bonuses that a list of entries gives one skill. */
  function BonusFor(entries: seq<(SkillId, int)>, s: SkillId): int {
    if entries == [] then 0
    else
      var last := entries[|entries| - 1];
      BonusFor(entries[..|entries| - 1], s) + (if last.0 == s then last.1 else 0)
  }

  /** The level a new player starts with in a skill. */
  function InitialLevel(background: Option<Background>, s: SkillId): int {
    if background.None? then 0 else BonusFor(BonusEntries(background.value), s)
  }

  lemma AllSkillsListed(s: SkillId)
    ensures s in AllSkills
  {
    match s
    case Triage => case Differential => case Pathophysiology => case History =>
    case PhysicalExam => case Procedure => case Pharmacology => case Interpretation =>
    case Bedside => case Empathy => case Communication => case Hierarchy =>
    case Teamwork => case Advocacy => case Composure => case Instinct =>
    case Doubt => case Drive => case Memory => case Humanity =>
  }

  /** `createInitialSkills`: every skill at 0, then the background's bonuses
      added one entry at a time. */
  method CreateInitialSkills(background: Option<Background>) returns (skills: PlayerSkills)
    ensures forall s: SkillId :: s in skills && skills[s] == InitialLevel(background, s)
  {
    skills := map s | s in AllSkills :: 0;
    forall s: SkillId ensures s in skills { AllSkillsListed(s); }
    if background.Some? {
      var bonuses := BonusEntries(background.value);
      for k := 0 to |bonuses|
        invariant forall s: SkillId :: s in skills && skills[s] == BonusFor(bonuses[..k], s)
      {
        assert bonuses[..k + 1][..k] == bonuses[..k];
        var (id, bonus) := bonuses[k];
        skills := skills[id := skills[id] + bonus];
      }
      assert bonuses[..|bonuses|] == bonuses;
    }
  }

  predicate DistinctKeys(entries: seq<(SkillId, int)>) {
    forall i, j :: 0 <= i < j < |entries| ==> entries[i].0 != entries[j].0
  }

  lemma {:induction false} BonusForAbsent(entries: seq<(SkillId, int)>, s: SkillId)
    requires forall i :: 0 <= i < |entries| ==> entries[i].0 != s
    ensures BonusFor(entries, s) == 0
    decreases |entries|
  {
    if entries != [] {
      BonusForAbsent(entries[..|entries| - 1], s);
    }
  }

  lemma {:induction false} BonusForBounded(entries: seq<(SkillId, int)>, s: SkillId)
    requires DistinctKeys(entries)
    requires forall i :: 0 <= i < |entries| ==> 0 <= entries[i].1 <= 2
    ensures 0 <= BonusFor(entries, s) <= 2
    decreases |entries|
  {
    if entries != [] {
      var n := |entries| - 1;
      if entries[n].0 == s {
        BonusForAbsent(entries[..n], s);
      } else {
        BonusForBounded(entries[..n], s);
      }
    }
  }

  /** Every background lists each skill at most once and gives it 1 or 2, so a
      new player starts every skill between 0 and 2. */
  lemma {:induction false} InitialLevelBounds(background: Option<Background>, s: SkillId)
    ensures 0 <= InitialLevel(background, s) <= 2
  {
    if background.Some? {
      BonusEntriesWellFormed(background.value);
      BonusForBounded(BonusEntries(background.value), s);
    }
  }

  lemma BonusEntriesWellFormed(b: Background)
    ensures DistinctKeys(BonusEntries(b))
    ensures forall i :: 0 <= i < |BonusEntries(b)| ==> 0 <= BonusEntries(b)[i].1 <= 2
  {
    match b
    case Emt =>
    case Research =>
    case LateBloomer =>
    case Legacy =>
  }

  // ------------------------------------------------------------------
  // Lesson bonuses (getSkillModifier)
  // ------------------------------------------------------------------

  /** Sum of the SKILL_BONUS values among `effects` that target `target`. */
  function EffectBonus(effects: seq<LessonEffect>, target: string): int {
    if effects == [] then 0
    else
      var e := effects[|effects| - 1];
      EffectBonus(effects[..|effects| - 1], target) + (if e.kind == SkillBonus && e.target == target then e.value else 0)
  }

  /** Sum over the lessons of their bonuses to `target`. */
  function LessonBonus(lessons: seq<Lesson>, target: string): int {
    if lessons == [] then 0
    else LessonBonus(lessons[..|lessons| - 1], target) + EffectBonus(lessons[|lessons| - 1].effects, target)
  }

  /** What `getSkillModifier` returns: the skill (0 without a player) plus the
      lesson bonuses that target it. */
  function SkillModifier(player: Option<Player>, s: SkillId): int {
    if player.None? then 0
    else Level(player.value.skills, s) + LessonBonus(player.value.lessons, SkillKey(s))
  }

  lemma {:induction false} LessonBonusAppend(a: seq<Lesson>, b: seq<Lesson>, target: string)
    ensures LessonBonus(a + b, target) == LessonBonus(a, target) + LessonBonus(b, target)
    decreases |b|
  {
    if b == [] {
      assert a + b == a;
    } else {
      LessonBonusAppend(a, b[..|b| - 1], target);
      assert (a + b)[..|a + b| - 1] == a + b[..|b| - 1];
    }
  }

  /** Learning a lesson raises a skill's modifier by exactly that lesson's
      SKILL_BONUS effects on the skill, and leaves it alone when it has none. */
  lemma {:induction false} AddLessonRaisesModifier(p: Player, lesson: Lesson, s: SkillId)
    ensures SkillModifier(Some(p.(lessons := p.lessons + [lesson])), s)
      == SkillModifier(Some(p), s) + EffectBonus(lesson.effects, SkillKey(s))
  {
    LessonBonusAppend(p.lessons, [lesson], SkillKey(s));
    assert [lesson][..0] == [];
  }

  lemma {:induction false} EffectBonusNone(effects: seq<LessonEffect>, target: string)
    requires forall i :: 0 <= i < |effects| ==> effects[i].kind != SkillBonus || effects[i].target != target
    ensures EffectBonus(effects, target) == 0
    decreases |effects|
  {
    if effects != [] {
      EffectBonusNone(effects[..|effects| - 1], target);
    }
  }

  // ------------------------------------------------------------------
  // The board
  // ------------------------------------------------------------------

  /** `findIndex(e => e.id === id)`: the first entry with the id, or -1. */
  function FindEntry(entries: seq<BoardEntry>, id: string): (i: int)
    ensures -1 <= i < |entries|
    ensures i >= 0 ==> entries[i].id == id && forall j :: 0 <= j < i ==> entries[j].id != id
    ensures i == -1 <==> forall j :: 0 <= j < |entries| ==> entries[j].id != id
    decreases |entries|
  {
    if entries == [] then -1
    else if entries[0].id == id then 0
    else
      var k := FindEntry(entries[1..], id);
      if k == -1 then -1 else k + 1
  }

  /** Two boards with the same ids at the same places find the same entry. */
  lemma {:induction false} FindEntrySameIds(a: seq<BoardEntry>, b: seq<BoardEntry>, id: string)
    requires |a| == |b| && forall j :: 0 <= j < |a| ==> a[j].id == b[j].id
    ensures FindEntry(a, id) == FindEntry(b, id)
  {
  }

  /** `filter(e => e.pinned)`, order kept. */
  function PinnedOnly(entries: seq<BoardEntry>): (r: seq<BoardEntry>)
    ensures |r| <= |entries|
    ensures forall j :: 0 <= j < |r| ==> r[j].pinned
  {
    if entries == [] then []
    else
      var n := |entries| - 1;
      PinnedOnly(entries[..n]) + (if entries[n].pinned then [entries[n]] else [])
  }

  /** `filter(e => !e.pinned)`, order kept. */
  function UnpinnedOnly(entries: seq<BoardEntry>): (r: seq<BoardEntry>)
    ensures |r| <= |entries|
    ensures forall j :: 0 <= j < |r| ==> !r[j].pinned
  {
    if entries == [] then []
    else
      var n := |entries| - 1;
      UnpinnedOnly(entries[..n]) + (if entries[n].pinned then [] else [entries[n]])
  }

  lemma {:induction false} PinnedCountsAddUp(entries: seq<BoardEntry>)
    ensures |PinnedOnly(entries)| + |UnpinnedOnly(entries)| == |entries|
    decreases |entries|
  {
    if entries != [] {
      PinnedCountsAddUp(entries[..|entries| - 1]);
    }
  }

  lemma {:induction false} PinnedOnlyAppend(a: seq<BoardEntry>, b: seq<BoardEntry>)
    ensures PinnedOnly(a + b) == PinnedOnly(a) + PinnedOnly(b)
    decreases |b|
  {
    if b == [] {
      assert a + b == a;
    } else {
      PinnedOnlyAppend(a, b[..|b| - 1]);
      assert (a + b)[..|a + b| - 1] == a + b[..|b| - 1];
    }
  }

  /** The pinned filter keeps exactly the pinned entries. */
  lemma {:induction false} PinnedOnlyExact(entries: seq<BoardEntry>)
    ensures forall x :: x in PinnedOnly(entries) <==> x in entries && x.pinned
    decreases |entries|
  {
    if entries != [] {
      var n := |entries| - 1;
      PinnedOnlyExact(entries[..n]);
      assert entries == entries[..n] + [entries[n]];
    }
  }

  /** On one entry the pinned filter keeps it exactly when it is pinned;
      with PinnedOnlyAppend this fixes the order of what is kept. */
  lemma PinnedOnlySingle(x: BoardEntry)
    ensures PinnedOnly([x]) == (if x.pinned then [x] else [])
  {
    assert [x][..0] == [];
  }

  /** The unpinned filter keeps exactly the unpinned entries. */
  lemma {:induction false} UnpinnedOnlyExact(entries: seq<BoardEntry>)
    ensures forall x :: x in UnpinnedOnly(entries) <==> x in entries && !x.pinned
    decreases |entries|
  {
    if entries != [] {
      var n := |entries| - 1;
      UnpinnedOnlyExact(entries[..n]);
      assert entries == entries[..n] + [entries[n]];
    }
  }

  lemma {:induction false} UnpinnedOnlyAppend(a: seq<BoardEntry>, b: seq<BoardEntry>)
    ensures UnpinnedOnly(a + b) == UnpinnedOnly(a) + UnpinnedOnly(b)
    decreases |b|
  {
    if b == [] {
      assert a + b == a;
    } else {
      UnpinnedOnlyAppend(a, b[..|b| - 1]);
      assert (a + b)[..|a + b| - 1] == a + b[..|b| - 1];
    }
  }

  lemma UnpinnedOnlySingle(x: BoardEntry)
    ensures UnpinnedOnly([x]) == (if x.pinned then [] else [x])
  {
    assert [x][..0] == [];
  }

  /** Filtering twice is filtering once: clearing an already cleared board
      changes nothing. */
  lemma {:induction false} PinnedOnlyIdempotent(entries: seq<BoardEntry>)
    ensures PinnedOnly(PinnedOnly(entries)) == PinnedOnly(entries)
    decreases |entries|
  {
    if entries != [] {
      var n := |entries| - 1;
      PinnedOnlyIdempotent(entries[..n]);
      var tail := if entries[n].pinned then [entries[n]] else [];
      PinnedOnlyAppend(PinnedOnly(entries[..n]), tail);
      assert PinnedOnly(tail) == tail by {
        if tail != [] { assert tail[..0] == []; }
      }
    }
  }

  /** `canAddBoardEntry`: fewer unpinned entries than slots. */
  function CanAdd(entries: seq<BoardEntry>, maxSlots: int): bool {
    |UnpinnedOnly(entries)| < maxSlots
  }

  /** A board entry as `addBoardEntry` stores it. */
  function Stamp(entry: NewBoardEntry, id: string, now: int): BoardEntry {
    BoardEntry(id, entry.kind, entry.content, entry.description, entry.pinned, entry.linkedTo, entry.source, now)
  }

  /** `addBoardEntry`: the guard counts unpinned plus pinned entries, that is
      every entry; a pinned entry is always accepted. */
  function AddEntry(entries: seq<BoardEntry>, entry: BoardEntry, maxSlots: int): (r: seq<BoardEntry>)
    ensures r == entries + [entry] || r == entries
    ensures r == entries + [entry] <==> |entries| < maxSlots || entry.pinned
  {
    PinnedCountsAddUp(entries);
    if |UnpinnedOnly(entries)| + |PinnedOnly(entries)| < maxSlots || entry.pinned then entries + [entry]
    else entries
  }

  /** The two guards differ: whenever `addBoardEntry` accepts an unpinned entry
      `canAddBoardEntry` said yes, but a board of pinned entries that fills the
      slots makes `canAddBoardEntry` say yes while `addBoardEntry` refuses. */
  lemma {:induction false} AddGuardVersusCanAdd(entries: seq<BoardEntry>, entry: BoardEntry, maxSlots: int)
    ensures !entry.pinned && AddEntry(entries, entry, maxSlots) == entries + [entry] ==> CanAdd(entries, maxSlots)
    ensures |entries| >= maxSlots > 0 && !entry.pinned && (forall j :: 0 <= j < |entries| ==> entries[j].pinned) ==>
      CanAdd(entries, maxSlots) && AddEntry(entries, entry, maxSlots) == entries
  {
    PinnedCountsAddUp(entries);
    if forall j :: 0 <= j < |entries| ==> entries[j].pinned {
      AllPinnedNoneUnpinned(entries);
    }
  }

  lemma {:induction false} AllPinnedNoneUnpinned(entries: seq<BoardEntry>)
    requires forall j :: 0 <= j < |entries| ==> entries[j].pinned
    ensures UnpinnedOnly(entries) == []
    decreases |entries|
  {
    if entries != [] {
      AllPinnedNoneUnpinned(entries[..|entries| - 1]);
    }
  }

  /** `removeBoardEntry`: splice out the first entry with the id, unless it is
      pinned or missing. */
  function RemoveEntry(entries: seq<BoardEntry>, id: string): (r: seq<BoardEntry>)
    ensures |entries| - 1 <= |r| <= |entries|
    ensures |r| < |entries| <==> FindEntry(entries, id) != -1 && !entries[FindEntry(entries, id)].pinned
    ensures var i := FindEntry(entries, id);
      i != -1 && !entries[i].pinned ==> |r| == |entries| - 1 && r[..i] == entries[..i] && r[i..] == entries[i + 1..]
    ensures var i := FindEntry(entries, id); i == -1 || entries[i].pinned ==> r == entries
  {
    var i := FindEntry(entries, id);
    if i != -1 && !entries[i].pinned then entries[..i] + entries[i + 1..] else entries
  }

  /** Removing never touches a pinned entry: the pinned entries, in order, are
      the same before and after. */
  lemma {:induction false} RemoveKeepsPinned(entries: seq<BoardEntry>, id: string)
    ensures PinnedOnly(RemoveEntry(entries, id)) == PinnedOnly(entries)
  {
    var i := FindEntry(entries, id);
    if i != -1 && !entries[i].pinned {
      PinnedOnlyDelete(entries, i);
    }
  }

  lemma {:induction false} PinnedOnlyDelete(entries: seq<BoardEntry>, i: int)
    requires 0 <= i < |entries| && !entries[i].pinned
    ensures PinnedOnly(entries[..i] + entries[i + 1..]) == PinnedOnly(entries)
  {
    var a, x, b := entries[..i], entries[i], entries[i + 1..];
    assert entries == (a + [x]) + b;
    assert PinnedOnly([x]) == [] by { assert [x][..0] == []; }
    calc {
      PinnedOnly(entries);
        { PinnedOnlyAppend(a + [x], b); }
      PinnedOnly(a + [x]) + PinnedOnly(b);
        { PinnedOnlyAppend(a, [x]); }
      PinnedOnly(a) + PinnedOnly([x]) + PinnedOnly(b);
      PinnedOnly(a) + PinnedOnly(b);
        { PinnedOnlyAppend(a, b); }
      PinnedOnly(a + b);
    }
  }

  function SetPinnedAt(entries: seq<BoardEntry>, i: int, pinned: bool): seq<BoardEntry>
    requires 0 <= i < |entries|
  {
    entries[i := entries[i].(pinned := pinned)]
  }

  /** `pinBoardEntry`: the first entry with the id becomes pinned. */
  function PinEntry(entries: seq<BoardEntry>, id: string): (r: seq<BoardEntry>)
    ensures |r| == |entries|
    ensures forall j :: 0 <= j < |r| ==> r[j] == entries[j] || (j == FindEntry(entries, id) && r[j] == entries[j].(pinned := true))
    ensures FindEntry(entries, id) != -1 ==> r[FindEntry(entries, id)] == entries[FindEntry(entries, id)].(pinned := true)
    ensures FindEntry(entries, id) == -1 ==> r == entries
  {
    var i := FindEntry(entries, id);
    if i == -1 then entries else SetPinnedAt(entries, i, true)
  }

  /** `unpinBoardEntry`: the first entry with the id becomes unpinned, unless
      it is a LESSON. */
  function UnpinEntry(entries: seq<BoardEntry>, id: string): (r: seq<BoardEntry>)
    ensures |r| == |entries|
    ensures forall j :: 0 <= j < |r| ==> r[j] == entries[j] || (j == FindEntry(entries, id) && entries[j].kind != LessonEntry && r[j] == entries[j].(pinned := false))
    ensures var i := FindEntry(entries, id);
      i != -1 && entries[i].kind != LessonEntry ==> r[i] == entries[i].(pinned := false)
    ensures var i := FindEntry(entries, id);
      i == -1 || entries[i].kind == LessonEntry ==> r == entries
  {
    var i := FindEntry(entries, id);
    if i == -1 || entries[i].kind == LessonEntry then entries else SetPinnedAt(entries, i, false)
  }

  /** Pinning twice is pinning once, and unpinning a pinned non-LESSON entry
      undoes the pin. */
  lemma {:induction false} PinIdempotent(entries: seq<BoardEntry>, id: string)
    ensures PinEntry(PinEntry(entries, id), id) == PinEntry(entries, id)
    ensures var i := FindEntry(entries, id);
      i != -1 && !entries[i].pinned && entries[i].kind != LessonEntry ==>
        UnpinEntry(PinEntry(entries, id), id) == entries
  {
    var i := FindEntry(entries, id);
    if i != -1 {
      FindEntrySameIds(entries, PinEntry(entries, id), id);
      if !entries[i].pinned && entries[i].kind != LessonEntry {
        assert UnpinEntry(PinEntry(entries, id), id) == SetPinnedAt(SetPinnedAt(entries, i, true), i, false);
      }
    }
  }

  /** Appends `x` to a link list when it is not there yet. */
  function AddLink(links: seq<string>, x: string): (r: seq<string>)
    ensures x in r
    ensures multiset(r)[x] == Max(1, multiset(links)[x])
    ensures forall y :: y != x ==> multiset(r)[y] == multiset(links)[y]
  {
    if x in links then links else links + [x]
  }

  function LinkAt(entries: seq<BoardEntry>, i: int, x: string): (r: seq<BoardEntry>)
    requires 0 <= i < |entries|
    ensures |r| == |entries|
    ensures forall j :: 0 <= j < |r| ==> r[j].id == entries[j].id && r[j].pinned == entries[j].pinned && r[j].kind == entries[j].kind
  {
    entries[i := entries[i].(linkedTo := AddLink(entries[i].linkedTo, x))]
  }

  /** `linkBoardEntries`: with both ids present, the first entry with `id1`
      gets a link to `id2` and then the first entry with `id2` one to `id1`,
      each only if it is not there yet; otherwise nothing changes. */
  function LinkEntries(entries: seq<BoardEntry>, id1: string, id2: string): (r: seq<BoardEntry>)
    ensures |r| == |entries|
    ensures forall j :: 0 <= j < |r| ==> r[j].id == entries[j].id && r[j].pinned == entries[j].pinned && r[j].kind == entries[j].kind
    ensures FindEntry(entries, id1) == -1 || FindEntry(entries, id2) == -1 ==> r == entries
  {
    var i1, i2 := FindEntry(entries, id1), FindEntry(entries, id2);
    if i1 == -1 || i2 == -1 then entries
    else LinkAt(LinkAt(entries, i1, id2), i2, id1)
  }

  /** With both ids present, each of the two entries lists the other exactly
      as many times as before, or once if it did not; no other entry and no
      other link changes. */
  lemma {:induction false} LinkConnectsBoth(entries: seq<BoardEntry>, id1: string, id2: string)
    requires FindEntry(entries, id1) != -1 && FindEntry(entries, id2) != -1 && id1 != id2
    ensures var i1, i2, r := FindEntry(entries, id1), FindEntry(entries, id2), LinkEntries(entries, id1, id2);
      && multiset(r[i1].linkedTo)[id2] == Max(1, multiset(entries[i1].linkedTo)[id2])
      && multiset(r[i2].linkedTo)[id1] == Max(1, multiset(entries[i2].linkedTo)[id1])
      && (forall y :: y != id2 ==> multiset(r[i1].linkedTo)[y] == multiset(entries[i1].linkedTo)[y])
      && (forall y :: y != id1 ==> multiset(r[i2].linkedTo)[y] == multiset(entries[i2].linkedTo)[y])
      && forall j :: 0 <= j < |r| && j != i1 && j != i2 ==> r[j] == entries[j]
  {
  }

  /** Linking a to b is linking b to a. */
  lemma {:induction false} LinkSymmetric(entries: seq<BoardEntry>, id1: string, id2: string)
    ensures LinkEntries(entries, id1, id2) == LinkEntries(entries, id2, id1)
  {
    var i1, i2 := FindEntry(entries, id1), FindEntry(entries, id2);
    if i1 != -1 && i2 != -1 && i1 != i2 {
      var a := LinkAt(LinkAt(entries, i1, id2), i2, id1);
      var b := LinkAt(LinkAt(entries, i2, id1), i1, id2);
      assert forall j :: 0 <= j < |a| ==> a[j] == b[j];
    }
  }

  /** Linking the same pair again changes nothing. */
  lemma {:induction false} LinkIdempotent(entries: seq<BoardEntry>, id1: string, id2: string)
    ensures LinkEntries(LinkEntries(entries, id1, id2), id1, id2) == LinkEntries(entries, id1, id2)
  {
    var i1, i2 := FindEntry(entries, id1), FindEntry(entries, id2);
    if i1 != -1 && i2 != -1 {
      var once := LinkAt(entries, i1, id2);
      var r := LinkAt(once, i2, id1);
      FindEntrySameIds(entries, r, id1);
      FindEntrySameIds(entries, r, id2);
      assert id2 in r[i1].linkedTo by {
        if i1 != i2 { assert r[i1] == once[i1]; }
      }
      assert id1 in r[i2].linkedTo;
      LinkAtPresent(r, i1, id2);
      LinkAtPresent(r, i2, id1);
    }
  }

  /** Adding a link that is already there changes nothing. */
  lemma LinkAtPresent(entries: seq<BoardEntry>, i: int, x: string)
    requires 0 <= i < |entries| && x in entries[i].linkedTo
    ensures LinkAt(entries, i, x) == entries
  {
    assert entries[i].(linkedTo := entries[i].linkedTo) == entries[i];
  }

  /** Ids of the pinned LESSON entries, in board order. */
  function LessonIds(entries: seq<BoardEntry>): seq<string> {
    if entries == [] then []
    else LessonIds(entries[..|entries| - 1]) + LessonIdOf(entries[|entries| - 1])
  }

  function LessonIdOf(e: BoardEntry): seq<string> {
    if e.pinned && e.kind == LessonEntry then [e.id] else []
  }

  lemma {:induction false} LessonIdsAppend(a: seq<BoardEntry>, b: seq<BoardEntry>)
    ensures LessonIds(a + b) == LessonIds(a) + LessonIds(b)
    decreases |b|
  {
    if b == [] {
      assert a + b == a;
    } else {
      var n := |b| - 1;
      var c := a + b[..n];
      assert (a + b)[..|a + b| - 1] == c;
      assert (a + b)[|a + b| - 1] == b[n];
      calc {
        LessonIds(a + b);
        LessonIds(c) + LessonIdOf(b[n]);
          { LessonIdsAppend(a, b[..n]); }
        LessonIds(a) + LessonIds(b[..n]) + LessonIdOf(b[n]);
      }
    }
  }

  lemma {:induction false} LessonIdsDelete(entries: seq<BoardEntry>, i: int)
    requires 0 <= i < |entries| && !entries[i].pinned
    ensures LessonIds(entries[..i] + entries[i + 1..]) == LessonIds(entries)
  {
    var a, x, b := entries[..i], entries[i], entries[i + 1..];
    assert entries == (a + [x]) + b;
    assert LessonIds([x]) == [] by { assert [x][..0] == []; }
    calc {
      LessonIds(entries);
        { LessonIdsAppend(a + [x], b); }
      LessonIds(a + [x]) + LessonIds(b);
        { LessonIdsAppend(a, [x]); }
      LessonIds(a) + LessonIds([x]) + LessonIds(b);
      LessonIds(a) + LessonIds(b);
        { LessonIdsAppend(a, b); }
      LessonIds(a + b);
    }
  }

  lemma {:induction false} LessonIdsPointwise(a: seq<BoardEntry>, b: seq<BoardEntry>)
    requires |a| == |b| && forall j :: 0 <= j < |a| ==> LessonIdOf(a[j]) == LessonIdOf(b[j])
    ensures LessonIds(a) == LessonIds(b)
    decreases |a|
  {
    if a != [] {
      LessonIdsPointwise(a[..|a| - 1], b[..|b| - 1]);
    }
  }

  lemma {:induction false} LessonIdsOfPinned(entries: seq<BoardEntry>)
    ensures LessonIds(PinnedOnly(entries)) == LessonIds(entries)
    decreases |entries|
  {
    if entries != [] {
      var n := |entries| - 1;
      LessonIdsOfPinned(entries[..n]);
      var tail := if entries[n].pinned then [entries[n]] else [];
      LessonIdsAppend(PinnedOnly(entries[..n]), tail);
      if tail != [] { assert tail[..0] == []; }
    }
  }

  /** The pinned LESSON entries survive every board action that can take
      entries away or change them: remove, unpin, link and clearing the
      unpinned entries (which `startShift` also does). */
  lemma {:induction false} LessonsSurviveBoardActions(entries: seq<BoardEntry>, id: string, other: string)
    ensures LessonIds(RemoveEntry(entries, id)) == LessonIds(entries)
    ensures LessonIds(UnpinEntry(entries, id)) == LessonIds(entries)
    ensures LessonIds(LinkEntries(entries, id, other)) == LessonIds(entries)
    ensures LessonIds(PinnedOnly(entries)) == LessonIds(entries)
  {
    RemoveKeepsLessons(entries, id);
    UnpinKeepsLessons(entries, id);
    LinkKeepsLessons(entries, id, other);
    LessonIdsOfPinned(entries);
  }

  lemma {:induction false} RemoveKeepsLessons(entries: seq<BoardEntry>, id: string)
    ensures LessonIds(RemoveEntry(entries, id)) == LessonIds(entries)
  {
    var i := FindEntry(entries, id);
    if i != -1 && !entries[i].pinned {
      LessonIdsDelete(entries, i);
      assert RemoveEntry(entries, id) == entries[..i] + entries[i + 1..];
    }
  }

  lemma {:induction false} UnpinKeepsLessons(entries: seq<BoardEntry>, id: string)
    ensures LessonIds(UnpinEntry(entries, id)) == LessonIds(entries)
  {
    var r := UnpinEntry(entries, id);
    assert forall j :: 0 <= j < |entries| ==> LessonIdOf(entries[j]) == LessonIdOf(r[j]);
    LessonIdsPointwise(entries, r);
  }

  lemma {:induction false} LinkKeepsLessons(entries: seq<BoardEntry>, id: string, other: string)
    ensures LessonIds(LinkEntries(entries, id, other)) == LessonIds(entries)
  {
    var r := LinkEntries(entries, id, other);
    assert forall j :: 0 <= j < |entries| ==> LessonIdOf(entries[j]) == LessonIdOf(r[j]);
    LessonIdsPointwise(entries, r);
  }

  /** The pinned board entry `addLesson` creates for a lesson. */
  function LessonBoardEntry(details: LessonDetails, id: string, now: int): BoardEntry {
    BoardEntry(id, LessonEntry, details.name, Some(details.description), true, [], details.unlockedFrom, now)
  }

  /** `addLesson` adds exactly one pinned LESSON entry to the board. */
  lemma {:induction false} AddLessonAddsPinnedLesson(entries: seq<BoardEntry>, details: LessonDetails, id: string, now: int)
    ensures LessonIds(entries + [LessonBoardEntry(details, id, now)]) == LessonIds(entries) + [id]
    ensures PinnedOnly(entries + [LessonBoardEntry(details, id, now)]) == PinnedOnly(entries) + [LessonBoardEntry(details, id, now)]
  {
    var e := entries + [LessonBoardEntry(details, id, now)];
    assert e[..|e| - 1] == entries;
  }

  // ------------------------------------------------------------------
  // Cases
  // ------------------------------------------------------------------

  function FindCase(cases: seq<Medical.PatientCase>, id: string): (i: int)
    ensures -1 <= i < |cases|
    ensures i >= 0 ==> cases[i].id == id && forall j :: 0 <= j < i ==> cases[j].id != id
    ensures i == -1 <==> forall j :: 0 <= j < |cases| ==> cases[j].id != id
    decreases |cases|
  {
    if cases == [] then -1
    else if cases[0].id == id then 0
    else
      var k := FindCase(cases[1..], id);
      if k == -1 then -1 else k + 1
  }

  /** `completeCase` on the two queues: the first active case with the id is
      spliced out and pushed onto the completed cases. */
  function CompletedQueues(active: seq<Medical.PatientCase>, completed: seq<Medical.PatientCase>, id: string)
    : (r: (seq<Medical.PatientCase>, seq<Medical.PatientCase>))
    ensures |r.0| + |r.1| == |active| + |completed|
    ensures multiset(r.0 + r.1) == multiset(active + completed)
    ensures FindCase(active, id) == -1 ==> r == (active, completed)
    ensures FindCase(active, id) != -1 ==>
      |r.0| == |active| - 1 && r.1 == completed + [active[FindCase(active, id)]]
      && r.0 == active[..FindCase(active, id)] + active[FindCase(active, id) + 1..]
  {
    var i := FindCase(active, id);
    if i == -1 then (active, completed)
    else
      assert active == active[..i] + [active[i]] + active[i + 1..];
      (active[..i] + active[i + 1..], completed + [active[i]])
  }

  // ------------------------------------------------------------------
  // Relationships
  // ------------------------------------------------------------------

  /** `updateRelationship` on one relationship record. */
  function ApplyChange(rel: Relationship, change: RelationshipChange, shiftNumber: int, now: int): (r: Relationship)
    ensures -3 <= r.professional <= 3 && 0 <= r.personal <= 4
    ensures r.professional == Clamp(-3, 3, rel.professional + change.professionalDelta)
    ensures r.personal == Clamp(0, 4, rel.personal + change.personalDelta)
    ensures -3 <= rel.professional + change.professionalDelta <= 3 ==> r.professional == rel.professional + change.professionalDelta
    ensures 0 <= rel.personal + change.personalDelta <= 4 ==> r.personal == rel.personal + change.personalDelta
    ensures r.history == rel.history + [RelationshipEvent(shiftNumber, change.reason, change.professionalDelta, change.personalDelta, now)]
    ensures r.npcId == rel.npcId && r.storyProgress == rel.storyProgress && r.flags == rel.flags
  {
    rel.(professional := Clamp(-3, 3, rel.professional + change.professionalDelta),
         personal := Clamp(0, 4, rel.personal + change.personalDelta),
         history := rel.history + [RelationshipEvent(shiftNumber, change.reason, change.professionalDelta, change.personalDelta, now)])
  }

  function NewRelationship(npcId: string): Relationship {
    Relationship(npcId, 0, 0, 0, map[], [])
  }

  /** `initializeRelationship` on the relationship record. */
  function InitializeIn(rels: map<string, Relationship>, npcId: string): (r: map<string, Relationship>)
    ensures npcId in r && r.Keys == rels.Keys + {npcId}
    ensures forall k :: k in rels ==> r[k] == rels[k]
  {
    if npcId in rels then rels else rels[npcId := NewRelationship(npcId)]
  }

  /** Initializing twice is initializing once, and updating an NPC that was
      never initialized changes nothing while updating one that was adds exactly
      one event to its history. */
  lemma RelationshipRules(rels: map<string, Relationship>, change: RelationshipChange, shiftNumber: int, now: int)
    ensures InitializeIn(InitializeIn(rels, change.npcId), change.npcId) == InitializeIn(rels, change.npcId)
    ensures var rel := InitializeIn(rels, change.npcId)[change.npcId];
      |ApplyChange(rel, change, shiftNumber, now).history| == |rel.history| + 1
    ensures change.npcId !in rels ==> InitializeIn(rels, change.npcId)[change.npcId] == NewRelationship(change.npcId)
  {
  }

  // ------------------------------------------------------------------
  // The store
  // ------------------------------------------------------------------

  class Store {
    var currentPhase: GamePhase
    var previousPhase: Option<GamePhase>
    var player: Option<Player>
    var currentShiftNumber: int
    var shiftTimeRemaining: int
    var activeCases: seq<Medical.PatientCase>
    var completedCases: seq<Medical.PatientCase>
    var boardEntries: seq<BoardEntry>
    var maxBoardSlots: int
    var relationships: map<string, Relationship>
    var highScore: int

    function State(): Snapshot
      reads this
    {
      Snapshot(currentPhase, previousPhase, player, currentShiftNumber, shiftTimeRemaining,
        activeCases, completedCases, boardEntries, maxBoardSlots, relationships, highScore)
    }

    ghost predicate Valid()
      reads this
    {
      ValidState(State())
    }

    /** The store's initial state. */
    constructor ()
      ensures Valid() && State() == InitialSnapshot
    {
      currentPhase, previousPhase, player := MainMenu, None, None;
      currentShiftNumber, shiftTimeRemaining := 0, ShiftMinutes;
      activeCases, completedCases, boardEntries := [], [], [];
      maxBoardSlots, relationships, highScore := 4, map[], 0;
    }

    method CheckHighScore(score: int)
      requires Valid()
      modifies this
      ensures Valid()
      ensures State() == old(State()).(highScore := Max(old(highScore), score))
    {
      if score > highScore {
        highScore := score;
      }
    }

    method SetPhase(phase: GamePhase)
      requires Valid()
      modifies this
      ensures Valid()
      ensures State() == old(State()).(previousPhase := Some(old(currentPhase)), currentPhase := phase)
    {
      previousPhase := Some(currentPhase);
      currentPhase := phase;
    }

    /** `createPlayer`, with the player's fresh id supplied by the caller. */
    method CreatePlayer(id: string, name: string, background: Background, personality: PersonalityAxes)
      requires Valid()
      modifies this
      ensures Valid()
      ensures player.Some? && State() == old(State()).(player := player)
      ensures var p := player.value;
        p.id == id && p.name == name && p.background == background && p.personality == personality
        && (forall s: SkillId :: s in p.skills && p.skills[s] == InitialLevel(Some(background), s))
        && p.lessons == [] && p.energy == 100 && p.stress == 0 && p.currentShift == 0
        && p.totalXP == 0 && p.unlockedMilestones == []
    {
      var skills := CreateInitialSkills(Some(background));
      forall s: SkillId ensures -2 <= skills[s] <= 7 { InitialLevelBounds(Some(background), s); }
      player := Some(Player(id, name, background, personality, skills, [], 100, 0, 0, 0, []));
    }

    /** `updateSkill`: the skill moves by `delta`, clamped to [-2, 7]. */
    method UpdateSkill(s: SkillId, delta: int)
      requires Valid()
      modifies this
      ensures Valid()
      ensures old(player).None? ==> State() == old(State())
      ensures old(player).Some? ==> var p := old(player).value;
        State() == old(State()).(player := Some(p.(skills := p.skills[s := Clamp(-2, 7, p.skills[s] + delta)])))
    {
      if player.Some? {
        var p := player.value;
        player := Some(p.(skills := p.skills[s := Clamp(-2, 7, p.skills[s] + delta)]));
      }
    }

    /** `addLesson`, with the lesson's id, the board entry's id and the time
        supplied by the caller. */
    method AddLesson(details: LessonDetails, lessonId: string, entryId: string, now: int)
      requires Valid()
      modifies this
      ensures Valid()
      ensures old(player).None? ==> State() == old(State())
      ensures old(player).Some? ==> var p := old(player).value;
        State() == old(State()).(
          player := Some(p.(lessons := p.lessons + [Lesson(lessonId, details.name, details.description, details.unlockedFrom, details.effects)])),
          boardEntries := old(boardEntries) + [LessonBoardEntry(details, entryId, now)])
    {
      if player.Some? {
        var p := player.value;
        var lesson := Lesson(lessonId, details.name, details.description, details.unlockedFrom, details.effects);
        player := Some(p.(lessons := p.lessons + [lesson]));
        boardEntries := boardEntries + [LessonBoardEntry(details, entryId, now)];
      }
    }

    /** `updateEnergy`: clamped to [0, 100]. */
    method UpdateEnergy(delta: int)
      requires Valid()
      modifies this
      ensures Valid()
      ensures old(player).None? ==> State() == old(State())
      ensures old(player).Some? ==> var p := old(player).value;
        State() == old(State()).(player := Some(p.(energy := Clamp(0, 100, p.energy + delta))))
    {
      if player.Some? {
        var p := player.value;
        player := Some(p.(energy := Clamp(0, 100, p.energy + delta)));
      }
    }

    /** `updateStress`: clamped to [0, 100]. */
    method UpdateStress(delta: int)
      requires Valid()
      modifies this
      ensures Valid()
      ensures old(player).None? ==> State() == old(State())
      ensures old(player).Some? ==> var p := old(player).value;
        State() == old(State()).(player := Some(p.(stress := Clamp(0, 100, p.stress + delta))))
    {
      if player.Some? {
        var p := player.value;
        player := Some(p.(stress := Clamp(0, 100, p.stress + delta)));
      }
    }

    method AddXP(amount: int)
      requires Valid()
      modifies this
      ensures Valid()
      ensures old(player).None? ==> State() == old(State())
      ensures old(player).Some? ==> var p := old(player).value;
        State() == old(State()).(player := Some(p.(totalXP := p.totalXP + amount)))
    {
      if player.Some? {
        var p := player.value;
        player := Some(p.(totalXP := p.totalXP + amount));
      }
    }

    /** `startShift`: next shift, a full clock, no active cases, a rested
        player and only the pinned board entries, in their order. */
    method StartShift()
      requires Valid()
      modifies this
      ensures Valid()
      ensures State() == old(State()).(
        currentShiftNumber := old(currentShiftNumber) + 1,
        shiftTimeRemaining := ShiftMinutes,
        activeCases := [],
        player := (if old(player).None? then None
                   else Some(old(player).value.(currentShift := old(currentShiftNumber) + 1, energy := 100))),
        boardEntries := PinnedOnly(old(boardEntries)),
        currentPhase := ShiftStart)
    {
      currentShiftNumber := currentShiftNumber + 1;
      shiftTimeRemaining := ShiftMinutes;
      activeCases := [];
      if player.Some? {
        player := Some(player.value.(currentShift := currentShiftNumber, energy := 100));
      }
      boardEntries := PinnedOnly(boardEntries);
      currentPhase := ShiftStart;
    }

    method EndShift()
      requires Valid()
      modifies this
      ensures Valid()
      ensures State() == old(State()).(currentPhase := ShiftEnd)
    {
      currentPhase := ShiftEnd;
    }

    /** `advanceTime`: the clock runs down to no less than 0; only a positive
        span drains energy, one point per whole 30 minutes, to no less than 0. */
    method AdvanceTime(minutes: int)
      requires Valid()
      modifies this
      ensures Valid()
      ensures shiftTimeRemaining == Max(0, old(shiftTimeRemaining) - minutes)
      ensures old(player).None? || minutes <= 0 ==>
        State() == old(State()).(shiftTimeRemaining := shiftTimeRemaining)
      ensures old(player).Some? && minutes > 0 ==> var p := old(player).value;
        State() == old(State()).(shiftTimeRemaining := shiftTimeRemaining,
          player := Some(p.(energy := Max(0, p.energy - minutes / 30))))
    {
      shiftTimeRemaining := Max(0, shiftTimeRemaining - minutes);
      if player.Some? && minutes > 0 {
        var p := player.value;
        player := Some(p.(energy := Max(0, p.energy - minutes / 30)));
      }
    }

    method AddCase(c: Medical.PatientCase)
      requires Valid()
      modifies this
      ensures Valid()
      ensures State() == old(State()).(activeCases := old(activeCases) + [c])
    {
      activeCases := activeCases + [c];
    }

    method CompleteCase(id: string)
      requires Valid()
      modifies this
      ensures Valid()
      ensures State() == old(State()).(
        activeCases := CompletedQueues(old(activeCases), old(completedCases), id).0,
        completedCases := CompletedQueues(old(activeCases), old(completedCases), id).1)
    {
      var i := FindCase(activeCases, id);
      if i != -1 {
        var done := activeCases[i];
        activeCases := activeCases[..i] + activeCases[i + 1..];
        completedCases := completedCases + [done];
      }
    }

    /** `addBoardEntry`, with the entry's id and time supplied by the caller. */
    method AddBoardEntry(entry: NewBoardEntry, id: string, now: int)
      requires Valid()
      modifies this
      ensures Valid()
      ensures State() == old(State()).(boardEntries := AddEntry(old(boardEntries), Stamp(entry, id, now), maxBoardSlots))
    {
      var currentCount := |UnpinnedOnly(boardEntries)|;
      var pinnedCount := |PinnedOnly(boardEntries)|;
      if currentCount + pinnedCount < maxBoardSlots || entry.pinned {
        boardEntries := boardEntries + [Stamp(entry, id, now)];
      }
    }

    method RemoveBoardEntry(id: string)
      requires Valid()
      modifies this
      ensures Valid()
      ensures State() == old(State()).(boardEntries := RemoveEntry(old(boardEntries), id))
    {
      var i := FindEntry(boardEntries, id);
      if i != -1 && !boardEntries[i].pinned {
        boardEntries := boardEntries[..i] + boardEntries[i + 1..];
      }
    }

    method PinBoardEntry(id: string)
      requires Valid()
      modifies this
      ensures Valid()
      ensures State() == old(State()).(boardEntries := PinEntry(old(boardEntries), id))
    {
      var i := FindEntry(boardEntries, id);
      if i != -1 {
        boardEntries := SetPinnedAt(boardEntries, i, true);
      }
    }

    method UnpinBoardEntry(id: string)
      requires Valid()
      modifies this
      ensures Valid()
      ensures State() == old(State()).(boardEntries := UnpinEntry(old(boardEntries), id))
    {
      var i := FindEntry(boardEntries, id);
      if i != -1 && boardEntries[i].kind != LessonEntry {
        boardEntries := SetPinnedAt(boardEntries, i, false);
      }
    }

    method LinkBoardEntries(id1: string, id2: string)
      requires Valid()
      modifies this
      ensures Valid()
      ensures State() == old(State()).(boardEntries := LinkEntries(old(boardEntries), id1, id2))
    {
      var i1 := FindEntry(boardEntries, id1);
      var i2 := FindEntry(boardEntries, id2);
      if i1 != -1 && i2 != -1 {
        boardEntries := LinkAt(boardEntries, i1, id2);
        boardEntries := LinkAt(boardEntries, i2, id1);
      }
    }

    method ClearUnpinnedEntries()
      requires Valid()
      modifies this
      ensures Valid()
      ensures State() == old(State()).(boardEntries := PinnedOnly(old(boardEntries)))
    {
      boardEntries := PinnedOnly(boardEntries);
    }

    /** `updateRelationship`, with the event's time supplied by the caller. */
    method UpdateRelationship(change: RelationshipChange, now: int)
      requires Valid()
      modifies this
      ensures Valid()
      ensures change.npcId !in old(relationships) ==> State() == old(State())
      ensures change.npcId in old(relationships) ==>
        State() == old(State()).(relationships := old(relationships)[change.npcId :=
          ApplyChange(old(relationships)[change.npcId], change, old(currentShiftNumber), now)])
    {
      if change.npcId in relationships {
        var rel := relationships[change.npcId];
        relationships := relationships[change.npcId := ApplyChange(rel, change, currentShiftNumber, now)];
      }
    }

    method InitializeRelationship(npcId: string)
      requires Valid()
      modifies this
      ensures Valid()
      ensures State() == old(State()).(relationships := InitializeIn(old(relationships), npcId))
    {
      if npcId !in relationships {
        relationships := relationships[npcId := NewRelationship(npcId)];
      }
    }

    /** `getSkillModifier`: the skill plus every lesson's SKILL_BONUS effects
        on it, summed lesson by lesson and effect by effect. */
    method GetSkillModifier(s: SkillId) returns (modifier: int)
      ensures modifier == SkillModifier(player, s)
    {
      if player.None? {
        return 0;
      }
      var lessons := player.value.lessons;
      var key := SkillKey(s);
      var base := Level(player.value.skills, s);
      modifier := base;
      for i := 0 to |lessons|
        invariant modifier == base + LessonBonus(lessons[..i], key)
      {
        assert lessons[..i + 1][..i] == lessons[..i];
        var effects := lessons[i].effects;
        for j := 0 to |effects|
          invariant modifier == base + LessonBonus(lessons[..i], key) + EffectBonus(effects[..j], key)
        {
          assert effects[..j + 1][..j] == effects[..j];
          var e := effects[j];
          if e.kind == SkillBonus && e.target == key {
            modifier := modifier + e.value;
          }
        }
        assert effects[..|effects|] == effects;
      }
      assert lessons[..|lessons|] == lessons;
    }
  }
}
