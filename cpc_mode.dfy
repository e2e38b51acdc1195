/** The CPC exam (components/game/CPCMode.tsx): a sixty-second rapid-fire
    diagnosis quiz. A correct answer scores 100 plus 10 per answer already in
    the streak and buys five seconds (up to sixty); a wrong one breaks the
    streak and costs ten. A once-a-second ticker runs the clock down while
    time is left. The React state hooks are the fields of `CpcExam`; the
    ticker, the 800 ms follow-up and the random case pick are method calls
    made by the caller, the pick passed as an index. */
module CpcMode {
  import opened Common
  import GameStore
  import ProgressBar

  datatype Sex = M | F

  datatype MiniCase = MiniCase(
    id: string, complaint: string, age: int, sex: Sex, vitals: string,
    finding: string, answer: string, options: seq<string>)

  datatype ExamState = Start | Playing | GameOver

  datatype Feedback = Correct | Wrong

  const Cases: seq<MiniCase> := [
    MiniCase("c1", "Crushing chest pain -> L arm", 55, M, "BP 160/90, HR 110, O2 94%",
             "EKG: ST Elevation in II, III, aVF", "Inferior STEMI",
             ["Inferior STEMI", "Anterior STEMI", "Pericarditis", "GERD"]),
    MiniCase("c2", "Sudden SOB, pleuritic pain", 28, F, "BP 110/70, HR 125, O2 88%",
             "Hx: Oral Contraceptives + Long Flight", "Pulmonary Embolism",
             ["Pulmonary Embolism", "Pneumothorax", "Pneumonia", "Panic Attack"]),
    MiniCase("c3", "Tearing back pain", 72, M, "BP 210/110, HR 100",
             "CXR: Widened Mediastinum", "Aortic Dissection",
             ["Aortic Dissection", "MI", "Muscle Strain", "Cauda Equina"]),
    MiniCase("c4", "RLQ Pain, Fever", 12, M, "Temp 38.5, HR 110",
             "McBurney's Point Tenderness", "Appendicitis",
             ["Appendicitis", "Gastroenteritis", "Testicular Torsion", "Constipation"]),
    MiniCase("c5", "Thunderclap Headache", 45, F, "BP 150/90",
             "CT Head: Stellate Pattern in Cisterns", "Subarachnoid Hemorrhage",
             ["Subarachnoid Hemorrhage", "Migraine", "Meningitis", "Stroke"]),
    MiniCase("c6", "Epigastric pain -> Back", 50, M, "HR 110, BP 130/80",
             "Lipase > 3x Upper Limit Normal", "Acute Pancreatitis",
             ["Acute Pancreatitis", "Cholecystitis", "Gastritis", "Peptic Ulcer"])
  ]

  const ExamSeconds := 60

  datatype Snapshot = Snapshot(
    gameState: ExamState, score: int, timeLeft: int, currentCase: Option<MiniCase>,
    streak: int, feedback: Option<Feedback>)

  const InitialSnapshot := Snapshot(Start, 0, ExamSeconds, None, 0, None)

  ghost predicate ValidState(st: Snapshot) {
    0 <= st.timeLeft <= ExamSeconds && st.score >= 0 && st.streak >= 0
  }

  /** The points a correct answer earns with `streak` correct answers before
      it. */
  function Points(streak: int): int {
    100 + streak * 10
  }

  /** `handleAnswer`. */
  function Answer(st: Snapshot, option: string): (r: Snapshot)
    requires ValidState(st)
    ensures ValidState(r)
    ensures st.currentCase.None? || st.feedback.Some? ==> r == st
    ensures r.gameState == st.gameState && r.currentCase == st.currentCase && r.score >= st.score
    ensures st.currentCase.Some? && st.feedback.None? && option == st.currentCase.value.answer ==>
      r == st.(score := st.score + Points(st.streak), streak := st.streak + 1,
               timeLeft := Min(st.timeLeft + 5, ExamSeconds), feedback := Some(Correct))
    ensures st.currentCase.Some? && st.feedback.None? && option != st.currentCase.value.answer ==>
      r == st.(streak := 0, timeLeft := Max(0, st.timeLeft - 10), feedback := Some(Wrong))
  {
    if st.currentCase.None? || st.feedback.Some? then st
    else if option == st.currentCase.value.answer then
      st.(score := st.score + Points(st.streak), streak := st.streak + 1,
          timeLeft := Min(st.timeLeft + 5, ExamSeconds), feedback := Some(Correct))
    else
      st.(streak := 0, timeLeft := Max(0, st.timeLeft - 10), feedback := Some(Wrong))
  }

  /** One second of the ticker, which only runs while playing with time
      left; its last second ends the exam. */
  function Tick(st: Snapshot): (r: Snapshot)
    requires ValidState(st)
    ensures ValidState(r)
    ensures !(st.gameState == Playing && st.timeLeft > 0) ==> r == st
    ensures st.gameState == Playing && st.timeLeft > 1 ==> r == st.(timeLeft := st.timeLeft - 1)
    ensures st.gameState == Playing && st.timeLeft == 1 ==> r == st.(timeLeft := 0, gameState := GameOver)
    ensures r.gameState == GameOver && st.gameState != GameOver ==> r.timeLeft == 0
  {
    if st.gameState == Playing && st.timeLeft > 0 then
      if st.timeLeft <= 1 then st.(timeLeft := 0, gameState := GameOver)
      else st.(timeLeft := st.timeLeft - 1)
    else st
  }

  /** `nextCase`: case `pick` and no feedback. */
  function WithNextCase(st: Snapshot, pick: nat): Snapshot
    requires pick < |Cases|
  {
    st.(currentCase := Some(Cases[pick]), feedback := None)
  }

  /** `startGame`: a fresh sixty-second exam on case `pick`. */
  function Started(st: Snapshot, pick: nat): (r: Snapshot)
    requires pick < |Cases|
    ensures ValidState(r)
    ensures r.score == 0 && r.streak == 0 && r.timeLeft == ExamSeconds && r.gameState == Playing
    ensures r.currentCase == Some(Cases[pick]) && r.feedback.None?
  {
    WithNextCase(st.(score := 0, streak := 0, timeLeft := ExamSeconds, gameState := Playing), pick)
  }

  /** A wrong answer that uses up the clock leaves the exam in PLAYING at zero
      seconds: the ticker no longer runs, so the exam never ends by itself. */
  lemma WrongAnswerAtZeroStalls(st: Snapshot, option: string)
    requires ValidState(st) && st.gameState == Playing && st.timeLeft <= 10
    requires st.currentCase.Some? && st.feedback.None? && option != st.currentCase.value.answer
    ensures var r := Answer(st, option);
      r.gameState == Playing && r.timeLeft == 0 && Tick(r) == r
  {
  }

  /** `k` rounds of a new case (`pick`) answered correctly. */
  function CorrectRounds(st: Snapshot, pick: nat, k: nat): (r: Snapshot)
    requires ValidState(st) && pick < |Cases|
    ensures ValidState(r)
  {
    if k == 0 then st
    else
      var prev := CorrectRounds(st, pick, k - 1);
      Answer(WithNextCase(prev, pick), Cases[pick].answer)
  }

  /** 0 + 1 + ... + (k - 1). */
  function Triangle(k: nat): (t: nat)
    ensures 2 * t == k * (k - 1)
  {
    if k == 0 then 0 else Triangle(k - 1) + (k - 1)
  }

  /** A run of `k` correct answers adds 100 per answer plus 10 for each answer
      before it in the streak. */
  lemma {:induction false} StreakScore(st: Snapshot, pick: nat, k: nat)
    requires ValidState(st) && pick < |Cases|
    ensures CorrectRounds(st, pick, k).streak == st.streak + k
    ensures CorrectRounds(st, pick, k).score == st.score + 100 * k + 10 * (k * st.streak + Triangle(k))
  {
    if k > 0 {
      StreakScore(st, pick, k - 1);
      var prev := CorrectRounds(st, pick, k - 1);
      var r := Answer(WithNextCase(prev, pick), Cases[pick].answer);
      assert r.score == prev.score + Points(prev.streak);
      assert (k - 1) * st.streak + st.streak == k * st.streak;
    }
  }

  /** The CPC timer bar: a fraction of sixty seconds, labelled by its
      aria-label prop, with no label row; it turns to the stress colour under
      ten seconds. */
  lemma TimerBar(timeLeft: int)
    requires 0 <= timeLeft <= ExamSeconds
    ensures ProgressBar.Percentage(timeLeft as real, 60.0) == Some(timeLeft as real / 60.0 * 100.0)
    ensures ProgressBar.BarAttributes(timeLeft as real, 60.0, None, map["aria-label" := ProgressBar.Text("Time Remaining")])["aria-label"]
      == ProgressBar.Text("Time Remaining")
    ensures !ProgressBar.ShowsLabelRow(false, None)
  {
  }

  /** The bar's colour: `stress` under ten seconds, `time` otherwise. */
  function TimerVariant(timeLeft: int): string {
    if timeLeft < 10 then "stress" else "time"
  }

  /** The final screen shows NEW HIGH SCORE when the score beats the stored
      high score. */
  predicate NewHighScore(score: int, highScore: int) {
    score > highScore
  }

  class CpcExam {
    var gameState: ExamState
    var score: int
    var timeLeft: int
    var currentCase: Option<MiniCase>
    var streak: int
    var feedback: Option<Feedback>

    function State(): Snapshot
      reads this
    {
      Snapshot(gameState, score, timeLeft, currentCase, streak, feedback)
    }

    ghost predicate Valid()
      reads this
    {
      ValidState(State())
    }

    constructor ()
      ensures Valid() && State() == InitialSnapshot
    {
      gameState, score, timeLeft, currentCase, streak, feedback := Start, 0, ExamSeconds, None, 0, None;
    }

    method StartGame(pick: nat)
      requires Valid() && pick < |Cases|
      modifies this
      ensures Valid() && State() == Started(old(State()), pick)
    {
      score := 0;
      streak := 0;
      timeLeft := ExamSeconds;
      gameState := Playing;
      NextCase(pick);
    }

    method NextCase(pick: nat)
      requires pick < |Cases|
      modifies this
      ensures State() == WithNextCase(old(State()), pick)
    {
      currentCase := Some(Cases[pick]);
      feedback := None;
    }

    method HandleAnswer(option: string)
      requires Valid()
      modifies this
      ensures Valid() && State() == Answer(old(State()), option)
    {
      if currentCase.None? || feedback.Some? {
        return;
      }
      if option == currentCase.value.answer {
        var points := 100 + streak * 10;
        score := score + points;
        streak := streak + 1;
        timeLeft := Min(timeLeft + 5, ExamSeconds);
        feedback := Some(Correct);
      } else {
        streak := 0;
        timeLeft := Max(0, timeLeft - 10);
        feedback := Some(Wrong);
      }
    }

    /** One firing of the one-second interval. */
    method TimerTick()
      requires Valid()
      modifies this
      ensures Valid() && State() == Tick(old(State()))
    {
      if gameState == Playing && timeLeft > 0 {
        if timeLeft <= 1 {
          gameState := GameOver;
          timeLeft := 0;
        } else {
          timeLeft := timeLeft - 1;
        }
      }
    }

    /** `handleExit`: records the score with the game store, which keeps the
        higher of it and the stored high score. */
    method HandleExit(store: GameStore.Store)
      requires store.Valid()
      modifies store
      ensures store.Valid()
      ensures store.State() == old(store.State()).(highScore := Max(old(store.highScore), score))
    {
      store.CheckHighScore(score);
    }
  }
}
