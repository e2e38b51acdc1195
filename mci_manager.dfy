/** The mass-casualty incident (lib/MCIManager.ts): a set of patients drawn
    from narrative cases, each counting down to a critical moment, and a pool
    of counted resources the player hands out. */
module Mci {
  import opened Common
  import NarrativeCase

  datatype TriageLevel = Black | Red | Yellow | Green

  datatype MciStatus = Waiting | Stabilizing | Critical | Stable | Deceased | Discharged

  datatype MciPatient = MciPatient(
    caseId: string, patientName: string, triageLevel: TriageLevel,
    assignedTo: Option<string>, status: MciStatus, timeToCritical: int,
    caseData: NarrativeCase.PatientCase, currentVitals: map<string, real>)

  datatype ResourceType = Beds | Nurses | Residents | Attendings | BloodUnits | Vents | OrSlots

  datatype MciResources = MciResources(
    beds: int, nurses: int, residents: int, attendings: int,
    bloodUnits: int, vents: int, orSlots: int)

  datatype MciState = MciState(
    active: bool, patients: seq<MciPatient>, resources: MciResources,
    timeElapsed: int, score: int, livesSaved: int, livesLost: int)

  /** `resources[resourceType]`. */
  function Available(r: MciResources, kind: ResourceType): int {
    match kind
    case Beds => r.beds
    case Nurses => r.nurses
    case Residents => r.residents
    case Attendings => r.attendings
    case BloodUnits => r.bloodUnits
    case Vents => r.vents
    case OrSlots => r.orSlots
  }

  /** `resources[resourceType]--`: that counter one lower, the others as
      they were. */
  function Consume(r: MciResources, kind: ResourceType): (r': MciResources)
    ensures Available(r', kind) == Available(r, kind) - 1
    ensures forall k :: k != kind ==> Available(r', k) == Available(r, k)
  {
    match kind
    case Beds => r.(beds := r.beds - 1)
    case Nurses => r.(nurses := r.nurses - 1)
    case Residents => r.(residents := r.residents - 1)
    case Attendings => r.(attendings := r.attendings - 1)
    case BloodUnits => r.(bloodUnits := r.bloodUnits - 1)
    case Vents => r.(vents := r.vents - 1)
    case OrSlots => r.(orSlots := r.orSlots - 1)
  }

  /** `calculateInitialTTL`: seconds until a patient of the case's difficulty
      turns critical. */
  function InitialTtl(d: NarrativeCase.Difficulty): (t: int)
    ensures t == 60 || t == 120 || t == 300 || t == 600
    ensures t == 600 <==> d == NarrativeCase.Easy
  {
    match d
    case Legendary => 60
    case Hard => 120
    case Medium => 300
    case Easy => 600
  }

  function DifficultyRank(d: NarrativeCase.Difficulty): nat {
    match d
    case Easy => 0
    case Medium => 1
    case Hard => 2
    case Legendary => 3
  }

  /** A harder case leaves strictly less time. */
  lemma HarderIsSooner(a: NarrativeCase.Difficulty, b: NarrativeCase.Difficulty)
    requires DifficultyRank(a) < DifficultyRank(b)
    ensures InitialTtl(b) < InitialTtl(a)
  {
  }

  /** The vitals the deterioration rule adjusts; the case format requires
      both. */
  predicate HasCoreVitals(v: map<string, real>) {
    "HR" in v && "O2" in v
  }

  /** The patient a case becomes when the incident starts. */
  function IncidentPatient(c: NarrativeCase.PatientCase): MciPatient {
    MciPatient(c.id, c.title, Yellow, None, Waiting, InitialTtl(c.difficulty), c, c.initialState.vitals)
  }

  /** Whether `tick` leaves a patient alone. */
  predicate Settled(s: MciStatus) {
    s == Deceased || s == Discharged || s == Stable
  }

  /** One patient in one `tick`: the countdown runs; a patient past the deadline
      who is not already critical turns critical (HR +20, O2 −5); a critical
      patient a minute past the deadline dies. */
  function TickPatient(p: MciPatient, seconds: int): (r: MciPatient)
    requires HasCoreVitals(p.currentVitals)
    ensures HasCoreVitals(r.currentVitals)
    ensures Settled(p.status) ==> r == p
    ensures !Settled(p.status) ==> r.timeToCritical == p.timeToCritical - seconds
    ensures r.status == Deceased ==> p.status == Deceased || p.status == Critical
    ensures r.status == Critical && p.status != Critical ==>
      r.currentVitals == p.currentVitals["HR" := p.currentVitals["HR"] + 20.0]["O2" := p.currentVitals["O2"] - 5.0]
    ensures r.status != p.status ==> r.status == Critical || r.status == Deceased
    ensures !Settled(p.status) && p.status != Critical && p.timeToCritical - seconds <= 0 ==> r.status == Critical
    ensures p.status == Critical && p.timeToCritical - seconds <= -60 ==> r.status == Deceased
    ensures !Settled(p.status) && p.status != Critical && p.timeToCritical - seconds > 0 ==> r.status == p.status
    ensures p.status == Critical && p.timeToCritical - seconds > -60 ==> r.status == Critical
    ensures r.status == p.status ==> r.currentVitals == p.currentVitals
    ensures r.caseId == p.caseId && r.triageLevel == p.triageLevel && r.assignedTo == p.assignedTo
  {
    if Settled(p.status) then p
    else
      var ttl := p.timeToCritical - seconds;
      if ttl <= 0 && p.status != Critical then
        var v := p.currentVitals;
        p.(timeToCritical := ttl, status := Critical, currentVitals := v["HR" := v["HR"] + 20.0]["O2" := v["O2"] - 5.0])
      else if ttl <= -60 && p.status == Critical then
        p.(timeToCritical := ttl, status := Deceased)
      else
        p.(timeToCritical := ttl)
  }

  /** Whether the patient dies in this tick. */
  predicate Dies(p: MciPatient, seconds: int) {
    p.status == Critical && p.timeToCritical - seconds <= -60
  }

  /** A patient who is not yet critical cannot die in the same tick that makes
      it critical. */
  lemma NoDoubleTransition(p: MciPatient, seconds: int)
    requires HasCoreVitals(p.currentVitals)
    requires p.status != Critical && p.status != Deceased
    ensures TickPatient(p, seconds).status != Deceased
  {
  }

  /** A patient moved to a bed keeps counting down and is flagged critical
      again once past the deadline. */
  lemma BeddedPatientRelapses(p: MciPatient, seconds: int)
    requires HasCoreVitals(p.currentVitals)
    requires p.status == Stabilizing && p.timeToCritical - seconds <= 0
    ensures TickPatient(p, seconds).status == Critical
  {
  }

  predicate AllHaveCoreVitals(ps: seq<MciPatient>) {
    forall i :: 0 <= i < |ps| ==> HasCoreVitals(ps[i].currentVitals)
  }

  /** Every patient after one tick. */
  function TickAll(ps: seq<MciPatient>, seconds: int): (r: seq<MciPatient>)
    requires AllHaveCoreVitals(ps)
    ensures |r| == |ps| && AllHaveCoreVitals(r)
    ensures forall i :: 0 <= i < |ps| ==> r[i] == TickPatient(ps[i], seconds)
  {
    seq(|ps|, i requires 0 <= i < |ps| => TickPatient(ps[i], seconds))
  }

  /** How many of the patients die in this tick. */
  function Deaths(ps: seq<MciPatient>, seconds: int): (n: nat)
    ensures n <= |ps|
  {
    if ps == [] then 0
    else Deaths(ps[..|ps| - 1], seconds) + (if Dies(ps[|ps| - 1], seconds) then 1 else 0)
  }

  /** How many patients are deceased in `after` but were not in `before`. */
  function NewlyDeceased(before: seq<MciPatient>, after: seq<MciPatient>): nat
    requires |before| == |after|
  {
    if before == [] then 0
    else
      var n := |before| - 1;
      NewlyDeceased(before[..n], after[..n])
        + (if after[n].status == Deceased && before[n].status != Deceased then 1 else 0)
  }

  /** The deaths a tick counts are exactly the patients it newly marks
      deceased. */
  lemma {:induction false} DeathsAreNewlyDeceased(ps: seq<MciPatient>, seconds: int)
    requires AllHaveCoreVitals(ps)
    ensures Deaths(ps, seconds) == NewlyDeceased(ps, TickAll(ps, seconds))
    decreases |ps|
  {
    if ps != [] {
      var n := |ps| - 1;
      DeathsAreNewlyDeceased(ps[..n], seconds);
      assert TickAll(ps, seconds)[..n] == TickAll(ps[..n], seconds);
    }
  }

  /** The whole state after `tick`. */
  function TickState(st: MciState, seconds: int): MciState
    requires AllHaveCoreVitals(st.patients)
  {
    if !st.active then st
    else st.(timeElapsed := st.timeElapsed + seconds,
             patients := TickAll(st.patients, seconds),
             livesLost := st.livesLost + Deaths(st.patients, seconds))
  }

  ghost predicate ValidState(st: MciState) {
    st.livesLost >= 0 && AllHaveCoreVitals(st.patients)
  }

  /** A tick keeps the state valid, never lowers the death count, and
      a deceased patient stays deceased. */
  lemma TickRules(st: MciState, seconds: int)
    requires ValidState(st)
    ensures ValidState(TickState(st, seconds))
    ensures TickState(st, seconds).livesLost >= st.livesLost
    ensures |TickState(st, seconds).patients| == |st.patients|
    ensures forall i :: 0 <= i < |st.patients| && st.patients[i].status == Deceased ==>
      TickState(st, seconds).patients[i].status == Deceased
    ensures st.active ==>
      TickState(st, seconds).livesLost - st.livesLost == NewlyDeceased(st.patients, TickState(st, seconds).patients)
  {
    if st.active {
      DeathsAreNewlyDeceased(st.patients, seconds);
    }
  }

  class MCIManager {
    var state: MciState

    ghost predicate Valid()
      reads this
    {
      ValidState(state)
    }

    /** An inactive incident with no patients and nothing scored. */
    constructor (initialResources: MciResources)
      ensures Valid()
      ensures state == MciState(false, [], initialResources, 0, 0, 0, 0)
    {
      state := MciState(false, [], initialResources, 0, 0, 0, 0);
    }

    /** `startIncident`: one waiting, yellow-tagged, unassigned patient per
        case, in the cases' order; the clock and the counters carry over. */
    method StartIncident(cases: seq<NarrativeCase.PatientCase>)
      requires Valid()
      requires forall i :: 0 <= i < |cases| ==> HasCoreVitals(cases[i].initialState.vitals)
      modifies this
      ensures Valid()
      ensures state == old(state).(active := true, patients := state.patients)
      ensures |state.patients| == |cases|
      ensures forall i :: 0 <= i < |cases| ==> state.patients[i] == IncidentPatient(cases[i])
    {
      var patients := seq(|cases|, i requires 0 <= i < |cases| => IncidentPatient(cases[i]));
      state := state.(active := true, patients := patients);
    }

    /** `tick`, patient by patient. */
    method Tick(seconds: int)
      requires Valid()
      modifies this
      ensures Valid()
      ensures state == TickState(old(state), seconds)
    {
      if !state.active {
        return;
      }
      var patients := state.patients;
      var lost := state.livesLost;
      for i := 0 to |patients|
        invariant |patients| == |state.patients| && AllHaveCoreVitals(patients)
        invariant forall j :: 0 <= j < i ==> patients[j] == TickPatient(state.patients[j], seconds)
        invariant forall j :: i <= j < |patients| ==> patients[j] == state.patients[j]
        invariant lost == state.livesLost + Deaths(state.patients[..i], seconds)
      {
        assert state.patients[..i + 1][..i] == state.patients[..i];
        var p := patients[i];
        if Dies(p, seconds) {
          lost := lost + 1;
        }
        patients := patients[i := TickPatient(p, seconds)];
      }
      assert state.patients[..|state.patients|] == state.patients;
      assert patients == TickAll(state.patients, seconds);
      state := state.(timeElapsed := state.timeElapsed + seconds, patients := patients, livesLost := lost);
    }

    /** `assignTriage`: an index with no patient changes nothing. */
    method AssignTriage(patientIndex: int, level: TriageLevel)
      requires Valid()
      modifies this
      ensures Valid()
      ensures 0 <= patientIndex < |old(state).patients| ==>
        state == old(state).(patients := old(state).patients[patientIndex :=
          old(state).patients[patientIndex].(triageLevel := level)])
      ensures !(0 <= patientIndex < |old(state).patients|) ==> state == old(state)
    {
      if 0 <= patientIndex < |state.patients| {
        var p := state.patients[patientIndex];
        state := state.(patients := state.patients[patientIndex := p.(triageLevel := level)]);
      }
    }

    /** `assignResource`: fails, changing nothing, for an index with no
        patient or an exhausted resource; otherwise takes one unit of it and,
        for a bed, moves the patient to STABILIZING whatever its status. */
    method AssignResource(patientIndex: int, kind: ResourceType) returns (ok: bool)
      requires Valid()
      modifies this
      ensures Valid()
      ensures ok <==> 0 <= patientIndex < |old(state).patients| && Available(old(state).resources, kind) > 0
      ensures !ok ==> state == old(state)
      ensures ok ==> state.resources == Consume(old(state).resources, kind) && Available(state.resources, kind) >= 0
      ensures ok && kind == Beds ==>
        state == old(state).(resources := state.resources, patients := old(state).patients[patientIndex :=
          old(state).patients[patientIndex].(status := Stabilizing)])
      ensures ok && kind != Beds ==> state == old(state).(resources := state.resources)
    {
      if !(0 <= patientIndex < |state.patients|) || Available(state.resources, kind) <= 0 {
        return false;
      }
      state := state.(resources := Consume(state.resources, kind));
      if kind == Beds {
        var p := state.patients[patientIndex];
        state := state.(patients := state.patients[patientIndex := p.(status := Stabilizing)]);
      }
      return true;
    }

    function GetState(): MciState
      reads this
    {
      state
    }
  }
}
