/** The incoming-patient queue (utils/caseGenerator.ts): the chance that a
    new case arrives on a tick, and the case that arrives. The random id and
    the random placeholder pick are parameters. */
module CaseGenerator {
  import opened Common
  import opened Medical

  datatype Placeholder = Placeholder(name: string, age: int, sex: Sex, complaint: string, acuity: int)

  const Placeholders: seq<Placeholder> := [
    Placeholder("John Smith", 45, M, "Back pain", 4),
    Placeholder("Emma Wilson", 28, F, "Migraine", 3),
    Placeholder("Robert Chen", 62, M, "Shortness of breath", 2),
    Placeholder("Sarah Johnson", 35, F, "Abdominal pain", 3),
    Placeholder("Michael Brown", 50, M, "Chest pain", 2)
  ]

  /** `generateCase`. Shift 1 at difficulty 1 always brings Mrs Martinez.
      Otherwise the case is hers with fresh `case-`/`patient-` ids and the
      demographics, complaint and acuity of placeholder `pick`; its vitals,
      hidden condition, diagnoses and red herrings stay hers. */
  function GenerateCase(shiftNumber: int, difficulty: int, randomId: string, pick: nat): (c: PatientCase)
    requires pick < |Placeholders|
    ensures shiftNumber == 1 && difficulty == 1 ==> c == MartinezCase
    ensures !(shiftNumber == 1 && difficulty == 1) ==>
      && c.id == "case-" + randomId && c.patient.id == "patient-" + randomId
      && c.patient.name == Placeholders[pick].name && c.patient.age == Placeholders[pick].age
      && c.patient.sex == Placeholders[pick].sex && c.patient.chiefComplaint == Placeholders[pick].complaint
      && c.patient.acuity == Placeholders[pick].acuity
      && c == MartinezCase.(id := c.id, patient := c.patient)
      && c.patient == MartinezPatient.(id := c.patient.id, name := c.patient.name, age := c.patient.age,
                                       sex := c.patient.sex, chiefComplaint := c.patient.chiefComplaint,
                                       acuity := c.patient.acuity)
  {
    if shiftNumber == 1 && difficulty == 1 then MartinezCase
    else
      var template := Placeholders[pick];
      var patient := MartinezCase.patient.(
        id := "patient-" + randomId, name := template.name, age := template.age,
        sex := template.sex, chiefComplaint := template.complaint, acuity := template.acuity);
      MartinezCase.(id := "case-" + randomId, patient := patient)
  }

  /** Every generated patient has an acuity between 1 and 5, the range the
      patient record allows. */
  lemma GeneratedAcuityInRange(shiftNumber: int, difficulty: int, randomId: string, pick: nat)
    requires pick < |Placeholders|
    ensures 1 <= GenerateCase(shiftNumber, difficulty, randomId, pick).patient.acuity <= 5
  {
  }

  /** `getIncomingCaseChance`: 10% a tick, plus 40% when no one is waiting or
      20% below three patients, and none at five or more. */
  function IncomingCaseChance(timeRemaining: int, currentLoad: int): (p: real)
    ensures 0.0 <= p <= 0.5
    ensures currentLoad == 0 ==> p == 0.5
    ensures 1 <= currentLoad <= 2 ==> p == 0.3
    ensures 3 <= currentLoad <= 4 ==> p == 0.1
    ensures currentLoad >= 5 ==> p == 0.0
  {
    var base := 0.1;
    var chance := if currentLoad == 0 then base + 0.4 else if currentLoad < 3 then base + 0.2 else base;
    if currentLoad >= 5 then 0.0 else chance
  }

  /** The chance ignores the time left and never rises with the load (over
      the loads a queue can have). */
  lemma ChanceFallsWithLoad(t1: int, t2: int, load1: nat, load2: nat)
    requires load1 <= load2
    ensures IncomingCaseChance(t2, load2) <= IncomingCaseChance(t1, load1)
  {
  }
}
