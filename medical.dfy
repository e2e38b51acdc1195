/** Medical records shared by the engine (types/medical.ts): vital signs,
    patients and patient cases, and the first case of the game, Mrs Martinez
    (data/cases/mrsMartinez.ts). Only the fields the modelled operations read
    or write are kept; readings are reals because the source's numbers are
    not whole (a temperature of 98.6). */
module Medical {

  datatype VitalSigns = VitalSigns(
    heartRate: real, systolic: real, diastolic: real,
    respiratoryRate: real, oxygenSaturation: real, temperature: real)

  datatype Sex = M | F

  datatype PatientStatus =
    | Waiting | InProgress | Critical | Stable | Discharged | Admitted | Transferred | Deceased

  datatype Patient = Patient(
    id: string, name: string, age: int, sex: Sex, chiefComplaint: string,
    vitals: VitalSigns, hiddenCondition: string, acuity: int, currentStatus: PatientStatus)

  datatype CaseDifficulty = Easy | Medium | Hard

  datatype PatientCase = PatientCase(
    id: string, patient: Patient, correctDiagnoses: seq<string>,
    redHerrings: seq<string>, difficulty: CaseDifficulty)

  const MartinezVitals := VitalSigns(96.0, 142.0, 88.0, 18.0, 98.0, 98.6)

  const MartinezPatient := Patient(
    "mrs-martinez", "Elena Martinez", 52, F, "Chest pain × 2 hours",
    MartinezVitals, "Inferior STEMI", 2, InProgress)

  const MartinezCase := PatientCase(
    "case-mrs-martinez", MartinezPatient,
    ["Inferior STEMI", "Acute Coronary Syndrome", "Myocardial Infarction"],
    ["GERD", "Anxiety attack", "Musculoskeletal pain"],
    Easy)
}
