/** The decision rules of `Program.AddNewPatient`, applied to fields that
    have already been read and parsed from the console. */
module Admission {
  import opened Wrappers
  import opened Output
  import opened Monitors
  import opened Patients
  import opened Registry
  import BloodPressure

  /** The parsed answers to the console prompts. */
  datatype Intake = Intake(
    name: string,
    age: int,
    weight: real,
    height: real,
    oxygen: int,
    temperature: real,
    systolic: int,
    diastolic: int,
    patientType: int)

  const AddedMessage := "Patient added successfully."
  const InvalidTypeMessage := "Invalid patient type selected."

  /** The focus rule: a systolic value above 120 makes a `Sys` reading,
      anything else a `Dia` reading; both values are stored either way. */
  function ChooseReading(systolic: int, diastolic: int): (r: BloodPressure.Reading)
    ensures r.systolic == systolic && r.diastolic == diastolic
    ensures r.focus == BloodPressure.Systolic <==> systolic > 120
  {
    if systolic > 120 then BloodPressure.Reading(systolic, diastolic, BloodPressure.Systolic)
    else BloodPressure.Reading(systolic, diastolic, BloodPressure.Diastolic)
  }

  /** The number of each category in the patient-type menu. */
  function MenuNumber(c: Category): int {
    match c
    case Critical => 1
    case Stable => 2
    case Chronic => 3
  }

  /** The category switch: 1, 2 and 3 select a category, anything else none. */
  function PatientType(selector: int): (c: Option<Category>)
    ensures c.None? <==> !(1 <= selector <= 3)
    ensures c.Some? ==> MenuNumber(c.value) == selector
  {
    if selector == 1 then Some(Critical)
    else if selector == 2 then Some(Stable)
    else if selector == 3 then Some(Chronic)
    else None
  }

  /** Selecting a category's own menu number gives that category back. */
  lemma PatientTypeRoundTrip(c: Category)
    ensures PatientType(MenuNumber(c)) == Some(c)
  {
  }

  /** The patient `AddNewPatient` constructs: none for an invalid type,
      otherwise one holding the fields as entered. */
  function NewPatient(f: Intake): (r: Option<Patient>)
    ensures r.None? <==> !(1 <= f.patientType <= 3)
    ensures r.Some? ==> MenuNumber(r.value.category) == f.patientType
    ensures r.Some? ==> r.value.name == f.name && r.value.age == f.age
    ensures r.Some? ==> r.value.weight == f.weight && r.value.height == f.height
    ensures r.Some? ==> r.value.oxygen == f.oxygen && r.value.temperature == f.temperature
    ensures r.Some? ==> r.value.bloodPressure.systolic == f.systolic
    ensures r.Some? ==> r.value.bloodPressure.diastolic == f.diastolic
    ensures r.Some? ==> (r.value.bloodPressure.focus == BloodPressure.Systolic <==> f.systolic > 120)
  {
    var reading := ChooseReading(f.systolic, f.diastolic);
    match PatientType(f.patientType)
    case None => None
    case Some(c) => Some(Patient(f.age, f.name, f.weight, f.height, f.oxygen, f.temperature, reading, c))
  }

  /** `AddNewPatient` after reading its input: adds the constructed patient
      at the end of the family and confirms, or rejects an invalid type and
      leaves the family as it was. */
  method AddNewPatient(family: Family, f: Intake) returns (reply: Line)
    modifies family
    ensures NewPatient(f).Some? ==>
      family.patients == old(family.patients) + [NewPatient(f).value] && reply == Text(AddedMessage)
    ensures NewPatient(f).None? ==>
      family.patients == old(family.patients) && reply == Text(InvalidTypeMessage)
  {
    var patient := NewPatient(f);
    if patient.Some? {
      family.AddPatient(patient.value);
      reply := Text(AddedMessage);
    } else {
      reply := Text(InvalidTypeMessage);
    }
  }

  /** Through `AddNewPatient`, a reading is out of range exactly when the
      systolic value is above 120 or the diastolic value is outside 60..80:
      a systolic value below 90 alone never raises the warning, because
      such a reading is always built with the diastolic focus. */
  lemma ChosenReadingVerdict(systolic: int, diastolic: int)
    ensures BloodPressure.IsOutOfRange(ChooseReading(systolic, diastolic))
      <==> systolic > 120 || diastolic < 60 || diastolic > 80
  {
  }

  /** Every admitted patient with a systolic value above 120 gets the
      blood-pressure warning whenever their vitals are checked. */
  lemma HighSystolicAlwaysWarned(f: Intake)
    requires NewPatient(f).Some? && f.systolic > 120
    ensures Text(BloodPressureWarning) in CheckVitals(NewPatient(f).value)
  {
  }

  /** The worked example: a stable patient with low oxygen, a fever and a
      systolic value of 125 gets all three warnings and the stable label,
      and a BMI of 70 / 1.75^2 in the healthy range. */
  lemma AdmissionExample()
    ensures var f := Intake("Ann", 40, 70.0, 1.75, 90, 38.0, 125, 70, 2);
      NewPatient(f).Some? &&
      CheckVitals(NewPatient(f).value) == [
        Text(LowOxygenWarning), Text(TemperatureWarning), Text(BloodPressureWarning),
        Text(CategoryLabel(Stable))] &&
      BmiCalculator(NewPatient(f).value) ==
        Some([BmiFigure("Ann", 70.0 / 3.0625), Text(BmiAdvice(HealthyRange))])
  {
    var f := Intake("Ann", 40, 70.0, 1.75, 90, 38.0, 125, 70, 2);
    assert 1.75 * 1.75 == 3.0625;
    assert 18.5 <= 70.0 / 3.0625 <= 24.9;
  }
}
