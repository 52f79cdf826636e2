# CoAssist patient monitor, modelled in Dafny

CoAssist is a small console tool. It registers patients with their vital signs and writes warnings when a vital sign crosses its threshold. This project models the non-interactive part of `CoAssit.cs`:

- the blood-pressure readings `Sys` and `Dia`, as one `Reading` datatype with a focus tag (module `BloodPressure`);
- the static monitors of `CoAssist`: oxygen, temperature, blood pressure, and the BMI classification (module `Monitors`);
- `Patient` with its `CriticalPatient`, `StablePatient` and `ChronicPatient` overrides, as one record with a `Category` tag (module `Patients`);
- the `Family` registry, as a class whose `patients` field the methods update (module `Registry`);
- the decision rules of `AddNewPatient`, applied to fields that are already parsed (module `Admission`).

Every line the program writes with `Console.WriteLine` is an element of a returned `seq<Line>`. A `Line` is either verbatim text or the BMI figure line. `decimal` values (weight, height, temperature, BMI) are exact reals.

The code accepts any height. On a zero height the `decimal` division throws `DivideByZeroException`. Nothing catches it, so `DisplayAllPatients` stops after that patient's name line. The model returns no BMI (`None`) and records a run that stopped (`Shown.completed == false`). A negative height computes a BMI as usual.

## Model

| member | source | states |
|---|---|---|
| BloodPressure.IsOutOfRange | CoAssit.cs:106-137 | a reading is out of range exactly when the value its focus examines lies outside that focus's healthy band (systolic 90..120, diastolic 60..80) |
| BloodPressure.DiastolicVerdict | CoAssit.cs:124-127 | a `Dia` reading is out of range iff diastolic < 60 or > 80, and the systolic value never changes the verdict |
| BloodPressure.SystolicVerdict | CoAssit.cs:134-137 | a `Sys` reading is out of range iff systolic < 90 or > 120, and the diastolic value never changes the verdict |
| BloodPressure.BandEdges | CoAssit.cs:124-137 | 60, 80, 90 and 120 are healthy; 59, 81, 89 and 121 are not |
| Monitors.OxyMonitor | CoAssit.cs:150-156 | writes either nothing or the low-oxygen warning, and the warning exactly when the level is below 95 |
| Monitors.TempMonitor | CoAssit.cs:158-164 | writes either nothing or the temperature warning, and nothing exactly when 36.1 <= t <= 37.2 |
| Monitors.BPmonitor | CoAssit.cs:142-148 | writes either nothing or the blood-pressure warning, and nothing exactly when the examined value is inside its band |
| Monitors.MonitorBoundaries | CoAssit.cs:150-164 | an oxygen level of 95 and temperatures of 36.1 and 37.2 raise no warning; 94, 36.09 and 37.21 do |
| Monitors.OxyMonitorMonotone | CoAssit.cs:152 | a lower oxygen level warns whenever a higher one does |
| Monitors.ClassifyBmi | CoAssit.cs:170-175 | exactly one of three outcomes: underweight iff bmi < 18.5, overweight iff bmi > 24.9, healthy iff 18.5 <= bmi <= 24.9 |
| Monitors.ClassifyBmiMonotone | CoAssit.cs:170-175 | a larger BMI never lands in a lighter class |
| Monitors.ClassifyBmiBoundaries | CoAssit.cs:170-175 | 18.5 and 24.9 are healthy, 18.49 is underweight, 24.91 is overweight |
| Monitors.BmiAdviceDistinct | CoAssit.cs:171-175 | the three advice lines differ, so the advice written identifies the BMI class |
| Patients.CategoryLabelDistinct | CoAssit.cs:78-102 | the three category labels differ, so the label written identifies the category |
| Patients.CalculateBmi | CoAssit.cs:29-32 | no value iff the height is zero (the division throws); otherwise the BMI times height squared gives back the weight |
| Patients.CheckVitals | CoAssit.cs:34-39 | with the overrides at lines 75-103: one to four lines; the last is the category's label; each warning is present iff its threshold is crossed; the lines are strictly in the order oxygen, temperature, blood pressure, label; only the last line is a label |
| Patients.LineKinds | CoAssit.cs:146-162 | the three warnings rank 0, 1, 2 in the monitoring order and are not labels; every category label ranks 3 and is a label |
| Patients.WarningsShape | CoAssit.cs:36-38 | the optional warnings written in the base `CheckVitals` are strictly ordered and none is a label |
| Patients.ReportShape | CoAssit.cs:75-79 | adding a category label after the warnings keeps the lines strictly ordered, and the label is the only label line |
| Patients.ReportMembers | CoAssit.cs:87-91 | such a report has one to four lines, ends with the label, and holds each warning iff its monitor wrote it |
| Patients.BmiCalculator | CoAssit.cs:166-176 | nothing iff the height is zero; otherwise the BMI line for the patient's name with weight / height^2, then the advice for that BMI's class |
| Registry.DisplayPatient | CoAssit.cs:61-66 | one patient's lines: the name line first; iff the height is nonzero, four lines whose middle two are `BMIcalculator`'s (the BMI figure for the patient's name with BMI times height squared equal to the weight, then the advice for that BMI's class) and whose last is blank; otherwise only the name line and the run stops |
| Registry.LabelsOf | CoAssit.cs:75-103 | one label line per patient, the k-th being the k-th patient's |
| Registry.CheckAllReport | CoAssit.cs:51-57 | reference definition of what `CheckAllPatients` writes: the patients' reports concatenated in insertion order; an empty family writes nothing |
| Registry.DisplayReport | CoAssit.cs:59-67 | reference definition of what `DisplayAllPatients` writes, stopping at the first zero height; a run that stopped has written at least the name line of the patient it stopped at |
| Registry.Family.constructor | CoAssit.cs:44 | a new family has no patients |
| Registry.Family.AddPatient | CoAssit.cs:46-49 | the list becomes the old list plus the new patient at the end; no duplicate check |
| Registry.Family.CheckAllPatients | CoAssit.cs:51-57 | writes exactly `CheckAllReport` of the patients: each patient's report in insertion order |
| Registry.Family.DisplayAllPatients | CoAssit.cs:59-67 | writes exactly `DisplayReport` of the patients, and says whether the loop ran to the end |
| Registry.DisplayStep | CoAssit.cs:61-66 | while the run goes on, the next patient adds their own lines |
| Registry.AbortSticks | CoAssit.cs:64 | once `BMIcalculator` has thrown, later patients add no lines |
| Registry.CheckAllLength | CoAssit.cs:51-57 | n patients give between n and 4n lines |
| Registry.CheckAllAppend | CoAssit.cs:46-57 | after adding a patient, the check-all output is the old output followed by the new patient's report |
| Registry.LabelsAppend | CoAssit.cs:53-56 | the label lines of two runs written one after the other are the labels of the first, then of the second |
| Registry.LabelsStep | CoAssit.cs:53-56 | appending a report with one label extends the labels by that label |
| Registry.LabelsOfLastOnly | CoAssit.cs:75-103 | a run whose only label is its last line has just that label |
| Registry.LabelsOfReport | CoAssit.cs:75-103 | one patient's report has exactly one label, its category's |
| Registry.NoLabels | CoAssit.cs:36-38 | a run of warnings has no labels |
| Registry.CheckAllVisitsInOrder | CoAssit.cs:51-57 | the label lines `CheckAllPatients` writes are the patients' labels, one per patient, in insertion order: every patient is checked exactly once, in order |
| Registry.DisplayCompletes | CoAssit.cs:59-67 | the display runs to the end iff no patient has a zero height |
| Registry.DisplayExtend | CoAssit.cs:61-66 | over nonzero heights, the last patient's block follows the lines of the patients before |
| Registry.DisplayLength | CoAssit.cs:59-67 | over nonzero heights, four lines per patient |
| Registry.DisplayLastBlock | CoAssit.cs:61-66 | over nonzero heights, the last four lines are the last patient's |
| Registry.DisplayEarlierBlock | CoAssit.cs:61-66 | over nonzero heights, adding a patient keeps every earlier block of four lines |
| Registry.DisplayBlock | CoAssit.cs:59-67 | over nonzero heights, the k-th block of four lines is the k-th patient's |
| Registry.DisplayVisitsInOrder | CoAssit.cs:59-67 | over nonzero heights, the run completes and holds four lines per patient, the k-th block being the k-th patient's: every patient is shown exactly once, in order |
| Registry.DisplayStopsAtZeroHeight | CoAssit.cs:59-67 | the first patient with a zero height ends the run right after their name line |
| Admission.ChooseReading | CoAssit.cs:244 | both values are stored; the reading has the systolic focus iff systolic > 120 |
| Admission.PatientType | CoAssit.cs:246-252 | no category iff the selector is outside 1..3; otherwise the category whose menu number is the selector |
| Admission.PatientTypeRoundTrip | CoAssit.cs:246-252 | a category's own menu number selects that category |
| Admission.NewPatient | CoAssit.cs:244-252 | no patient iff the type is outside 1..3; otherwise a patient with the entered fields, the matching category, and the systolic focus iff systolic > 120 |
| Admission.AddNewPatient | CoAssit.cs:244-262 | a valid type appends the new patient and confirms; an invalid type leaves the family unchanged and writes the rejection |
| Admission.ChosenReadingVerdict | CoAssit.cs:244 | a reading built by the focus rule is out of range iff systolic > 120 or diastolic is outside 60..80, so a low systolic value alone is never flagged |
| Admission.HighSystolicAlwaysWarned | CoAssit.cs:244 | an admitted patient with systolic > 120 always gets the blood-pressure warning |
| Admission.AdmissionExample | CoAssit.cs:244-252 | a stable patient with oxygen 90, temperature 38.0 and systolic 125 gets all three warnings and the stable label; weight 70 and height 1.75 give a healthy BMI of 70 / 3.0625 |

## Left out

- The menu loop in `Main` and the console prompts and reads in `AddNewPatient` (lines 181-243) are interactive I/O. The model takes the already-parsed fields as an `Intake` value.
- Failures of `int.Parse` and `decimal.Parse` happen while reading input, so they are not modelled.
- Patients.BmiCalculator: the `{bmi:F2}` two-decimal rendering is not modelled. The BMI line keeps the unrounded value. The classification uses the unrounded value too, as in the code.
- Patients.CalculateBmi: `decimal` division rounds to 28-29 significant digits, and the model divides exactly. `decimal` overflow is not modelled either: a huge weight or height can throw `OverflowException`. A tiny nonzero height whose square rounds to zero is treated as nonzero, although the code would throw.
- Oxygen, age, systolic and diastolic are 32-bit `int`s in the code and unbounded `int`s here. The code only compares them and never does arithmetic on them, so nothing can wrap.
- The `Name` property is just the `name` field.
- Console output is modelled as the returned sequence of lines, not as a real side effect. The line "Patient added successfully." or "Invalid patient type selected." is the value `AddNewPatient` returns.
- An uncaught `DivideByZeroException` ends the whole program. The model records only that `DisplayAllPatients` stopped (`completed == false`).
