/** The abstract class `Patient` and its overrides `CriticalPatient`,
    `StablePatient` and `ChronicPatient`, as one record carrying a category
    tag; plus `CoAssist.BMIcalculator`, which reads a patient. A patient is
    never changed after construction, so it is a value. */
module Patients {
  import opened Wrappers
  import opened Output
  import opened Monitors
  import BloodPressure

  /** Which subclass the patient was constructed as. */
  datatype Category = Critical | Stable | Chronic

  /** Weight in kg, height in m and temperature in degrees Celsius are C#
      `decimal`s, modelled as exact reals. */
  datatype Patient = Patient(
    age: int,
    name: string,
    weight: real,
    height: real,
    oxygen: int,
    temperature: real,
    bloodPressure: BloodPressure.Reading,
    category: Category)

  /** The line each override writes after the shared checks. */
  function CategoryLabel(c: Category): string {
    match c
    case Critical => "Critical Patient Monitoring"
    case Stable => "Stable Patient Monitoring"
    case Chronic => "Chronic Patient Monitoring"
  }

  /** The label line identifies the category it was written for. */
  lemma CategoryLabelDistinct(c1: Category, c2: Category)
    ensures CategoryLabel(c1) == CategoryLabel(c2) <==> c1 == c2
  {
  }

  /** True of exactly the three category label lines. */
  predicate IsCategoryLabel(l: Line) {
    l == Text(CategoryLabel(Critical)) || l == Text(CategoryLabel(Stable)) || l == Text(CategoryLabel(Chronic))
  }

  /** `CalculateBMI`: weight over height squared. Dividing a `decimal` by
      zero throws, so a zero height gives no value. */
  function CalculateBmi(p: Patient): (bmi: Option<real>)
    ensures bmi.None? <==> p.height == 0.0
    ensures bmi.Some? ==> bmi.value * (p.height * p.height) == p.weight
  {
    if p.height == 0.0 then None
    else Some(p.weight / (p.height * p.height))
  }

  /** `CheckVitals` and its three overrides: the oxygen, temperature and
      blood-pressure monitors in that order, then the category's label. */
  function CheckVitals(p: Patient): (out: seq<Line>)
    ensures 1 <= |out| <= 4
    ensures out[|out| - 1] == Text(CategoryLabel(p.category))
    ensures Text(LowOxygenWarning) in out <==> p.oxygen < 95
    ensures Text(TemperatureWarning) in out <==> p.temperature < 36.1 || p.temperature > 37.2
    ensures Text(BloodPressureWarning) in out <==> BloodPressure.IsOutOfRange(p.bloodPressure)
    ensures forall i, j :: 0 <= i < j < |out| ==> MonitorOrder(out[i]) < MonitorOrder(out[j])
    ensures forall i :: 0 <= i < |out| ==> (IsCategoryLabel(out[i]) <==> i == |out| - 1)
  {
    ReportShape(OxyMonitor(p.oxygen), TempMonitor(p.temperature), BPmonitor(p.bloodPressure), p.category);
    ReportMembers(OxyMonitor(p.oxygen), TempMonitor(p.temperature), BPmonitor(p.bloodPressure), p.category);
    OxyMonitor(p.oxygen) + TempMonitor(p.temperature) + BPmonitor(p.bloodPressure)
      + [Text(CategoryLabel(p.category))]
  }

  /** Where each kind of line sits in the monitoring order. */
  lemma LineKinds(c: Category)
    ensures MonitorOrder(Text(LowOxygenWarning)) == 0 && !IsCategoryLabel(Text(LowOxygenWarning))
    ensures MonitorOrder(Text(TemperatureWarning)) == 1 && !IsCategoryLabel(Text(TemperatureWarning))
    ensures MonitorOrder(Text(BloodPressureWarning)) == 2 && !IsCategoryLabel(Text(BloodPressureWarning))
    ensures MonitorOrder(Text(CategoryLabel(c))) == 3 && IsCategoryLabel(Text(CategoryLabel(c)))
  {
  }

  /** The three optional warnings, in monitoring order, are strictly
      ordered and none of them is a label. */
  lemma WarningsShape(o: seq<Line>, t: seq<Line>, b: seq<Line>, c: Category)
    requires o == [] || o == [Text(LowOxygenWarning)]
    requires t == [] || t == [Text(TemperatureWarning)]
    requires b == [] || b == [Text(BloodPressureWarning)]
    ensures var ws := o + t + b;
      (forall i, j :: 0 <= i < j < |ws| ==> MonitorOrder(ws[i]) < MonitorOrder(ws[j])) &&
      (forall i :: 0 <= i < |ws| ==> MonitorOrder(ws[i]) < 3 && !IsCategoryLabel(ws[i]))
  {
    LineKinds(c);
  }

  /** The lines of any report made of the three optional warnings, in
      monitoring order, and one label are strictly ordered, and only the
      last is a label. */
  lemma ReportShape(o: seq<Line>, t: seq<Line>, b: seq<Line>, c: Category)
    requires o == [] || o == [Text(LowOxygenWarning)]
    requires t == [] || t == [Text(TemperatureWarning)]
    requires b == [] || b == [Text(BloodPressureWarning)]
    ensures var out := o + t + b + [Text(CategoryLabel(c))];
      (forall i, j :: 0 <= i < j < |out| ==> MonitorOrder(out[i]) < MonitorOrder(out[j])) &&
      (forall i :: 0 <= i < |out| ==> (IsCategoryLabel(out[i]) <==> i == |out| - 1))
  {
    LineKinds(c);
    WarningsShape(o, t, b, c);
  }

  /** Each warning appears in such a report exactly when its monitor wrote it. */
  lemma ReportMembers(o: seq<Line>, t: seq<Line>, b: seq<Line>, c: Category)
    requires o == [] || o == [Text(LowOxygenWarning)]
    requires t == [] || t == [Text(TemperatureWarning)]
    requires b == [] || b == [Text(BloodPressureWarning)]
    ensures var out := o + t + b + [Text(CategoryLabel(c))];
      1 <= |out| <= 4 && out[|out| - 1] == Text(CategoryLabel(c)) &&
      (Text(LowOxygenWarning) in out <==> o != []) &&
      (Text(TemperatureWarning) in out <==> t != []) &&
      (Text(BloodPressureWarning) in out <==> b != [])
  {
    LineKinds(c);
    var out := o + t + b + [Text(CategoryLabel(c))];
    assert forall l :: l in out <==> l in o || l in t || l in b || l == Text(CategoryLabel(c));
  }

  /** The category label line of a patient's report. */
  function LabelLine(p: Patient): Line {
    Text(CategoryLabel(p.category))
  }

  /** The line written first for each patient by `DisplayAllPatients`. */
  function NameLine(name: string): Line {
    Text("Patient Name: " + name)
  }

  /** `CoAssist.BMIcalculator`: the BMI line followed by the advice for its
      class; nothing when the BMI division throws. */
  function BmiCalculator(p: Patient): (out: Option<seq<Line>>)
    ensures out.None? <==> p.height == 0.0
    ensures out.Some? ==> |out.value| == 2 && out.value[0].BmiFigure?
    ensures out.Some? ==> out.value[0].name == p.name
    ensures out.Some? ==> out.value[0].bmi * (p.height * p.height) == p.weight
    ensures out.Some? ==> out.value[1] == Text(BmiAdvice(ClassifyBmi(out.value[0].bmi)))
  {
    match CalculateBmi(p)
    case None => None
    case Some(bmi) => Some([BmiFigure(p.name, bmi), Text(BmiAdvice(ClassifyBmi(bmi)))])
  }
}
