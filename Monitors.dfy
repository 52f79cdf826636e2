/** The static utility class `CoAssist`: threshold monitors that write a
    warning line when a vital sign crosses its threshold, and the BMI
    classification. Each monitor returns the lines it writes. */
module Monitors {
  import opened Output
  import BloodPressure

  const LowOxygenWarning := "Warning: Low oxygen levels! Suggested to use supplemental oxygen."
  const TemperatureWarning := "Warning: Abnormal temperature! Stay hydrated and monitor closely."
  const BloodPressureWarning := "Warning: Abnormal blood pressure! Seek medical attention."

  /** The lowest oxygen saturation (percent) that raises no warning. */
  const MinOxygen: int := 95
  /** The healthy body temperature band, in degrees Celsius, both ends included. */
  const MinTemperature: real := 36.1
  const MaxTemperature: real := 37.2

  /** `OxyMonitor`: one warning line exactly when the level is below 95. */
  function OxyMonitor(level: int): (out: seq<Line>)
    ensures out == [] || out == [Text(LowOxygenWarning)]
    ensures out != [] <==> !(MinOxygen <= level)
  {
    if level < 95 then [Text(LowOxygenWarning)] else []
  }

  /** `TempMonitor`: one warning line exactly when the temperature lies
      outside the healthy band. */
  function TempMonitor(temperature: real): (out: seq<Line>)
    ensures out == [] || out == [Text(TemperatureWarning)]
    ensures out == [] <==> MinTemperature <= temperature <= MaxTemperature
  {
    if temperature < 36.1 || temperature > 37.2 then [Text(TemperatureWarning)] else []
  }

  /** `BPmonitor`: one warning line exactly when the reading is out of range. */
  function BPmonitor(pressure: BloodPressure.Reading): (out: seq<Line>)
    ensures out == [] || out == [Text(BloodPressureWarning)]
    ensures out == [] <==> BloodPressure.Within(BloodPressure.Examined(pressure), BloodPressure.HealthyBand(pressure.focus))
  {
    if BloodPressure.IsOutOfRange(pressure) then [Text(BloodPressureWarning)] else []
  }

  /** Both ends of the oxygen and temperature thresholds are healthy. */
  lemma MonitorBoundaries()
    ensures OxyMonitor(95) == [] && OxyMonitor(94) == [Text(LowOxygenWarning)]
    ensures TempMonitor(36.1) == [] && TempMonitor(37.2) == []
    ensures TempMonitor(36.09) != [] && TempMonitor(37.21) != []
  {
  }

  /** A lower oxygen level warns whenever a higher one does. */
  lemma OxyMonitorMonotone(lower: int, higher: int)
    requires lower <= higher
    ensures OxyMonitor(higher) != [] ==> OxyMonitor(lower) != []
  {
  }

  /** The three outcomes of the BMI classification. */
  datatype BmiClass = Underweight | HealthyRange | Overweight

  /** The classification's thresholds: a BMI below 18.5 is underweight,
      above 24.9 overweight; both thresholds are themselves healthy. */
  function ClassifyBmi(bmi: real): (c: BmiClass)
    ensures c == Underweight <==> bmi < 18.5
    ensures c == Overweight <==> bmi > 24.9
    ensures c == HealthyRange <==> 18.5 <= bmi <= 24.9
  {
    if bmi < 18.5 then Underweight
    else if bmi > 24.9 then Overweight
    else HealthyRange
  }

  /** Position of a class on the BMI scale, lightest first. */
  function Severity(c: BmiClass): nat {
    match c
    case Underweight => 0
    case HealthyRange => 1
    case Overweight => 2
  }

  /** A larger BMI never lands in a lighter class. */
  lemma ClassifyBmiMonotone(b1: real, b2: real)
    requires b1 <= b2
    ensures Severity(ClassifyBmi(b1)) <= Severity(ClassifyBmi(b2))
  {
  }

  /** The boundary cases of the classification. */
  lemma ClassifyBmiBoundaries()
    ensures ClassifyBmi(18.5) == HealthyRange && ClassifyBmi(18.49) == Underweight
    ensures ClassifyBmi(24.9) == HealthyRange && ClassifyBmi(24.91) == Overweight
  {
  }

  /** The advice line written for each class. */
  function BmiAdvice(c: BmiClass): string {
    match c
    case Underweight => "Underweight. Consider consulting a nutritionist."
    case Overweight => "Overweight. Recommended to start a fitness regime."
    case HealthyRange => "BMI is within the healthy range."
  }

  /** The advice line identifies the class it was written for. */
  lemma BmiAdviceDistinct(c1: BmiClass, c2: BmiClass)
    ensures BmiAdvice(c1) == BmiAdvice(c2) <==> c1 == c2
  {
  }

  /** Rank of a line in the fixed monitoring order: oxygen, temperature,
      blood pressure, then anything else (the category label). */
  function MonitorOrder(l: Line): nat {
    if l == Text(LowOxygenWarning) then 0
    else if l == Text(TemperatureWarning) then 1
    else if l == Text(BloodPressureWarning) then 2
    else 3
  }
}
