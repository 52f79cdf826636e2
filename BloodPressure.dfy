/** The abstract blood-pressure check `BP` and its two subclasses, `Sys`
    and `Dia`, as one datatype carrying a focus tag. */
module BloodPressure {

  /** Which of the two stored values a reading examines: `Sys` examines the
      systolic value, `Dia` the diastolic one. */
  datatype Focus = Systolic | Diastolic

  /** A reading always stores both values, whatever its focus. */
  datatype Reading = Reading(systolic: int, diastolic: int, focus: Focus)

  /** A closed interval of healthy values. */
  datatype Band = Band(lo: int, hi: int)

  predicate Within(v: int, b: Band) {
    b.lo <= v <= b.hi
  }

  /** The healthy band of each focus. */
  function HealthyBand(f: Focus): Band {
    match f
    case Systolic => Band(90, 120)
    case Diastolic => Band(60, 80)
  }

  /** The stored value the focus selects. */
  function Examined(r: Reading): int {
    match r.focus
    case Systolic => r.systolic
    case Diastolic => r.diastolic
  }

  /** `IsOutOfRange` of `Dia` and of `Sys`: the examined value lies outside
      the healthy band of the reading's focus. */
  function IsOutOfRange(r: Reading): (out: bool)
    ensures out <==> !Within(Examined(r), HealthyBand(r.focus))
  {
    match r.focus
    case Diastolic => r.diastolic < 60 || r.diastolic > 80
    case Systolic => r.systolic < 90 || r.systolic > 120
  }

  /** A `Dia` reading's verdict depends on the diastolic value alone. */
  lemma DiastolicVerdict(s1: int, s2: int, d: int)
    ensures IsOutOfRange(Reading(s1, d, Diastolic)) == IsOutOfRange(Reading(s2, d, Diastolic))
    ensures IsOutOfRange(Reading(s1, d, Diastolic)) <==> d < 60 || d > 80
  {
  }

  /** A `Sys` reading's verdict depends on the systolic value alone. */
  lemma SystolicVerdict(s: int, d1: int, d2: int)
    ensures IsOutOfRange(Reading(s, d1, Systolic)) == IsOutOfRange(Reading(s, d2, Systolic))
    ensures IsOutOfRange(Reading(s, d1, Systolic)) <==> s < 90 || s > 120
  {
  }

  /** The band edges themselves are healthy; one step past them is not. */
  lemma BandEdges(other: int)
    ensures !IsOutOfRange(Reading(other, 60, Diastolic)) && !IsOutOfRange(Reading(other, 80, Diastolic))
    ensures IsOutOfRange(Reading(other, 59, Diastolic)) && IsOutOfRange(Reading(other, 81, Diastolic))
    ensures !IsOutOfRange(Reading(90, other, Systolic)) && !IsOutOfRange(Reading(120, other, Systolic))
    ensures IsOutOfRange(Reading(89, other, Systolic)) && IsOutOfRange(Reading(121, other, Systolic))
  {
  }
}
