/** The class `Family`: an append-only list of patients and the two loops
    that visit them in insertion order. */
module Registry {
  import opened Wrappers
  import opened Output
  import opened Patients

  /** What `DisplayAllPatients` wrote, and whether it ran to the end: the
      BMI division throws on a zero height, and the exception ends the run
      after that patient's name line. */
  datatype Shown = Shown(lines: seq<Line>, completed: bool)

  /** What `CheckAllPatients` writes: each patient's `CheckVitals` report,
      in insertion order. */
  function CheckAllReport(ps: seq<Patient>): (r: seq<Line>)
    ensures ps == [] ==> r == []
  {
    if ps == [] then []
    else CheckAllReport(ps[..|ps| - 1]) + CheckVitals(ps[|ps| - 1])
  }

  /** What the body of `DisplayAllPatients`' loop writes for one patient:
      the name line, then `BMIcalculator`'s two lines and a blank line, or
      only the name line when the BMI division throws. */
  function DisplayPatient(p: Patient): (s: Shown)
    ensures s.completed <==> p.height != 0.0
    ensures |s.lines| == (if s.completed then 4 else 1)
    ensures s.lines[0] == NameLine(p.name)
    ensures s.completed ==> s.lines[1].BmiFigure? && s.lines[1].name == p.name
    ensures s.completed ==> s.lines[1..3] == BmiCalculator(p).value
    ensures s.completed ==> s.lines[3] == Blank
  {
    match BmiCalculator(p)
    case None => Shown([NameLine(p.name)], false)
    case Some(bmiLines) => Shown([NameLine(p.name)] + bmiLines + [Blank], true)
  }

  /** What `DisplayAllPatients` writes for a list of patients. */
  function DisplayReport(ps: seq<Patient>): (r: Shown)
    ensures !r.completed ==> r.lines != []
  {
    if ps == [] then Shown([], true)
    else
      var before := DisplayReport(ps[..|ps| - 1]);
      if !before.completed then before
      else
        var last := DisplayPatient(ps[|ps| - 1]);
        Shown(before.lines + last.lines, last.completed)
  }

  /** The category labels of a run of lines, in order. */
  function Labels(lines: seq<Line>): seq<Line> {
    if lines == [] then []
    else Labels(lines[..|lines| - 1]) + (if IsCategoryLabel(lines[|lines| - 1]) then [lines[|lines| - 1]] else [])
  }

  /** The label line of each patient, in insertion order. */
  function LabelsOf(ps: seq<Patient>): (r: seq<Line>)
    ensures |r| == |ps|
    ensures forall k :: 0 <= k < |ps| ==> r[k] == LabelLine(ps[k])
  {
    if ps == [] then [] else LabelsOf(ps[..|ps| - 1]) + [LabelLine(ps[|ps| - 1])]
  }

  class Family {
    var patients: seq<Patient>

    /** A new family has no patients. */
    constructor ()
      ensures patients == []
    {
      patients := [];
    }

    /** `AddPatient`: appends at the end, with no duplicate check. */
    method AddPatient(patient: Patient)
      modifies this
      ensures patients == old(patients) + [patient]
    {
      patients := patients + [patient];
    }

    /** `CheckAllPatients`: runs `CheckVitals` on every patient in turn. */
    method CheckAllPatients() returns (out: seq<Line>)
      ensures out == CheckAllReport(patients)
    {
      out := [];
      var i := 0;
      while i < |patients|
        invariant 0 <= i <= |patients|
        invariant out == CheckAllReport(patients[..i])
      {
        CheckAllStep(patients, i);
        out := out + CheckVitals(patients[i]);
        i := i + 1;
      }
      assert patients[..i] == patients;
    }

    /** `DisplayAllPatients`: for every patient in turn, the name line, then
        the BMI lines and a blank line. A zero height makes the BMI division
        throw, which ends the loop with that patient's name as the last line. */
    method DisplayAllPatients() returns (out: seq<Line>, completed: bool)
      ensures Shown(out, completed) == DisplayReport(patients)
    {
      out, completed := [], true;
      var i := 0;
      while i < |patients| && completed
        invariant 0 <= i <= |patients|
        invariant Shown(out, completed) == DisplayReport(patients[..i])
      {
        var patient := patients[i];
        DisplayStep(patients, i);
        out := out + [NameLine(patient.name)];
        var bmiLines := BmiCalculator(patient);
        if bmiLines.None? {
          completed := false;
        } else {
          out := out + bmiLines.value + [Blank];
        }
        i := i + 1;
      }
      if i < |patients| {
        AbortSticks(patients, i);
      } else {
        assert patients[..i] == patients;
      }
    }
  }

  /** One more patient adds their report after the reports before. */
  lemma CheckAllStep(ps: seq<Patient>, i: nat)
    requires i < |ps|
    ensures CheckAllReport(ps[..i + 1]) == CheckAllReport(ps[..i]) + CheckVitals(ps[i])
  {
    assert ps[..i + 1][..i] == ps[..i];
  }

  /** While the run goes on, the next patient adds their own lines. */
  lemma DisplayStep(ps: seq<Patient>, i: nat)
    requires i < |ps| && DisplayReport(ps[..i]).completed
    ensures DisplayReport(ps[..i + 1]) ==
      Shown(DisplayReport(ps[..i]).lines + DisplayPatient(ps[i]).lines, DisplayPatient(ps[i]).completed)
  {
    assert ps[..i + 1][..i] == ps[..i];
  }

  /** Once the run has stopped, later patients add nothing. */
  lemma {:induction false} AbortSticks(ps: seq<Patient>, k: nat)
    requires k <= |ps|
    requires !DisplayReport(ps[..k]).completed
    ensures DisplayReport(ps) == DisplayReport(ps[..k])
    decreases |ps| - k
  {
    if k == |ps| {
      assert ps[..k] == ps;
    } else {
      var init := ps[..|ps| - 1];
      assert init[..k] == ps[..k];
      AbortSticks(init, k);
    }
  }

  /** A patient added last contributes its report after everything before. */
  lemma CheckAllAppend(ps: seq<Patient>, p: Patient)
    ensures CheckAllReport(ps + [p]) == CheckAllReport(ps) + CheckVitals(p)
  {
    assert (ps + [p])[..|ps|] == ps;
  }

  /** Each patient's report has one to four lines. */
  lemma {:induction false} CheckAllLength(ps: seq<Patient>)
    ensures |ps| <= |CheckAllReport(ps)| <= 4 * |ps|
  {
    if ps != [] {
      CheckAllLength(ps[..|ps| - 1]);
    }
  }

  /** Filtering labels distributes over concatenation. */
  lemma {:induction false} LabelsAppend(a: seq<Line>, b: seq<Line>)
    ensures Labels(a + b) == Labels(a) + Labels(b)
    decreases |b|
  {
    if b == [] {
      assert a + b == a;
    } else {
      var b' := b[..|b| - 1];
      assert (a + b)[..|a + b| - 1] == a + b';
      LabelsAppend(a, b');
    }
  }

  /** Appending a run that carries one label extends the labels by it. */
  lemma LabelsStep(before: seq<Line>, report: seq<Line>, labels: seq<Line>, l: Line)
    requires Labels(before) == labels && Labels(report) == [l]
    ensures Labels(before + report) == labels + [l]
  {
    LabelsAppend(before, report);
  }

  /** A run whose only label is its last line has that one label. */
  lemma LabelsOfLastOnly(r: seq<Line>)
    requires r != []
    requires forall i :: 0 <= i < |r| ==> (IsCategoryLabel(r[i]) <==> i == |r| - 1)
    ensures Labels(r) == [r[|r| - 1]]
  {
    NoLabels(r[..|r| - 1]);
  }

  /** A single report carries exactly one label: its category's. */
  lemma LabelsOfReport(p: Patient)
    ensures Labels(CheckVitals(p)) == [LabelLine(p)]
  {
    LabelsOfLastOnly(CheckVitals(p));
  }

  /** A run with no label line has no labels. */
  lemma {:induction false} NoLabels(lines: seq<Line>)
    requires forall i :: 0 <= i < |lines| ==> !IsCategoryLabel(lines[i])
    ensures Labels(lines) == []
  {
    if lines != [] {
      NoLabels(lines[..|lines| - 1]);
    }
  }

  /** `CheckAllPatients` visits every patient exactly once, in insertion
      order: its label lines are the patients' labels, one per patient. */
  lemma {:induction false} CheckAllVisitsInOrder(ps: seq<Patient>)
    ensures Labels(CheckAllReport(ps)) == LabelsOf(ps)
  {
    if ps != [] {
      var init, last := ps[..|ps| - 1], ps[|ps| - 1];
      CheckAllVisitsInOrder(init);
      LabelsOfReport(last);
      LabelsStep(CheckAllReport(init), CheckVitals(last), LabelsOf(init), LabelLine(last));
    }
  }

  /** `DisplayAllPatients` runs to the end exactly when no height is zero. */
  lemma {:induction false} DisplayCompletes(ps: seq<Patient>)
    ensures DisplayReport(ps).completed <==> forall i :: 0 <= i < |ps| ==> ps[i].height != 0.0
  {
    if ps != [] {
      var init := ps[..|ps| - 1];
      DisplayCompletes(init);
      if !DisplayReport(init).completed {
        var i :| 0 <= i < |init| && init[i].height == 0.0;
        assert ps[i] == init[i];
      } else {
        assert forall i :: 0 <= i < |init| ==> ps[i] == init[i];
      }
    }
  }

  /** A run over patients of nonzero height is whole and holds four lines
      per patient, the last patient's block at the end. */
  lemma DisplayExtend(ps: seq<Patient>)
    requires ps != []
    requires forall i :: 0 <= i < |ps| ==> ps[i].height != 0.0
    ensures DisplayReport(ps).completed
    ensures DisplayReport(ps).lines == DisplayReport(ps[..|ps| - 1]).lines + DisplayPatient(ps[|ps| - 1]).lines
  {
    var init := ps[..|ps| - 1];
    assert forall i :: 0 <= i < |init| ==> init[i] == ps[i];
    DisplayCompletes(init);
  }

  /** Over patients of nonzero height, `DisplayAllPatients` writes four
      lines per patient. */
  lemma {:induction false} DisplayLength(ps: seq<Patient>)
    requires forall i :: 0 <= i < |ps| ==> ps[i].height != 0.0
    ensures |DisplayReport(ps).lines| == 4 * |ps|
  {
    if ps != [] {
      DisplayExtend(ps);
      DisplayLength(ps[..|ps| - 1]);
    }
  }

  /** Over patients of nonzero height, the last block of four lines is the
      last patient's. */
  lemma DisplayLastBlock(ps: seq<Patient>)
    requires ps != []
    requires forall i :: 0 <= i < |ps| ==> ps[i].height != 0.0
    ensures |DisplayReport(ps).lines| == 4 * |ps|
    ensures DisplayReport(ps).lines[4 * (|ps| - 1) .. 4 * |ps|] == DisplayPatient(ps[|ps| - 1]).lines
  {
    var init := ps[..|ps| - 1];
    DisplayExtend(ps);
    DisplayLength(init);
    DisplayLength(ps);
    SliceOfSuffix(DisplayReport(init).lines, DisplayPatient(ps[|ps| - 1]).lines);
  }

  /** Over patients of nonzero height, adding the last patient keeps every
      earlier block of four lines. */
  lemma DisplayEarlierBlock(ps: seq<Patient>, k: nat)
    requires forall i :: 0 <= i < |ps| ==> ps[i].height != 0.0
    requires k + 1 < |ps|
    ensures |DisplayReport(ps).lines| == 4 * |ps|
    ensures DisplayReport(ps).lines[4 * k .. 4 * k + 4] == DisplayReport(ps[..|ps| - 1]).lines[4 * k .. 4 * k + 4]
  {
    var init := ps[..|ps| - 1];
    DisplayExtend(ps);
    DisplayLength(init);
    DisplayLength(ps);
    SliceOfPrefix(DisplayReport(init).lines, DisplayPatient(ps[|ps| - 1]).lines, 4 * k, 4 * k + 4);
  }

  /** Over patients of nonzero height, the k-th block of four lines that
      `DisplayAllPatients` writes is the k-th patient's. */
  lemma {:induction false} DisplayBlock(ps: seq<Patient>, k: nat)
    requires forall i :: 0 <= i < |ps| ==> ps[i].height != 0.0
    requires k < |ps|
    ensures |DisplayReport(ps).lines| == 4 * |ps|
    ensures DisplayReport(ps).lines[4 * k .. 4 * k + 4] == DisplayPatient(ps[k]).lines
  {
    if k + 1 < |ps| {
      var init := ps[..|ps| - 1];
      assert init[k] == ps[k];
      DisplayBlock(init, k);
      DisplayEarlierBlock(ps, k);
    } else {
      DisplayLastBlock(ps);
    }
  }

  lemma SliceOfPrefix(a: seq<Line>, b: seq<Line>, i: nat, j: nat)
    requires i <= j <= |a|
    ensures (a + b)[i..j] == a[i..j]
  {
  }

  lemma SliceOfSuffix(a: seq<Line>, b: seq<Line>)
    ensures (a + b)[|a|..] == b && (a + b)[|a|..|a| + |b|] == b
  {
  }

  /** When every height is nonzero, `DisplayAllPatients` visits every
      patient once, in insertion order: four lines per patient, the k-th
      block being the k-th patient's name, BMI, advice and blank line. */
  lemma DisplayVisitsInOrder(ps: seq<Patient>)
    requires forall i :: 0 <= i < |ps| ==> ps[i].height != 0.0
    ensures DisplayReport(ps).completed
    ensures |DisplayReport(ps).lines| == 4 * |ps|
    ensures forall k :: 0 <= k < |ps| ==>
      DisplayReport(ps).lines[4 * k .. 4 * k + 4] == DisplayPatient(ps[k]).lines
  {
    DisplayCompletes(ps);
    DisplayLength(ps);
    forall k | 0 <= k < |ps|
      ensures DisplayReport(ps).lines[4 * k .. 4 * k + 4] == DisplayPatient(ps[k]).lines
    {
      DisplayBlock(ps, k);
    }
  }

  /** A zero height stops `DisplayAllPatients` right after that patient's
      name line, provided no earlier patient stopped it. */
  lemma DisplayStopsAtZeroHeight(ps: seq<Patient>, k: nat)
    requires k < |ps| && ps[k].height == 0.0
    requires forall i :: 0 <= i < k ==> ps[i].height != 0.0
    ensures !DisplayReport(ps).completed
    ensures DisplayReport(ps).lines == DisplayReport(ps[..k]).lines + [NameLine(ps[k].name)]
  {
    var upto := ps[..k + 1];
    assert upto[..k] == ps[..k];
    DisplayCompletes(ps[..k]);
    assert !DisplayReport(upto).completed;
    AbortSticks(ps, k + 1);
  }
}
