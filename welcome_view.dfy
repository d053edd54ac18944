/**
 * The score evaluator of the sample report page: `getLetterGrade` and
 * `calculateResults`, which takes the subject entries directly, keeps each
 * percentage numeric, averages the totals and decides the same binary
 * PROMOTED / REFERRED status at 65.
 */
module WelcomeView {
  import opened Wrappers
  import opened Scores

  /** The array `calculateResults` returns. */
  datatype Evaluation = Evaluation(
    overallPercentage: Pct,
    totalSubjects: nat,
    status: string,
    statusColor: string,
    processedResults: seq<Entry>)

  /** `getLetterGrade`: the best letter the percentage earns. */
  function GetLetterGrade(percentage: real): (g: Letter)
    ensures IsBestLetter(g, percentage)
  {
    if percentage >= 90.0 then A
    else if percentage >= 80.0 then B
    else if percentage >= 70.0 then C
    else if percentage >= 60.0 then D
    else F
  }

  /** One entry with its total, numeric percentage and grade overwritten. */
  function ProcessEntry(e: Entry): (r: Entry)
    ensures r.subject == e.subject && r.ca == e.ca && r.test == e.test && r.exam == e.exam
    ensures r.total == Some(SubjectTotal(e))
    ensures r.percentage == Some(Number(SubjectTotal(e) as real))
    ensures r.grade.Some? && IsBestLetter(r.grade.value, SubjectTotal(e) as real)
  {
    var total := SubjectTotal(e);
    e.(total := Some(total), percentage := Some(Number(total as real)),
       grade := Some(GetLetterGrade(total as real)))
  }

  /** What `calculateResults` returns for a list of subject entries. */
  function Evaluate(results: seq<Entry>): (r: Evaluation)
    ensures r.totalSubjects == |results| == |r.processedResults|
    ensures forall i :: 0 <= i < |results| ==> r.processedResults[i] == ProcessEntry(results[i])
    ensures r.overallPercentage == Formatted(Mean(results))
    ensures r.status == "PROMOTED" <==> Mean(results) >= 65.0
    ensures r.status == "REFERRED" <==> Mean(results) < 65.0
    ensures r.statusColor == "text-indigo-600" <==> r.status == "PROMOTED"
    ensures r.statusColor == "text-red-600" <==> r.status == "REFERRED"
  {
    var n := |results|;
    var average := if n > 0 then SumTotals(results) as real / n as real else 0.0;
    Evaluation(Formatted(average), n,
               if average >= 65.0 then "PROMOTED" else "REFERRED",
               if average >= 65.0 then "text-indigo-600" else "text-red-600",
               seq(n, i requires 0 <= i < n => ProcessEntry(results[i])))
  }

  /**
   * Proof helper for `CalculateResults`: connects the state the loop ends in
   * (processed entries and summed totals) to `Evaluate`.
   */
  lemma EvaluateFrom(results: seq<Entry>, processed: seq<Entry>, sum: int)
    requires |processed| == |results|
    requires forall j :: 0 <= j < |processed| ==> processed[j] == ProcessEntry(results[j])
    requires sum == SumTotals(results)
    ensures
      var n := |results|;
      var average := if n > 0 then sum as real / n as real else 0.0;
      Evaluate(results) == Evaluation(Formatted(average), n,
                                      if average >= 65.0 then "PROMOTED" else "REFERRED",
                                      if average >= 65.0 then "text-indigo-600" else "text-red-600",
                                      processed)
  {
    assert processed == Evaluate(results).processedResults;
  }

  /**
   * `calculateResults`: counts the entries first, then one pass that
   * rewrites each entry and accumulates the percentages.
   */
  method CalculateResults(results: seq<Entry>) returns (r: Evaluation)
    ensures r == Evaluate(results)
  {
    var totalSubjectPercentages := 0;
    var totalSubjects := |results|;

    var processedResults: seq<Entry> := [];
    for i := 0 to |results|
      invariant totalSubjectPercentages == SumTotals(results[..i])
      invariant |processedResults| == i
      invariant forall j :: 0 <= j < i ==> processedResults[j] == ProcessEntry(results[j])
    {
      var item := results[i];
      var total := Component(item.ca) + Component(item.test) + Component(item.exam);
      var percentage := total;
      var grade := GetLetterGrade(percentage as real);

      item := item.(total := Some(total));
      item := item.(percentage := Some(Number(percentage as real)));
      item := item.(grade := Some(grade));
      assert item == ProcessEntry(results[i]);
      processedResults := processedResults + [item];

      totalSubjectPercentages := totalSubjectPercentages + percentage;
      assert results[..i + 1][..i] == results[..i];
    }
    assert results[..|results|] == results;
    EvaluateFrom(results, processedResults, totalSubjectPercentages);

    var overallAveragePercentage := if totalSubjects > 0 then totalSubjectPercentages as real / totalSubjects as real else 0.0;
    var status := if overallAveragePercentage >= 65.0 then "PROMOTED" else "REFERRED";
    var statusColor := if overallAveragePercentage >= 65.0 then "text-indigo-600" else "text-red-600";

    r := Evaluation(Formatted(overallAveragePercentage), totalSubjects, status, statusColor, processedResults);
  }

  /** The sample subject results the page reports on. */
  function SampleResults(): seq<Entry> {
    [ Entry("Mathematics", Some(25), Some(18), Some(49), None, None, None),
      Entry("Physics", Some(22), Some(17), Some(49), None, None, None),
      Entry("English Language", Some(28), Some(20), Some(47), None, None, None),
      Entry("Computer Studies", Some(15), Some(10), Some(30), None, None, None),
      Entry("Economics", Some(20), Some(15), Some(38), None, None, None),
      Entry("Art & Design", Some(29), Some(19), Some(50), None, None, None) ]
  }

  /** The sample totals sum to 501. */
  lemma SampleResultsSum()
    ensures SumTotals(SampleResults()) == 501
  {
    var rows := SampleResults();
    var e0, e1, e2, e3, e4, e5 := rows[0], rows[1], rows[2], rows[3], rows[4], rows[5];
    assert rows[..1] == [e0] && [e0][..0] == [];
    assert rows[..2] == [e0, e1] && [e0, e1][..1] == [e0];
    assert rows[..3] == [e0, e1, e2] && [e0, e1, e2][..2] == [e0, e1];
    assert rows[..4] == [e0, e1, e2, e3] && [e0, e1, e2, e3][..3] == [e0, e1, e2];
    assert rows[..5] == [e0, e1, e2, e3, e4] && [e0, e1, e2, e3, e4][..4] == [e0, e1, e2, e3];
    assert SumTotals([e0]) == 92;
    assert SumTotals([e0, e1]) == 180;
    assert SumTotals([e0, e1, e2]) == 275;
    assert SumTotals([e0, e1, e2, e3]) == 330;
    assert SumTotals([e0, e1, e2, e3, e4]) == 403;
  }

  /**
   * The sample subjects total 92 (A), 88 (B), 95 (A), 55 (F), 73 (C) and
   * 98 (A), as the page's comments say; the average is 83.5, PROMOTED.
   */
  lemma SampleResultsReport()
    ensures
      var r := Evaluate(SampleResults());
      && r.totalSubjects == 6
      && [r.processedResults[0].total, r.processedResults[1].total, r.processedResults[2].total,
          r.processedResults[3].total, r.processedResults[4].total, r.processedResults[5].total]
         == [Some(92), Some(88), Some(95), Some(55), Some(73), Some(98)]
      && [r.processedResults[0].grade, r.processedResults[1].grade, r.processedResults[2].grade,
          r.processedResults[3].grade, r.processedResults[4].grade, r.processedResults[5].grade]
         == [Some(A), Some(B), Some(A), Some(F), Some(C), Some(A)]
      && r.overallPercentage == Formatted(83.5)
      && r.status == "PROMOTED"
  {
    SampleResultsSum();
    var rows := SampleResults();
    assert Mean(rows) == 83.5;
  }
}
