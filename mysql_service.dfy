/**
 * The score evaluator of the database-backed page: `calculate_results`
 * turns a stored report row into processed subject entries, a subject
 * count, an overall percentage and a three-tier status
 * (Excellent / Pass / Fail), with a 'No Data' result when the results
 * payload is not an array.
 */
module MysqlService {
  import opened Wrappers
  import opened Scores

  /** The array `calculate_results` returns. */
  datatype Evaluation = Evaluation(
    studentData: RawReport,
    processedResults: seq<Entry>,
    overallPercentage: Pct,
    status: string,
    statusColor: string,
    totalSubjects: nat)

  /** Overall status and the colour class shown with it. */
  datatype Standing = Standing(status: string, color: string)

  /** The result for a payload that does not decode to an array. */
  function NoData(report: RawReport): Evaluation {
    Evaluation(report, [], Number(0.0), "No Data", "text-gray-500", 0)
  }

  /** A subject's percentage: its total out of a maximum of 100, scaled back to percent. */
  function SubjectPercentage(total: int): (p: real)
    ensures p == total as real
  {
    (total as real / 100.0) * 100.0
  }

  /** The letter chosen for a subject's percentage. */
  function SubjectGrade(percentage: real): (g: Letter)
    ensures IsBestLetter(g, percentage)
  {
    if percentage >= 90.0 then A
    else if percentage >= 80.0 then B
    else if percentage >= 70.0 then C
    else if percentage >= 60.0 then D
    else F
  }

  /** One entry merged with its derived total, formatted percentage and grade. */
  function ProcessEntry(e: Entry): (r: Entry)
    ensures r.subject == e.subject && r.ca == e.ca && r.test == e.test && r.exam == e.exam
    ensures r.total == Some(SubjectTotal(e))
    ensures r.percentage == Some(Formatted(SubjectTotal(e) as real))
    ensures r.grade.Some? && IsBestLetter(r.grade.value, SubjectTotal(e) as real)
  {
    var total := SubjectTotal(e);
    var percentage := SubjectPercentage(total);
    e.(total := Some(total), percentage := Some(Formatted(percentage)), grade := Some(SubjectGrade(percentage)))
  }

  /** The three-tier status for an overall percentage. */
  function OverallStanding(overall: real): (s: Standing)
    ensures s.status == "Excellent" <==> overall >= 90.0
    ensures s.status == "Pass" <==> 65.0 <= overall < 90.0
    ensures s.status == "Fail" <==> overall < 65.0
    ensures s in {Standing("Excellent", "text-green-600"), Standing("Pass", "text-indigo-600"),
                  Standing("Fail", "text-red-600")}
  {
    if overall >= 90.0 then Standing("Excellent", "text-green-600")
    else if overall >= 65.0 then Standing("Pass", "text-indigo-600")
    else Standing("Fail", "text-red-600")
  }

  /** The summed totals over the summed maxima, as a percentage, is the mean total. */
  lemma ScaledShareIsMean(sum: int, n: nat)
    requires n > 0
    ensures (sum as real / (100 * n) as real) * 100.0 == sum as real / n as real
  {
    var s, m := sum as real, n as real;
    assert (100 * n) as real == 100.0 * m;
    assert s / (100.0 * m) * 100.0 == s / m;
  }

  /** What `calculate_results` returns for a report. */
  function Evaluate(report: RawReport): (r: Evaluation)
    ensures r.studentData == report
    ensures report.results.None? ==> r == NoData(report)
    ensures report.results.Some? ==>
      var es := report.results.value;
      && r.totalSubjects == |es| == |r.processedResults|
      && (forall i :: 0 <= i < |es| ==> r.processedResults[i] == ProcessEntry(es[i]))
      && r.overallPercentage == Formatted(Mean(es))
      && Standing(r.status, r.statusColor) == OverallStanding(Mean(es))
  {
    match report.results
    case None => NoData(report)
    case Some(es) =>
      var n := |es|;
      var overall := if n > 0 then (SumTotals(es) as real / (100 * n) as real) * 100.0 else 0.0;
      var standing := OverallStanding(overall);
      assert n > 0 ==> overall == Mean(es) by {
        if n > 0 { ScaledShareIsMean(SumTotals(es), n); }
      }
      Evaluation(report, seq(n, i requires 0 <= i < n => ProcessEntry(es[i])),
                 Formatted(overall), standing.status, standing.color, n)
  }

  /**
   * Proof helper for `CalculateResults`: connects the state the loop ends in
   * on an array payload (processed entries and summed totals) to `Evaluate`.
   */
  lemma EvaluateArray(report: RawReport, processed: seq<Entry>, sum: int)
    requires report.results.Some?
    requires |processed| == |report.results.value|
    requires forall j :: 0 <= j < |processed| ==> processed[j] == ProcessEntry(report.results.value[j])
    requires sum == SumTotals(report.results.value)
    ensures
      var n := |processed|;
      var overall := if n > 0 then (sum as real / (100 * n) as real) * 100.0 else 0.0;
      var standing := OverallStanding(overall);
      Evaluate(report) == Evaluation(report, processed, Formatted(overall), standing.status, standing.color, n)
  {
    assert processed == Evaluate(report).processedResults;
  }

  /**
   * `calculate_results`: one pass over the entries accumulating the summed
   * totals and the summed maxima, then the overall percentage and status.
   */
  method CalculateResults(report: RawReport) returns (r: Evaluation)
    ensures r == Evaluate(report)
  {
    if report.results.None? {
      return NoData(report);
    }
    var results := report.results.value;
    var totalScoreSum := 0;
    var totalMaxScoreSum := 0;
    var processedResults: seq<Entry> := [];
    for i := 0 to |results|
      invariant totalScoreSum == SumTotals(results[..i])
      invariant totalMaxScoreSum == 100 * i
      invariant |processedResults| == i
      invariant forall j :: 0 <= j < i ==> processedResults[j] == ProcessEntry(results[j])
    {
      var item := results[i];
      var total := Component(item.ca) + Component(item.test) + Component(item.exam);
      var percentage := (total as real / 100.0) * 100.0;
      // the if/elseif chain on the percentage
      var grade := SubjectGrade(percentage);
      var processed := item.(total := Some(total), percentage := Some(Formatted(percentage)), grade := Some(grade));
      assert processed == ProcessEntry(item);
      processedResults := processedResults + [processed];
      totalScoreSum := totalScoreSum + total;
      totalMaxScoreSum := totalMaxScoreSum + 100;
      assert results[..i + 1][..i] == results[..i];
    }
    assert results[..|results|] == results;
    EvaluateArray(report, processedResults, totalScoreSum);

    var totalSubjects := |processedResults|;
    var overallPercentage := if totalSubjects > 0 then (totalScoreSum as real / totalMaxScoreSum as real) * 100.0 else 0.0;

    var status := "Fail";
    var statusColor := "text-red-600";
    if overallPercentage >= 90.0 {
      status := "Excellent";
      statusColor := "text-green-600";
    } else if overallPercentage >= 65.0 {
      status := "Pass";
      statusColor := "text-indigo-600";
    }

    assert Standing(status, statusColor) == OverallStanding(overallPercentage);
    r := Evaluation(report, processedResults, Formatted(overallPercentage), status, statusColor, totalSubjects);
  }
}
