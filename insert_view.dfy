/**
 * The score evaluator of the report-entry page: `getLetterGrade` and
 * `calculate_results`, which copies the student details, recomputes each
 * subject's total, formatted percentage and grade, averages the totals and
 * decides a binary status, PROMOTED at an average of 65 or more and
 * REFERRED below it.
 */
module InsertView {
  import opened Wrappers
  import opened Scores

  /** The student details the report header shows. */
  datatype StudentData = StudentData(
    name: string,
    studentId: string,
    gradeLevel: string,
    term: string,
    dateGenerated: string,
    photoBase64: string)

  /** The array `calculate_results` returns. */
  datatype Evaluation = Evaluation(
    studentData: StudentData,
    overallPercentage: Pct,
    totalSubjects: nat,
    status: string,
    statusColor: string,
    processedResults: seq<Entry>)

  /** `getLetterGrade`: the best letter the percentage earns. */
  function GetLetterGrade(percentage: real): (g: Letter)
    ensures IsBestLetter(g, percentage)
  {
    if percentage >= 90.0 then A
    else if percentage >= 80.0 then B
    else if percentage >= 70.0 then C
    else if percentage >= 60.0 then D
    else F
  }

  /** The entries the loop visits: a payload that is not an array yields none. */
  function Payload(report: RawReport): seq<Entry> {
    match report.results
    case None => []
    case Some(es) => es
  }

  /** One entry with its total, formatted percentage and grade overwritten. */
  function ProcessEntry(e: Entry): (r: Entry)
    ensures r.subject == e.subject && r.ca == e.ca && r.test == e.test && r.exam == e.exam
    ensures r.total == Some(SubjectTotal(e))
    ensures r.percentage == Some(Formatted(SubjectTotal(e) as real))
    ensures r.grade.Some? && IsBestLetter(r.grade.value, SubjectTotal(e) as real)
  {
    var total := SubjectTotal(e);
    e.(total := Some(total), percentage := Some(Formatted(total as real)),
       grade := Some(GetLetterGrade(total as real)))
  }

  /** The student details copied from the raw report; the photo defaults to ''. */
  function StudentDataOf(report: RawReport): StudentData {
    StudentData(report.name, report.studentId, report.gradeLevel, report.term,
                report.dateGenerated, report.photoBase64.GetOr(""))
  }

  /** What `calculate_results` returns for a report. */
  function Evaluate(report: RawReport): (r: Evaluation)
    ensures r.studentData.name == report.name && r.studentData.studentId == report.studentId
    ensures r.studentData.gradeLevel == report.gradeLevel && r.studentData.term == report.term
    ensures r.studentData.dateGenerated == report.dateGenerated
    ensures report.photoBase64.Some? ==> r.studentData.photoBase64 == report.photoBase64.value
    ensures report.photoBase64.None? ==> r.studentData.photoBase64 == ""
    ensures report.results.None? ==> r.totalSubjects == 0 && r.processedResults == []
    ensures
      var es := Payload(report);
      && r.totalSubjects == |es| == |r.processedResults|
      && (forall i :: 0 <= i < |es| ==> r.processedResults[i] == ProcessEntry(es[i]))
      && r.overallPercentage == Formatted(Mean(es))
      && (r.status == "PROMOTED" <==> Mean(es) >= 65.0)
      && (r.status == "REFERRED" <==> Mean(es) < 65.0)
      && (r.statusColor == "text-indigo-600" <==> r.status == "PROMOTED")
      && (r.statusColor == "text-red-600" <==> r.status == "REFERRED")
  {
    var es := Payload(report);
    var n := |es|;
    var average := if n > 0 then SumTotals(es) as real / n as real else 0.0;
    Evaluation(StudentDataOf(report), Formatted(average), n,
               if average >= 65.0 then "PROMOTED" else "REFERRED",
               if average >= 65.0 then "text-indigo-600" else "text-red-600",
               seq(n, i requires 0 <= i < n => ProcessEntry(es[i])))
  }

  /**
   * Proof helper for `CalculateResults`: connects the state the loop ends in
   * (processed entries and summed totals) to `Evaluate`.
   */
  lemma EvaluateFrom(report: RawReport, processed: seq<Entry>, sum: int)
    requires |processed| == |Payload(report)|
    requires forall j :: 0 <= j < |processed| ==> processed[j] == ProcessEntry(Payload(report)[j])
    requires sum == SumTotals(Payload(report))
    ensures
      var n := |processed|;
      var average := if n > 0 then sum as real / n as real else 0.0;
      Evaluate(report) == Evaluation(StudentDataOf(report), Formatted(average), n,
                                     if average >= 65.0 then "PROMOTED" else "REFERRED",
                                     if average >= 65.0 then "text-indigo-600" else "text-red-600",
                                     processed)
  {
    assert processed == Evaluate(report).processedResults;
  }

  /**
   * `calculate_results`: copies the student details, then one pass over the
   * entries that rewrites each entry and accumulates the percentages.
   */
  method CalculateResults(report: RawReport) returns (r: Evaluation)
    ensures r == Evaluate(report)
  {
    var studentData := StudentData(report.name, report.studentId, report.gradeLevel, report.term,
                                   report.dateGenerated, report.photoBase64.GetOr(""));
    var results := Payload(report);

    var totalSubjectPercentages := 0;
    var processedResults: seq<Entry> := [];
    for i := 0 to |results|
      invariant totalSubjectPercentages == SumTotals(results[..i])
      invariant |processedResults| == i
      invariant forall j :: 0 <= j < i ==> processedResults[j] == ProcessEntry(results[j])
    {
      var item := results[i];
      var total := Component(item.ca) + Component(item.test) + Component(item.exam);
      var percentage := total;
      var grade := GetLetterGrade(percentage as real);

      item := item.(total := Some(total));
      item := item.(percentage := Some(Formatted(percentage as real)));
      item := item.(grade := Some(grade));
      assert item == ProcessEntry(results[i]);
      processedResults := processedResults + [item];
      totalSubjectPercentages := totalSubjectPercentages + percentage;
      assert results[..i + 1][..i] == results[..i];
    }
    assert results[..|results|] == results;
    EvaluateFrom(report, processedResults, totalSubjectPercentages);

    var totalSubjects := |processedResults|;
    var overallAveragePercentage := if totalSubjects > 0 then totalSubjectPercentages as real / totalSubjects as real else 0.0;
    var status := if overallAveragePercentage >= 65.0 then "PROMOTED" else "REFERRED";
    var statusColor := if overallAveragePercentage >= 65.0 then "text-indigo-600" else "text-red-600";

    r := Evaluation(studentData, Formatted(overallAveragePercentage), totalSubjects, status, statusColor, processedResults);
  }

  /** The mock report the page displays (its date is today's, a parameter here). */
  function MockReport(today: string): RawReport {
    RawReport("John Doe", "S123456", "10th Grade / Secondary School", "Academic Year 2024-2025",
              today, Some(""), Some(MockRows()))
  }

  /** The stored rows of the mock report, with their stored totals, percentages and grades. */
  function MockRows(): seq<Entry> {
    [ Entry("Mathematics", Some(25), Some(18), Some(49), Some(92), Some(Number(92.0)), Some(A)),
      Entry("Physics", Some(22), Some(17), Some(49), Some(88), Some(Number(88.0)), Some(B)),
      Entry("English Language", Some(28), Some(20), Some(47), Some(95), Some(Number(95.0)), Some(A)),
      Entry("Chemistry", Some(15), Some(10), Some(30), Some(55), Some(Number(55.0)), Some(F)),
      Entry("Biology", Some(20), Some(15), Some(38), Some(73), Some(Number(73.0)), Some(C)),
      Entry("Economics", Some(29), Some(19), Some(50), Some(98), Some(Number(98.0)), Some(A)) ]
  }

  /** The stored totals of the mock rows sum to 501. */
  lemma MockRowsSum()
    ensures SumTotals(MockRows()) == 501
  {
    var rows := MockRows();
    var e0, e1, e2, e3, e4, e5 := rows[0], rows[1], rows[2], rows[3], rows[4], rows[5];
    assert rows[..1] == [e0] && [e0][..0] == [];
    assert rows[..2] == [e0, e1] && [e0, e1][..1] == [e0];
    assert rows[..3] == [e0, e1, e2] && [e0, e1, e2][..2] == [e0, e1];
    assert rows[..4] == [e0, e1, e2, e3] && [e0, e1, e2, e3][..3] == [e0, e1, e2];
    assert rows[..5] == [e0, e1, e2, e3, e4] && [e0, e1, e2, e3, e4][..4] == [e0, e1, e2, e3];
    assert SumTotals([e0]) == 92;
    assert SumTotals([e0, e1]) == 180;
    assert SumTotals([e0, e1, e2]) == 275;
    assert SumTotals([e0, e1, e2, e3]) == 330;
    assert SumTotals([e0, e1, e2, e3, e4]) == 403;
  }

  /**
   * The mock rows recompute to their stored totals, percentages and grades;
   * the average is 501 / 6 = 83.5 and the status PROMOTED.
   */
  lemma MockReportRecomputes(today: string)
    ensures
      var r := Evaluate(MockReport(today));
      && r.totalSubjects == 6
      && (forall i :: 0 <= i < 6 ==>
            r.processedResults[i].total == MockRows()[i].total
            && r.processedResults[i].grade == MockRows()[i].grade
            && r.processedResults[i].percentage.value.value == MockRows()[i].percentage.value.value)
      && r.overallPercentage == Formatted(83.5)
      && r.status == "PROMOTED"
      && r.statusColor == "text-indigo-600"
  {
    MockRowsSum();
    var rows := MockRows();
    assert Mean(rows) == 83.5;
  }
}
