/**
 * How the three copies of the score evaluator relate: they agree on every
 * subject's total and grade and on the overall percentage, and differ in
 * the status they derive from it and in what a non-array payload gives.
 */
module CrossCopy {
  import opened Wrappers
  import opened Scores
  import MysqlService
  import InsertView
  import WelcomeView

  /** All three copies choose the same letter for a percentage. */
  lemma SameLetterGrade(p: real)
    ensures MysqlService.SubjectGrade(p) == InsertView.GetLetterGrade(p)
    ensures InsertView.GetLetterGrade(p) == WelcomeView.GetLetterGrade(p)
  {
  }

  /**
   * The three copies process an entry alike: the database-backed and the
   * entry page produce the same entry; the sample page differs only in
   * keeping the percentage numeric.
   */
  lemma SameProcessedEntry(e: Entry)
    ensures MysqlService.ProcessEntry(e) == InsertView.ProcessEntry(e)
    ensures WelcomeView.ProcessEntry(e)
            == InsertView.ProcessEntry(e).(percentage := Some(Number(SubjectTotal(e) as real)))
  {
  }

  /**
   * For an array payload all three copies report the same subject count and
   * the same overall percentage, the mean subject total, although the
   * database-backed copy divides by 100 per subject and multiplies by 100.
   */
  lemma SameOverall(report: RawReport)
    requires report.results.Some?
    ensures
      var es := report.results.value;
      var m, i, w := MysqlService.Evaluate(report), InsertView.Evaluate(report), WelcomeView.Evaluate(es);
      && m.totalSubjects == i.totalSubjects == w.totalSubjects == |es|
      && m.overallPercentage == i.overallPercentage == w.overallPercentage == Formatted(Mean(es))
  {
  }

  /** For an array payload the database-backed and the entry page process the entries identically. */
  lemma SameProcessedResults(report: RawReport)
    requires report.results.Some?
    ensures MysqlService.Evaluate(report).processedResults == InsertView.Evaluate(report).processedResults
  {
    var es := report.results.value;
    var m, i := MysqlService.Evaluate(report).processedResults, InsertView.Evaluate(report).processedResults;
    forall k | 0 <= k < |es|
      ensures m[k] == i[k]
    {
      SameProcessedEntry(es[k]);
    }
  }

  /**
   * The status policies agree on the pass mark: for an array payload the
   * three-tier status is Fail exactly when the binary one is REFERRED, and
   * Excellent or Pass exactly when it is PROMOTED.
   */
  lemma SamePassMark(report: RawReport)
    requires report.results.Some?
    ensures MysqlService.Evaluate(report).status == "Fail"
            <==> InsertView.Evaluate(report).status == "REFERRED"
    ensures MysqlService.Evaluate(report).status in {"Excellent", "Pass"}
            <==> InsertView.Evaluate(report).status == "PROMOTED"
    ensures InsertView.Evaluate(report).status == WelcomeView.Evaluate(report.results.value).status
  {
  }

  /**
   * The status policies differ above the pass mark: an average of 90 or
   * more is Excellent in green on the database-backed page and PROMOTED in
   * indigo on the others, while 65 up to 90 is Pass and PROMOTED, both indigo.
   */
  lemma PoliciesDifferAtTopTier(report: RawReport)
    requires report.results.Some?
    ensures Mean(report.results.value) >= 90.0 ==>
              && MysqlService.Evaluate(report).status == "Excellent"
              && MysqlService.Evaluate(report).statusColor == "text-green-600"
              && InsertView.Evaluate(report).status == "PROMOTED"
              && InsertView.Evaluate(report).statusColor == "text-indigo-600"
    ensures 65.0 <= Mean(report.results.value) < 90.0 ==>
              && MysqlService.Evaluate(report).status == "Pass"
              && MysqlService.Evaluate(report).statusColor == InsertView.Evaluate(report).statusColor
  {
  }

  /**
   * A payload that is not an array: the database-backed copy reports
   * 'No Data' with no subjects, while the entry page iterates nothing and
   * reports REFERRED with an average of 0.
   */
  lemma NonArrayPayloadDiverges(report: RawReport)
    requires report.results.None?
    ensures MysqlService.Evaluate(report).status == "No Data"
    ensures MysqlService.Evaluate(report).overallPercentage == Number(0.0)
    ensures InsertView.Evaluate(report).status == "REFERRED"
    ensures InsertView.Evaluate(report).overallPercentage == Formatted(0.0)
    ensures MysqlService.Evaluate(report).totalSubjects == InsertView.Evaluate(report).totalSubjects == 0
  {
  }

  /**
   * An empty array payload is not 'No Data' on the database-backed page:
   * it has zero subjects, an overall percentage of 0 and the status Fail.
   */
  lemma EmptyListIsFail(report: RawReport)
    requires report.results == Some([])
    ensures MysqlService.Evaluate(report).totalSubjects == 0
    ensures MysqlService.Evaluate(report).overallPercentage == Formatted(0.0)
    ensures MysqlService.Evaluate(report).status == "Fail"
  {
  }

  /**
   * Six subjects, or any number, each totalling exactly 100 give an
   * overall percentage of 100: Excellent on the database-backed page and
   * PROMOTED on the others.
   */
  lemma FullMarksTopTier(report: RawReport)
    requires report.results.Some? && |report.results.value| > 0
    requires forall i :: 0 <= i < |report.results.value| ==> SubjectTotal(report.results.value[i]) == 100
    ensures MysqlService.Evaluate(report).overallPercentage == Formatted(100.0)
    ensures MysqlService.Evaluate(report).status == "Excellent"
    ensures InsertView.Evaluate(report).status == "PROMOTED"
    ensures WelcomeView.Evaluate(report.results.value).status == "PROMOTED"
  {
    FullMarksMean(report.results.value);
  }
}
