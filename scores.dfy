/**
 * Shared data model of the school-report portal: a stored report, the
 * subject entries of its results payload, letter grades, and the sum and
 * mean of the subject totals that all three score evaluators compute.
 */
module Scores {
  import opened Wrappers

  /** Letter grade of one subject. */
  datatype Letter = A | B | C | D | F

  /** Position of a letter on the scale: F is lowest, A highest. */
  function Rank(g: Letter): nat {
    match g
    case A => 4
    case B => 3
    case C => 2
    case D => 1
    case F => 0
  }

  /**
   * The grading scale key printed under every report
   * (A: 90-100, B: 80-89, C: 70-79, D: 60-69, F: below 60), read as the
   * least percentage each letter needs.
   */
  predicate Earns(g: Letter, p: real) {
    match g
    case A => p >= 90.0
    case B => p >= 80.0
    case C => p >= 70.0
    case D => p >= 60.0
    case F => true
  }

  /** The letter one step up the scale; A is the top. */
  function NextUp(g: Letter): Letter {
    match g
    case A => A
    case B => A
    case C => B
    case D => C
    case F => D
  }

  /** `g` is earned by percentage `p` and the letter one step up is not. */
  predicate IsBestLetter(g: Letter, p: real) {
    Earns(g, p) && (g == A || !Earns(NextUp(g), p))
  }

  /** A best letter is earned, and no better letter is. */
  lemma BestLetterIsMaximal(g: Letter, p: real)
    requires IsBestLetter(g, p)
    ensures Earns(g, p)
    ensures forall h: Letter :: Rank(h) > Rank(g) ==> !Earns(h, p)
  {
  }

  /** At most one letter is the best one for a percentage. */
  lemma BestLetterUnique(g: Letter, h: Letter, p: real)
    requires IsBestLetter(g, p) && IsBestLetter(h, p)
    ensures g == h
  {
  }

  /** A better percentage never earns a worse best letter. */
  lemma BestLetterMonotone(g: Letter, h: Letter, p: real, q: real)
    requires IsBestLetter(g, p) && IsBestLetter(h, q) && p <= q
    ensures Rank(g) <= Rank(h)
  {
  }

  /**
   * A percentage as an entry or a result carries it: a plain number, or
   * `Formatted(x)`, which stands for the text `number_format(x, 2)` renders.
   */
  datatype Pct = Number(value: real) | Formatted(value: real)

  /**
   * One subject entry of the decoded results payload. A key the payload
   * does not carry is `None`; `total`, `percentage` and `grade` are the
   * derived keys an evaluator overwrites.
   */
  datatype Entry = Entry(
    subject: string,
    ca: Option<int>,
    test: Option<int>,
    exam: Option<int>,
    total: Option<int>,
    percentage: Option<Pct>,
    grade: Option<Letter>)

  /**
   * A stored report row. `results` is the decoded `results_json` column:
   * `None` when it does not decode to a PHP array, otherwise its entries
   * in order.
   */
  datatype RawReport = RawReport(
    name: string,
    studentId: string,
    gradeLevel: string,
    term: string,
    dateGenerated: string,
    photoBase64: Option<string>,
    results: Option<seq<Entry>>)

  /** A component score; an absent one counts as 0. */
  function Component(c: Option<int>): int {
    c.GetOr(0)
  }

  /** ca + test + exam of one entry. */
  function SubjectTotal(e: Entry): int {
    Component(e.ca) + Component(e.test) + Component(e.exam)
  }

  /** Sum of the subject totals, accumulated front to back. */
  function SumTotals(es: seq<Entry>): int
    decreases |es|
  {
    if |es| == 0 then 0 else SumTotals(es[..|es| - 1]) + SubjectTotal(es[|es| - 1])
  }

  /** Mean subject total, 0 when there are no subjects. */
  function Mean(es: seq<Entry>): real {
    if |es| == 0 then 0.0 else SumTotals(es) as real / |es| as real
  }

  /** The component caps the entry form announces: CA 30, test 20, exam 50. */
  predicate WithinCaps(e: Entry) {
    0 <= Component(e.ca) <= 30 && 0 <= Component(e.test) <= 20 && 0 <= Component(e.exam) <= 50
  }

  /** An entry within the caps totals between 0 and 100. */
  lemma TotalWithinHundred(e: Entry)
    requires WithinCaps(e)
    ensures 0 <= SubjectTotal(e) <= 100
  {
  }

  /** Totals within the caps sum to between 0 and 100 per subject. */
  lemma {:induction false} SumTotalsBounds(es: seq<Entry>)
    requires forall i :: 0 <= i < |es| ==> WithinCaps(es[i])
    ensures 0 <= SumTotals(es) <= 100 * |es|
    decreases |es|
  {
    if |es| > 0 {
      SumTotalsBounds(es[..|es| - 1]);
      TotalWithinHundred(es[|es| - 1]);
    }
  }

  /** With every entry within the caps, the mean is a percentage. */
  lemma MeanBounds(es: seq<Entry>)
    requires forall i :: 0 <= i < |es| ==> WithinCaps(es[i])
    ensures 0.0 <= Mean(es) <= 100.0
  {
    if |es| > 0 {
      SumTotalsBounds(es);
      DivWithin(SumTotals(es) as real, |es| as real, 100.0);
    }
  }

  /** When every subject totals exactly 100, the totals sum to 100 per subject. */
  lemma {:induction false} FullMarksSum(es: seq<Entry>)
    requires forall i :: 0 <= i < |es| ==> SubjectTotal(es[i]) == 100
    ensures SumTotals(es) == 100 * |es|
    decreases |es|
  {
    if |es| > 0 {
      var init := es[..|es| - 1];
      assert forall i :: 0 <= i < |init| ==> init[i] == es[i];
      FullMarksSum(init);
    }
  }

  /** When every subject totals exactly 100, the mean is exactly 100. */
  lemma FullMarksMean(es: seq<Entry>)
    requires |es| > 0
    requires forall i :: 0 <= i < |es| ==> SubjectTotal(es[i]) == 100
    ensures Mean(es) == 100.0
  {
    FullMarksSum(es);
    var n := |es| as real;
    assert SumTotals(es) as real == 100.0 * n;
    assert Mean(es) == (100.0 * n) / n;
    DivCancel(100.0, n);
  }

  /** Dividing a multiple of `n` by `n` gives the factor back. */
  lemma DivCancel(k: real, n: real)
    requires n != 0.0
    ensures (k * n) / n == k
  {
  }

  /** A quotient by a positive `n` of a value between 0 and `k * n` lies between 0 and `k`. */
  lemma DivWithin(s: real, n: real, k: real)
    requires n > 0.0 && 0.0 <= s <= k * n
    ensures 0.0 <= s / n <= k
  {
    var q := s / n;
    assert q * n == s;
    if q > k {
      assert q * n > k * n;
    }
  }
}
