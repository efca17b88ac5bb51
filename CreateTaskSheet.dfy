/**
 * The submit handler of src/components/tasks/CreateTaskSheet.tsx: the two
 * numeric inputs are parsed, defaulted and clamped before the task is
 * submitted, and the `isSubmitting` flag is cleared however the submission
 * ends.
 */
module CreateTaskSheet {
  import opened Js

  /** `Number.parseInt(input, 10) || fallback`: NaN and 0 (also `-0`) are falsy. */
  function ParsedOr(input: string, fallback: int): int
  {
    var p := ParseInt(input);
    if p.None? || p.value == 0 then fallback else p.value
  }

  /** `Math.min(hi, Math.max(lo, x))`. */
  function Clamp(lo: int, hi: int, x: int): int
  {
    var low := if lo < x then x else lo;
    if hi < low then hi else low
  }

  /** The article count submitted for the text of the count input. */
  function ArticleCount(input: string): int
  {
    Clamp(1, 20, ParsedOr(input, 5))
  }

  /** The target word count submitted for the text of the target input. */
  function TargetWordCount(input: string): int
  {
    Clamp(200, 2000, ParsedOr(input, 800))
  }

  /**
   * The article count lies in 1..20: text without a leading number, or a
   * number that is 0, gives 5; a negative number gives 1, one above 20
   * gives 20, and one in range is kept.
   */
  lemma ArticleCountSpec(input: string)
    ensures 1 <= ArticleCount(input) <= 20
    ensures ParseInt(input).None? || ParseInt(input) == Some(0) ==> ArticleCount(input) == 5
    ensures ParseInt(input).Some? && ParseInt(input).value < 0 ==> ArticleCount(input) == 1
    ensures ParseInt(input).Some? && 1 <= ParseInt(input).value <= 20 ==> ArticleCount(input) == ParseInt(input).value
    ensures ParseInt(input).Some? && ParseInt(input).value > 20 ==> ArticleCount(input) == 20
  {
  }

  /**
   * The target lies in 200..2000: text without a leading number, or 0,
   * gives 800; anything else is clamped into the range, and a value in it
   * is kept.
   */
  lemma TargetWordCountSpec(input: string)
    ensures 200 <= TargetWordCount(input) <= 2000
    ensures ParseInt(input).None? || ParseInt(input) == Some(0) ==> TargetWordCount(input) == 800
    ensures ParseInt(input).Some? && ParseInt(input).value != 0 && ParseInt(input).value < 200 ==> TargetWordCount(input) == 200
    ensures ParseInt(input).Some? && 200 <= ParseInt(input).value <= 2000 ==> TargetWordCount(input) == ParseInt(input).value
    ensures ParseInt(input).Some? && ParseInt(input).value > 2000 ==> TargetWordCount(input) == 2000
  {
  }

  /**
   * A count typed as a plain numeral in range, possibly followed by text
   * that does not start with a digit, is submitted as typed.
   */
  lemma ArticleCountOfNumeral(n: nat, tail: string)
    requires 1 <= n <= 20
    requires tail == [] || !IsDigit(tail[0])
    ensures ArticleCount(NatToString(n) + tail) == n
  {
    ParseIntOfNumeral(n, tail);
  }

  /** Likewise for a target typed as a numeral in range. */
  lemma TargetWordCountOfNumeral(n: nat, tail: string)
    requires 200 <= n <= 2000
    requires tail == [] || !IsDigit(tail[0])
    ensures TargetWordCount(NatToString(n) + tail) == n
  {
    ParseIntOfNumeral(n, tail);
  }

  /** The numeral of 800, with nothing after it. */
  lemma NumeralEightHundred()
    ensures NatToString(800) + [] == "800"
  {
    assert NatToString(8) == "8";
    assert NatToString(80) == NatToString(8) + [DigitChar(0)];
    assert NatToString(800) == NatToString(80) + [DigitChar(0)];
  }

  /** The arguments `onSubmit` is called with. */
  datatype Submission = Submission(companyInfo: string, productInfo: string, articleCount: int, targetWordCount: int)

  /** The sheet's form state; `submissions` records the calls to `onSubmit`, `errorsLogged` what the catch block logs. */
  class TaskForm {
    var companyInfo: string
    var productInfo: string
    var articleCountInput: string
    var targetWordCountInput: string
    var isSubmitting: bool
    var submissions: seq<Submission>
    var errorsLogged: seq<Thrown>

    constructor()
      ensures companyInfo == "" && productInfo == ""
      ensures articleCountInput == "5" && targetWordCountInput == "800"
      ensures !isSubmitting && submissions == [] && errorsLogged == []
      ensures ArticleCount(articleCountInput) == 5 && TargetWordCount(targetWordCountInput) == 800
    {
      ArticleCountOfNumeral(5, []);
      assert NatToString(5) + [] == "5";
      TargetWordCountOfNumeral(800, []);
      NumeralEightHundred();
      companyInfo := "";
      productInfo := "";
      articleCountInput := "5";
      targetWordCountInput := "800";
      isSubmitting := false;
      submissions := [];
      errorsLogged := [];
    }

    /**
     * `handleSubmit`: `onSubmit` is called once with the texts and the
     * clamped numbers; `outcome` is how that call settles. A rejection is
     * logged, and either way the form is no longer submitting.
     */
    method HandleSubmit(outcome: Result<(), Thrown>)
      modifies this
      ensures !isSubmitting
      ensures companyInfo == old(companyInfo) && productInfo == old(productInfo)
      ensures articleCountInput == old(articleCountInput) && targetWordCountInput == old(targetWordCountInput)
      ensures submissions == old(submissions)
        + [Submission(companyInfo, productInfo, ArticleCount(articleCountInput), TargetWordCount(targetWordCountInput))]
      ensures errorsLogged == old(errorsLogged) + (if outcome.Err? then [outcome.error] else [])
    {
      var submitted := Submission(companyInfo, productInfo, ArticleCount(articleCountInput), TargetWordCount(targetWordCountInput));
      var logged := if outcome.Err? then errorsLogged + [outcome.error] else errorsLogged;
      submissions, errorsLogged, isSubmitting := submissions + [submitted], logged, false;
    }
  }
}
