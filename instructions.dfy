/**
 * The four-step instructions modal of components/InstructionsModal.tsx: the
 * `currentStep` navigation (next, previous, jump by indicator, Escape), the
 * classification of each step indicator and the progress bar width.
 */
module Instructions {
  const TotalSteps := 4

  /** How an indicator button is drawn. */
  datatype IndicatorStatus = Current | Completed | Upcoming

  /** The status of indicator `index` (0-based) while `step` (1-based) is shown. */
  function Indicator(index: nat, step: int): (s: IndicatorStatus)
    ensures s == Current <==> index + 1 == step
    ensures s == Completed <==> index + 1 < step
    ensures s == Upcoming <==> index + 1 > step
  {
    if step == index + 1 then Current
    else if index + 1 < step then Completed
    else Upcoming
  }

  /** The row of indicators, one per step. */
  function IndicatorRow(step: int): (row: seq<IndicatorStatus>)
    ensures |row| == TotalSteps
  {
    seq(TotalSteps, i requires 0 <= i => Indicator(i, step))
  }

  function Repeat(s: IndicatorStatus, n: nat): (r: seq<IndicatorStatus>)
    ensures |r| == n && forall k :: 0 <= k < n ==> r[k] == s
  {
    if n == 0 then [] else [s] + Repeat(s, n - 1)
  }

  /**
   * While a valid step is shown, the indicators before it are completed,
   * exactly its own is current, and those after it are upcoming.
   */
  lemma IndicatorRowLayout(step: int)
    requires 1 <= step <= TotalSteps
    ensures IndicatorRow(step) == Repeat(Completed, step - 1) + [Current] + Repeat(Upcoming, TotalSteps - step)
  {
    var row := IndicatorRow(step);
    var layout := Repeat(Completed, step - 1) + [Current] + Repeat(Upcoming, TotalSteps - step);
    assert |row| == |layout|;
    forall k | 0 <= k < TotalSteps
      ensures row[k] == layout[k]
    {
      if k < step - 1 {
        assert layout[k] == Completed;
      } else if k == step - 1 {
        assert layout[k] == Current;
      } else {
        assert layout[k] == Upcoming;
      }
    }
  }

  /** The progress bar width in percent, `currentStep / totalSteps * 100`. */
  function ProgressPercent(step: int): real {
    (step as real / TotalSteps as real) * 100.0
  }

  /** Each step adds a quarter of the bar; the last step fills it. */
  lemma ProgressPerStep(step: int)
    ensures ProgressPercent(step) == 25.0 * step as real
    ensures step == TotalSteps ==> ProgressPercent(step) == 100.0
    ensures 1 <= step <= TotalSteps ==> 0.0 < ProgressPercent(step) <= 100.0
  {
  }

  /** The modal's navigation state and the close requests it has issued to its parent. */
  class InstructionsModal {
    var currentStep: int
    /** How many times `onClose` was called. */
    var closeRequests: nat

    ghost predicate Valid()
      reads this
    {
      1 <= currentStep <= TotalSteps
    }

    constructor ()
      ensures Valid() && currentStep == 1 && closeRequests == 0
    {
      currentStep, closeRequests := 1, 0;
    }

    /** The index into the four step descriptions of the step on show; always in bounds. */
    function ShownStep(): (i: nat)
      requires Valid()
      reads this
      ensures i < TotalSteps && i + 1 == currentStep
      ensures Indicator(i, currentStep) == Current
    {
      currentStep - 1
    }

    /** `nextStep`: forward one step, or on the last step ask the parent to close. */
    method NextStep()
      requires Valid()
      modifies this
      ensures Valid()
      ensures old(currentStep) < TotalSteps ==> currentStep == old(currentStep) + 1 && closeRequests == old(closeRequests)
      ensures old(currentStep) == TotalSteps ==> currentStep == old(currentStep) && closeRequests == old(closeRequests) + 1
    {
      if currentStep < TotalSteps {
        currentStep := currentStep + 1;
      } else {
        closeRequests := closeRequests + 1;
      }
    }

    /** `prevStep`: back one step; nothing on the first step. */
    method PrevStep()
      requires Valid()
      modifies this
      ensures Valid() && closeRequests == old(closeRequests)
      ensures old(currentStep) > 1 ==> currentStep == old(currentStep) - 1
      ensures old(currentStep) == 1 ==> currentStep == 1
    {
      if currentStep > 1 {
        currentStep := currentStep - 1;
      }
    }

    /** A click on indicator `index`, one of the four rendered from the steps. */
    method SelectIndicator(index: int)
      requires Valid() && 0 <= index < TotalSteps
      modifies this
      ensures Valid() && currentStep == index + 1 && closeRequests == old(closeRequests)
    {
      currentStep := index + 1;
    }

    /** A key press: Escape asks the parent to close, any other key does nothing. */
    method KeyDown(key: string)
      requires Valid()
      modifies this
      ensures Valid() && currentStep == old(currentStep)
      ensures closeRequests == old(closeRequests) + (if key == "Escape" then 1 else 0)
    {
      if key == "Escape" {
        closeRequests := closeRequests + 1;
      }
    }
  }
}
