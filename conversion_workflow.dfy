/**
 * The five-step conversion workflow card (src/components/wordpress/ConversionWorkflow.tsx):
 * a cursor over fixed steps, the status each step derives from it, and a progress value
 * that the previous/next buttons recompute and a click on a step does not.
 *
 * The progress is `(step / 4) * 100`; for the steps 0 to 4 this is 0, 25, 50, 75 and 100,
 * exact in floating point, so it is an integer here.
 */
module ConversionWorkflow {
  datatype StepStatus = Pending | Active | Completed

  const STEP_COUNT := 5

  /** The status of step `index` when the cursor is at `current`. */
  function Status(index: int, current: int): StepStatus {
    if current == index then Active else if current > index then Completed else Pending
  }

  /** The statuses of the five steps, in order. */
  function Statuses(current: int): (r: seq<StepStatus>)
    ensures |r| == STEP_COUNT
    ensures forall i :: 0 <= i < STEP_COUNT ==> (r[i] == Active <==> i == current)
    ensures forall i :: 0 <= i < STEP_COUNT ==> (r[i] == Completed <==> i < current)
    ensures forall i :: 0 <= i < STEP_COUNT ==> (r[i] == Pending <==> i > current)
  {
    [Status(0, current), Status(1, current), Status(2, current), Status(3, current), Status(4, current)]
  }

  /** With the cursor on a step, exactly one step is active. */
  lemma ExactlyOneActive(current: int)
    requires 0 <= current < STEP_COUNT
    ensures exists i :: 0 <= i < STEP_COUNT && Statuses(current)[i] == Active
    ensures forall i, j ::
      (0 <= i < STEP_COUNT && 0 <= j < STEP_COUNT && Statuses(current)[i] == Active && Statuses(current)[j] == Active) ==> i == j
  {
    assert Statuses(current)[current] == Active;
  }

  /** The progress the buttons set for a step. */
  function ProgressOf(step: int): int {
    step * 100 / (STEP_COUNT - 1)
  }

  class Workflow {
    var currentStep: int
    var workflowProgress: int

    /** The cursor is always on one of the steps. */
    predicate Valid()
      reads this
    {
      0 <= currentStep < STEP_COUNT
    }

    constructor()
      ensures Valid() && currentStep == 0 && workflowProgress == 0
    {
      currentStep := 0;
      workflowProgress := 0;
    }

    /** `handleNextStep`: advances, and sets the progress, unless on the last step. */
    method HandleNextStep()
      requires Valid()
      modifies this
      ensures Valid()
      ensures old(currentStep) < STEP_COUNT - 1 ==>
        currentStep == old(currentStep) + 1 && workflowProgress == 25 * currentStep
      ensures old(currentStep) == STEP_COUNT - 1 ==>
        currentStep == old(currentStep) && workflowProgress == old(workflowProgress)
    {
      if currentStep < STEP_COUNT - 1 {
        workflowProgress := ProgressOf(currentStep + 1);
        currentStep := currentStep + 1;
      }
    }

    /** `handlePreviousStep`: steps back, and sets the progress, unless on the first step. */
    method HandlePreviousStep()
      requires Valid()
      modifies this
      ensures Valid()
      ensures old(currentStep) > 0 ==>
        currentStep == old(currentStep) - 1 && workflowProgress == 25 * currentStep
      ensures old(currentStep) == 0 ==>
        currentStep == 0 && workflowProgress == old(workflowProgress)
    {
      if currentStep > 0 {
        workflowProgress := ProgressOf(currentStep - 1);
        currentStep := currentStep - 1;
      }
    }

    /** A click on the step at `index`: moves the cursor there and leaves the progress alone. */
    method HandleStepClick(index: int)
      requires 0 <= index < STEP_COUNT
      modifies this
      ensures Valid() && currentStep == index && workflowProgress == old(workflowProgress)
    {
      currentStep := index;
    }
  }

  /**
   * One click on the fourth step from the start: the cursor is on step 3 while the
   * progress still reads 0, where the buttons would have set 75.
   */
  method ProgressCanDisagree() returns (step: int, progress: int)
    ensures step == 3 && progress == 0 && progress != ProgressOf(step)
  {
    var w := new Workflow();
    w.HandleStepClick(3);
    step, progress := w.currentStep, w.workflowProgress;
  }
}
