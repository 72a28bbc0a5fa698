/**
 * The step tracker (src/components/common/ProgressTracker.tsx): a progress bar and one row
 * per step, classified as active or completed from the position of the current step's id.
 * The steps' own `status` field is carried but never read; `label` is `labelText` here.
 *
 * The progress is the real number `((currentIndex + 1) / steps.length) * 100`; floating
 * point rounding is not modelled, and the division by an empty step list is JavaScript's
 * `0 / 0`, which is NaN.
 */
module ProgressTracker {
  import opened JsArray

  datatype StepState = Pending | Processing | Completed | Error

  datatype ProgressStep = ProgressStep(id: string, labelText: string, status: StepState)

  datatype Percent = Finite(value: real) | NaN

  function IdIs(id: string): ProgressStep -> bool { (s: ProgressStep) => s.id == id }

  /** `currentIndex`: the first position of the current step's id, or -1. */
  function CurrentIndex(steps: seq<ProgressStep>, currentStep: string): (r: int)
    ensures -1 <= r < |steps|
    ensures r >= 0 ==> steps[r].id == currentStep && forall j :: 0 <= j < r ==> steps[j].id != currentStep
    ensures r == -1 <==> forall j :: 0 <= j < |steps| ==> steps[j].id != currentStep
  {
    FindIndex(steps, IdIs(currentStep))
  }

  /** `progress`. */
  function Progress(steps: seq<ProgressStep>, currentStep: string): (r: Percent)
    ensures r.NaN? <==> steps == []
    ensures r.Finite? ==> 0.0 <= r.value <= 100.0
  {
    if |steps| == 0 then NaN
    else Finite((CurrentIndex(steps, currentStep) + 1) as real / |steps| as real * 100.0)
  }

  /** `isActive`: the step carries the current id. */
  predicate IsActive(step: ProgressStep, currentStep: string) {
    step.id == currentStep
  }

  /** `isCompleted`: the first position of the step's id comes before the current index. */
  predicate IsCompleted(steps: seq<ProgressStep>, step: ProgressStep, currentStep: string) {
    FindIndex(steps, IdIs(step.id)) < CurrentIndex(steps, currentStep)
  }

  /** An unknown current step: no progress, and no step is completed. */
  lemma UnknownStep(steps: seq<ProgressStep>, currentStep: string)
    requires steps != []
    requires forall j :: 0 <= j < |steps| ==> steps[j].id != currentStep
    ensures Progress(steps, currentStep) == Finite(0.0)
    ensures forall i :: 0 <= i < |steps| ==> !IsCompleted(steps, steps[i], currentStep)
  {
  }

  /** With the current step first found at the last position, the bar is full. */
  lemma LastStepFull(steps: seq<ProgressStep>, currentStep: string)
    requires steps != [] && steps[|steps| - 1].id == currentStep
    requires forall j :: 0 <= j < |steps| - 1 ==> steps[j].id != currentStep
    ensures Progress(steps, currentStep) == Finite(100.0)
  {
    assert CurrentIndex(steps, currentStep) == |steps| - 1;
  }

  /** An active step is never also completed, duplicated ids included. */
  lemma ActiveNotCompleted(steps: seq<ProgressStep>, step: ProgressStep, currentStep: string)
    requires IsActive(step, currentStep)
    ensures !IsCompleted(steps, step, currentStep)
  {
  }

  /** A step in the list is completed exactly when the current id first appears after it. */
  lemma CompletedIff(steps: seq<ProgressStep>, i: nat, currentStep: string)
    requires i < |steps|
    requires forall a, b :: 0 <= a < b < |steps| ==> steps[a].id != steps[b].id
    ensures IsCompleted(steps, steps[i], currentStep) <==> i < CurrentIndex(steps, currentStep)
  {
    assert IdIs(steps[i].id)(steps[i]);
  }

  /** With unique ids at most one step is active. */
  lemma AtMostOneActive(steps: seq<ProgressStep>, currentStep: string, i: nat, j: nat)
    requires forall a, b :: 0 <= a < b < |steps| ==> steps[a].id != steps[b].id
    requires i < |steps| && j < |steps|
    requires IsActive(steps[i], currentStep) && IsActive(steps[j], currentStep)
    ensures i == j
  {
  }

  /**
   * The dot's colour class: the full colour for the active step, the faded one for a completed
   * step that is not active, the muted one otherwise. A step is never both (ActiveNotCompleted).
   */
  function DotColor(active: bool, completed: bool): (r: string)
    ensures r == "bg-primary" <==> active
    ensures r == "bg-primary/50" <==> !active && completed
    ensures r == "bg-muted" <==> !active && !completed
  {
    if active then "bg-primary" else if completed then "bg-primary/50" else "bg-muted"
  }

  /** A step neither active nor completed shows the pending dot; the others never do. */
  lemma PendingDot(steps: seq<ProgressStep>, step: ProgressStep, currentStep: string)
    ensures var active := IsActive(step, currentStep);
      var completed := IsCompleted(steps, step, currentStep);
      (DotColor(active, completed) == "bg-muted") <==> (!active && !completed)
  {
  }
}
