/** The step indicator bar: per-step booleans computed from the current step, the furthest
    step and whether a navigation callback is present, and the click it forwards. */
module StepIndicator {
  import opened Base

  /** What the round button shows: a check mark, or the 1-based step number. */
  datatype Badge = Check | Number(n: nat)

  datatype StepView = StepView(completed: bool, current: bool, clickable: bool,
                               tooltip: bool, badge: Badge)

  /** The values computed for step `idx` inside `steps.map`. */
  function View(idx: nat, currentStep: int, maxStep: int, hasCallback: bool): (v: StepView)
    ensures v.completed <==> idx < currentStep
    ensures v.current <==> idx == currentStep
    ensures !(v.completed && v.current)
    ensures v.clickable <==> idx <= maxStep && idx != currentStep && hasCallback
    ensures v.current ==> !v.clickable
    ensures v.tooltip <==> v.completed
    ensures v.badge == Number(idx + 1) <==> !v.completed
  {
    var isCompleted := idx < currentStep;
    var isCurrent := idx == currentStep;
    var isClickable := idx <= maxStep && idx != currentStep && hasCallback;
    var showTooltip := isCompleted && idx < currentStep;
    StepView(isCompleted, isCurrent, isClickable, showTooltip,
             if isCompleted then Check else Number(idx + 1))
  }

  /** The button's `onClick`: the index handed to the callback, if it is called at all. */
  function Click(idx: nat, currentStep: int, maxStep: int, hasCallback: bool): (r: Option<nat>)
    ensures r.Some? <==> View(idx, currentStep, maxStep, hasCallback).clickable
    ensures r.Some? ==> r.value == idx
  {
    var v := View(idx, currentStep, maxStep, hasCallback);
    if v.clickable && hasCallback then Some(idx) else None
  }

  /** The views of a bar with `n` steps, in order. */
  function Views(n: nat, currentStep: int, maxStep: int, hasCallback: bool): (vs: seq<StepView>)
    ensures |vs| == n
    ensures forall i :: 0 <= i < n ==> vs[i] == View(i, currentStep, maxStep, hasCallback)
  {
    seq(n, i requires 0 <= i => View(i, currentStep, maxStep, hasCallback))
  }

  /** Exactly one step of the bar is current when the current step is in range, and its
      predecessors are exactly the completed ones. */
  lemma {:induction false} ExactlyOneCurrent(n: nat, currentStep: nat, maxStep: int, hasCallback: bool)
    requires currentStep < n
    ensures var vs := Views(n, currentStep, maxStep, hasCallback);
      && vs[currentStep].current
      && (forall i :: 0 <= i < n && vs[i].current ==> i == currentStep)
      && (forall i :: 0 <= i < n ==> (vs[i].completed <==> i < currentStep))
  {
  }

  /** When the furthest step does not exceed the current one, only earlier steps can be
      clicked: the bar offers backward navigation only. */
  lemma {:induction false} BackwardOnly(idx: nat, currentStep: int, maxStep: int, hasCallback: bool)
    requires maxStep <= currentStep
    ensures View(idx, currentStep, maxStep, hasCallback).clickable ==> idx < currentStep
    ensures Click(idx, currentStep, maxStep, hasCallback).Some? ==> View(idx, currentStep, maxStep, hasCallback).completed
  {
  }
}
