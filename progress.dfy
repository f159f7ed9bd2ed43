/** The six-step analysis stepper of analysis-progress.tsx. The component's
    state (`steps`, `progress`, `currentStepIndex`, `isCompleted`,
    `hasError`) is a class; one run of its update effect is `Update`, which
    is specified by the pure transition `Next` on a snapshot of that state.
    The one-second `onComplete` timeout is a count of scheduled callbacks. */
module Progress {
  import opened Wrappers

  datatype Status = Waiting | Processing | Completed | Error

  datatype Step = Step(id: string, name: string, status: Status, message: Option<string>)

  const NumSteps: nat := 6
  const LastStep: nat := 5

  const StepIds: seq<string> := ["request", "fetch", "basic", "technical", "ai", "score"]
  const StepNames: seq<string> := ["发送请求", "获取数据", "基础分析", "技术指标分析", "AI评估", "生成评分和建议"]

  const DefaultErrorText: string := "分析过程中出错"

  /** The component's props after the destructuring defaults
      (`currentStep = 0`, `isApiLoading = true`, `isApiError = false`,
      `errorMessage = ''`). `hasOnComplete` says whether `onComplete` was
      supplied; `code` is only read as a dependency of the effect. */
  datatype Props = Props(
    isVisible: bool,
    code: string,
    currentStep: nat,
    isApiLoading: bool,
    isApiError: bool,
    errorMessage: string,
    hasOnComplete: bool)

  /** Applies the destructuring defaults to the props a page passes. */
  function WithDefaults(isVisible: bool, code: string, currentStep: Option<nat>, isApiLoading: Option<bool>,
                        isApiError: Option<bool>, errorMessage: Option<string>, hasOnComplete: bool)
    : (p: Props)
    ensures p.isVisible == isVisible && p.code == code && p.hasOnComplete == hasOnComplete
    ensures currentStep.None? ==> p.currentStep == 0
    ensures isApiLoading.None? ==> p.isApiLoading
    ensures isApiError.None? ==> !p.isApiError
    ensures errorMessage.None? ==> p.errorMessage == ""
    ensures currentStep.Some? ==> p.currentStep == currentStep.value
    ensures isApiLoading.Some? ==> p.isApiLoading == isApiLoading.value
    ensures isApiError.Some? ==> p.isApiError == isApiError.value
    ensures errorMessage.Some? ==> p.errorMessage == errorMessage.value
  {
    Props(isVisible, code, currentStep.GetOr(0), isApiLoading.GetOr(true), isApiError.GetOr(false),
          errorMessage.GetOr(""), hasOnComplete)
  }

  /** A snapshot of the component state. */
  datatype ProgressState = ProgressState(
    steps: seq<Step>,
    progress: int,
    currentStepIndex: nat,
    isCompleted: bool,
    hasError: bool,
    pendingCallbacks: nat)

  /** Six steps with the fixed ids and names, in order. */
  predicate Layout(steps: seq<Step>) {
    |steps| == NumSteps
    && forall i :: 0 <= i < NumSteps ==> steps[i].id == StepIds[i] && steps[i].name == StepNames[i]
  }

  function Min(a: nat, b: nat): nat {
    if a < b then a else b
  }

  /** `errorMessage || '分析过程中出错'`. */
  function ErrorText(errorMessage: string): (t: string)
    ensures t != ""
    ensures errorMessage != "" ==> t == errorMessage
    ensures errorMessage == "" ==> t == DefaultErrorText
  {
    if errorMessage != "" then errorMessage else DefaultErrorText
  }

  /** Every step with the given status, ids, names and messages kept. */
  function WithStatus(s: seq<Step>, status: Status): (r: seq<Step>)
    ensures |r| == |s|
    ensures forall i :: 0 <= i < |s| ==> r[i] == s[i].(status := status)
  {
    seq(|s|, i requires 0 <= i < |s| => s[i].(status := status))
  }

  /** The loading branch's step update for `apiStep == a`. */
  function Advance(s: seq<Step>, a: nat): (r: seq<Step>)
    requires a < |s|
    ensures |r| == |s|
    ensures forall i :: 0 <= i < a ==> r[i] == s[i].(status := Completed)
    ensures r[a] == s[a].(status := Processing)
    ensures forall i :: a < i < |s| ==> r[i] == s[i]
  {
    seq(|s|, i requires 0 <= i < |s| =>
      if i < a then s[i].(status := Completed)
      else if i == a then s[i].(status := Processing)
      else s[i])
  }

  /** `Math.floor((apiStep / 5) * 100)`; for apiStep in 0..5 the double
      result is exactly `20 * apiStep`. */
  function StepProgress(apiStep: nat): int {
    apiStep * 100 / LastStep
  }

  /** One run of the update effect, in its priority order: hidden, error,
      finished loading, loading. */
  function Next(st: ProgressState, p: Props): (r: ProgressState)
    requires |st.steps| == NumSteps
    ensures |r.steps| == NumSteps
    ensures r.pendingCallbacks == st.pendingCallbacks
              + (if p.isVisible && !p.isApiError && !p.isApiLoading && p.hasOnComplete then 1 else 0)
  {
    if !p.isVisible then
      ProgressState(WithStatus(st.steps, Waiting), 0, 0, false, false, st.pendingCallbacks)
    else if p.isApiError then
      var k := Min(st.currentStepIndex, LastStep);
      st.(hasError := true,
          steps := st.steps[k := st.steps[k].(status := Error, message := Some(ErrorText(p.errorMessage)))])
    else if !p.isApiLoading then
      st.(steps := WithStatus(st.steps, Completed), progress := 100, isCompleted := true,
          pendingCallbacks := st.pendingCallbacks + (if p.hasOnComplete then 1 else 0))
    else
      var a := Min(p.currentStep, LastStep);
      st.(currentStepIndex := a, progress := StepProgress(a), steps := Advance(st.steps, a))
  }

  /** The effect's dependency list `[isVisible, code, currentStep,
      isApiLoading, isApiError, errorMessage]`: React runs the effect after
      the first render and after every render in which one of them differs
      from the previous render's. `onComplete` is not in the list. */
  predicate EffectRuns(previous: Option<Props>, p: Props) {
    previous.None? ||
    var q := previous.value;
    q.isVisible != p.isVisible || q.code != p.code || q.currentStep != p.currentStep
    || q.isApiLoading != p.isApiLoading || q.isApiError != p.isApiError
    || q.errorMessage != p.errorMessage
  }

  /** The state after a render with props `p` that follows a render with
      `previous` (None for the first render). */
  function Rendered(st: ProgressState, previous: Option<Props>, p: Props): (r: ProgressState)
    requires |st.steps| == NumSteps
    ensures |r.steps| == NumSteps
  {
    if EffectRuns(previous, p) then Next(st, p) else st
  }

  function Initial(): ProgressState {
    ProgressState(
      seq(NumSteps, i requires 0 <= i < NumSteps => Step(StepIds[i], StepNames[i], Waiting, None)),
      0, 0, false, false, 0)
  }

  // ---------------------------------------------------------------------
  // Properties of the transition

  /** No branch changes the number, the ids, the names or the order of
      the steps. */
  lemma NextKeepsLayout(st: ProgressState, p: Props)
    requires Layout(st.steps)
    ensures Layout(Next(st, p).steps)
  {
  }

  /** Hidden: everything is reset, whatever the other props are. */
  lemma HiddenResets(st: ProgressState, p: Props)
    requires |st.steps| == NumSteps && !p.isVisible
    ensures forall i :: 0 <= i < NumSteps ==> Next(st, p).steps[i].status == Waiting
    ensures Next(st, p).progress == 0 && Next(st, p).currentStepIndex == 0
    ensures !Next(st, p).isCompleted && !Next(st, p).hasError
  {
  }

  /** Error: only the step at min(currentStepIndex, 5) changes, to an error
      with the message or the default text; progress, index and completion
      are untouched. */
  lemma ErrorMarksOneStep(st: ProgressState, p: Props)
    requires |st.steps| == NumSteps && p.isVisible && p.isApiError
    ensures var k := Min(st.currentStepIndex, LastStep);
            && Next(st, p).steps[k].status == Error
            && Next(st, p).steps[k].message == Some(if p.errorMessage != "" then p.errorMessage else DefaultErrorText)
            && Next(st, p).steps[k].id == st.steps[k].id
            && (forall i :: 0 <= i < NumSteps && i != k ==> Next(st, p).steps[i] == st.steps[i])
    ensures Next(st, p).hasError
    ensures Next(st, p).progress == st.progress && Next(st, p).currentStepIndex == st.currentStepIndex
    ensures Next(st, p).isCompleted == st.isCompleted
    ensures Next(st, p).pendingCallbacks == st.pendingCallbacks
  {
  }

  /** The error branch is tested first: an error that arrives together with
      the end of loading never gives the all-completed state. */
  lemma ErrorBeatsCompletion(st: ProgressState, p: Props)
    requires |st.steps| == NumSteps && p.isVisible && p.isApiError && !p.isApiLoading
    ensures exists i :: 0 <= i < NumSteps && Next(st, p).steps[i].status == Error
    ensures Next(st, p).pendingCallbacks == st.pendingCallbacks
  {
    var k := Min(st.currentStepIndex, LastStep);
    assert Next(st, p).steps[k].status == Error;
  }

  /** Finished loading: all steps completed, progress 100, completed, and
      one more callback scheduled exactly when `onComplete` is supplied. */
  lemma FinishCompletesAll(st: ProgressState, p: Props)
    requires |st.steps| == NumSteps && p.isVisible && !p.isApiError && !p.isApiLoading
    ensures forall i :: 0 <= i < NumSteps ==> Next(st, p).steps[i].status == Completed
    ensures Next(st, p).progress == 100 && Next(st, p).isCompleted
    ensures Next(st, p).pendingCallbacks == st.pendingCallbacks + 1 <==> p.hasOnComplete
    ensures Next(st, p).hasError == st.hasError
  {
  }

  /** Loading: the index is min(currentStep, 5), progress is 20 per step,
      earlier steps are completed, the current one is processing, later ones
      keep their previous status. */
  lemma LoadingAdvances(st: ProgressState, p: Props)
    requires |st.steps| == NumSteps && p.isVisible && !p.isApiError && p.isApiLoading
    ensures var a := Min(p.currentStep, LastStep);
            && Next(st, p).currentStepIndex == a
            && Next(st, p).progress == 20 * a
            && (forall i :: 0 <= i < a ==> Next(st, p).steps[i].status == Completed)
            && Next(st, p).steps[a].status == Processing
            && (forall i :: a < i < NumSteps ==> Next(st, p).steps[i] == st.steps[i])
    ensures Next(st, p).isCompleted == st.isCompleted && Next(st, p).hasError == st.hasError
  {
  }

  /** Loading progress stays in [0, 100] and never decreases as the
      current step grows; from step 5 on it is 100 although the stepper is
      not marked completed. */
  lemma LoadingProgressMonotone(st: ProgressState, p: Props, q: Props)
    requires |st.steps| == NumSteps
    requires p.isVisible && !p.isApiError && p.isApiLoading
    requires q.isVisible && !q.isApiError && q.isApiLoading
    requires p.currentStep <= q.currentStep
    ensures 0 <= Next(st, p).progress <= Next(st, q).progress <= 100
    ensures p.currentStep >= LastStep ==> Next(st, p).progress == 100 && Next(st, p).isCompleted == st.isCompleted
  {
    var a, b := Min(p.currentStep, LastStep), Min(q.currentStep, LastStep);
    assert a <= b;
    assert a * 100 / LastStep == 20 * a;
    assert b * 100 / LastStep == 20 * b;
  }

  /** Progress in [0, 100] is an invariant of every transition. */
  lemma ProgressStaysInRange(st: ProgressState, p: Props)
    requires |st.steps| == NumSteps && 0 <= st.progress <= 100
    ensures 0 <= Next(st, p).progress <= 100
  {
    var a := Min(p.currentStep, LastStep);
    assert a * 100 / LastStep == 20 * a;
  }

  /** A render whose dependencies equal the previous render's leaves the
      state alone, whatever `onComplete` is. */
  lemma SameDependenciesKeepState(st: ProgressState, p: Props, q: Props)
    requires |st.steps| == NumSteps
    requires q == p.(hasOnComplete := q.hasOnComplete)
    ensures Rendered(st, Some(p), q) == st
  {
  }

  /** Nothing cancels a scheduled callback: a finished-loading render with
      `onComplete`, followed by another one whose dependencies changed (a
      new code or step, say) while loading stays finished, schedules it
      twice. */
  lemma CallbackCanRepeat(st: ProgressState, p: Props, q: Props)
    requires |st.steps| == NumSteps
    requires p.isVisible && !p.isApiError && !p.isApiLoading && p.hasOnComplete
    requires q.isVisible && !q.isApiError && !q.isApiLoading && q.hasOnComplete
    requires EffectRuns(Some(p), q)
    ensures Rendered(Rendered(st, None, p), Some(p), q).pendingCallbacks == st.pendingCallbacks + 2
    ensures Rendered(Rendered(st, None, p), Some(p), q).isCompleted
  {
  }

  // ---------------------------------------------------------------------
  // The component

  class AnalysisProgress {
    var steps: array<Step>
    var progress: int
    var currentStepIndex: nat
    var isCompleted: bool
    var hasError: bool
    var pendingCallbacks: nat
    /** The props of the last render: what React compares the
        dependencies with. */
    var lastProps: Option<Props>

    predicate Valid()
      reads this, steps
    {
      Layout(steps[..])
    }

    function State(): ProgressState
      reads this, steps
    {
      ProgressState(steps[..], progress, currentStepIndex, isCompleted, hasError, pendingCallbacks)
    }

    /** The initial `useState` values: six waiting steps, progress 0. */
    constructor ()
      ensures Valid() && fresh(steps) && lastProps.None?
      ensures State() == Initial()
    {
      var a := new Step[NumSteps](i requires 0 <= i < NumSteps => Step(StepIds[i], StepNames[i], Waiting, None));
      steps := a;
      progress := 0;
      currentStepIndex := 0;
      isCompleted := false;
      hasError := false;
      pendingCallbacks := 0;
      lastProps := None;
      new;
      assert steps[..] == Initial().steps;
    }

    /** Marks every step with `status`, keeping everything else. */
    method SetAll(status: Status)
      requires steps.Length == NumSteps
      modifies steps
      ensures steps[..] == WithStatus(old(steps[..]), status)
    {
      for i := 0 to steps.Length
        invariant forall j :: 0 <= j < i ==> steps[j] == old(steps[j]).(status := status)
        invariant forall j :: i <= j < steps.Length ==> steps[j] == old(steps[j])
      {
        steps[i] := steps[i].(status := status);
      }
    }

    /** One run of the update effect. */
    method Update(p: Props)
      requires Valid()
      modifies this, steps
      ensures steps == old(steps)
      ensures Valid()
      ensures State() == Next(old(State()), p)
    {
      if !p.isVisible {
        SetAll(Waiting);
        progress := 0;
        currentStepIndex := 0;
        isCompleted := false;
        hasError := false;
        return;
      }
      if p.isApiError {
        hasError := true;
        var k := if currentStepIndex < LastStep then currentStepIndex else LastStep;
        var msg := if p.errorMessage != "" then p.errorMessage else DefaultErrorText;
        steps[k] := steps[k].(status := Error, message := Some(msg));
        assert steps[..] == old(steps[..])[k := old(steps[k]).(status := Error, message := Some(msg))];
        return;
      }
      if !p.isApiLoading {
        SetAll(Completed);
        progress := 100;
        isCompleted := true;
        if p.hasOnComplete {
          pendingCallbacks := pendingCallbacks + 1;
        }
        return;
      }
      var apiStep := if p.currentStep < LastStep then p.currentStep else LastStep;
      currentStepIndex := apiStep;
      progress := apiStep * 100 / LastStep;
      AdvanceTo(apiStep);
    }

    /** A render with props `p`: the effect runs when its dependencies
        changed, and the props are remembered for the next comparison. */
    method Render(p: Props)
      requires Valid()
      modifies this, steps
      ensures steps == old(steps)
      ensures Valid()
      ensures State() == Rendered(old(State()), old(lastProps), p)
      ensures lastProps == Some(p)
    {
      if EffectRuns(lastProps, p) {
        Update(p);
      }
      lastProps := Some(p);
    }

    /** Completes the steps before `a` and marks step `a` processing. */
    method AdvanceTo(a: nat)
      requires a < steps.Length
      modifies steps
      ensures steps[..] == Advance(old(steps[..]), a)
    {
      for i := 0 to a
        invariant forall j :: 0 <= j < i ==> steps[j] == old(steps[j]).(status := Completed)
        invariant forall j :: i <= j < steps.Length ==> steps[j] == old(steps[j])
      {
        steps[i] := steps[i].(status := Completed);
      }
      steps[a] := steps[a].(status := Processing);
    }
  }

  /** Two finished-loading renders for different codes schedule
      `onComplete` twice; rendering the same props again does not. */
  method RepeatedCompletion() returns (afterSame: nat, afterNewCode: nat)
    ensures afterSame == 1 && afterNewCode == 2
  {
    var c := new AnalysisProgress();
    var done := Props(true, "rb2501", 5, false, false, "", true);
    c.Render(done);
    assert c.pendingCallbacks == 1;
    c.Render(done);
    afterSame := c.pendingCallbacks;
    var next := done.(code := "cu2501");
    assert EffectRuns(Some(done), next);
    c.Render(next);
    afterNewCode := c.pendingCallbacks;
  }
}
