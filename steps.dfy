/** Wizard navigation of webapp/static/Steps.js: moving forward after
    validation, moving back, restarting, and the completed/active classes of
    the sidebar items. Rendering is not modelled. */
module Steps {
  import opened Company
  import opened State
  import opened Validation

  /** The step index stays within the step list. */
  predicate StepInRange(s: AppState)
    reads s
  {
    0 <= s.currentStep < StepCount
  }

  /** What `nextStep()` does: nothing (validation failed), move to the
      next step, or, on the last step, generate the recommendations. */
  datatype NextOutcome = Blocked | Advanced | Generate

  /** `nextStep()`. The outcome follows the validation of the current
      step: a failure blocks, a pass below the last step advances by one,
      and a pass on the last step generates the recommendations. The
      company data becomes the validation's write, also when it fails. */
  method NextStep(s: AppState, form: Form) returns (outcome: NextOutcome)
    requires StepInRange(s)
    modifies s`companyData, s`currentStep
    ensures StepInRange(s)
    ensures var passes := StepPasses(old(s.currentStep), s.selectedPublicTypes, s.selectedProducts,
                                     s.selectedBathroomSegment, form);
            (outcome == Blocked <==> !passes)
            && (outcome == Advanced <==> passes && old(s.currentStep) < StepCount - 1)
            && (outcome == Generate <==> passes && old(s.currentStep) == StepCount - 1)
    ensures outcome == Advanced ==> s.currentStep == old(s.currentStep) + 1
    ensures outcome != Advanced ==> s.currentStep == old(s.currentStep)
    ensures s.companyData == StepWrite(old(s.currentStep), old(s.companyData), s.selectedPublicTypes,
                                       s.selectedProducts, s.selectedBathroomSegment, form)
  {
    var ok := ValidateStep(s, form);
    if !ok {
      return Blocked;
    }
    var currentStep := s.currentStep;
    if currentStep < StepCount - 1 {
      s.SetCurrentStep(currentStep + 1);
      outcome := Advanced;
    } else {
      outcome := Generate;
    }
  }

  /** `previousStep()`: one step back, and nothing at the first step. */
  method PreviousStep(s: AppState)
    requires StepInRange(s)
    modifies s`currentStep
    ensures StepInRange(s)
    ensures old(s.currentStep) > 0 ==> s.currentStep == old(s.currentStep) - 1
    ensures old(s.currentStep) == 0 ==> s.currentStep == 0
  {
    var currentStep := s.currentStep;
    if currentStep > 0 {
      s.SetCurrentStep(currentStep - 1);
    }
  }

  /** `startQuiz()`: resets the state, which clears the company profile,
      the consumption and the selections and puts the wizard on its first
      step; the catalog stays loaded. */
  method StartQuiz(s: AppState)
    modifies s`companyData, s`consumptionData, s`currentStep
    modifies s`selectedProducts, s`selectedPublicTypes, s`selectedBathroomSegment
    ensures StepInRange(s) && s.currentStep == 0
    ensures s.companyData == EmptyCompanyData && s.consumptionData == map[]
    ensures s.selectedProducts == [] && s.selectedPublicTypes == [] && s.selectedBathroomSegment == ""
    ensures s.productData == old(s.productData)
  {
    s.ResetState();
  }

  /** The class of a sidebar item. */
  datatype StepClass = Completed | Active | Pending

  /** The class of item `index` when the wizard is on `currentStep`. */
  function ClassOf(index: int, currentStep: int): (c: StepClass)
    ensures c == Completed <==> index < currentStep
    ensures c == Active <==> index == currentStep
    ensures c == Pending <==> index > currentStep
  {
    if index < currentStep then Completed
    else if index == currentStep then Active
    else Pending
  }

  /** `updateStepsList()`: every item's class is reset and set again from
      its index. */
  method UpdateStepsList(items: array<StepClass>, currentStep: int)
    modifies items
    ensures forall i :: 0 <= i < items.Length ==> items[i] == ClassOf(i, currentStep)
  {
    for index := 0 to items.Length
      invariant forall i :: 0 <= i < index ==> items[i] == ClassOf(i, currentStep)
    {
      items[index] := Pending;
      if index < currentStep {
        items[index] := Completed;
      } else if index == currentStep {
        items[index] := Active;
      }
    }
  }

  /** The number of items of class `c` among `classes`. */
  function CountClass(classes: seq<StepClass>, c: StepClass): (n: nat)
    ensures n <= |classes|
  {
    if |classes| == 0 then 0
    else CountClass(classes[..|classes| - 1], c) + (if classes[|classes| - 1] == c then 1 else 0)
  }

  /** The classes of `n` items on step `currentStep`. */
  function Classes(n: nat, currentStep: int): (classes: seq<StepClass>)
    ensures |classes| == n
    ensures forall i :: 0 <= i < n ==> classes[i] == ClassOf(i, currentStep)
  {
    seq(n, i => ClassOf(i, currentStep))
  }

  /** On step `k` of the `n` items exactly `k` are completed and exactly one
      is active. */
  lemma {:induction false} ClassCounts(n: nat, k: nat)
    requires k < n
    ensures CountClass(Classes(n, k), Completed) == k
    ensures CountClass(Classes(n, k), Active) == 1
  {
    if n - 1 > k {
      ClassCounts(n - 1, k);
      assert Classes(n, k)[..n - 1] == Classes(n - 1, k);
    } else {
      CompletedPrefix(k, k);
      assert Classes(n, k)[..n - 1] == Classes(k, k);
    }
  }

  /** Before the current step every item is completed. */
  lemma {:induction false} CompletedPrefix(n: nat, k: nat)
    requires n <= k
    ensures CountClass(Classes(n, k), Completed) == n
    ensures CountClass(Classes(n, k), Active) == 0
  {
    if n > 0 {
      CompletedPrefix(n - 1, k);
      assert Classes(n, k)[..n - 1] == Classes(n - 1, k);
    }
  }
}
