/**
 * The "Learn Through Stories" stepper of the web frontend: pick a scenario,
 * step through its steps, then see the result; reset returns to the list.
 * The component's three state fields are the fields of `ScenarioStepper`;
 * `StepperState` is their value, and `NextStep` and friends say how the
 * handlers change it.
 */
module Scenarios {
  import opened Wrappers

  /** One step of a story; its wording and explanation are display text and are left out. */
  datatype Step = Step(isPhishing: bool)

  datatype Scenario = Scenario(id: int, title: string, steps: seq<Step>)

  /** The four stories, with their ids and step counts. */
  const AllScenarios: seq<Scenario> := [
    Scenario(1, "The Urgent Email", [Step(true), Step(true), Step(true)]),
    Scenario(2, "The Free Gift Card", [Step(true), Step(true)]),
    Scenario(3, "The Payment Trap", [Step(true), Step(true)]),
    Scenario(4, "The Chat Message", [Step(true), Step(true)])
  ]

  /** `scenarios.find(s => s.id === id)`: the first scenario with that id. */
  function FindScenario(scenarios: seq<Scenario>, id: int): (found: Option<Scenario>)
    ensures found.Some? ==> found.value in scenarios && found.value.id == id
    ensures found.Some? ==>
              exists i :: 0 <= i < |scenarios| && scenarios[i] == found.value
                          && forall j :: 0 <= j < i ==> scenarios[j].id != id
    ensures found.None? ==> forall s :: s in scenarios ==> s.id != id
  {
    if scenarios == [] then None
    else if scenarios[0].id == id then Some(scenarios[0])
    else FindScenario(scenarios[1..], id)
  }

  /** The values of `selectedScenario`, `currentStep` and `showResult`. */
  datatype StepperState = StepperState(selected: Option<int>, currentStep: int, showResult: bool)

  const Initial: StepperState := StepperState(None, 0, false)

  /** The scenario whose steps are on screen, if the selection names one. */
  function Selected(s: StepperState): Option<Scenario>
  {
    if s.selected.None? then None else FindScenario(AllScenarios, s.selected.value)
  }

  /**
   * The stepper's invariant: the step shown is a step of the selected
   * scenario, and without a known selection the state is at its start.
   */
  ghost predicate Inv(s: StepperState)
  {
    && s.currentStep >= 0
    && (Selected(s).Some? ==> s.currentStep < |Selected(s).value.steps|)
    && (Selected(s).None? ==> s.currentStep == 0 && !s.showResult)
  }

  /** `handleScenarioSelect(id)`. */
  function SelectScenario(id: int): (next: StepperState)
    ensures next.selected == Some(id) && next.currentStep == 0 && !next.showResult
  {
    StepperState(Some(id), 0, false)
  }

  /**
   * `handleNextStep`: nothing without a (truthy) selection or for an unknown
   * id; otherwise one step further while a step is left, else the result.
   */
  function NextStep(s: StepperState): (next: StepperState)
    ensures next.selected == s.selected
    ensures Selected(s).None? || s.selected == Some(0) ==> next == s
    ensures Selected(s).Some? && s.selected != Some(0) ==>
              if s.currentStep < |Selected(s).value.steps| - 1
              then next == s.(currentStep := s.currentStep + 1)
              else next == s.(showResult := true)
  {
    if s.selected.None? || s.selected.value == 0 then s
    else
      match FindScenario(AllScenarios, s.selected.value)
      case None => s
      case Some(scenario) =>
        if s.currentStep < |scenario.steps| - 1 then s.(currentStep := s.currentStep + 1)
        else s.(showResult := true)
  }

  /** Every story has at least one step and the ids are 1 to 4, all different. */
  lemma ScenariosWellFormed()
    ensures forall i :: 0 <= i < |AllScenarios| ==> |AllScenarios[i].steps| >= 1
    ensures forall i :: 0 <= i < |AllScenarios| ==> AllScenarios[i].id == i + 1
  {
  }

  /** A scenario that is found has at least one step. */
  lemma FoundHasSteps(id: int)
    requires FindScenario(AllScenarios, id).Some?
    ensures |FindScenario(AllScenarios, id).value.steps| >= 1
  {
    ScenariosWellFormed();
  }

  /** The handlers keep the invariant. */
  lemma HandlersKeepInv(s: StepperState, id: int)
    requires Inv(s)
    ensures Inv(NextStep(s)) && Inv(SelectScenario(id)) && Inv(Initial)
  {
    if FindScenario(AllScenarios, id).Some? {
      FoundHasSteps(id);
    }
  }

  /** `n` presses of "next". */
  function PressNext(s: StepperState, n: nat): StepperState
  {
    if n == 0 then s else NextStep(PressNext(s, n - 1))
  }

  /** One press of "next" on a selected story: advance, show the result, then stay. */
  lemma NextOnSelected(id: int, scenario: Scenario, step: int, shown: bool)
    requires id != 0 && FindScenario(AllScenarios, id) == Some(scenario)
    ensures NextStep(StepperState(Some(id), step, shown))
            == if step < |scenario.steps| - 1 then StepperState(Some(id), step + 1, shown)
               else StepperState(Some(id), step, true)
  {
  }

  /**
   * From a fresh selection of a story with `k` steps, the first `k - 1`
   * presses walk through the steps, the `k`-th shows the result, and further
   * presses change nothing.
   */
  lemma {:induction false} WalkThrough(id: int, n: nat)
    requires id != 0 && FindScenario(AllScenarios, id).Some?
    ensures var k := |FindScenario(AllScenarios, id).value.steps|;
            PressNext(SelectScenario(id), n)
            == if n < k then StepperState(Some(id), n, false) else StepperState(Some(id), k - 1, true)
  {
    var scenario := FindScenario(AllScenarios, id).value;
    var k := |scenario.steps|;
    FoundHasSteps(id);
    if n > 0 {
      WalkThrough(id, n - 1);
      if n - 1 < k {
        NextOnSelected(id, scenario, n - 1, false);
      } else {
        NextOnSelected(id, scenario, k - 1, true);
      }
    }
  }

  /** Exactly as many presses as the story has steps are needed to see the result. */
  lemma ResultAfterExactlyStepCount(id: int)
    requires id != 0 && FindScenario(AllScenarios, id).Some?
    ensures var k := |FindScenario(AllScenarios, id).value.steps|;
            PressNext(SelectScenario(id), k).showResult
            && forall n :: 0 <= n < k ==> !PressNext(SelectScenario(id), n).showResult
  {
    var k := |FindScenario(AllScenarios, id).value.steps|;
    WalkThrough(id, k);
    forall n | 0 <= n < k
      ensures !PressNext(SelectScenario(id), n).showResult
    {
      WalkThrough(id, n);
    }
  }

  /** The component's state. */
  class ScenarioStepper {
    var selectedScenario: Option<int>
    var currentStep: int
    var showResult: bool

    function State(): StepperState
      reads this
    {
      StepperState(selectedScenario, currentStep, showResult)
    }

    constructor ()
      ensures State() == Initial
    {
      selectedScenario := None;
      currentStep := 0;
      showResult := false;
    }

    method HandleScenarioSelect(id: int)
      modifies this
      ensures State() == SelectScenario(id)
    {
      selectedScenario := Some(id);
      currentStep := 0;
      showResult := false;
    }

    method HandleNextStep()
      modifies this
      ensures State() == NextStep(old(State()))
    {
      if selectedScenario.None? || selectedScenario.value == 0 {
        return;
      }
      var scenario := FindScenario(AllScenarios, selectedScenario.value);
      if scenario.None? {
        return;
      }
      if currentStep < |scenario.value.steps| - 1 {
        currentStep := currentStep + 1;
      } else {
        showResult := true;
      }
    }

    method HandleReset()
      modifies this
      ensures State() == Initial
    {
      selectedScenario := None;
      currentStep := 0;
      showResult := false;
    }
  }
}
