/**
 * The booking wizard: five steps in a fixed order, moved through one at a time in either
 * direction, and a reset that empties the draft and starts again.
 */
module BookingPage {
  import opened SalonStore

  datatype Step = Date | Time | Form | Payment | Confirmation

  /** A step of the progress bar: its id and the title shown under it. */
  datatype StepInfo = StepInfo(id: Step, title: string)

  const Steps: seq<StepInfo> := [
    StepInfo(Date, "Select Date"),
    StepInfo(Time, "Choose Time"),
    StepInfo(Form, "Your Details"),
    StepInfo(Payment, "Payment"),
    StepInfo(Confirmation, "Confirmation")
  ]

  /** `steps.findIndex(s => s.id === step)`: the first position holding the step, or -1. */
  function FindIndex(steps: seq<StepInfo>, step: Step): (i: int)
    ensures -1 <= i < |steps|
    ensures i >= 0 ==> steps[i].id == step && forall j :: 0 <= j < i ==> steps[j].id != step
    ensures i == -1 <==> forall j :: 0 <= j < |steps| ==> steps[j].id != step
  {
    if steps == [] then -1
    else if steps[0].id == step then 0
    else
      var i := FindIndex(steps[1..], step);
      if i == -1 then -1 else i + 1
  }

  /** The position of a step in the wizard. */
  function StepIndex(step: Step): int {
    FindIndex(Steps, step)
  }

  /** Where each step sits in the wizard, counted from 0. */
  function Position(step: Step): nat {
    match step
    case Date => 0
    case Time => 1
    case Form => 2
    case Payment => 3
    case Confirmation => 4
  }

  /** The list's `findIndex` agrees with the fixed order of the steps. */
  lemma StepIndexIsPosition(step: Step)
    ensures StepIndex(step) == Position(step)
  {
    assert Steps[0].id == Date && Steps[1].id == Time && Steps[2].id == Form;
    assert Steps[3].id == Payment && Steps[4].id == Confirmation;
  }

  /** Every step is in the list, so its index is never -1: it is a position that names the step back. */
  lemma StepIndexValid(step: Step)
    ensures 0 <= StepIndex(step) < |Steps| && Steps[StepIndex(step)].id == step
  {
    StepIndexIsPosition(step);
  }

  /** No step is listed twice: the step at a position has that position as its index. */
  lemma StepAtIndex(i: nat)
    requires i < |Steps|
    ensures StepIndex(Steps[i].id) == i
  {
    StepIndexIsPosition(Steps[i].id);
  }

  /** The step after each one; the last step has none and stays put. */
  function NextStep(step: Step): Step {
    match step
    case Date => Time
    case Time => Form
    case Form => Payment
    case Payment => Confirmation
    case Confirmation => Confirmation
  }

  /** The step before each one; the first step has none and stays put. */
  function PrevStep(step: Step): Step {
    match step
    case Date => Date
    case Time => Date
    case Form => Time
    case Payment => Form
    case Confirmation => Payment
  }

  /** Moving on and then back returns to the start, except from the last step. */
  lemma BackUndoesNext(step: Step)
    requires step != Confirmation
    ensures PrevStep(NextStep(step)) == step
  {
  }

  /** Moving back and then on returns to the start, except from the first step. */
  lemma NextUndoesBack(step: Step)
    requires step != Date
    ensures NextStep(PrevStep(step)) == step
  {
  }

  /** A move changes the index by one, clamped to the positions 0 to 4. */
  lemma MovesStayInRange(step: Step)
    ensures StepIndex(NextStep(step)) == if StepIndex(step) == 4 then 4 else StepIndex(step) + 1
    ensures StepIndex(PrevStep(step)) == if StepIndex(step) == 0 then 0 else StepIndex(step) - 1
  {
    StepIndexIsPosition(step);
    StepIndexIsPosition(NextStep(step));
    StepIndexIsPosition(PrevStep(step));
  }

  datatype Move = Next | Prev

  /** Where a sequence of moves leads. */
  function Run(step: Step, moves: seq<Move>): Step
    decreases |moves|
  {
    if moves == [] then step
    else Run(if moves[0].Next? then NextStep(step) else PrevStep(step), moves[1..])
  }

  /** Counting moves: `n` moves on from the first step reach index `n`, or stop at the last step. */
  lemma ForwardFromStart(n: nat)
    ensures StepIndex(Run(Date, seq(n, _ => Next))) == if n >= 4 then 4 else n
  {
    ForwardFrom(Date, n);
    StepIndexIsPosition(Run(Date, seq(n, _ => Next)));
  }

  /** `n` moves on from any step advance its position by `n`, stopping at the last step. */
  lemma {:induction false} ForwardFrom(step: Step, n: nat)
    ensures Position(Run(step, seq(n, _ => Next))) ==
      if Position(step) + n >= 4 then 4 else Position(step) + n
    decreases n
  {
    if n > 0 {
      var moves := seq(n, _ => Next);
      assert moves[0] == Next;
      assert moves[1..] == seq(n - 1, _ => Next);
      ForwardFrom(NextStep(step), n - 1);
    }
  }

  /** The wizard's own state over the shared store. */
  class Wizard {
    const store: Store
    var currentStep: Step

    constructor (store: Store)
      ensures this.store == store && currentStep == Date
    {
      this.store := store;
      currentStep := Date;
    }

    /** Moves to the following step of the list; at the last step nothing changes. */
    method GoToNextStep()
      modifies this
      ensures currentStep == NextStep(old(currentStep))
    {
      var currentStepIndex := FindIndex(Steps, currentStep);
      StepIndexIsPosition(currentStep);
      assert Steps[0].id == Date && Steps[1].id == Time && Steps[2].id == Form;
      assert Steps[3].id == Payment && Steps[4].id == Confirmation;
      var nextIndex := currentStepIndex + 1;
      if nextIndex < |Steps| {
        currentStep := Steps[nextIndex].id;
      }
    }

    /** Moves to the preceding step of the list; at the first step nothing changes. */
    method GoToPrevStep()
      modifies this
      ensures currentStep == PrevStep(old(currentStep))
    {
      var currentStepIndex := FindIndex(Steps, currentStep);
      StepIndexIsPosition(currentStep);
      assert Steps[0].id == Date && Steps[1].id == Time && Steps[2].id == Form;
      assert Steps[3].id == Payment && Steps[4].id == Confirmation;
      var prevIndex := currentStepIndex - 1;
      if prevIndex >= 0 {
        currentStep := Steps[prevIndex].id;
      }
    }

    /** Empties the draft and returns to the first step, from wherever the wizard was. */
    method HandleReset()
      modifies this, store
      ensures currentStep == Date
      ensures store.currentBooking == EmptyDraft
      ensures store.availabilityRanges == old(store.availabilityRanges) && store.bookings == old(store.bookings)
    {
      store.ResetCurrentBooking();
      currentStep := Date;
    }
  }
}
