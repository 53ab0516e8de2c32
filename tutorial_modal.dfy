/** The tutorial dialog: a counter over five steps moved by Next and
    Previous, each move followed by a progress write to the user's
    preferences, and a Complete action on the last step. */
module TutorialModal {
  import opened Common
  import ToastContext

  datatype TutorialStep = TutorialStep(title: string, content: string, image: Option<string>)

  /** `tutorialSteps` */
  const TutorialSteps: seq<TutorialStep> := [
    TutorialStep("Welcome to Connector!",
      "Build powerful automated workflows with our intuitive no-code platform. Let's get you started with the basics.",
      Some("https://images.pexels.com/photos/7376/startup-photos.jpg?auto=compress&cs=tinysrgb&w=600")),
    TutorialStep("Dashboard Overview",
      "Your dashboard shows all your workflows at a glance. Create new workflows, manage existing ones, and monitor their performance.",
      Some("https://images.pexels.com/photos/669615/pexels-photo-669615.jpeg?auto=compress&cs=tinysrgb&w=600")),
    TutorialStep("Creating Your First Workflow",
      "Click \"New Workflow\" to start building. Drag and drop nodes, connect them together, and configure their settings.",
      Some("https://images.pexels.com/photos/1181671/pexels-photo-1181671.jpeg?auto=compress&cs=tinysrgb&w=600")),
    TutorialStep("Best Practices",
      "Start with a trigger, add actions, and use conditions for branching logic. Test your workflow before activating it.",
      Some("https://images.pexels.com/photos/1181243/pexels-photo-1181243.jpeg?auto=compress&cs=tinysrgb&w=600")),
    TutorialStep("Ready to Build!",
      "You're all set! Check out our templates for inspiration or start building your own workflow.",
      Some("https://images.pexels.com/photos/1181677/pexels-photo-1181677.jpeg?auto=compress&cs=tinysrgb&w=600"))
  ]

  const StepCount: nat := |TutorialSteps|

  const LastStep: nat := StepCount - 1

  /** Five steps, with the titles the dialog shows. */
  lemma TutorialStepsAsWritten()
    ensures StepCount == 5 && LastStep == 4
    ensures TutorialSteps[0].title == "Welcome to Connector!"
    ensures TutorialSteps[1].title == "Dashboard Overview"
    ensures TutorialSteps[2].title == "Creating Your First Workflow"
    ensures TutorialSteps[3].title == "Best Practices"
    ensures TutorialSteps[4].title == "Ready to Build!"
    ensures forall i :: 0 <= i < StepCount ==> TutorialSteps[i].image.Some?
  {
  }

  predicate InRange(step: int)
  {
    0 <= step < StepCount
  }

  /** The step after `handleNext`: one more, unless on the last step. */
  function NextStep(step: int): (r: int)
    ensures InRange(step) ==> InRange(r)
    ensures step < LastStep ==> r == step + 1
    ensures step >= LastStep ==> r == step
  {
    if step < StepCount - 1 then step + 1 else step
  }

  /** The step after `handlePrevious`: one less, unless on the first step. */
  function PreviousStep(step: int): (r: int)
    ensures InRange(step) ==> InRange(r)
    ensures step > 0 ==> r == step - 1
    ensures step <= 0 ==> r == step
  {
    if step > 0 then step - 1 else step
  }

  /** Next then Previous returns to the same step, except from the last one. */
  lemma NextThenPrevious(step: int)
    requires 0 <= step < LastStep
    ensures PreviousStep(NextStep(step)) == step
  {
  }

  /** Previous then Next returns to the same step, except from the first one. */
  lemma PreviousThenNext(step: int)
    requires 0 < step < StepCount
    ensures NextStep(PreviousStep(step)) == step
  {
  }

  datatype Move = Next | Previous

  /** The step after a sequence of button presses. */
  function Run(step: int, moves: seq<Move>): int
    decreases moves
  {
    if moves == [] then step
    else Run(if moves[0] == Next then NextStep(step) else PreviousStep(step), moves[1..])
  }

  /** However the buttons are pressed, the step stays within the tutorial. */
  lemma {:induction false} RunStaysInRange(step: int, moves: seq<Move>)
    requires InRange(step)
    ensures InRange(Run(step, moves))
    decreases moves
  {
    if moves != [] {
      RunStaysInRange(if moves[0] == Next then NextStep(step) else PreviousStep(step), moves[1..]);
    }
  }

  /** Four presses of Next lead from the first step to the last. */
  lemma FourNextsReachTheEnd()
    ensures Run(0, [Next, Next, Next, Next]) == LastStep
  {
    assert StepCount == 5;
    assert Run(4, []) == 4;
    assert Run(3, [Next]) == Run(4, []);
    assert Run(2, [Next, Next]) == Run(3, [Next]);
    assert Run(1, [Next, Next, Next]) == Run(2, [Next, Next]);
    assert Run(0, [Next, Next, Next, Next]) == Run(1, [Next, Next, Next]);
  }

  /** The primary button: Complete on the last step, Next on every other. */
  predicate OffersComplete(step: int)
  {
    step == LastStep
  }

  predicate PreviousEnabled(step: int)
  {
    step != 0
  }

  /** Complete is offered on the fifth step only. Whenever Next is offered
      it advances, and whenever Previous is enabled it goes back, so the
      guards inside the handlers only matter for calls the buttons never make. */
  lemma VisibleButtonsAlwaysMove(step: int)
    requires InRange(step)
    ensures OffersComplete(step) <==> step == 4
    ensures !OffersComplete(step) ==> NextStep(step) == step + 1
    ensures PreviousEnabled(step) ==> PreviousStep(step) == step - 1
    ensures OffersComplete(step) ==> NextStep(step) == step
  {
    assert StepCount == 5;
  }

  /** An update of the user's `user_preferences` row. */
  datatype PreferenceUpdate =
    | Progress(tutorial_progress: int)
    | Completed(has_completed_tutorial: bool, tutorial_progress: int)

  const CompletedMessage: string := "Tutorial completed! You can always revisit it from the settings page."
  const FailedMessage: string := "Failed to save tutorial progress"

  class Modal {
    var currentStep: int
    /** The preference updates sent so far, in order. A failed progress
        write is only logged, so no reply is modelled for it. */
    var sent: seq<PreferenceUpdate>

    ghost predicate Valid()
      reads this
    {
      InRange(currentStep)
    }

    constructor ()
      ensures Valid() && currentStep == 0 && sent == []
    {
      currentStep := 0;
      sent := [];
    }

    method HandleNext()
      requires Valid()
      modifies this
      ensures Valid()
      ensures currentStep == NextStep(old(currentStep))
      ensures old(currentStep) < LastStep ==> sent == old(sent) + [Progress(currentStep)]
      ensures old(currentStep) == LastStep ==> sent == old(sent)
    {
      if currentStep < StepCount - 1 {
        currentStep := currentStep + 1;
        sent := sent + [Progress(currentStep)];
      }
    }

    method HandlePrevious()
      requires Valid()
      modifies this
      ensures Valid()
      ensures currentStep == PreviousStep(old(currentStep))
      ensures old(currentStep) > 0 ==> sent == old(sent) + [Progress(currentStep)]
      ensures old(currentStep) == 0 ==> sent == old(sent)
    {
      if currentStep > 0 {
        currentStep := currentStep - 1;
        sent := sent + [Progress(currentStep)];
      }
    }

    /** `handleComplete`: `updateFailure` is the reply to the update. The
        dialog closes only when the update succeeds; either way a toast says
        what happened. `toastId` is the toast's random id. */
    method HandleComplete(updateFailure: Option<Failure>, toasts: ToastContext.ToastProvider, toastId: string)
      returns (closed: bool)
      requires Valid()
      modifies this`sent, toasts
      ensures Valid() && currentStep == old(currentStep)
      ensures sent == old(sent) + [Completed(true, StepCount)]
      ensures closed <==> updateFailure.None?
      ensures closed ==>
        toasts.toasts == old(toasts.toasts) + [ToastContext.Toast(toastId, CompletedMessage, ToastContext.Success)]
      ensures !closed ==>
        toasts.toasts == old(toasts.toasts) + [ToastContext.Toast(toastId, FailedMessage, ToastContext.Error)]
    {
      sent := sent + [Completed(true, StepCount)];
      if updateFailure.None? {
        toasts.AddToast(CompletedMessage, Some(ToastContext.Success), toastId);
        closed := true;
      } else {
        toasts.AddToast(FailedMessage, Some(ToastContext.Error), toastId);
        closed := false;
      }
    }
  }
}
