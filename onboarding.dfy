/** The first-run slideshow (components/onboarding.tsx): a step counter moved by
    Next and Back; Next on the last slide completes the onboarding. */
module Onboarding {

  /** The titles of the slides, in order. */
  const OnboardingTitles: seq<string> := [
    "Welcome to Plinko Strategy",
    "Learn Winning Strategies",
    "Track Your Progress"
  ]

  /** `onboardingSteps.length - 1`. */
  const LastStep: int := |OnboardingTitles| - 1

  /** The number of `true` entries in `s`. */
  function CountTrue(s: seq<bool>): nat
  {
    if s == [] then 0 else (if s[0] then 1 else 0) + CountTrue(s[1..])
  }

  /** A row of dots is lit at exactly one position when only the dot at `at` is lit. */
  lemma {:induction false} OneLitDot(s: seq<bool>, at: nat)
    requires at < |s|
    requires forall i :: 0 <= i < |s| ==> (s[i] <==> i == at)
    ensures CountTrue(s) == 1
  {
    if at == 0 {
      NoLitDot(s[1..]);
    } else {
      OneLitDot(s[1..], at - 1);
    }
  }

  /** A row with no lit dot counts none. */
  lemma {:induction false} NoLitDot(s: seq<bool>)
    requires forall i :: 0 <= i < |s| ==> !s[i]
    ensures CountTrue(s) == 0
  {
    if s != [] {
      NoLitDot(s[1..]);
    }
  }

  /** The slideshow's state. */
  class Slideshow {
    var currentStep: int

    /** The step always names a slide. */
    predicate Valid()
      reads this
    {
      0 <= currentStep <= LastStep
    }

    constructor ()
      ensures Valid() && currentStep == 0
    {
      currentStep := 0;
    }

    /** `nextStep`: on the last slide it calls `onComplete` (reported as `completed`)
        and stays; elsewhere it moves one slide on. */
    method NextStep() returns (completed: bool)
      requires Valid()
      modifies this
      ensures Valid()
      ensures completed <==> old(currentStep) == LastStep
      ensures currentStep == if completed then old(currentStep) else old(currentStep) + 1
    {
      if currentStep == LastStep {
        completed := true;
      } else {
        completed := false;
        currentStep := currentStep + 1;
      }
    }

    /** `prevStep`: one slide back, except on the first slide. */
    method PrevStep()
      requires Valid()
      modifies this
      ensures Valid()
      ensures currentStep == if old(currentStep) > 0 then old(currentStep) - 1 else old(currentStep)
    {
      if currentStep > 0 {
        currentStep := currentStep - 1;
      }
    }

    /** `disabled={currentStep === 0}` on Back: disabled exactly where `prevStep`
        would do nothing. */
    function BackDisabled(): (r: bool)
      reads this
      requires Valid()
      ensures r <==> !(currentStep > 0)
    {
      currentStep == 0
    }

    /** The label of the Next button. */
    function NextLabel(): (text: string)
      reads this
      requires Valid()
      ensures text == "Get Started" <==> currentStep == LastStep
    {
      if currentStep == LastStep then "Get Started" else "Next"
    }

    /** The indicator dots: dot `i` is lit when `i === currentStep`; exactly one is. */
    function Indicators(): (dots: seq<bool>)
      reads this
      requires Valid()
      ensures |dots| == |OnboardingTitles|
      ensures forall i :: 0 <= i < |dots| ==> (dots[i] <==> i == currentStep)
      ensures CountTrue(dots) == 1
    {
      var step := currentStep;
      var dots := seq(|OnboardingTitles|, i => i == step);
      OneLitDot(dots, step);
      dots
    }
  }
}
