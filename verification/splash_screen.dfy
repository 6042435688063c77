/** The onboarding carousel of the splash screen: a step index that moves
    forwards and backwards modulo the number of steps, two lists of four
    steps (patient and professional), and a mode toggle that is ignored
    while a transition is running. The delays are not modelled: each timer
    callback is a method of its own, called when the timer fires. */
module SplashScreen {

  datatype OnboardingStep = OnboardingStep(title: string, description: string)

  const PatientSteps: seq<OnboardingStep> := [
    OnboardingStep("Cuida tu salud", "Accede a profesionales de la salud en cualquier momento y lugar."),
    OnboardingStep("Agenda fácilmente", "Programa citas con médicos de manera rápida y sencilla."),
    OnboardingStep("Consultas virtuales", "Realiza videoconsultas desde la comodidad de tu hogar."),
    OnboardingStep("Todo en tu móvil", "Gestiona tu salud desde tu smartphone con nuestra app intuitiva.")
  ]

  const ProfessionalSteps: seq<OnboardingStep> := [
    OnboardingStep("Atiende pacientes", "Conéctate con pacientes y brinda atención médica en línea."),
    OnboardingStep("Administra citas", "Gestiona tus horarios y citas de manera organizada."),
    OnboardingStep("Historial médico", "Accede a la información médica de tus pacientes."),
    OnboardingStep("Consultas en línea", "Realiza consultas virtuales de forma rápida y segura.")
  ]

  function StepsFor(isProfessional: bool): (steps: seq<OnboardingStep>)
    ensures |steps| == 4
  {
    if isProfessional then ProfessionalSteps else PatientSteps
  }

  /** `(prevStep + 1) % length`. */
  function Next(i: nat, n: nat): (j: nat)
    requires n > 0
    ensures j < n
    ensures i < n - 1 ==> j == i + 1
    ensures i == n - 1 ==> j == 0
  {
    (i + 1) % n
  }

  /** `(prevStep - 1 + length) % length`. */
  function Prev(i: nat, n: nat): (j: nat)
    requires 0 < n && i < n
    ensures j < n
    ensures i > 0 ==> j == i - 1
    ensures i == 0 ==> j == n - 1
  {
    (i - 1 + n) % n
  }

  /** Back after forth and forth after back return to the same step. */
  lemma {:induction false} PrevNextInverse(i: nat, n: nat)
    requires 0 < n && i < n
    ensures Prev(Next(i, n), n) == i
    ensures Next(Prev(i, n), n) == i
  {
  }

  /** `k` automatic advances from step `i`. */
  function Advance(i: nat, n: nat, k: nat): (j: nat)
    requires n > 0
    ensures j < n || (k == 0 && j == i)
  {
    if k == 0 then i else Next(Advance(i, n, k - 1), n)
  }

  /** Within one round, `k` advances move the index `k` steps forward,
      wrapping past the last step once. */
  lemma {:induction false} AdvanceWithinRound(i: nat, n: nat, k: nat)
    requires 0 < n && i < n && k <= n
    ensures Advance(i, n, k) == if i + k < n then i + k else i + k - n
  {
    if k > 0 {
      AdvanceWithinRound(i, n, k - 1);
    }
  }

  /** A full round of `n` advances returns to the starting step. */
  lemma {:induction false} FullRoundReturns(i: nat, n: nat)
    requires 0 < n && i < n
    ensures Advance(i, n, n) == i
  {
    AdvanceWithinRound(i, n, n);
  }

  /** Swapping the list keeps any valid index valid: both lists have four
      steps. */
  lemma {:induction false} SwapKeepsIndex(i: nat, isProfessional: bool)
    requires i < |StepsFor(isProfessional)|
    ensures i < |StepsFor(!isProfessional)|
  {
  }

  // ---------------------------------------------------------------- the component

  class Carousel {
    var currentStep: nat
    var fadeIn: bool
    var isTransitioning: bool
    /** The mode in the shared store. */
    var isProfessional: bool
    var steps: seq<OnboardingStep>
    /** The 350 ms toggle callback is pending. */
    var toggleScheduled: bool

    /** The index is a valid step of the list, and a toggle is only ever
        pending while its transition runs. */
    predicate Valid()
      reads this
    {
      && currentStep < |steps|
      && |steps| == 4
      && steps == StepsFor(isProfessional)
      && (toggleScheduled ==> isTransitioning)
    }

    constructor (isProfessional: bool)
      ensures Valid()
      ensures currentStep == 0 && fadeIn && !isTransitioning && !toggleScheduled
      ensures this.isProfessional == isProfessional
    {
      currentStep := 0;
      fadeIn := true;
      isTransitioning := false;
      this.isProfessional := isProfessional;
      steps := StepsFor(isProfessional);
      toggleScheduled := false;
    }

    /** The first half of `goToNextStep` and `goToPrevStep`: the slide fades
        out until their 500 ms timer fires. */
    method FadeOut()
      requires Valid()
      modifies this
      ensures Valid() && !fadeIn
      ensures currentStep == old(currentStep) && steps == old(steps) && isProfessional == old(isProfessional)
      ensures isTransitioning == old(isTransitioning) && toggleScheduled == old(toggleScheduled)
    {
      fadeIn := false;
    }

    /** `goToNextStep` when its timer fires, after `FadeOut` (also what the
        autoplay interval does): the next step fades in. */
    method GoToNextStep()
      requires Valid()
      modifies this
      ensures Valid()
      ensures currentStep == Next(old(currentStep), |steps|) && fadeIn
      ensures steps == old(steps) && isProfessional == old(isProfessional)
      ensures isTransitioning == old(isTransitioning) && toggleScheduled == old(toggleScheduled)
    {
      currentStep := (currentStep + 1) % |steps|;
      fadeIn := true;
    }

    /** `goToPrevStep` when its timer fires, after `FadeOut`: the previous
        step fades in. */
    method GoToPrevStep()
      requires Valid()
      modifies this
      ensures Valid()
      ensures currentStep == Prev(old(currentStep), |steps|) && fadeIn
      ensures steps == old(steps) && isProfessional == old(isProfessional)
      ensures isTransitioning == old(isTransitioning) && toggleScheduled == old(toggleScheduled)
    {
      currentStep := (currentStep - 1 + |steps|) % |steps|;
      fadeIn := true;
    }

    /** `handleProfessionalToggle`: nothing at all while a transition runs;
        otherwise start one and schedule the toggle. */
    method HandleProfessionalToggle()
      requires Valid()
      modifies this
      ensures Valid()
      ensures old(isTransitioning) ==> unchanged(this)
      ensures !old(isTransitioning) ==>
                isTransitioning && !fadeIn && toggleScheduled
                && currentStep == old(currentStep) && isProfessional == old(isProfessional) && steps == old(steps)
    {
      if isTransitioning {
        return;
      }
      isTransitioning := true;
      fadeIn := false;
      toggleScheduled := true;
    }

    /** The 350 ms callback: flip the mode, fade back in, and the effect on
        `isProfessional` swaps the list without resetting the index. */
    method ToggleTimerFires()
      requires Valid() && toggleScheduled
      modifies this
      ensures Valid()
      ensures isProfessional == !old(isProfessional) && steps == StepsFor(isProfessional)
      ensures currentStep == old(currentStep) && fadeIn && isTransitioning && !toggleScheduled
    {
      isProfessional := !isProfessional;
      fadeIn := true;
      toggleScheduled := false;
      steps := if isProfessional then ProfessionalSteps else PatientSteps;
    }

    /** The 700 ms callback, which fires after the 350 ms one. */
    method TransitionTimerFires()
      requires Valid() && isTransitioning && !toggleScheduled
      modifies this
      ensures Valid()
      ensures !isTransitioning
      ensures currentStep == old(currentStep) && isProfessional == old(isProfessional) && steps == old(steps)
      ensures fadeIn == old(fadeIn)
    {
      isTransitioning := false;
    }
  }
}
