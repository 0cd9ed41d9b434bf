/**
 * What the two signup wizards share: the bounded step counter driven by
 * `handleNext` / `handleBack`, and the account checks at the head of both
 * `handleSubmit` validation chains.
 */
module Wizard {
  import opened Wrappers
  import Email
  import Auth

  /** `handleNext`: one step forward, unless already at `lastStep` or beyond. */
  function Next(step: int, lastStep: int): int {
    if step < lastStep then step + 1 else step
  }

  /** `handleBack`: one step back, never below step 1. */
  function Back(step: int): int {
    if step > 1 then step - 1 else step
  }

  datatype Move = Forward | Backward

  function Step(step: int, move: Move, lastStep: int): int {
    match move
    case Forward => Next(step, lastStep)
    case Backward => Back(step)
  }

  /** The step reached after pressing the buttons `moves` in order. */
  function Run(step: int, moves: seq<Move>, lastStep: int): int
    decreases |moves|
  {
    if moves == [] then step else Run(Step(step, moves[0], lastStep), moves[1..], lastStep)
  }

  /** Next and Back keep a step that starts in `[1, lastStep]` inside it. */
  lemma {:induction false} RunStaysInRange(step: int, moves: seq<Move>, lastStep: int)
    requires 1 <= step <= lastStep
    ensures 1 <= Run(step, moves, lastStep) <= lastStep
    decreases |moves|
  {
    if moves != [] {
      RunStaysInRange(Step(step, moves[0], lastStep), moves[1..], lastStep);
    }
  }

  lemma {:induction false} RunAppend(step: int, a: seq<Move>, b: seq<Move>, lastStep: int)
    ensures Run(step, a + b, lastStep) == Run(Run(step, a, lastStep), b, lastStep)
    decreases |a|
  {
    if a != [] {
      assert (a + b)[1..] == a[1..] + b;
      RunAppend(Step(step, a[0], lastStep), a[1..], b, lastStep);
    } else {
      assert a + b == b;
    }
  }

  function Forwards(n: nat): seq<Move> {
    if n == 0 then [] else Forwards(n - 1) + [Forward]
  }

  /** Every step in `[1, lastStep]` is reached from step 1 by pressing Next. */
  lemma {:induction false} EveryStepReachable(k: int, lastStep: int)
    requires 1 <= k <= lastStep
    ensures Run(1, Forwards(k - 1), lastStep) == k
  {
    if k > 1 {
      EveryStepReachable(k - 1, lastStep);
      RunAppend(1, Forwards(k - 2), [Forward], lastStep);
    }
  }

  // ---- the account checks ---------------------------------------------------

  /** The outcome of a validation chain: go on, or show `message` on `step`. */
  datatype Verdict = Pass | Fail(message: string, step: int)

  const MissingFieldsMessage := "Please complete all required fields in Step 1"
  const ShortPasswordMessage := "Password must be at least 6 characters long"
  const InvalidEmailMessage := "Please enter a valid email address"
  const MinPasswordLength := 6

  /** The first three guards of both `handleSubmit`s, in the order they are tried. */
  function AccountVerdict(firstName: string, lastName: string, email: string, password: string): Verdict {
    if firstName == "" || lastName == "" || email == "" || password == "" then Fail(MissingFieldsMessage, 1)
    else if |password| < MinPasswordLength then Fail(ShortPasswordMessage, 1)
    else if !Email.MatchesEmailRegex(email) then Fail(InvalidEmailMessage, 1)
    else Pass
  }

  /** The account checks pass exactly for complete data with a long enough
      password and a well-formed address; every failure sends the user to step 1,
      and an earlier failing check hides the later ones. */
  lemma AccountVerdictMeaning(firstName: string, lastName: string, email: string, password: string)
    ensures var v := AccountVerdict(firstName, lastName, email, password);
      && (v.Pass? <==> firstName != "" && lastName != "" && |password| >= MinPasswordLength
                        && Email.IsValidEmail(email))
      && (v.Fail? ==> v.step == 1)
      && (firstName == "" || lastName == "" || email == "" || password == "" ==>
            v == Fail(MissingFieldsMessage, 1))
      && (firstName != "" && lastName != "" && email != "" && 0 < |password| < MinPasswordLength ==>
            v == Fail(ShortPasswordMessage, 1))
  {
    Email.EmailRegexCharacterization(email);
    if Email.IsValidEmail(email) {
      var i :| 0 < i < |email| && email[i] == '@' && Email.OnlyAtSignAt(email, i) && Email.HasInnerDot(email[i + 1..]);
      assert email != "";
    }
  }

  // ---- after the sign-up call ----------------------------------------------

  /** How the awaited sign-up call ended: a returned result, or a thrown error. */
  datatype SubmitOutcome = Returned(result: Auth.SignUpResult) | Threw(message: string)

  const DefaultFailureMessage := "Failed to create account. Please try again."
  const UnexpectedErrorMessage := "An unexpected error occurred. Please try again."

  /** The error both wizards show after the call (`result.error || ...`,
      `error.message || ...`); `None` when the account was created. */
  function SubmitErrorText(outcome: SubmitOutcome): (r: Option<string>)
    ensures r.None? <==> outcome.Returned? && outcome.result.success
    ensures r.Some? ==> r.value != ""
    ensures (outcome.Returned? && !outcome.result.success && outcome.result.error.Some?
             && outcome.result.error.value != "") ==> r == outcome.result.error
  {
    match outcome
    case Returned(result) =>
      if result.success then None
      else if result.error.Some? && result.error.value != "" then result.error
      else Some(DefaultFailureMessage)
    case Threw(message) => Some(if message != "" then message else UnexpectedErrorMessage)
  }

  // ---- the patient wizard's step bound --------------------------------------

  /** The bound in the patient wizard's `handleNext`. */
  const PatientLastStep := 3
  /** The step holding the patient wizard's location fields and its submit button. */
  const PatientLocationStep := 4

  /** As written: from the first step, no sequence of Next and Back presses
      reaches the location step, so its submit button is never shown. */
  lemma PatientLocationStepUnreachable(moves: seq<Move>)
    ensures Run(1, moves, PatientLastStep) != PatientLocationStep
  {
    RunStaysInRange(1, moves, PatientLastStep);
  }

  /** The bound the four-step patient form evidently needs. */
  const IntendedPatientLastStep := 4

  /** With that bound three Next presses reach the location step and the
      counter still stays within the four steps. */
  lemma IntendedPatientWizardReachesLocation(moves: seq<Move>)
    ensures Run(1, Forwards(3), IntendedPatientLastStep) == PatientLocationStep
    ensures 1 <= Run(1, moves, IntendedPatientLastStep) <= PatientLocationStep
  {
    EveryStepReachable(4, IntendedPatientLastStep);
    RunStaysInRange(1, moves, IntendedPatientLastStep);
  }
}
