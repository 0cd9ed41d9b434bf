/**
 * The patient signup wizard: its state (`step`, `formData`, `submitError`,
 * `isSubmitting`, `submitSuccess`) and the handlers that update it. The
 * `signUpPatient` call is recorded in the ghost log `signUpCalls`; its
 * outcome is handed to `FinishSubmit`.
 */
module PatientSignup {
  import opened Wrappers
  import Lists
  import Wizard
  import Email
  import opened JsText

  /** `searchRadius` starts as the number 25; the radius select stores the
      text `parseInt(value).toString()` in it through `handleInputChange`. */
  datatype Radius = RadiusNumber(miles: int) | RadiusText(text: string)

  const InitialRadius := 25

  /** `searchRadius.toString()`, the value the radius select shows. */
  function RadiusShown(r: Radius): string {
    match r
    case RadiusNumber(n) => NumberString(n)
    case RadiusText(t) => t
  }

  /** `parseInt(value).toString()`: the number read from the head of the
      selected text, or `"NaN"` when none is there. */
  function RadiusChoice(value: string): (r: string)
    ensures ParseInt(value).None? <==> r == "NaN"
    ensures ParseInt(value).Some? ==> ParseInt(r) == ParseInt(value)
  {
    match ParseInt(value)
    case None => "NaN"
    case Some(n) => ParseIntOfNumberString(n); NumberString(n)
  }

  /** Choosing any option of the select (`"5"`, ..., `"100"`, each an integer's
      text) keeps that text, so the select goes on showing the chosen option. */
  lemma RadiusChoiceKeepsOption(n: int)
    ensures RadiusChoice(NumberString(n)) == NumberString(n)
  {
    ParseIntOfNumberString(n);
  }

  /** The form opens with the select showing `"25"`. */
  lemma InitialRadiusShown()
    ensures RadiusShown(InitialForm.searchRadius) == "25"
  {
    assert DecimalString(2) == "2";
    assert DecimalString(25) == DecimalString(2) + [DigitChar(5)];
  }

  datatype PatientForm = PatientForm(
    firstName: string, lastName: string, email: string, password: string,
    phone: string, dateOfBirth: string, emergencyContact: string, emergencyPhone: string,
    preferredModalities: seq<string>, focusAreas: seq<string>,
    preferredBusinessModel: string, insuranceType: string, budgetRange: string,
    city: string, state: string, zipCode: string, searchRadius: Radius,
    preferredDays: seq<string>, preferredTimes: seq<string>)

  /** Every text empty, every list empty, and the radius at 25. */
  const InitialForm := PatientForm("", "", "", "", "", "", "", "", [], [], "", "", "", "", "", "",
                                   RadiusNumber(InitialRadius), [], [])

  datatype TextField =
    | FirstName | LastName | Email | Password | Phone | DateOfBirth | EmergencyContact | EmergencyPhone
    | PreferredBusinessModel | InsuranceType | BudgetRange | City | State | ZipCode | SearchRadius

  /** `{ ...prev, [field]: value }` for a text field. */
  function WithText(form: PatientForm, field: TextField, value: string): PatientForm {
    match field
    case FirstName => form.(firstName := value)
    case LastName => form.(lastName := value)
    case Email => form.(email := value)
    case Password => form.(password := value)
    case Phone => form.(phone := value)
    case DateOfBirth => form.(dateOfBirth := value)
    case EmergencyContact => form.(emergencyContact := value)
    case EmergencyPhone => form.(emergencyPhone := value)
    case PreferredBusinessModel => form.(preferredBusinessModel := value)
    case InsuranceType => form.(insuranceType := value)
    case BudgetRange => form.(budgetRange := value)
    case City => form.(city := value)
    case State => form.(state := value)
    case ZipCode => form.(zipCode := value)
    case SearchRadius => form.(searchRadius := RadiusText(value))
  }

  /** The checkbox lists of the form. */
  datatype ListField = PreferredModalities | FocusAreas | PreferredDays | PreferredTimes

  function ListOf(form: PatientForm, category: ListField): seq<string> {
    match category
    case PreferredModalities => form.preferredModalities
    case FocusAreas => form.focusAreas
    case PreferredDays => form.preferredDays
    case PreferredTimes => form.preferredTimes
  }

  function WithList(form: PatientForm, category: ListField, xs: seq<string>): PatientForm {
    match category
    case PreferredModalities => form.(preferredModalities := xs)
    case FocusAreas => form.(focusAreas := xs)
    case PreferredDays => form.(preferredDays := xs)
    case PreferredTimes => form.(preferredTimes := xs)
  }

  /** The updater passed to `setFormData` by `handleCheckboxChange`: the chosen
      list has `value` toggled, and nothing else in the form changes. */
  function WithToggled(form: PatientForm, category: ListField, value: string): (r: PatientForm)
    ensures ListOf(r, category) == Lists.Toggle(ListOf(form, category), value)
    ensures forall c :: c != category ==> ListOf(r, c) == ListOf(form, c)
    ensures WithList(r, category, ListOf(form, category)) == form
  {
    WithList(form, category, Lists.Toggle(ListOf(form, category), value))
  }

  /** Ticking a box twice leaves the form as it was. */
  lemma ToggleTwiceRestores(form: PatientForm, category: ListField, value: string)
    requires value !in ListOf(form, category)
    ensures WithToggled(WithToggled(form, category, value), category, value) == form
  {
    Lists.ToggleTwiceAbsent(ListOf(form, category), value);
  }

  const LocationMessage := "Please provide your location information"

  /** `handleSubmit`'s validation chain: the account checks, then the location. */
  function PatientVerdict(form: PatientForm): Wizard.Verdict {
    var account := Wizard.AccountVerdict(form.firstName, form.lastName, form.email, form.password);
    if account.Fail? then account
    else if form.city == "" || form.state == "" || form.zipCode == "" then
      Wizard.Fail(LocationMessage, Wizard.PatientLocationStep)
    else Wizard.Pass
  }

  /** Validation passes exactly when the account checks pass and the whole
      location is given; the account checks are tried first and send the user
      to step 1, a missing location to step 4. */
  lemma PatientVerdictMeaning(form: PatientForm)
    ensures var account := Wizard.AccountVerdict(form.firstName, form.lastName, form.email, form.password);
      && (PatientVerdict(form).Pass? <==> account.Pass? && form.city != "" && form.state != "" && form.zipCode != "")
      && (account.Fail? ==> PatientVerdict(form) == account && PatientVerdict(form).step == 1)
      && (account.Pass? && PatientVerdict(form).Fail? ==>
            PatientVerdict(form) == Wizard.Fail(LocationMessage, Wizard.PatientLocationStep))
  {
    Wizard.AccountVerdictMeaning(form.firstName, form.lastName, form.email, form.password);
  }

  class PatientSignupPage {
    var step: int
    var isSubmitting: bool
    var submitError: Option<string>
    var submitSuccess: bool
    var formData: PatientForm
    /** The forms handed to `signUpPatient`, oldest first. */
    ghost var signUpCalls: seq<PatientForm>

    /** The step is one of the four rendered ones. */
    ghost predicate Valid()
      reads this
    {
      1 <= step <= Wizard.PatientLocationStep
    }

    constructor ()
      ensures Valid() && step == 1 && !isSubmitting && submitError.None? && !submitSuccess
      ensures formData == InitialForm && signUpCalls == []
    {
      step := 1;
      isSubmitting := false;
      submitError := None;
      submitSuccess := false;
      formData := InitialForm;
      signUpCalls := [];
    }

    /** `handleInputChange` */
    method HandleInputChange(field: TextField, value: string)
      modifies this`formData
      ensures formData == WithText(old(formData), field, value)
    {
      formData := WithText(formData, field, value);
    }

    /** The radius select's `onValueChange`: `handleInputChange('searchRadius',
        parseInt(value).toString())`. The select then shows a text that
        `parseInt` reads as the chosen number. */
    method HandleRadiusChange(value: string)
      modifies this`formData
      ensures formData == WithText(old(formData), SearchRadius, RadiusChoice(value))
      ensures ParseInt(value).Some? ==> ParseInt(RadiusShown(formData.searchRadius)) == ParseInt(value)
    {
      var choice := RadiusChoice(value);
      HandleInputChange(SearchRadius, choice);
      assert formData.searchRadius == RadiusText(choice);
    }

    /** `handleCheckboxChange` */
    method HandleCheckboxChange(category: ListField, value: string)
      modifies this`formData
      ensures formData == WithToggled(old(formData), category, value)
    {
      formData := WithToggled(formData, category, value);
    }

    /** `handleNext`, with the bound corrected to the form's four steps (the
        source stops at step 3, which leaves the location step and its submit
        button out of reach; see `Wizard.PatientLocationStepUnreachable`). */
    method HandleNext()
      requires Valid()
      modifies this`step
      ensures Valid()
      ensures step == Wizard.Next(old(step), Wizard.IntendedPatientLastStep)
    {
      if step < Wizard.IntendedPatientLastStep {
        step := step + 1;
      }
    }

    /** `handleBack` */
    method HandleBack()
      requires Valid()
      modifies this`step
      ensures Valid()
      ensures step == Wizard.Back(old(step))
    {
      if step > 1 {
        step := step - 1;
      }
    }

    /** `handleSubmit` up to the awaited call. A failed check shows its message,
        moves to its step and returns before `isSubmitting` is set and before
        any call; otherwise the error is cleared, `isSubmitting` is set and the
        form is handed to `signUpPatient`. */
    method BeginSubmit() returns (proceed: bool)
      requires Valid()
      modifies this`step, this`submitError, this`isSubmitting, this`signUpCalls
      ensures Valid()
      ensures proceed <==> PatientVerdict(formData).Pass?
      ensures !proceed ==> (submitError == Some(PatientVerdict(formData).message)
                            && step == PatientVerdict(formData).step
                            && isSubmitting == old(isSubmitting) && signUpCalls == old(signUpCalls))
      ensures proceed ==> (submitError.None? && isSubmitting && step == old(step)
                           && signUpCalls == old(signUpCalls) + [formData])
    {
      PatientVerdictMeaning(formData);
      if formData.firstName == "" || formData.lastName == "" || formData.email == "" || formData.password == "" {
        submitError := Some(Wizard.MissingFieldsMessage);
        step := 1;
        return false;
      }
      if |formData.password| < Wizard.MinPasswordLength {
        submitError := Some(Wizard.ShortPasswordMessage);
        step := 1;
        return false;
      }
      if !Email.MatchesEmailRegex(formData.email) {
        submitError := Some(Wizard.InvalidEmailMessage);
        step := 1;
        return false;
      }
      if formData.city == "" || formData.state == "" || formData.zipCode == "" {
        submitError := Some(LocationMessage);
        step := Wizard.PatientLocationStep;
        return false;
      }
      isSubmitting := true;
      submitError := None;
      signUpCalls := signUpCalls + [formData];
      proceed := true;
    }

    /** `handleSubmit` after the awaited call: success is recorded, or the
        error shown; `isSubmitting` is cleared either way (`finally`). */
    method FinishSubmit(outcome: Wizard.SubmitOutcome)
      requires Valid() && isSubmitting
      modifies this`isSubmitting, this`submitError, this`submitSuccess
      ensures Valid() && !isSubmitting
      ensures Wizard.SubmitErrorText(outcome).None? ==> submitSuccess && submitError == old(submitError)
      ensures Wizard.SubmitErrorText(outcome).Some? ==>
        submitError == Wizard.SubmitErrorText(outcome) && submitSuccess == old(submitSuccess)
    {
      var errorText := Wizard.SubmitErrorText(outcome);
      if errorText.None? {
        submitSuccess := true;
      } else {
        submitError := errorText;
      }
      isSubmitting := false;
    }
  }
}
