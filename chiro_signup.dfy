/**
 * The chiropractor signup wizard: four steps over an `Auth.SignUpData`
 * form, a default college filled in once the college list arrives, and the
 * same validate-then-call submission as the patient wizard, without the
 * location check. The `signUpChiropractor` call is recorded in the ghost log
 * `signUpCalls`; its outcome is handed to `FinishSubmit`.
 */
module ChiropractorSignup {
  import opened Wrappers
  import Lists
  import Email
  import Wizard
  import Auth

  const ChiropractorLastStep := 4

  /** The form's initial state: everything empty but the graduation year. */
  const InitialForm := Auth.SignUpData("", "", "", "", "", "2015", "", "", [], [], "", [], "", "", "", "", "", "", "")

  datatype TextField =
    | FirstName | LastName | EmailAddress | Password | College | GraduationYear | LicenseNumber | Bio
    | BusinessModel | ClinicName | Address | City | State | Zip | Website | Instagram

  /** `{ ...prev, [field]: value }` for a text field. */
  function WithText(form: Auth.SignUpData, field: TextField, value: string): Auth.SignUpData {
    match field
    case FirstName => form.(firstName := value)
    case LastName => form.(lastName := value)
    case EmailAddress => form.(email := value)
    case Password => form.(password := value)
    case College => form.(college := value)
    case GraduationYear => form.(graduationYear := value)
    case LicenseNumber => form.(licenseNumber := value)
    case Bio => form.(bio := value)
    case BusinessModel => form.(businessModel := value)
    case ClinicName => form.(clinicName := value)
    case Address => form.(address := value)
    case City => form.(city := value)
    case State => form.(state := value)
    case Zip => form.(zip := value)
    case Website => form.(website := value)
    case Instagram => form.(instagram := value)
  }

  /** The checkbox lists of the form. */
  datatype ListField = Modalities | FocusAreas | Insurances

  function ListOf(form: Auth.SignUpData, category: ListField): seq<string> {
    match category
    case Modalities => form.modalities
    case FocusAreas => form.focusAreas
    case Insurances => form.insurances
  }

  function WithList(form: Auth.SignUpData, category: ListField, xs: seq<string>): Auth.SignUpData {
    match category
    case Modalities => form.(modalities := xs)
    case FocusAreas => form.(focusAreas := xs)
    case Insurances => form.(insurances := xs)
  }

  /** The updater passed to `setFormData` by `handleCheckboxChange`: the chosen
      list has `value` toggled, and nothing else in the form changes. */
  function WithToggled(form: Auth.SignUpData, category: ListField, value: string): (r: Auth.SignUpData)
    ensures ListOf(r, category) == Lists.Toggle(ListOf(form, category), value)
    ensures forall c :: c != category ==> ListOf(r, c) == ListOf(form, c)
    ensures WithList(r, category, ListOf(form, category)) == form
  {
    WithList(form, category, Lists.Toggle(ListOf(form, category), value))
  }

  /** Ticking a box twice leaves the form as it was. */
  lemma ToggleTwiceRestores(form: Auth.SignUpData, category: ListField, value: string)
    requires value !in ListOf(form, category)
    ensures WithToggled(WithToggled(form, category, value), category, value) == form
  {
    Lists.ToggleTwiceAbsent(ListOf(form, category), value);
  }

  /** The updater run once the colleges arrive: the first college's name
      becomes the choice only while none has been made. */
  function WithDefaultCollege(prev: Auth.SignUpData, name: string): (r: Auth.SignUpData)
    ensures prev.college != "" ==> r == prev
    ensures prev.college == "" ==> r.college == name
    ensures r.(college := prev.college) == prev
  {
    if prev.college == "" then prev.(college := name) else prev
  }

  /** Applying the default a second time, with any list, changes nothing once
      a non-empty name was chosen. */
  lemma DefaultCollegeSettles(prev: Auth.SignUpData, name: string, later: string)
    requires name != ""
    ensures WithDefaultCollege(WithDefaultCollege(prev, name), later) == WithDefaultCollege(prev, name)
  {
  }

  class ChiropractorSignupPage {
    var step: int
    var isSubmitting: bool
    var submitError: Option<string>
    var submitSuccess: bool
    var formData: Auth.SignUpData
    /** The forms handed to `signUpChiropractor`, oldest first. */
    ghost var signUpCalls: seq<Auth.SignUpData>

    ghost predicate Valid()
      reads this
    {
      1 <= step <= ChiropractorLastStep
    }

    constructor ()
      ensures Valid() && step == 1 && !isSubmitting && submitError.None? && !submitSuccess
      ensures formData == InitialForm && signUpCalls == []
    {
      step := 1;
      isSubmitting := false;
      submitError := None;
      submitSuccess := false;
      formData := InitialForm;
      signUpCalls := [];
    }

    /** The effect of a successful college fetch on the form: the default is
        applied only when the list is non-empty. */
    method ApplyDefaultCollege(collegeNames: seq<string>)
      modifies this`formData
      ensures collegeNames == [] ==> formData == old(formData)
      ensures collegeNames != [] ==> formData == WithDefaultCollege(old(formData), collegeNames[0])
    {
      if |collegeNames| > 0 {
        formData := WithDefaultCollege(formData, collegeNames[0]);
      }
    }

    /** `handleInputChange` */
    method HandleInputChange(field: TextField, value: string)
      modifies this`formData
      ensures formData == WithText(old(formData), field, value)
    {
      formData := WithText(formData, field, value);
    }

    /** `handleCheckboxChange` */
    method HandleCheckboxChange(category: ListField, value: string)
      modifies this`formData
      ensures formData == WithToggled(old(formData), category, value)
    {
      formData := WithToggled(formData, category, value);
    }

    /** `handleNext`: forward, up to step 4. */
    method HandleNext()
      requires Valid()
      modifies this`step
      ensures Valid()
      ensures step == Wizard.Next(old(step), ChiropractorLastStep)
    {
      if step < ChiropractorLastStep {
        step := step + 1;
      }
    }

    /** `handleBack` */
    method HandleBack()
      requires Valid()
      modifies this`step
      ensures Valid()
      ensures step == Wizard.Back(old(step))
    {
      if step > 1 {
        step := step - 1;
      }
    }

    /** `handleSubmit` up to the awaited call: a failed account check shows its
        message and returns to step 1 with nothing sent; otherwise the error is
        cleared, `isSubmitting` set and the form handed to `signUpChiropractor`. */
    method BeginSubmit() returns (proceed: bool)
      requires Valid()
      modifies this`step, this`submitError, this`isSubmitting, this`signUpCalls
      ensures Valid()
      ensures var verdict := Wizard.AccountVerdict(formData.firstName, formData.lastName, formData.email, formData.password);
        && (proceed <==> verdict.Pass?)
        && (!proceed ==> (submitError == Some(verdict.message) && step == 1
                          && isSubmitting == old(isSubmitting) && signUpCalls == old(signUpCalls)))
        && (proceed ==> (submitError.None? && isSubmitting && step == old(step)
                         && signUpCalls == old(signUpCalls) + [formData]))
    {
      Wizard.AccountVerdictMeaning(formData.firstName, formData.lastName, formData.email, formData.password);
      if formData.firstName == "" || formData.lastName == "" || formData.email == "" || formData.password == "" {
        submitError := Some(Wizard.MissingFieldsMessage);
        step := 1;
        return false;
      }
      if |formData.password| < Wizard.MinPasswordLength {
        submitError := Some(Wizard.ShortPasswordMessage);
        step := 1;
        return false;
      }
      if !Email.MatchesEmailRegex(formData.email) {
        submitError := Some(Wizard.InvalidEmailMessage);
        step := 1;
        return false;
      }
      isSubmitting := true;
      submitError := None;
      signUpCalls := signUpCalls + [formData];
      proceed := true;
    }

    /** `handleSubmit` after the awaited call: success is recorded, or the
        error shown; `isSubmitting` is cleared either way (`finally`). */
    method FinishSubmit(outcome: Wizard.SubmitOutcome)
      requires Valid() && isSubmitting
      modifies this`isSubmitting, this`submitError, this`submitSuccess
      ensures Valid() && !isSubmitting
      ensures Wizard.SubmitErrorText(outcome).None? ==> submitSuccess && submitError == old(submitError)
      ensures Wizard.SubmitErrorText(outcome).Some? ==>
        submitError == Wizard.SubmitErrorText(outcome) && submitSuccess == old(submitSuccess)
    {
      var errorText := Wizard.SubmitErrorText(outcome);
      if errorText.None? {
        submitSuccess := true;
      } else {
        submitError := errorText;
      }
      isSubmitting := false;
    }
  }
}
