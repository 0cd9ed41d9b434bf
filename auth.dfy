/**
 * Chiropractor registration (`signUpChiropractor`) with its backend calls
 * replaced by their outcomes, the two error classifiers that turn backend
 * errors into user messages, the record written to the `chiropractors`
 * table, and `inferPhilosophy`.
 */
module Auth {
  import opened Wrappers
  import opened JsText

  /** Everything the chiropractor wizard collects, step by step. */
  datatype SignUpData = SignUpData(
    firstName: string, lastName: string, email: string, password: string,
    college: string, graduationYear: string, licenseNumber: string, bio: string,
    modalities: seq<string>, focusAreas: seq<string>, businessModel: string, insurances: seq<string>,
    clinicName: string, address: string, city: string, state: string, zip: string,
    website: string, instagram: string)

  datatype SignUpResult = SignUpResult(success: bool, error: Option<string>, userId: Option<string>)

  function Failure(message: string): SignUpResult {
    SignUpResult(false, Some(message), None)
  }

  // ---- inferPhilosophy ------------------------------------------------------

  const VitalisticModalities: seq<string> := ["SOT", "TRT", "Webster"]
  const EvidenceModalities: seq<string> := ["Activator", "Cox"]
  const TraditionalModalities: seq<string> := ["Gonstead", "Diversified", "Thompson"]

  /** `modalities.some(m => group.includes(m))` */
  function AnyIn(modalities: seq<string>, group: seq<string>): bool {
    if modalities == [] then false else modalities[0] in group || AnyIn(modalities[1..], group)
  }

  lemma {:induction false} AnyInIff(modalities: seq<string>, group: seq<string>)
    ensures AnyIn(modalities, group) <==> exists m :: m in modalities && m in group
  {
    if modalities != [] {
      AnyInIff(modalities[1..], group);
      assert forall m :: m in modalities <==> m == modalities[0] || m in modalities[1..];
    }
  }

  /** `inferPhilosophy`: the first group, in priority order, that shares a
      modality with the list decides; an empty or unknown list is evidence-based. */
  function InferPhilosophy(modalities: seq<string>): (r: string)
    ensures r == "Vitalistic" || r == "Evidence-Based" || r == "Traditional"
  {
    if |modalities| == 0 then "Evidence-Based"
    else if AnyIn(modalities, VitalisticModalities) then "Vitalistic"
    else if AnyIn(modalities, EvidenceModalities) then "Evidence-Based"
    else if AnyIn(modalities, TraditionalModalities) then "Traditional"
    else "Evidence-Based"
  }

  /** The priority order, stated over membership. */
  lemma InferPhilosophyCases(modalities: seq<string>)
    ensures modalities == [] ==> InferPhilosophy(modalities) == "Evidence-Based"
    ensures (exists m :: m in modalities && m in VitalisticModalities) ==>
      InferPhilosophy(modalities) == "Vitalistic"
    ensures ((forall m :: m in modalities ==> m !in VitalisticModalities) &&
             (exists m :: m in modalities && m in EvidenceModalities)) ==>
      InferPhilosophy(modalities) == "Evidence-Based"
    ensures ((forall m :: m in modalities ==> m !in VitalisticModalities && m !in EvidenceModalities) &&
             (exists m :: m in modalities && m in TraditionalModalities)) ==>
      InferPhilosophy(modalities) == "Traditional"
    ensures (forall m :: m in modalities ==>
        m !in VitalisticModalities && m !in EvidenceModalities && m !in TraditionalModalities) ==>
      InferPhilosophy(modalities) == "Evidence-Based"
  {
    AnyInIff(modalities, VitalisticModalities);
    AnyInIff(modalities, EvidenceModalities);
    AnyInIff(modalities, TraditionalModalities);
  }

  /** The result depends only on which modalities occur, not on their order or repetition. */
  lemma InferPhilosophyIgnoresOrder(a: seq<string>, b: seq<string>)
    requires forall m :: m in a <==> m in b
    ensures InferPhilosophy(a) == InferPhilosophy(b)
  {
    AnyInIff(a, VitalisticModalities); AnyInIff(b, VitalisticModalities);
    AnyInIff(a, EvidenceModalities); AnyInIff(b, EvidenceModalities);
    AnyInIff(a, TraditionalModalities); AnyInIff(b, TraditionalModalities);
    assert a == [] <==> b == [] by {
      if a != [] { assert a[0] in b; }
      if b != [] { assert b[0] in a; }
    }
  }

  /** In particular a permutation of the list infers the same philosophy. */
  lemma InferPhilosophyPermutation(a: seq<string>, b: seq<string>)
    requires multiset(a) == multiset(b)
    ensures InferPhilosophy(a) == InferPhilosophy(b)
  {
    assert forall m :: m in a <==> m in multiset(a);
    assert forall m :: m in b <==> m in multiset(b);
    InferPhilosophyIgnoresOrder(a, b);
  }

  // ---- the sign-up error classifier ------------------------------------------

  const DatabaseErrorMessage :=
    "Database error: There may be a database trigger or constraint issue. Please check the database logs or contact support."
  const AlreadyRegisteredMessage := "An account with this email already exists. Please sign in instead."
  const WeakPasswordMessage := "Password does not meet requirements. Please use a stronger password."
  const DefaultSignUpMessage := "Failed to create account."
  const NoUserMessage := "Failed to create user account. Please try again."

  /** A message rule: when the backend's message contains `needle`, show `text`. */
  datatype Rule = Rule(needle: string, text: string)

  /** The classifier's rules in the order they are tried. */
  const AuthErrorRules: seq<Rule> := [
    Rule("Database error", DatabaseErrorMessage),
    Rule("already registered", AlreadyRegisteredMessage),
    Rule("Password", WeakPasswordMessage)]

  /** The text of the first rule whose needle occurs in `message`, else `fallback`. */
  function FirstMatchingText(rules: seq<Rule>, message: string, fallback: string): string {
    if rules == [] then fallback
    else if Includes(message, rules[0].needle) then rules[0].text
    else FirstMatchingText(rules[1..], message, fallback)
  }

  /** The first matching rule wins; with no match the fallback is shown. */
  lemma {:induction false} FirstMatchingTextIsFirst(rules: seq<Rule>, message: string, fallback: string, k: int)
    requires 0 <= k <= |rules|
    requires forall i :: 0 <= i < k ==> !Includes(message, rules[i].needle)
    ensures k < |rules| && Includes(message, rules[k].needle) ==>
      FirstMatchingText(rules, message, fallback) == rules[k].text
    ensures k == |rules| ==> FirstMatchingText(rules, message, fallback) == fallback
  {
    if k > 0 {
      assert !Includes(message, rules[0].needle);
      FirstMatchingTextIsFirst(rules[1..], message, fallback, k - 1);
    }
  }

  /** The user message for a failed `auth.signUp`; "" stands for a missing message. */
  function AuthErrorText(message: string): string {
    FirstMatchingText(AuthErrorRules, message, if message != "" then message else DefaultSignUpMessage)
  }

  /** `let errorMessage = authError.message || ...` followed by the `includes` chain. */
  method AuthErrorMessage(message: string) returns (errorMessage: string)
    ensures errorMessage == AuthErrorText(message)
  {
    errorMessage := if message != "" then message else DefaultSignUpMessage;
    if Includes(message, "Database error") {
      errorMessage := DatabaseErrorMessage;
    } else if Includes(message, "already registered") {
      errorMessage := AlreadyRegisteredMessage;
    } else if Includes(message, "Password") {
      errorMessage := WeakPasswordMessage;
    }
    AuthErrorTextCases(message);
  }

  /** The classifier's cases in priority order. */
  lemma AuthErrorTextCases(message: string)
    ensures Includes(message, "Database error") ==> AuthErrorText(message) == DatabaseErrorMessage
    ensures !Includes(message, "Database error") && Includes(message, "already registered") ==>
      AuthErrorText(message) == AlreadyRegisteredMessage
    ensures (!Includes(message, "Database error") && !Includes(message, "already registered")
             && Includes(message, "Password")) ==> AuthErrorText(message) == WeakPasswordMessage
    ensures (!Includes(message, "Database error") && !Includes(message, "already registered")
             && !Includes(message, "Password")) ==>
      AuthErrorText(message) == (if message != "" then message else DefaultSignUpMessage)
  {
    var fallback := if message != "" then message else DefaultSignUpMessage;
    var rules := AuthErrorRules;
    FirstMatchingTextIsFirst(rules, message, fallback, 0);
    if !Includes(message, rules[0].needle) {
      FirstMatchingTextIsFirst(rules, message, fallback, 1);
      if !Includes(message, rules[1].needle) {
        FirstMatchingTextIsFirst(rules, message, fallback, 2);
        if !Includes(message, rules[2].needle) {
          FirstMatchingTextIsFirst(rules, message, fallback, 3);
        }
      }
    }
  }

  // ---- the profile-insert error classifier ----------------------------------

  const InsertErrorPrefix := "Account created, but there was an issue saving your profile. "
  const MissingTableDetail := "The chiropractors table does not exist. Please run the database migration."
  const DuplicateDetail := "A profile with this information already exists."

  /** The part after the common prefix, chosen by the PostgreSQL error code. */
  function InsertErrorDetail(code: string, message: string): string {
    if code == "42P01" then MissingTableDetail
    else if code == "23505" then DuplicateDetail
    else "Error: " + message
  }

  /** `let errorMessage = 'Account created, ...'` followed by `errorMessage += ...` */
  method InsertErrorMessage(code: string, message: string) returns (errorMessage: string)
    ensures errorMessage == InsertErrorPrefix + InsertErrorDetail(code, message)
    ensures StartsWith(errorMessage, InsertErrorPrefix)
  {
    errorMessage := InsertErrorPrefix;
    if code == "42P01" {
      errorMessage := errorMessage + MissingTableDetail;
    } else if code == "23505" {
      errorMessage := errorMessage + DuplicateDetail;
    } else {
      errorMessage := errorMessage + "Error: " + message;
    }
    assert errorMessage[..|InsertErrorPrefix|] == InsertErrorPrefix;
  }

  // ---- the chiropractors row ------------------------------------------------

  /** The row inserted into the `chiropractors` table; `None` is SQL `NULL`. */
  datatype ChiropractorRecord = ChiropractorRecord(
    id: string,
    bio: Option<string>,
    chiropractic_college: Option<string>,
    graduation_year: Option<int>,
    license_number: Option<string>,
    website_url: Option<string>,
    instagram_handle: Option<string>,
    accepting_new_patients: bool,
    updated_at: string)

  /** `value || null` */
  function NullIfEmpty(value: string): (r: Option<string>)
    ensures r.None? <==> value == ""
    ensures r.Some? ==> r.value == value
  {
    if value == "" then None else Some(value)
  }

  /** `chiropractorData`; `now` is the `toISOString()` timestamp. A year that
      `parseInt` cannot read is `NaN`, which is sent as `null`. */
  function ChiropractorData(userId: string, data: SignUpData, now: string): ChiropractorRecord {
    ChiropractorRecord(
      id := userId,
      bio := NullIfEmpty(data.bio),
      chiropractic_college := NullIfEmpty(data.college),
      graduation_year := if data.graduationYear != "" then ParseInt(data.graduationYear) else None,
      license_number := NullIfEmpty(data.licenseNumber),
      website_url := NullIfEmpty(data.website),
      instagram_handle := NullIfEmpty(data.instagram),
      accepting_new_patients := true,
      updated_at := now)
  }

  /** Empty fields become `NULL`, filled ones are stored as typed, a year
      written in decimal is stored as that number, and every new profile
      accepts new patients. */
  lemma ChiropractorDataFields(userId: string, data: SignUpData, now: string, year: nat)
    ensures var r := ChiropractorData(userId, data, now);
      && r.id == userId && r.accepting_new_patients && r.updated_at == now
      && (r.bio.None? <==> data.bio == "") && (r.bio.Some? ==> r.bio.value == data.bio)
      && (r.chiropractic_college.None? <==> data.college == "")
      && (r.license_number.None? <==> data.licenseNumber == "")
      && (r.website_url.None? <==> data.website == "")
      && (r.instagram_handle.None? <==> data.instagram == "")
      && (data.graduationYear == "" ==> r.graduation_year.None?)
      && (data.graduationYear == DecimalString(year) ==> r.graduation_year == Some(year))
  {
    ParseIntOfDecimal(year);
  }

  // ---- signUpChiropractor ---------------------------------------------------

  /** What `auth.signUp` gave back: an error message, or a user (whose id may be missing). */
  datatype AuthOutcome = AuthError(message: string) | SignedUp(user: Option<string>)

  datatype DbError = DbError(code: string, message: string)

  /** `signUpChiropractor` with the backend calls replaced by their outcomes:
      `auth` for `auth.signUp`, `insertError` for the insert into `chiropractors`.
      `inserted` is the row handed to that insert, when the flow gets that far. */
  method SignUpChiropractor(data: SignUpData, auth: AuthOutcome, insertError: Option<DbError>, now: string)
    returns (result: SignUpResult, inserted: Option<ChiropractorRecord>)
    ensures auth.AuthError? ==> result == Failure(AuthErrorText(auth.message)) && inserted.None?
    ensures auth.SignedUp? && (auth.user.None? || auth.user.value == "") ==>
      result == Failure(NoUserMessage) && inserted.None?
    ensures auth.SignedUp? && auth.user.Some? && auth.user.value != "" ==>
      inserted == Some(ChiropractorData(auth.user.value, data, now))
      && result == (match insertError
                    case Some(e) => Failure(InsertErrorPrefix + InsertErrorDetail(e.code, e.message))
                    case None => SignUpResult(true, None, Some(auth.user.value)))
    ensures result.success <==> result.error.None?
  {
    inserted := None;
    if auth.AuthError? {
      var errorMessage := AuthErrorMessage(auth.message);
      return Failure(errorMessage), None;
    }
    if auth.user.None? {
      return Failure(NoUserMessage), None;
    }
    var userId := auth.user.value;
    if userId == "" {
      return Failure(NoUserMessage), None;
    }
    var chiropractorData := ChiropractorData(userId, data, now);
    inserted := Some(chiropractorData);
    if insertError.Some? {
      var errorMessage := InsertErrorMessage(insertError.value.code, insertError.value.message);
      return Failure(errorMessage), inserted;
    }
    result := SignUpResult(true, None, Some(userId));
  }
}
