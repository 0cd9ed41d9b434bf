# find-my-chiro: decision logic, modelled and proved

find-my-chiro is a Next.js front end that matches patients with
chiropractors. Most of it renders pages and calls a hosted backend. This
project models the parts that decide something, and proves what they
promise:

- **Live match potential** on the search page. Each filled filter adds a
  fixed number of points, and the total is clamped at 100. The module
  also covers the list handlers for the filter checkboxes and the
  traffic-light colours of the badges. (`Search`)
- **Row normalisation** from loosely typed database rows into
  `Chiropractor` values. This covers:
  - turning the modalities field into a list;
  - falling back from snake_case to camelCase fields;
  - the primary-modality and philosophy defaults;
  - the `??` default of `acceptingPatients`. (`Queries`)
- **Chiropractor sign-up** (`Auth`). This covers:
  - inferring a philosophy from the chosen modalities;
  - the ordered classifiers that turn authentication and insert errors into
    user messages;
  - the record built for the `chiropractors` table, where empty text becomes
    null;
  - the whole decision flow of `signUpChiropractor`, with the backend
    outcomes passed in.
- **The two sign-up wizards** (`Wizard`, `PatientSignup`,
  `ChiropractorSignup`). Each page's React state is a class whose methods
  are the page's handlers. The parts are:
  - the bounded step counter;
  - the checkbox toggle;
  - the ordered validation chain;
  - the e-mail regular expression, as a string predicate proved equal to a
    plain characterisation (`Email`);
  - what happens after the awaited sign-up call.
- **Card text**: the initials, the full name and the comma-joined
  description of a chiropractor card (`Card`).
- **Avatar storage**: the type and size checks, the extension and object
  path of an upload, and the paths removed when a user's avatars are
  deleted (`Avatar`).

Shared JavaScript behaviour lives in `JsText`:

- `trim` and its whitespace class;
- `startsWith` and `includes`;
- `join`;
- ASCII `toUpperCase`;
- `parseInt` and the decimal text of a number.

`Lists` holds `filter(x => x !== v)`, append and toggle over string
lists. `Wrappers` holds `Option`.

Modelling choices:

- A JavaScript value that may be `null` or `undefined` is an `Option`.
- A string used only for its truthiness is a `string`, where `""` is the
  falsy case.
- `JSON.parse` is a parameter `parse: string -> Option<seq<string>>`, where
  `None` means it threw.
- Clocks are parameters: a `nat` millisecond count for `Date.now()` and a
  string for `toISOString()`.
- A storage or database call is replaced by its outcome, passed in as a
  datatype.
- In the wizard classes, the ghost field `signUpCalls` records every form
  handed to the backend. `handleSubmit` is split at its `await`:
  - `BeginSubmit` runs the validation and makes the call;
  - `FinishSubmit` takes the call's outcome.

The live score's weights sum to exactly 100 (`Search.WeightsSumToMax`).
The `Math.min(score, 100)` clamp is therefore never active. The model keeps
the clamp and proves that it never changes the value.

## Model

| member | source | states |
|---|---|---|
| JsText.TrimEmptyIffBlank | app/search/page.tsx:97 | `zipCode.trim()` is empty exactly when the ZIP consists of JavaScript whitespace only |
| JsText.UpperAscii | app/components/ChiropractorCard.tsx:9 | upper-casing keeps the length and maps every character by the ASCII upper-case rule |
| JsText.JoinEmptyIff | app/components/ChiropractorCard.tsx:18-20 | joining non-empty parts gives "" exactly when there are no parts |
| JsText.ParseIntOfDecimal | app/lib/auth.ts:122 | `parseInt` of the decimal text of a natural number gives back that number |
| JsText.ParseIntOfNumberString | app/signup-patient/page.tsx:547 | `parseInt` of `String(n)` gives back `n` for every integer, negative ones included |
| Lists.RemoveAll | app/search/page.tsx:63 | the filtered list holds exactly the items other than the removed one and is no longer than the input |
| Lists.RemoveAllAppend | app/search/page.tsx:63 | filtering distributes over concatenation, so the kept items keep their order |
| Lists.RemoveAllCounts | app/search/page.tsx:63 | every occurrence of the item goes and every other item keeps its multiplicity |
| Lists.SetChecked | app/search/page.tsx:61-63 | checking appends the item at the end; unchecking removes every copy of it (the list filtered by `!==`) and keeps membership of every other item |
| Lists.CheckThenUncheck | app/search/page.tsx:58-65 | checking an absent item and unchecking it restores the list exactly |
| Lists.Toggle | app/signup-patient/page.tsx:61-64 | the toggled value is present afterwards exactly when it was absent before; a present value is filtered out, an absent one appended |
| Lists.ToggleTwiceAbsent | app/signup-patient/page.tsx:59-67 | toggling an absent value twice restores the original list |
| Lists.ToggleTwicePresent | app/signup-patient/page.tsx:59-67 | toggling a present value twice removes its duplicates and moves it to the end |
| Search.InitialFilters | app/search/page.tsx:21-30 | the ZIP comes from the `zip` query parameter or is empty, every list is empty, every choice is empty and the radius is 25 |
| Search.EarnedAtMostTotal | app/search/page.tsx:93-129 | points earned over any list of criteria never exceed the criteria's total weight |
| Search.WeightsSumToMax | app/search/page.tsx:96-128 | the weights 10+20+20+15+15+10+10 add up to the maximum of 100 |
| Search.LiveScoreAtMostMax | app/search/page.tsx:93-131 | the unclamped sum never exceeds 100 |
| Search.LiveScoreTerms | app/search/page.tsx:96-128 | the score is the sum of each criterion's weight times whether that criterion is filled |
| Search.CalculateLiveMatchScore | app/search/page.tsx:91-132 | the step-by-step accumulation followed by the clamp yields the specified score, which lies in [0, 100] |
| Search.EarnedDependsOnlyOnFilled | app/search/page.tsx:96-128 | two filter states that fill the same criteria earn the same points |
| Search.SameFilledSameScore | app/search/page.tsx:96-128 | the score depends only on which criteria are filled |
| Search.AnotherModalityKeepsScore | app/search/page.tsx:102 | adding a second modality leaves the score unchanged |
| Search.EarnedOneMore | app/search/page.tsx:96-128 | over criteria listed once each, filling in one more criterion adds its weight exactly when it is listed |
| Search.AllCriteriaListsEachOnce | app/search/page.tsx:96-128 | the seven scored criteria are each counted once: every criterion is in the list and no two entries repeat |
| Search.FillingAddsItsWeight | app/search/page.tsx:96-128 | filling one more criterion adds exactly its weight |
| Search.EmptyFiltersScoreZero | app/search/page.tsx:97-128 | a whitespace-only ZIP, empty lists and unspecified choices give 0 |
| Search.FullFiltersScoreMax | app/search/page.tsx:96-131 | all criteria filled gives exactly 100 |
| Search.AnyCountsAsUnspecified | app/search/page.tsx:117-128 | "any" as business model, insurance or budget scores the same as leaving it empty |
| Search.HandleModalityChange | app/search/page.tsx:58-65 | checking appends the modality; unchecking filters it out and keeps the others; no other filter changes |
| Search.HandleFocusAreaChange | app/search/page.tsx:67-74 | the same for focus areas |
| Search.HandlePhilosophyChange | app/search/page.tsx:76-83 | the same for philosophies |
| Search.CheckUncheckModalityRestores | app/search/page.tsx:58-65 | checking then unchecking an absent modality restores the filters |
| Search.BadgeColorBands | app/search/page.tsx:190 | green exactly from 70, yellow exactly in [40, 70), red below 40, and the colour never gets worse as the score rises |
| Search.ZipAloneShowsNoEstimate | app/search/page.tsx:187 | without any list or business model, and with at most one of insurance and budget, the estimate badge (score > 20) stays hidden |
| Search.ZipAndOneListShowsRed | app/search/page.tsx:187-190 | a ZIP together with exactly one of the three lists (modalities, focus areas or philosophies), and no other filter, gives a shown estimate badge in red |
| Search.Round | app/search/page.tsx:374 | `Math.round` gives the integer within half of the score, halves rounded up |
| Search.ResultBadgeUsesUnroundedScore | app/search/page.tsx:365-374 | the result badge is coloured by the unrounded score: 39.6 is labelled 40 but red, while 40 is yellow |
| Search.BadgesAgree | app/search/page.tsx:345-376 | once results are listed, a score that shows the estimate badge shows the filters badge in the same colour; a result scored the same wears the same badge; scores 1 to 20 show only the filters badge; a result without a score and the header while loading show none |
| Queries.FirstTruthy | app/lib/queries.ts:83-84 | the snake_case value if truthy, else the camelCase value if truthy, else the fallback |
| Queries.Coalesce | app/lib/queries.ts:92 | `a ?? b ?? fallback`: an explicit false is kept; the fallback only when both are missing |
| Queries.CoerceModalities | app/lib/queries.ts:69-79 | an array is kept; a non-string, non-array becomes []; a string is parsed, and an unparseable one becomes [s] when non-empty, else [] |
| Queries.PhilosophyFromModalities | app/lib/queries.ts:135-139 | the result is "Evidence-Based" for every input |
| Queries.PrimaryModality | app/lib/queries.ts:144-149 | "Diversified" for a missing or empty list, else its first element |
| Queries.MapRowFields | app/lib/queries.ts:81-94 | the list is the coerced modalities; the first name takes the snake_case value if truthy, then the camelCase one, then ""; the clinic name falls back to ""; a missing philosophy becomes "Evidence-Based"; a missing modality becomes the list's first entry, or "Diversified" for an empty list |
| Queries.AcceptingPatientsDefault | app/lib/queries.ts:92 | a row with neither field accepts patients; an explicit false from either source is kept |
| Queries.MapChiropractorData | app/lib/queries.ts:66-96 | one record per row, in order, each the row's mapping |
| Queries.MapProfileDataToChiropractor | app/lib/queries.ts:101-130 | one record per row |
| Queries.ProfileMappingAgrees | app/lib/queries.ts:101-130 | the profile mapper returns exactly what the chiropractor mapper returns |
| Queries.MapChiropractorDataAppend | app/lib/queries.ts:67 | mapping distributes over concatenation of row lists |
| Auth.AnyInIff | app/lib/auth.ts:195 | `modalities.some(m => group.includes(m))` holds exactly when some modality is in the group |
| Auth.InferPhilosophy | app/lib/auth.ts:185-206 | the result is always one of "Vitalistic", "Evidence-Based" and "Traditional" |
| Auth.InferPhilosophyCases | app/lib/auth.ts:186-205 | empty gives Evidence-Based; any of SOT/TRT/Webster gives Vitalistic; else Activator/Cox gives Evidence-Based; else Gonstead/Diversified/Thompson gives Traditional; only unknown modalities give Evidence-Based |
| Auth.InferPhilosophyIgnoresOrder | app/lib/auth.ts:185-206 | lists with the same members infer the same philosophy |
| Auth.InferPhilosophyPermutation | app/lib/auth.ts:185-206 | a reordering of the list infers the same philosophy |
| Auth.FirstMatchingTextIsFirst | app/lib/auth.ts:75-81 | the classifier answers with the first rule whose needle occurs in the message, and with the fallback when none does |
| Auth.AuthErrorMessage | app/lib/auth.ts:74-81 | the reassignment chain computes the ordered classification |
| Auth.AuthErrorTextCases | app/lib/auth.ts:74-81 | "Database error" wins, then "already registered", then "Password"; otherwise the raw message, or "Failed to create account." when it is empty |
| Auth.InsertErrorMessage | app/lib/auth.ts:160-167 | every message starts with the fixed prefix, followed by the missing-table text for 42P01, the duplicate text for 23505, or "Error: " and the raw message |
| Auth.NullIfEmpty | app/lib/auth.ts:120-125 | `value \|\| null`: null exactly for the empty string, the value otherwise |
| Auth.ChiropractorDataFields | app/lib/auth.ts:118-128 | empty texts become null, an empty year becomes null and a decimal year is parsed back to its number, and `accepting_new_patients` is always true |
| Auth.SignUpChiropractor | app/lib/auth.ts:43-175 | an auth error gives the classified message and no insert; a missing user gives the no-user message; otherwise the record is inserted, and an insert error gives the insert message while success carries the user id; the result is successful exactly when it has no error |
| Email.EmailRegexCharacterization | app/signup-patient/page.tsx:91-92 | the regex accepts exactly the strings with no whitespace, exactly one '@' after a non-empty local part, and a '.' after the '@' with text on both sides |
| Email.RegexToCharacterization | app/signup-patient/page.tsx:91 | a match of the three segments meets the characterisation |
| Email.CharacterizationToRegex | app/signup-patient/page.tsx:91 | the characterisation with a chosen dot gives a match |
| Email.EmailAccepted | app/signup-patient/page.tsx:91 | "pat@clinic.com" is accepted |
| Email.EmailRejected | app/signup-patient/page.tsx:91 | "pat@clinic" and "pat@@clinic.com" are rejected |
| Wizard.RunStaysInRange | app/signup-patient/page.tsx:69-75 | from a step in [1, last], any sequence of next/back presses stays in [1, last] |
| Wizard.RunAppend | app/signup-patient/page.tsx:69-75 | pressing two sequences of buttons is running one and then the other |
| Wizard.EveryStepReachable | app/signup/page.tsx:103-105 | k-1 presses of next from step 1 reach step k, for every step up to the last |
| Wizard.AccountVerdictMeaning | app/signup/page.tsx:113-132 | the account checks pass exactly for non-empty names, a password of at least 6 characters and a valid address; every failure goes to step 1; missing fields are reported first, then a short password |
| Wizard.SubmitErrorText | app/signup-patient/page.tsx:111-121 | no error exactly when the call returned success; a returned non-empty error is shown as is; every shown error is non-empty |
| Wizard.PatientLocationStepUnreachable | app/signup-patient/page.tsx:69-71 | with the cap at 3, no sequence of next/back presses from step 1 reaches step 4 |
| Wizard.IntendedPatientWizardReachesLocation | app/signup-patient/page.tsx:506 | with the cap at 4, three presses of next reach the location step, and every run stays in [1, 4] |
| PatientSignup.WithToggled | app/signup-patient/page.tsx:59-67 | the chosen list is toggled, the other lists are unchanged, and nothing else in the form changes |
| PatientSignup.ToggleTwiceRestores | app/signup-patient/page.tsx:59-67 | ticking an unticked box twice restores the form |
| PatientSignup.PatientVerdictMeaning | app/signup-patient/page.tsx:79-103 | validation passes exactly when the account checks pass and city, state and ZIP are given; account failures come first and go to step 1; a missing location goes to step 4 |
| PatientSignup.RadiusChoice | app/signup-patient/page.tsx:547 | `parseInt(value).toString()` is "NaN" exactly when `value` has no number at its head; otherwise `parseInt` reads the stored text as the same number |
| PatientSignup.RadiusChoiceKeepsOption | app/signup-patient/page.tsx:545-556 | choosing an option that is an integer's text stores exactly that text, so the select keeps showing it |
| PatientSignup.InitialRadiusShown | app/signup-patient/page.tsx:45 | the radius select opens showing "25" |
| PatientSignup.PatientSignupPage.constructor | app/signup-patient/page.tsx:20-48 | the page starts at step 1 with every text and list empty and the search radius at the number 25, no error, not submitting and no call made |
| PatientSignup.PatientSignupPage.HandleInputChange | app/signup-patient/page.tsx:50-52 | the form becomes the previous form with that one field replaced, the search radius included (stored as the text it is given) |
| PatientSignup.PatientSignupPage.HandleRadiusChange | app/signup-patient/page.tsx:545-547 | the radius becomes the text `parseInt(value).toString()` and nothing else in the form changes; the select then shows a text read back as the chosen number |
| PatientSignup.PatientSignupPage.HandleCheckboxChange | app/signup-patient/page.tsx:59-67 | the form becomes the toggled form |
| PatientSignup.PatientSignupPage.HandleNext | app/signup-patient/page.tsx:69-71 | the step advances under the corrected cap of 4 (see Findings) and stays in [1, 4] |
| PatientSignup.PatientSignupPage.HandleBack | app/signup-patient/page.tsx:73-75 | the step goes back, floored at 1 |
| PatientSignup.PatientSignupPage.BeginSubmit | app/signup-patient/page.tsx:77-109 | it proceeds exactly when validation passes; a failure shows its message, moves to its step and changes neither `isSubmitting` nor the calls made; a pass clears the error, sets `isSubmitting` and makes one call with the form |
| PatientSignup.PatientSignupPage.FinishSubmit | app/signup-patient/page.tsx:111-124 | success is recorded, or the outcome's error is shown; `isSubmitting` is cleared either way |
| ChiropractorSignup.WithToggled | app/signup/page.tsx:93-101 | the chosen list among modalities, focus areas and insurances is toggled, and nothing else in the form changes |
| ChiropractorSignup.ToggleTwiceRestores | app/signup/page.tsx:93-101 | ticking an unticked box twice restores the form |
| ChiropractorSignup.WithDefaultCollege | app/signup/page.tsx:63-68 | the college is set only when it is empty; otherwise the previous state is returned unchanged; no other field changes |
| ChiropractorSignup.DefaultCollegeSettles | app/signup/page.tsx:63-68 | once a non-empty default is applied, applying a default again changes nothing |
| ChiropractorSignup.ChiropractorSignupPage.constructor | app/signup/page.tsx:22-52 | the page starts at step 1 with the initial form (graduation year "2015"), no error and no call made |
| ChiropractorSignup.ChiropractorSignupPage.ApplyDefaultCollege | app/signup/page.tsx:62-68 | the default college is applied only when the fetched list is non-empty, with its first name |
| ChiropractorSignup.ChiropractorSignupPage.HandleInputChange | app/signup/page.tsx:80-82 | the form becomes the previous form with that one field replaced |
| ChiropractorSignup.ChiropractorSignupPage.HandleCheckboxChange | app/signup/page.tsx:93-101 | the form becomes the toggled form |
| ChiropractorSignup.ChiropractorSignupPage.HandleNext | app/signup/page.tsx:103-105 | the step advances under the cap of 4 and stays in [1, 4] |
| ChiropractorSignup.ChiropractorSignupPage.HandleBack | app/signup/page.tsx:107-109 | the step goes back, floored at 1 |
| ChiropractorSignup.ChiropractorSignupPage.BeginSubmit | app/signup/page.tsx:111-138 | it proceeds exactly when the account checks pass; a failure shows its message, returns to step 1 and makes no call; a pass clears the error, sets `isSubmitting` and makes one call with the form |
| ChiropractorSignup.ChiropractorSignupPage.FinishSubmit | app/signup/page.tsx:140-154 | success is recorded, or the outcome's error is shown; `isSubmitting` is cleared either way |
| Card.Present | app/components/ChiropractorCard.tsx:18 | `filter(Boolean)` yields only non-empty entries and never more than it was given |
| Card.PresentMembers | app/components/ChiropractorCard.tsx:18 | the filter keeps exactly the non-empty entries |
| Card.PresentIsRemoveAll | app/components/ChiropractorCard.tsx:18 | `filter(Boolean)` on strings is the same list as filtering out `""` with `Lists.RemoveAll` |
| Card.PresentOfTwo | app/components/ChiropractorCard.tsx:17 | filtering city and state keeps each non-empty one, in order |
| Card.Initials | app/components/ChiropractorCard.tsx:9 | one upper-cased letter per non-empty name: the first name's first, then the last name's first |
| Card.FullNameSplits | app/components/ChiropractorCard.tsx:10 | when the first name has no space, the full name's first space separates the first name from the last name |
| Card.LocationPartCases | app/components/ChiropractorCard.tsx:17-19 | the location is empty exactly when city and state are; otherwise it is "city, state", or the one that is given |
| Card.PresentOfFour | app/components/ChiropractorCard.tsx:14-19 | filtering the four candidates keeps each non-empty one, in order |
| Card.BuildDescriptionParts | app/components/ChiropractorCard.tsx:13-19 | the successive pushes give modality, philosophy, clinic name and location in that order, with the empty ones skipped, and every part is non-empty |
| Card.DescriptionEmptyIff | app/components/ChiropractorCard.tsx:20 | the description is empty exactly when modality, philosophy, clinic name, city and state all are |
| Avatar.CheckAvatar | app/lib/avatar-upload.ts:11-20 | a file passes exactly when its type starts with "image/" and its size is at most 5·1024·1024; the type is checked first |
| Avatar.SizeBoundary | app/lib/avatar-upload.ts:17-20 | an image of exactly 5 MB passes and one byte more is rejected |
| Avatar.FileExtension | app/lib/avatar-upload.ts:23 | the extension has no dot, is a suffix of the name directly after a dot, and is the whole name when there is no dot |
| Avatar.FileExtensionAfterDot | app/lib/avatar-upload.ts:23-24 | whatever precedes the last dot does not change the extension |
| Avatar.PlanUpload | app/lib/avatar-upload.ts:11-24 | a rejected file carries the check's message; an accepted one is uploaded to `userId/now.ext` |
| Avatar.ObjectNameParts | app/lib/avatar-upload.ts:23-24 | the stored name keeps the file's extension and starts with the timestamp's digits and a dot |
| Avatar.ObjectNameParsesToTimestamp | app/lib/avatar-upload.ts:23-24 | `parseInt` of the stored object name gives back the upload's timestamp |
| Avatar.UploadAvatarResult | app/lib/avatar-upload.ts:9-48 | a URL exactly when the checks pass and storage stored the file, and it is the public URL of the stored path |
| Avatar.DeletePaths | app/lib/avatar-upload.ts:70 | one path `userId/name` per listed name, in order |
| Avatar.DeletePathsAppend | app/lib/avatar-upload.ts:70 | the path list distributes over concatenation of listings |
| Avatar.PlanDelete | app/lib/avatar-upload.ts:59-79 | a listing error gives up; an empty listing removes nothing; otherwise all listed paths are removed |
| Avatar.DeleteAvatarResult | app/lib/avatar-upload.ts:56-86 | success exactly when nothing had to be removed, or the removal reported no error |
| Avatar.UploadedAvatarIsRemoved | app/lib/avatar-upload.ts:24-73 | an uploaded avatar that is listed in its folder is removed under exactly its upload path |

## Left out

- All backend calls are replaced by their outcomes, passed in as parameters. This covers `supabase.auth.signUp`, the `chiropractors` insert, and storage upload, list, remove and `getPublicUrl`.
- The profile upsert and update in `signUpChiropractor` (app/lib/auth.ts:98-114, 145-157) are left out. Their errors are only logged and never change the result.
- Auth.SignUpChiropractor: does not model the outer `catch` (app/lib/auth.ts:176-179), because thrown client errors are not among the modelled outcomes.
- The ranking scorer that fills `matchScore` is called through `searchChiropractors` but is not defined in these files, so it is not part of this model. The result badge takes its score as an input.
- The fetches `performSearch`, `getChiropractors` and `getChiropracticColleges` are left out, and so is the colleges' row mapping. The chiropractor row mapping is modelled by `Queries.MapChiropractorData`. The college fetch enters the model only as the list of names given to `ApplyDefaultCollege`.
- `JSON.parse` is a parameter. A parse that yields a non-list value is not distinguished from a list.
- JsText.ParseInt: models ASCII decimal and `0x` hexadecimal prefixes only. It does not model the loss of precision on values too large for a JavaScript number.
- JsText.UpperAscii: upper-cases ASCII letters only. It does not model Unicode case mapping.
- String lengths and indexing count code points rather than UTF-16 units. This affects the password length check for non-BMP characters.
- Card.Initials: takes the whole first character of each name. `firstName?.[0]` takes one UTF-16 unit, so for a name that starts with a non-BMP character the source shows half a surrogate pair.
- Search.ResultBadge: `matchScore` is an exact real number, not a JavaScript double, so floating-point rounding error is not represented. `Math.round` on the card's own match line (app/components/ChiropractorCard.tsx:177) is not modelled.
- `Date.now()` and `toISOString()` are parameters.
- `signUpPatient` is not part of this model: app/lib/auth.ts as shown defines no such function, although app/signup-patient/page.tsx imports it (line 10) and calls it (line 109). Its result reaches the patient wizard only through `FinishSubmit`'s outcome.
- `handleTextFieldChange` and `handleTextAreaChange` only read the input element and forward to `handleInputChange`, which is modelled.
- React rendering, `setTimeout` redirects, `isLoadingColleges`, the 2-second delay and the logging are not modelled.
- The presentational components, app/page.tsx and the Supabase client setup are not modelled.
- `updateProfileAvatarUrl` is a single database update whose result is its error flag, so it is not modelled.

## Findings

| source | as written | input that shows it | evidently intended | confidence | as-written member | corrected member |
|---|---|---|---|---|---|---|
| app/signup-patient/page.tsx:70 | `handleNext` stops at step 3, but the location fields and the submit button are rendered only on step 4 (lines 506, 595-602), and the location error sends the user to step 4 (line 101) | any sequence of Next/Back presses from step 1; the step never exceeds 3, so the submit button is never shown | stop at step 4, as the chiropractor wizard does | not executed | Wizard.PatientLocationStepUnreachable | Wizard.IntendedPatientWizardReachesLocation |
