/**
 * Normalisation of loosely typed database rows into `Chiropractor` values
 * (`mapChiropractorData`, `mapProfileDataToChiropractor` and their helpers).
 * A row field is `None` when the column is missing, `null` or `undefined`;
 * JavaScript's `a || b` picks `a` when it is a non-empty string.
 * `JSON.parse` is a parameter: it yields the parsed list, or `None` when it throws.
 */
module Queries {
  import opened Wrappers

  /** What a row may hold in its `modalities` column. */
  datatype RawModalities = ArrayValue(items: seq<string>) | StringValue(text: string) | OtherValue

  /** A row as the backend returns it, with both spellings of the renamed columns. */
  datatype Row = Row(
    id: Option<string>,
    first_name: Option<string>, firstName: Option<string>,
    last_name: Option<string>, lastName: Option<string>,
    bio: Option<string>,
    philosophy: Option<string>,
    modality: Option<string>,
    modalities: RawModalities,
    clinic_name: Option<string>, clinicName: Option<string>,
    city: Option<string>,
    state: Option<string>,
    accepting_patients: Option<bool>, acceptingPatients: Option<bool>,
    avatar_url: Option<string>, avatarUrl: Option<string>)

  /** The application's view of a chiropractor; "" stands for an absent text field. */
  datatype Chiropractor = Chiropractor(
    id: string,
    firstName: string,
    lastName: string,
    bio: string,
    philosophy: string,
    modality: string,
    modalities: seq<string>,
    clinicName: string,
    city: string,
    state: string,
    acceptingPatients: bool,
    avatarUrl: Option<string>)

  predicate Truthy(v: Option<string>) {
    v.Some? && v.value != ""
  }

  /** `a || b || fallback` over optional strings. */
  function FirstTruthy(a: Option<string>, b: Option<string>, fallback: string): (r: string)
    ensures Truthy(a) ==> r == a.value
    ensures !Truthy(a) && Truthy(b) ==> r == b.value
    ensures !Truthy(a) && !Truthy(b) ==> r == fallback
  {
    if Truthy(a) then a.value else if Truthy(b) then b.value else fallback
  }

  /** `a ?? b ?? fallback` */
  function Coalesce(a: Option<bool>, b: Option<bool>, fallback: bool): (r: bool)
    ensures a.Some? ==> r == a.value
    ensures a.None? && b.Some? ==> r == b.value
    ensures a.None? && b.None? ==> r == fallback
  {
    match a
    case Some(x) => x
    case None => match b case Some(y) => y case None => fallback
  }

  /** The modalities the row stands for. */
  function Modalities(raw: RawModalities, parse: string -> Option<seq<string>>): seq<string> {
    match raw
    case ArrayValue(items) => items
    case StringValue(text) =>
      (match parse(text)
       case Some(items) => items
       case None => if text != "" then [text] else [])
    case OtherValue => []
  }

  /** The `let modalities` coercion: `[]`, then the array itself, or the parsed
      string, or on a parse failure the string as a one-element list. */
  method CoerceModalities(raw: RawModalities, parse: string -> Option<seq<string>>) returns (modalities: seq<string>)
    ensures modalities == Modalities(raw, parse)
    ensures raw.ArrayValue? ==> modalities == raw.items
    ensures raw.OtherValue? ==> modalities == []
    ensures raw.StringValue? && parse(raw.text).None? ==>
      modalities == (if raw.text != "" then [raw.text] else [])
  {
    modalities := [];
    if raw.ArrayValue? {
      modalities := raw.items;
    } else if raw.StringValue? {
      var parsed := parse(raw.text);
      if parsed.Some? {
        modalities := parsed.value;
      } else {
        modalities := if raw.text != "" then [raw.text] else [];
      }
    }
  }

  /** `getPhilosophyFromModalities`: a placeholder that ignores its argument. */
  function PhilosophyFromModalities(modalities: Option<seq<string>>): (r: string)
    ensures r == "Evidence-Based"
  {
    if modalities.None? then "Evidence-Based" else "Evidence-Based"
  }

  /** `getPrimaryModality` */
  function PrimaryModality(modalities: Option<seq<string>>): (r: string)
    ensures modalities.None? || modalities.value == [] ==> r == "Diversified"
    ensures modalities.Some? && modalities.value != [] ==> r == modalities.value[0]
  {
    if modalities.None? || |modalities.value| == 0 then "Diversified" else modalities.value[0]
  }

  /** The object built for one row by the callback of both mappers. */
  function MapRow(item: Row, parse: string -> Option<seq<string>>): Chiropractor {
    var modalities := Modalities(item.modalities, parse);
    Chiropractor(
      id := FirstTruthy(item.id, None, ""),
      firstName := FirstTruthy(item.first_name, item.firstName, ""),
      lastName := FirstTruthy(item.last_name, item.lastName, ""),
      bio := FirstTruthy(item.bio, None, ""),
      philosophy := FirstTruthy(item.philosophy, None, PhilosophyFromModalities(Some(modalities))),
      modality := FirstTruthy(item.modality, None, PrimaryModality(Some(modalities))),
      modalities := modalities,
      clinicName := FirstTruthy(item.clinic_name, item.clinicName, ""),
      city := FirstTruthy(item.city, None, ""),
      state := FirstTruthy(item.state, None, ""),
      acceptingPatients := Coalesce(item.accepting_patients, item.acceptingPatients, true),
      avatarUrl := if Truthy(item.avatar_url) then item.avatar_url
                   else if Truthy(item.avatarUrl) then item.avatarUrl else None)
  }

  /** What a normalised row promises, field by field. */
  lemma MapRowFields(item: Row, parse: string -> Option<seq<string>>)
    ensures var c := MapRow(item, parse);
      && c.modalities == Modalities(item.modalities, parse)
      && (Truthy(item.first_name) ==> c.firstName == item.first_name.value)
      && (!Truthy(item.first_name) && Truthy(item.firstName) ==> c.firstName == item.firstName.value)
      && (!Truthy(item.first_name) && !Truthy(item.firstName) ==> c.firstName == "")
      && (!Truthy(item.clinic_name) && !Truthy(item.clinicName) ==> c.clinicName == "")
      && (!Truthy(item.philosophy) ==> c.philosophy == "Evidence-Based")
      && (!Truthy(item.modality) && c.modalities == [] ==> c.modality == "Diversified")
      && (!Truthy(item.modality) && c.modalities != [] ==> c.modality == c.modalities[0])
      && c.philosophy != ""
  {
  }

  /** `acceptingPatients` keeps an explicit `false` from either spelling and
      defaults to `true` only when both are absent. */
  lemma AcceptingPatientsDefault(item: Row, parse: string -> Option<seq<string>>)
    ensures var c := MapRow(item, parse);
      && (item.accepting_patients == Some(false) ==> !c.acceptingPatients)
      && (item.accepting_patients.None? && item.acceptingPatients == Some(false) ==> !c.acceptingPatients)
      && (!c.acceptingPatients <==> (item.accepting_patients == Some(false)
            || (item.accepting_patients.None? && item.acceptingPatients == Some(false))))
  {
  }

  /** `mapChiropractorData`: one `Chiropractor` per row, in row order. */
  function MapChiropractorData(data: seq<Row>, parse: string -> Option<seq<string>>): (r: seq<Chiropractor>)
    ensures |r| == |data|
    ensures forall i :: 0 <= i < |data| ==> r[i] == MapRow(data[i], parse)
  {
    if data == [] then [] else [MapRow(data[0], parse)] + MapChiropractorData(data[1..], parse)
  }

  /** `mapProfileDataToChiropractor`, the same mapping written out a second
      time in the source for rows of the `profiles` table. */
  function MapProfileDataToChiropractor(data: seq<Row>, parse: string -> Option<seq<string>>): (r: seq<Chiropractor>)
    ensures |r| == |data|
  {
    if data == [] then [] else [MapRow(data[0], parse)] + MapProfileDataToChiropractor(data[1..], parse)
  }

  /** The two mappers agree on every input. This holds by construction: the two
      row callbacks in the source (app/lib/queries.ts:67-95 and 102-129) are the
      same text, so both mappers here are built from the one `MapRow`. */
  lemma {:induction false} ProfileMappingAgrees(data: seq<Row>, parse: string -> Option<seq<string>>)
    ensures MapProfileDataToChiropractor(data, parse) == MapChiropractorData(data, parse)
  {
    if data != [] {
      ProfileMappingAgrees(data[1..], parse);
    }
  }

  /** Mapping a concatenation of result pages maps each page. */
  lemma MapChiropractorDataAppend(a: seq<Row>, b: seq<Row>, parse: string -> Option<seq<string>>)
    ensures MapChiropractorData(a + b, parse) == MapChiropractorData(a, parse) + MapChiropractorData(b, parse)
  {
  }
}
