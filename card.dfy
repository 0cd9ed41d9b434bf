/**
 * The text a chiropractor card shows: initials, full name and the
 * comma-joined description.
 */
module Card {
  import opened JsText
  import Queries
  import Lists

  /** `[x]` when `x` is truthy, else nothing. */
  function Kept(x: string): seq<string> {
    if x != "" then [x] else []
  }

  /** `xs.filter(Boolean)` on strings: the non-empty entries, in order. */
  function Present(xs: seq<string>): (r: seq<string>)
    ensures |r| <= |xs|
    ensures forall i :: 0 <= i < |r| ==> r[i] != ""
  {
    if xs == [] then [] else Kept(xs[0]) + Present(xs[1..])
  }

  /** The filter keeps exactly the non-empty entries. */
  lemma {:induction false} PresentMembers(xs: seq<string>)
    ensures forall x :: x in Present(xs) <==> x in xs && x != ""
  {
    if xs != [] {
      PresentMembers(xs[1..]);
      assert xs == [xs[0]] + xs[1..];
    }
  }

  /** `filter(Boolean)` on strings is the filter that drops `""`. */
  lemma {:induction false} PresentIsRemoveAll(xs: seq<string>)
    ensures Present(xs) == Lists.RemoveAll(xs, "")
  {
    if xs != [] {
      PresentIsRemoveAll(xs[1..]);
    }
  }

  /** The initials: the first letter of each name, upper-cased; an empty name
      contributes nothing. */
  function Initials(c: Queries.Chiropractor): (r: string)
    ensures |r| == (if c.firstName != "" then 1 else 0) + (if c.lastName != "" then 1 else 0)
    ensures c.firstName != "" ==> r[0] == ToUpperAscii(c.firstName[0])
    ensures c.lastName != "" ==> r[|r| - 1] == ToUpperAscii(c.lastName[0])
  {
    UpperAscii((if c.firstName != "" then [c.firstName[0]] else [])
               + (if c.lastName != "" then [c.lastName[0]] else []))
  }

  function FullName(c: Queries.Chiropractor): string {
    c.firstName + " " + c.lastName
  }

  /** When the first name has no space, the full name's first space separates
      the two names, so both can be read back from it. */
  lemma FullNameSplits(c: Queries.Chiropractor)
    requires ' ' !in c.firstName
    ensures var n := FullName(c);
      && |c.firstName| < |n| && n[|c.firstName|] == ' '
      && (forall i :: 0 <= i < |c.firstName| ==> n[i] != ' ')
      && n[..|c.firstName|] == c.firstName && n[|c.firstName| + 1..] == c.lastName
  {
    var n := FullName(c);
    forall i | 0 <= i < |c.firstName|
      ensures n[i] != ' '
    {
      assert n[i] == c.firstName[i];
    }
    assert n[|c.firstName| + 1..] == c.lastName;
  }

  /** The location part: city and state, empty ones dropped, joined by ", ". */
  function LocationPart(c: Queries.Chiropractor): string {
    Join(Present([c.city, c.state]), ", ")
  }

  /** The location part is empty exactly when city and state are, and is
      "city, state" when both are given. */
  lemma LocationPartCases(c: Queries.Chiropractor)
    ensures LocationPart(c) == "" <==> c.city == "" && c.state == ""
    ensures c.city != "" && c.state != "" ==> LocationPart(c) == c.city + ", " + c.state
    ensures c.city != "" && c.state == "" ==> LocationPart(c) == c.city
    ensures c.city == "" && c.state != "" ==> LocationPart(c) == c.state
  {
    PresentOfTwo(c.city, c.state);
    JoinEmptyIff(Present([c.city, c.state]), ", ");
  }

  /** The parts in the order modality, philosophy, clinic name, location,
      with empty ones skipped. */
  function DescriptionParts(c: Queries.Chiropractor): seq<string> {
    Present([c.modality, c.philosophy, c.clinicName, LocationPart(c)])
  }

  /** `descriptionParts`, built by successive pushes. */
  method BuildDescriptionParts(c: Queries.Chiropractor) returns (parts: seq<string>)
    ensures parts == DescriptionParts(c)
    ensures forall i :: 0 <= i < |parts| ==> parts[i] != ""
  {
    var location := LocationPart(c);
    LocationPartCases(c);
    assert c.city != "" || c.state != "" <==> location != "";
    parts := [];
    if c.modality != "" {
      parts := parts + [c.modality];
    }
    assert parts == Kept(c.modality);
    if c.philosophy != "" {
      parts := parts + [c.philosophy];
    }
    assert parts == Kept(c.modality) + Kept(c.philosophy);
    if c.clinicName != "" {
      parts := parts + [c.clinicName];
    }
    assert parts == Kept(c.modality) + Kept(c.philosophy) + Kept(c.clinicName);
    if c.city != "" || c.state != "" {
      parts := parts + [location];
    }
    PresentOfFour(c.modality, c.philosophy, c.clinicName, location);
  }

  lemma PresentCons(x: string, rest: seq<string>)
    ensures Present([x] + rest) == Kept(x) + Present(rest)
  {
    assert ([x] + rest)[1..] == rest;
  }

  lemma Regroup<T>(a: seq<T>, b: seq<T>, c: seq<T>)
    ensures a + (b + c) == a + b + c
  {
  }

  lemma ConsTwo<T>(y: T, z: T)
    ensures [y, z] == [y] + [z] && [z] == [z] + []
  {
  }

  lemma ConsThree<T>(x: T, y: T, z: T)
    ensures [x, y, z] == [x] + [y, z]
  {
  }

  lemma ConsFour<T>(w: T, x: T, y: T, z: T)
    ensures [w, x, y, z] == [w] + [x, y, z]
  {
  }

  lemma PresentOfTwo(y: string, z: string)
    ensures Present([y, z]) == Kept(y) + Kept(z)
  {
    ConsTwo(y, z);
    PresentCons(z, []);
    PresentCons(y, [z]);
  }

  lemma PresentOfThree(x: string, y: string, z: string)
    ensures Present([x, y, z]) == Kept(x) + Kept(y) + Kept(z)
  {
    ConsThree(x, y, z);
    PresentOfTwo(y, z);
    PresentCons(x, [y, z]);
    Regroup(Kept(x), Kept(y), Kept(z));
  }

  /** `Present` over four candidates, one candidate at a time. */
  lemma PresentOfFour(w: string, x: string, y: string, z: string)
    ensures Present([w, x, y, z]) == Kept(w) + Kept(x) + Kept(y) + Kept(z)
  {
    ConsFour(w, x, y, z);
    PresentOfThree(x, y, z);
    PresentCons(w, [x, y, z]);
    Regroup(Kept(w), Kept(x) + Kept(y), Kept(z));
  }

  function Description(c: Queries.Chiropractor): string {
    Join(DescriptionParts(c), ", ")
  }

  /** The description (rendered only when non-empty) is empty exactly when
      modality, philosophy, clinic name, city and state all are. */
  lemma DescriptionEmptyIff(c: Queries.Chiropractor)
    ensures Description(c) == "" <==>
      c.modality == "" && c.philosophy == "" && c.clinicName == "" && c.city == "" && c.state == ""
  {
    LocationPartCases(c);
    PresentOfFour(c.modality, c.philosophy, c.clinicName, LocationPart(c));
    JoinEmptyIff(DescriptionParts(c), ", ");
  }
}
