/**
 * The search page's own decision logic: the live "match potential" of the
 * filters the patient has filled in, the filter-list handlers and the
 * traffic-light badges. The per-candidate ranking that fills `matchScore`
 * is computed elsewhere and is not part of this model.
 */
module Search {
  import opened Wrappers
  import opened JsText
  import Lists

  /** The patient's search filters; an empty string or list means "not given". */
  datatype SearchFilters = SearchFilters(
    zipCode: string,
    preferredModalities: seq<string>,
    focusAreas: seq<string>,
    preferredBusinessModel: string,
    insuranceType: string,
    budgetRange: string,
    searchRadius: int,
    preferredPhilosophies: seq<string>)

  /** The filters the page starts with, from the optional `zip` query parameter. */
  function InitialFilters(zipParameter: Option<string>): (f: SearchFilters)
    ensures f.zipCode == (if zipParameter.Some? then zipParameter.value else "")
    ensures f.preferredModalities == [] && f.focusAreas == [] && f.preferredPhilosophies == []
    ensures f.preferredBusinessModel == "" && f.insuranceType == "" && f.budgetRange == ""
    ensures f.searchRadius == 25
  {
    SearchFilters(
      match zipParameter case Some(z) => z case None => "",
      [], [], "", "", "", 25, [])
  }

  /** The criteria that contribute to the live score. */
  datatype Criterion = Zip | Modalities | FocusAreas | Philosophies | BusinessModel | Insurance | Budget

  const AllCriteria: seq<Criterion> :=
    [Zip, Modalities, FocusAreas, Philosophies, BusinessModel, Insurance, Budget]

  const MaxScore := 100

  /** The weight each criterion earns when it is filled in. */
  function Points(c: Criterion): nat {
    match c
    case Zip => 10
    case Modalities => 20
    case FocusAreas => 20
    case Philosophies => 15
    case BusinessModel => 15
    case Insurance => 10
    case Budget => 10
  }

  /** A select value that counts as given: non-empty and not the "any" choice. */
  predicate Chosen(value: string) {
    value != "" && value != "any"
  }

  /** Whether the filters fill in criterion `c`. */
  predicate Filled(f: SearchFilters, c: Criterion) {
    match c
    case Zip => f.zipCode != "" && Trim(f.zipCode) != ""
    case Modalities => |f.preferredModalities| > 0
    case FocusAreas => |f.focusAreas| > 0
    case Philosophies => |f.preferredPhilosophies| > 0
    case BusinessModel => Chosen(f.preferredBusinessModel)
    case Insurance => Chosen(f.insuranceType)
    case Budget => Chosen(f.budgetRange)
  }

  /** What criterion `c` contributes: its weight when filled, else nothing. */
  function Share(f: SearchFilters, c: Criterion): nat {
    if Filled(f, c) then Points(c) else 0
  }

  /** The points earned by the filled criteria among `cs`. */
  function EarnedPoints(f: SearchFilters, cs: seq<Criterion>): nat {
    if cs == [] then 0 else Share(f, cs[0]) + EarnedPoints(f, cs[1..])
  }

  function TotalPoints(cs: seq<Criterion>): nat {
    if cs == [] then 0 else Points(cs[0]) + TotalPoints(cs[1..])
  }

  /** The live score: the sum of the weights of the filled criteria. */
  function LiveScore(f: SearchFilters): nat {
    EarnedPoints(f, AllCriteria)
  }

  lemma {:induction false} EarnedAtMostTotal(f: SearchFilters, cs: seq<Criterion>)
    ensures EarnedPoints(f, cs) <= TotalPoints(cs)
  {
    if cs != [] {
      EarnedAtMostTotal(f, cs[1..]);
    }
  }

  /** All seven weights together are exactly the maximum of 100. */
  lemma WeightsSumToMax()
    ensures TotalPoints(AllCriteria) == MaxScore
  {
    var cs := AllCriteria;
    assert cs[1..][1..][1..][1..][1..][1..][1..] == [];
  }

  /** The score never exceeds 100, so the page's clamp never changes it. */
  lemma LiveScoreAtMostMax(f: SearchFilters)
    ensures LiveScore(f) <= MaxScore
  {
    EarnedAtMostTotal(f, AllCriteria);
    WeightsSumToMax();
  }

  /** The live score term by term, one weight per criterion. */
  lemma LiveScoreTerms(f: SearchFilters)
    ensures LiveScore(f) ==
      Share(f, Zip) + Share(f, Modalities) + Share(f, FocusAreas) + Share(f, Philosophies)
      + Share(f, BusinessModel) + Share(f, Insurance) + Share(f, Budget)
  {
    var tail6 := [Budget];
    var tail5 := [Insurance] + tail6;
    var tail4 := [BusinessModel] + tail5;
    var tail3 := [Philosophies] + tail4;
    var tail2 := [FocusAreas] + tail3;
    var tail1 := [Modalities] + tail2;
    assert AllCriteria == [Zip] + tail1;
    EarnedCons(f, Zip, tail1);
    EarnedCons(f, Modalities, tail2);
    EarnedCons(f, FocusAreas, tail3);
    EarnedCons(f, Philosophies, tail4);
    EarnedCons(f, BusinessModel, tail5);
    EarnedCons(f, Insurance, tail6);
    EarnedCons(f, Budget, []);
    assert [Budget] + [] == tail6;
  }

  /** The points of a list are the first criterion's share plus those of the rest. */
  lemma EarnedCons(f: SearchFilters, c: Criterion, rest: seq<Criterion>)
    ensures EarnedPoints(f, [c] + rest) == Share(f, c) + EarnedPoints(f, rest)
  {
    assert ([c] + rest)[1..] == rest;
  }

  /** `calculateLiveMatchScore`: adds each filled criterion's points to a running total and clamps at 100. */
  method CalculateLiveMatchScore(filters: SearchFilters) returns (score: int)
    ensures score == LiveScore(filters)
    ensures 0 <= score <= MaxScore
  {
    score := 0;
    if filters.zipCode != "" && Trim(filters.zipCode) != "" {
      score := score + 10;
    }
    assert score == Share(filters, Zip);
    if |filters.preferredModalities| > 0 {
      score := score + 20;
    }
    assert score == Share(filters, Zip) + Share(filters, Modalities);
    if |filters.focusAreas| > 0 {
      score := score + 20;
    }
    assert score == Share(filters, Zip) + Share(filters, Modalities) + Share(filters, FocusAreas);
    if |filters.preferredPhilosophies| > 0 {
      score := score + 15;
    }
    assert score == Share(filters, Zip) + Share(filters, Modalities) + Share(filters, FocusAreas)
                    + Share(filters, Philosophies);
    if filters.preferredBusinessModel != "" && filters.preferredBusinessModel != "any" {
      score := score + 15;
    }
    assert score == Share(filters, Zip) + Share(filters, Modalities) + Share(filters, FocusAreas)
                    + Share(filters, Philosophies) + Share(filters, BusinessModel);
    if filters.insuranceType != "" && filters.insuranceType != "any" {
      score := score + 10;
    }
    assert score == Share(filters, Zip) + Share(filters, Modalities) + Share(filters, FocusAreas)
                    + Share(filters, Philosophies) + Share(filters, BusinessModel) + Share(filters, Insurance);
    if filters.budgetRange != "" && filters.budgetRange != "any" {
      score := score + 10;
    }
    LiveScoreTerms(filters);
    assert score == LiveScore(filters);
    LiveScoreAtMostMax(filters);
    score := if score < MaxScore then score else MaxScore;
  }

  lemma {:induction false} EarnedDependsOnlyOnFilled(f: SearchFilters, g: SearchFilters, cs: seq<Criterion>)
    requires forall i :: 0 <= i < |cs| ==> (Filled(f, cs[i]) <==> Filled(g, cs[i]))
    ensures EarnedPoints(f, cs) == EarnedPoints(g, cs)
  {
    if cs != [] {
      assert Filled(f, cs[0]) <==> Filled(g, cs[0]);
      EarnedDependsOnlyOnFilled(f, g, cs[1..]);
    }
  }

  /** Two filters that fill in the same criteria have the same score: the
      score sees only whether each field is given, not what it holds. */
  lemma SameFilledSameScore(f: SearchFilters, g: SearchFilters)
    requires forall c :: Filled(f, c) <==> Filled(g, c)
    ensures LiveScore(f) == LiveScore(g)
  {
    EarnedDependsOnlyOnFilled(f, g, AllCriteria);
  }

  /** A second modality earns nothing more than the first. */
  lemma AnotherModalityKeepsScore(f: SearchFilters, m: string)
    requires |f.preferredModalities| > 0
    ensures LiveScore(f.(preferredModalities := f.preferredModalities + [m])) == LiveScore(f)
  {
    var g := f.(preferredModalities := f.preferredModalities + [m]);
    assert forall c :: Filled(f, c) <==> Filled(g, c);
    SameFilledSameScore(f, g);
  }

  /** Over criteria listed once each, filling in `c` adds its weight when it is listed. */
  lemma {:induction false} EarnedOneMore(f: SearchFilters, g: SearchFilters, c: Criterion, cs: seq<Criterion>)
    requires Share(g, c) == Share(f, c) + Points(c)
    requires forall d :: d != c ==> Share(f, d) == Share(g, d)
    requires forall i, j :: 0 <= i < j < |cs| ==> cs[i] != cs[j]
    ensures EarnedPoints(g, cs) == EarnedPoints(f, cs) + (if c in cs then Points(c) else 0)
  {
    if cs != [] {
      var rest := cs[1..];
      assert forall i, j :: 0 <= i < j < |rest| ==> rest[i] != rest[j] by {
        forall i, j | 0 <= i < j < |rest| ensures rest[i] != rest[j] {
          assert rest[i] == cs[i + 1] && rest[j] == cs[j + 1];
        }
      }
      EarnedOneMore(f, g, c, rest);
      if cs[0] == c {
        assert c !in rest by {
          forall j | 0 <= j < |rest| ensures rest[j] != c {
            assert rest[j] == cs[j + 1];
          }
        }
      } else {
        assert c in cs <==> c in rest;
      }
    }
  }

  /** Every criterion is listed in `AllCriteria`, and only once. */
  lemma AllCriteriaListsEachOnce(c: Criterion)
    ensures c in AllCriteria
    ensures forall i, j :: 0 <= i < j < |AllCriteria| ==> AllCriteria[i] != AllCriteria[j]
  {
    var cs := AllCriteria;
    match c
    case Zip => assert cs[0] == c;
    case Modalities => assert cs[1] == c;
    case FocusAreas => assert cs[2] == c;
    case Philosophies => assert cs[3] == c;
    case BusinessModel => assert cs[4] == c;
    case Insurance => assert cs[5] == c;
    case Budget => assert cs[6] == c;
  }

  /** Filling in one more criterion raises the score by exactly that criterion's weight. */
  lemma FillingAddsItsWeight(f: SearchFilters, g: SearchFilters, c: Criterion)
    requires !Filled(f, c) && Filled(g, c)
    requires forall d :: d != c ==> (Filled(f, d) <==> Filled(g, d))
    ensures LiveScore(g) == LiveScore(f) + Points(c)
  {
    AllCriteriaListsEachOnce(c);
    forall d | d != c
      ensures Share(f, d) == Share(g, d)
    {
    }
    EarnedOneMore(f, g, c, AllCriteria);
  }

  /** Empty filters score 0, and a ZIP of only whitespace earns nothing. */
  lemma EmptyFiltersScoreZero(f: SearchFilters)
    requires Blank(f.zipCode)
    requires f.preferredModalities == [] && f.focusAreas == [] && f.preferredPhilosophies == []
    requires !Chosen(f.preferredBusinessModel) && !Chosen(f.insuranceType) && !Chosen(f.budgetRange)
    ensures LiveScore(f) == 0
  {
    TrimEmptyIffBlank(f.zipCode);
    LiveScoreTerms(f);
  }

  /** Every filter filled in (a ZIP with a visible character) reaches the maximum. */
  lemma FullFiltersScoreMax(f: SearchFilters)
    requires !Blank(f.zipCode)
    requires f.preferredModalities != [] && f.focusAreas != [] && f.preferredPhilosophies != []
    requires Chosen(f.preferredBusinessModel) && Chosen(f.insuranceType) && Chosen(f.budgetRange)
    ensures LiveScore(f) == MaxScore
  {
    TrimEmptyIffBlank(f.zipCode);
    LiveScoreTerms(f);
  }

  /** Choosing "any" for business model, insurance or budget scores like leaving it empty. */
  lemma AnyCountsAsUnspecified(f: SearchFilters)
    ensures LiveScore(f.(preferredBusinessModel := "any")) == LiveScore(f.(preferredBusinessModel := ""))
    ensures LiveScore(f.(insuranceType := "any")) == LiveScore(f.(insuranceType := ""))
    ensures LiveScore(f.(budgetRange := "any")) == LiveScore(f.(budgetRange := ""))
  {
    SameFilledSameScore(f.(preferredBusinessModel := "any"), f.(preferredBusinessModel := ""));
    SameFilledSameScore(f.(insuranceType := "any"), f.(insuranceType := ""));
    SameFilledSameScore(f.(budgetRange := "any"), f.(budgetRange := ""));
  }

  /** `handleModalityChange` */
  function HandleModalityChange(prev: SearchFilters, modality: string, checked: bool): (next: SearchFilters)
    ensures checked ==> next.preferredModalities == prev.preferredModalities + [modality]
    ensures !checked ==> modality !in next.preferredModalities
    ensures !checked ==> forall m :: m != modality ==> (m in next.preferredModalities <==> m in prev.preferredModalities)
    ensures !checked ==> next.preferredModalities == Lists.RemoveAll(prev.preferredModalities, modality)
    ensures next.(preferredModalities := prev.preferredModalities) == prev
  {
    prev.(preferredModalities := Lists.SetChecked(prev.preferredModalities, modality, checked))
  }

  /** `handleFocusAreaChange` */
  function HandleFocusAreaChange(prev: SearchFilters, area: string, checked: bool): (next: SearchFilters)
    ensures checked ==> next.focusAreas == prev.focusAreas + [area]
    ensures !checked ==> area !in next.focusAreas
    ensures !checked ==> forall a :: a != area ==> (a in next.focusAreas <==> a in prev.focusAreas)
    ensures !checked ==> next.focusAreas == Lists.RemoveAll(prev.focusAreas, area)
    ensures next.(focusAreas := prev.focusAreas) == prev
  {
    prev.(focusAreas := Lists.SetChecked(prev.focusAreas, area, checked))
  }

  /** `handlePhilosophyChange` */
  function HandlePhilosophyChange(prev: SearchFilters, philosophy: string, checked: bool): (next: SearchFilters)
    ensures checked ==> next.preferredPhilosophies == prev.preferredPhilosophies + [philosophy]
    ensures !checked ==> philosophy !in next.preferredPhilosophies
    ensures !checked ==> forall p :: p != philosophy ==> (p in next.preferredPhilosophies <==> p in prev.preferredPhilosophies)
    ensures !checked ==> next.preferredPhilosophies == Lists.RemoveAll(prev.preferredPhilosophies, philosophy)
    ensures next.(preferredPhilosophies := prev.preferredPhilosophies) == prev
  {
    prev.(preferredPhilosophies := Lists.SetChecked(prev.preferredPhilosophies, philosophy, checked))
  }

  /** Unchecking a modality just checked restores the filters, and with them the score. */
  lemma CheckUncheckModalityRestores(f: SearchFilters, modality: string)
    requires modality !in f.preferredModalities
    ensures HandleModalityChange(HandleModalityChange(f, modality, true), modality, false) == f
  {
    Lists.CheckThenUncheck(f.preferredModalities, modality);
  }

  datatype BadgeColor = Green | Yellow | Red

  /** The traffic-light rule shared by the three badges. */
  function BadgeColorFor(score: real): BadgeColor {
    if score >= 70.0 then Green else if score >= 40.0 then Yellow else Red
  }

  function ColorRank(c: BadgeColor): nat {
    match c case Red => 0 case Yellow => 1 case Green => 2
  }

  /** The colour bands, and a higher score never gets a worse colour. */
  lemma BadgeColorBands(s: real, t: real)
    ensures BadgeColorFor(s) == Green <==> s >= 70.0
    ensures BadgeColorFor(s) == Yellow <==> 40.0 <= s < 70.0
    ensures BadgeColorFor(s) == Red <==> s < 40.0
    ensures s <= t ==> ColorRank(BadgeColorFor(s)) <= ColorRank(BadgeColorFor(t))
  {
  }

  /** The "Estimated match quality" badge appears only above 20. */
  predicate ShowsEstimateBadge(score: int) { score > 20 }

  /** The "Your filters" badge in the results header appears above 0. */
  predicate ShowsFiltersBadge(score: int) { score > 0 }

  /** A result's own badge appears when it has a positive `matchScore`. */
  predicate ShowsResultBadge(matchScore: Option<real>) { matchScore.Some? && matchScore.value > 0.0 }

  /** The badge beside the ZIP search, when shown, and its colour. */
  function EstimateBadge(score: int): Option<BadgeColor> {
    if ShowsEstimateBadge(score) then Some(BadgeColorFor(score as real)) else None
  }

  /** The "Your filters" badge: it sits in the results header, which is drawn
      only once loading is over and there is at least one result. */
  function FiltersBadge(score: int, loading: bool, resultCount: nat): Option<BadgeColor> {
    if !loading && resultCount > 0 && ShowsFiltersBadge(score) then Some(BadgeColorFor(score as real)) else None
  }

  /** A result card's own badge, coloured by its unrounded `matchScore`. */
  function ResultBadge(matchScore: Option<real>): Option<BadgeColor> {
    if ShowsResultBadge(matchScore) then Some(BadgeColorFor(matchScore.value)) else None
  }

  /** `Math.round`: the nearest integer, halves rounded up. */
  function Round(x: real): (r: int)
    ensures x - 0.5 < r as real <= x + 0.5
  {
    (x + 0.5).Floor
  }

  /** The badge's text shows `Math.round(matchScore)`, but its colour follows the
      unrounded score: a score of 39.6 reads "40% match" on a red badge, while
      a score of exactly 40 is yellow. */
  lemma ResultBadgeUsesUnroundedScore()
    ensures Round(39.6) == 40 && ResultBadge(Some(39.6)) == Some(Red)
    ensures ResultBadge(Some(40.0)) == Some(Yellow)
  {
    assert (39.6 + 0.5).Floor == 40;
  }

  /** All three badges use one colour rule. Once results are listed, every score
      that shows the estimate also shows the filters badge in the same colour; a
      result scored like the filters wears the same badge; and the filters badge
      appears for scores from 1 to 20, which show no estimate. */
  lemma BadgesAgree(score: int, loading: bool, resultCount: nat)
    ensures !loading && resultCount > 0 && EstimateBadge(score).Some? ==>
      FiltersBadge(score, loading, resultCount) == EstimateBadge(score)
    ensures !loading && resultCount > 0 ==> ResultBadge(Some(score as real)) == FiltersBadge(score, loading, resultCount)
    ensures 0 < score <= 20 && !loading && resultCount > 0 ==>
      FiltersBadge(score, loading, resultCount).Some? && EstimateBadge(score).None?
    ensures ResultBadge(None).None? && (loading ==> FiltersBadge(score, loading, resultCount).None?)
  {
  }

  /** A ZIP code alone, or a ZIP code with insurance or budget, is not enough for the estimate badge. */
  lemma ZipAloneShowsNoEstimate(f: SearchFilters)
    requires f.preferredModalities == [] && f.focusAreas == [] && f.preferredPhilosophies == []
    requires !Chosen(f.preferredBusinessModel)
    requires !(Chosen(f.insuranceType) && Chosen(f.budgetRange))
    ensures !ShowsEstimateBadge(LiveScore(f))
  {
    LiveScoreTerms(f);
  }

  /** Any one of the three list filters together with a ZIP code (and nothing
      else) shows the estimate, in red. */
  lemma ZipAndOneListShowsRed(f: SearchFilters)
    requires !Blank(f.zipCode)
    requires (if f.preferredModalities != [] then 1 else 0) + (if f.focusAreas != [] then 1 else 0)
             + (if f.preferredPhilosophies != [] then 1 else 0) == 1
    requires !Chosen(f.preferredBusinessModel) && !Chosen(f.insuranceType) && !Chosen(f.budgetRange)
    ensures ShowsEstimateBadge(LiveScore(f)) && BadgeColorFor(LiveScore(f) as real) == Red
  {
    TrimEmptyIffBlank(f.zipCode);
    LiveScoreTerms(f);
  }
}
