/**
 * The outfit suggestion page: its filters, the generate request, the
 * badges on a suggestion card, and the payload that saves a suggestion as
 * an outfit. How suggestions are produced is not part of this model.
 */
module Suggest {
  import opened Wrappers
  import opened Domain
  import OutfitsApi

  /** A suggestion as the page receives it; every text field is a plain string. */
  datatype Suggestion = Suggestion(id: string, name: string, items: seq<Clothing>, occasion: string, season: string, reason: string)

  /** The JSON body `handleSaveOutfit` posts. */
  datatype OutfitPayload = OutfitPayload(name: string, description: string, occasion: string, season: string, clothingIds: seq<string>)

  /** `items.map(item => item.id)`. */
  function ItemIds(items: seq<Clothing>): (r: seq<string>)
    ensures |r| == |items|
    ensures forall i :: 0 <= i < |items| ==> r[i] == items[i].id
  {
    if items == [] then [] else [items[0].id] + ItemIds(items[1..])
  }

  /** The save payload: name, occasion and season copied, the reason as description, the item ids in order. */
  function SavePayload(s: Suggestion): (r: OutfitPayload)
    ensures r.name == s.name && r.description == s.reason && r.occasion == s.occasion && r.season == s.season
    ensures |r.clothingIds| == |s.items| && forall i :: 0 <= i < |s.items| ==> r.clothingIds[i] == s.items[i].id
  {
    OutfitPayload(s.name, s.reason, s.occasion, s.season, ItemIds(s.items))
  }

  /** The fields of the payload the outfit route reads; `clothingIds` is not among them. */
  function AsOutfitBody(p: OutfitPayload): (r: OutfitsApi.OutfitBody)
    ensures r.name == p.name && r.description == Some(p.description)
    ensures r.occasion == Some(p.occasion) && r.season == Some(p.season)
  {
    OutfitsApi.OutfitBody(p.name, Some(p.description), Some(p.occasion), Some(p.season))
  }

  /**
   * Saving a suggestion passes the outfit route's schema iff it has a name
   * and its season is one of the five: a suggestion with an empty season
   * is refused.
   */
  lemma SavePayloadSchema(s: Suggestion)
    ensures OutfitsApi.ParseOutfitBody(AsOutfitBody(SavePayload(s))).Success?
      <==> s.name != "" && ParseSeason(s.season).Some?
    ensures s.season == "" ==> OutfitsApi.ParseOutfitBody(AsOutfitBody(SavePayload(s))).Failure?
  {
  }

  /**
   * The alert after a save: the success text after an ok answer, otherwise
   * the caught message, where a non-ok answer throws `new Error('保存搭配失败')`.
   */
  function SaveAlert(outcome: RequestOutcome): (r: string)
    ensures outcome.OkResponse? ==> r == "搭配方案已保存成功！"
    ensures outcome.ErrorResponse? ==> r == "保存搭配失败"
    ensures outcome.Threw? ==> r == outcome.message.GetOr("保存搭配失败")
  {
    if outcome.OkResponse? then "搭配方案已保存成功！"
    else CaughtMessage(outcome, "保存搭配失败")
  }

  /** The occasion badge: none for an empty occasion; casual, formal and business by name; anything else reads `运动`. */
  function OccasionBadge(occasion: string): (r: Option<string>)
    ensures r.None? <==> occasion == ""
    ensures occasion != "" && occasion in {"casual", "formal", "business"} ==> r == Some(OccasionLabels[occasion])
    ensures occasion != "" && occasion !in {"casual", "formal", "business"} ==> r == Some("运动")
  {
    if occasion == "" then None
    else if occasion == "casual" then Some("休闲")
    else if occasion == "formal" then Some("正式")
    else if occasion == "business" then Some("商务")
    else Some("运动")
  }

  /**
   * This badge and the outfit list's tag agree exactly on the four known
   * occasions (and on the raw text `运动`); any other occasion the list shows
   * as written, while this badge shows `运动`.
   */
  lemma OccasionBadgeVersusTag(occasion: string)
    requires occasion != ""
    ensures OccasionBadge(occasion) == OccasionTag(Some(occasion)) <==> occasion in OccasionLabels || occasion == "运动"
  {
  }

  /** The season badge is shown for a non-empty season other than `ALL_SEASON`. */
  predicate SeasonBadgeShown(season: string)
  {
    season != "" && season != "ALL_SEASON"
  }

  /** Among the five seasons, only all-season has no badge. */
  lemma SeasonBadgeForSeasons(s: Season)
    ensures SeasonBadgeShown(SeasonName(s)) <==> s != AllSeason
  {
  }

  /** The three filter inputs, all sent as the generate request's body. */
  datatype Filters = Filters(occasion: string, season: string, colorPreference: string)

  datatype FilterField = OccasionFilter | SeasonFilter | ColorFilter

  function FilterValue(f: Filters, field: FilterField): string
  {
    match field
    case OccasionFilter => f.occasion
    case SeasonFilter => f.season
    case ColorFilter => f.colorPreference
  }

  /** `{ ...prev, [field]: value }`: that one filter changes, the others do not. */
  function WithFilter(f: Filters, field: FilterField, value: string): (r: Filters)
    ensures FilterValue(r, field) == value
    ensures forall other :: other != field ==> FilterValue(r, other) == FilterValue(f, other)
  {
    match field
    case OccasionFilter => f.(occasion := value)
    case SeasonFilter => f.(season := value)
    case ColorFilter => f.(colorPreference := value)
  }

  /** How the generate request ends. */
  datatype GenerateOutcome =
    | Generated(suggestions: seq<Suggestion>, totalClothings: int)
      /** A non-2xx answer, with the `error` field of its body. */
    | Refused(serverError: Option<string>)
      /** The request or the body parse threw; `None` when the thrown value is not an `Error`. */
    | Threw(message: Option<string>)

  /** The error shown after a failed generate request. */
  function GenerateFailureMessage(outcome: GenerateOutcome): (r: string)
    requires !outcome.Generated?
    ensures outcome.Refused? && Truthy(outcome.serverError) ==> r == outcome.serverError.value
    ensures outcome.Refused? && !Truthy(outcome.serverError) ==> r == "生成搭配建议失败"
    ensures outcome.Threw? && outcome.message.Some? ==> r == outcome.message.value
    ensures outcome.Threw? && outcome.message.None? ==> r == "生成搭配建议失败"
  {
    match outcome
    case Refused(e) => if Truthy(e) then e.value else "生成搭配建议失败"
    case Threw(m) => if m.Some? then m.value else "生成搭配建议失败"
  }

  /** The page's state. */
  class SuggestView {
    var suggestions: seq<Suggestion>
    var isLoading: bool
    var error: string
    var totalClothings: int
    var filters: Filters

    /** Nothing suggested, not loading, every filter empty. */
    constructor ()
      ensures suggestions == [] && !isLoading && error == "" && totalClothings == 0
      ensures filters == Filters("", "", "")
    {
      suggestions := [];
      isLoading := false;
      error := "";
      totalClothings := 0;
      filters := Filters("", "", "");
    }

    method HandleFilterChange(field: FilterField, value: string)
      modifies this
      ensures filters == WithFilter(old(filters), field, value)
      ensures suggestions == old(suggestions) && isLoading == old(isLoading) && error == old(error)
      ensures totalClothings == old(totalClothings)
    {
      filters := WithFilter(filters, field, value);
    }

    /**
     * The start of `generateSuggestions`: loading starts, the error and the
     * previous suggestions are cleared, and the filters are sent.
     */
    method StartGenerate() returns (body: Filters)
      modifies this
      ensures isLoading && error == "" && suggestions == []
      ensures body == filters && filters == old(filters) && totalClothings == old(totalClothings)
    {
      isLoading := true;
      error := "";
      suggestions := [];
      body := filters;
    }

    /** The end of `generateSuggestions`: the answer's suggestions, or its error; loading ends either way. */
    method FinishGenerate(outcome: GenerateOutcome)
      modifies this
      ensures !isLoading && filters == old(filters)
      ensures outcome.Generated? ==> suggestions == outcome.suggestions && totalClothings == outcome.totalClothings && error == old(error)
      ensures !outcome.Generated? ==> error == GenerateFailureMessage(outcome)
      ensures !outcome.Generated? ==> suggestions == old(suggestions) && totalClothings == old(totalClothings)
    {
      if outcome.Generated? {
        suggestions := outcome.suggestions;
        totalClothings := outcome.totalClothings;
      } else {
        error := GenerateFailureMessage(outcome);
      }
      isLoading := false;
    }
  }
}
