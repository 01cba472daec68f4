/**
 * `GET /api/clothings` (the category and season query filters) and
 * `POST /api/clothings` (the `clothingSchema` check, then the image checks).
 */
module ClothingsApi {
  import opened Wrappers
  import opened Domain
  import Seqs

  function ByCategory(clothings: seq<Clothing>, name: string): seq<Clothing>
  {
    Seqs.Filter(clothings, c => HasCategoryName(c, name))
  }

  function BySeason(clothings: seq<Clothing>, name: string): seq<Clothing>
  {
    Seqs.Filter(clothings, c => HasSeasonName(c, name))
  }

  /** An item passes the query when it matches every parameter given (a missing or empty one is ignored). */
  predicate MatchesQuery(c: Clothing, category: Option<string>, season: Option<string>)
  {
    (Truthy(category) ==> HasCategoryName(c, category.value))
    && (Truthy(season) ==> HasSeasonName(c, season.value))
  }

  /**
   * The handler's filtering: the category filter, then the season filter.
   * The result is the items of the stored list that match the query, in
   * stored order.
   */
  function FilterByQuery(clothings: seq<Clothing>, category: Option<string>, season: Option<string>): (r: seq<Clothing>)
    ensures Seqs.IsSubsequence(r, clothings)
    ensures forall i :: 0 <= i < |r| ==> MatchesQuery(r[i], category, season)
    ensures forall i :: 0 <= i < |clothings| && MatchesQuery(clothings[i], category, season) ==> clothings[i] in r
    ensures r == Seqs.Filter(clothings, c => MatchesQuery(c, category, season))
  {
    var afterCategory := if Truthy(category) then ByCategory(clothings, category.value) else clothings;
    var r := if Truthy(season) then BySeason(afterCategory, season.value) else afterCategory;
    FilterStepsAreSubsequences(clothings, category, season);
    FilterStepsSelect(clothings, category, season);
    FilterStepsAreOneFilter(clothings, category, season);
    r
  }

  /** The two steps together are one filter by `MatchesQuery`, so repeated items are kept as often as they occur. */
  lemma FilterStepsAreOneFilter(clothings: seq<Clothing>, category: Option<string>, season: Option<string>)
    ensures var afterCategory := if Truthy(category) then ByCategory(clothings, category.value) else clothings;
      (if Truthy(season) then BySeason(afterCategory, season.value) else afterCategory)
        == Seqs.Filter(clothings, c => MatchesQuery(c, category, season))
  {
    var afterCategory := if Truthy(category) then ByCategory(clothings, category.value) else clothings;
    var p1 := (c: Clothing) => Truthy(category) ==> HasCategoryName(c, category.value);
    var p2 := (c: Clothing) => Truthy(season) ==> HasSeasonName(c, season.value);
    if Truthy(category) {
      Seqs.FilterWhen(clothings, true, (c: Clothing) => HasCategoryName(c, category.value), p1);
    } else {
      Seqs.FilterWhen(clothings, false, (c: Clothing) => true, p1);
    }
    if Truthy(season) {
      Seqs.FilterWhen(afterCategory, true, (c: Clothing) => HasSeasonName(c, season.value), p2);
    } else {
      Seqs.FilterWhen(afterCategory, false, (c: Clothing) => true, p2);
    }
    Seqs.FilterThenFilter(clothings, p1, p2, c => MatchesQuery(c, category, season));
  }

  lemma FilterStepsSelect(clothings: seq<Clothing>, category: Option<string>, season: Option<string>)
    ensures var afterCategory := if Truthy(category) then ByCategory(clothings, category.value) else clothings;
      var r := if Truthy(season) then BySeason(afterCategory, season.value) else afterCategory;
      && (forall i :: 0 <= i < |r| ==> MatchesQuery(r[i], category, season))
      && (forall i :: 0 <= i < |clothings| && MatchesQuery(clothings[i], category, season) ==> clothings[i] in r)
  {
    var afterCategory := if Truthy(category) then ByCategory(clothings, category.value) else clothings;
    var r := if Truthy(season) then BySeason(afterCategory, season.value) else afterCategory;
    if Truthy(category) {
      Seqs.FilterMembership(clothings, c => HasCategoryName(c, category.value));
    }
    if Truthy(season) {
      Seqs.FilterMembership(afterCategory, c => HasSeasonName(c, season.value));
    }
    forall i | 0 <= i < |r|
      ensures MatchesQuery(r[i], category, season)
    {
      assert r[i] in afterCategory;
      var j :| 0 <= j < |afterCategory| && afterCategory[j] == r[i];
    }
    forall i | 0 <= i < |clothings| && MatchesQuery(clothings[i], category, season)
      ensures clothings[i] in r
    {
      assert clothings[i] in afterCategory;
      var j :| 0 <= j < |afterCategory| && afterCategory[j] == clothings[i];
    }
  }

  lemma FilterStepsAreSubsequences(clothings: seq<Clothing>, category: Option<string>, season: Option<string>)
    ensures var afterCategory := if Truthy(category) then ByCategory(clothings, category.value) else clothings;
      Seqs.IsSubsequence(if Truthy(season) then BySeason(afterCategory, season.value) else afterCategory, clothings)
  {
    var afterCategory := if Truthy(category) then ByCategory(clothings, category.value) else clothings;
    var r := if Truthy(season) then BySeason(afterCategory, season.value) else afterCategory;
    if Truthy(category) {
      Seqs.FilterIsSubsequence(clothings, c => HasCategoryName(c, category.value));
    }
    if Truthy(season) {
      Seqs.FilterIsSubsequence(afterCategory, c => HasSeasonName(c, season.value));
    }
    Seqs.SubsequenceReflexive(clothings);
    Seqs.SubsequenceReflexive(afterCategory);
    Seqs.SubsequenceTransitive(r, afterCategory, clothings);
  }

  /** With neither parameter the whole list comes back. */
  lemma NoQueryKeepsAll(clothings: seq<Clothing>)
    ensures FilterByQuery(clothings, None, None) == clothings
    ensures FilterByQuery(clothings, Some(""), Some("")) == clothings
  {
  }

  /** Applying the season filter first gives the same list. */
  lemma {:induction false} FilterOrderIrrelevant(clothings: seq<Clothing>, category: string, season: string)
    requires category != "" && season != ""
    ensures FilterByQuery(clothings, Some(category), Some(season)) == ByCategory(BySeason(clothings, season), category)
  {
    Seqs.FilterCommutes(clothings, c => HasCategoryName(c, category), c => HasSeasonName(c, season));
  }

  /** A category parameter that names no category selects nothing. */
  lemma UnknownCategorySelectsNothing(clothings: seq<Clothing>, category: string, season: Option<string>)
    requires category != "" && ParseCategory(category).None?
    ensures FilterByQuery(clothings, Some(category), season) == []
  {
  }

  /** The `data` part of the upload form, each optional field present or not. */
  datatype ClothingBody = ClothingBody(
    name: string,
    category: string,
    color: string,
    brand: Option<string>,
    size: Option<string>,
    season: Option<string>,
    tags: Option<string>)

  /** What `clothingSchema.parse` returns. */
  datatype NewClothing = NewClothing(
    name: string,
    category: Category,
    color: string,
    brand: Option<string>,
    size: Option<string>,
    season: Option<Season>,
    tags: Option<string>)

  /** The first issue zod reports, checking the schema's keys in order. */
  datatype ClothingSchemaError = EmptyName | InvalidCategory | EmptyColor | InvalidSeason
  {
    /** The message sent with status 400; `None` where zod writes its own default text. */
    function CustomMessage(): Option<string>
    {
      match this
      case EmptyName => Some("衣物名称不能为空")
      case EmptyColor => Some("颜色不能为空")
      case _ => None
    }
  }

  predicate SchemaValid(b: ClothingBody)
  {
    b.name != "" && ParseCategory(b.category).Some? && b.color != ""
    && (b.season.None? || ParseSeason(b.season.value).Some?)
  }

  /**
   * `clothingSchema.parse`: accepted iff name and color are non-empty, the
   * category is one of the ten and the season is absent or one of the five;
   * otherwise the error of the first failing key (name, category, color, season).
   */
  function ParseClothingBody(b: ClothingBody): (r: Result<NewClothing, ClothingSchemaError>)
    ensures r.Success? <==> SchemaValid(b)
    ensures b.name == "" ==> r == Failure(EmptyName)
    ensures b.name != "" && ParseCategory(b.category).None? ==> r == Failure(InvalidCategory)
    ensures b.name != "" && ParseCategory(b.category).Some? && b.color == "" ==> r == Failure(EmptyColor)
    ensures (b.name != "" && ParseCategory(b.category).Some? && b.color != ""
             && b.season.Some? && ParseSeason(b.season.value).None?) ==> r == Failure(InvalidSeason)
    ensures r.Success? ==>
      && r.value.name == b.name && CategoryName(r.value.category) == b.category && r.value.color == b.color
      && r.value.brand == b.brand && r.value.size == b.size && r.value.tags == b.tags
      && (r.value.season.None? <==> b.season.None?)
      && (r.value.season.Some? ==> SeasonName(r.value.season.value) == b.season.value)
  {
    if |b.name| < 1 then Failure(EmptyName)
    else match ParseCategory(b.category)
      case None => Failure(InvalidCategory)
      case Some(category) =>
        if |b.color| < 1 then Failure(EmptyColor)
        else if b.season.Some? && ParseSeason(b.season.value).None? then Failure(InvalidSeason)
        else
          var season := if b.season.Some? then ParseSeason(b.season.value) else None;
          Success(NewClothing(b.name, category, b.color, b.brand, b.size, season, b.tags))
  }

  datatype UploadError = Schema(schemaError: ClothingSchemaError) | MissingImage | BadImage(imageError: ImageError)
  {
    function Message(): Option<string>
    {
      match this
      case Schema(e) => e.CustomMessage()
      case MissingImage => Some("请上传图片")
      case BadImage(e) => Some(e.Message())
    }
  }

  /**
   * The checks of `POST /api/clothings` before the file is written: the
   * schema, then the image's presence, type and size. An accepted upload
   * yields the validated record and the image.
   */
  function CheckUpload(b: ClothingBody, image: Option<ImageFile>): (r: Result<(NewClothing, ImageFile), UploadError>)
    ensures r.Success? <==> SchemaValid(b) && image.Some? && CheckImage(image.value).None?
    ensures !SchemaValid(b) ==> r.Failure? && r.error.Schema? && Failure(r.error.schemaError) == ParseClothingBody(b)
    ensures SchemaValid(b) && image.None? ==> r == Failure(MissingImage)
    ensures SchemaValid(b) && image.Some? && CheckImage(image.value).Some? ==> r == Failure(BadImage(CheckImage(image.value).value))
    ensures r.Success? ==> r.value.1 == image.value && Success(r.value.0) == ParseClothingBody(b)
  {
    match ParseClothingBody(b)
    case Failure(e) => Failure(Schema(e))
    case Success(data) =>
      if image.None? then Failure(MissingImage)
      else match CheckImage(image.value)
        case Some(e) => Failure(BadImage(e))
        case None => Success((data, image.value))
  }
}
