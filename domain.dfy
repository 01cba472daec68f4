/**
 * The wardrobe's shared vocabulary: the closed clothing categories and
 * seasons of the database enums, the clothing and outfit records the pages
 * display, the occasion labels, and the image rules that both the upload form
 * and the upload endpoint apply.
 */
module Domain {
  import opened Wrappers

  /** The `clothing_category` enum. */
  datatype Category = Top | Bottom | Dress | Shoes | Hat | Accessory | Outerwear | Underwear | Socks | Bag

  /** The `season_type` enum. */
  datatype Season = Spring | Summer | Autumn | Winter | AllSeason

  /** The spelling of a category on the wire and in the database. */
  function CategoryName(c: Category): string
  {
    match c
    case Top => "TOP"
    case Bottom => "BOTTOM"
    case Dress => "DRESS"
    case Shoes => "SHOES"
    case Hat => "HAT"
    case Accessory => "ACCESSORY"
    case Outerwear => "OUTERWEAR"
    case Underwear => "UNDERWEAR"
    case Socks => "SOCKS"
    case Bag => "BAG"
  }

  /** The category enum check: a string is accepted iff it names a category. */
  function ParseCategory(s: string): (r: Option<Category>)
    ensures r.Some? ==> CategoryName(r.value) == s
    ensures forall c :: CategoryName(c) == s ==> r == Some(c)
  {
    match s
    case "TOP" => Some(Top)
    case "BOTTOM" => Some(Bottom)
    case "DRESS" => Some(Dress)
    case "SHOES" => Some(Shoes)
    case "HAT" => Some(Hat)
    case "ACCESSORY" => Some(Accessory)
    case "OUTERWEAR" => Some(Outerwear)
    case "UNDERWEAR" => Some(Underwear)
    case "SOCKS" => Some(Socks)
    case "BAG" => Some(Bag)
    case _ => None
  }

  function SeasonName(s: Season): string
  {
    match s
    case Spring => "SPRING"
    case Summer => "SUMMER"
    case Autumn => "AUTUMN"
    case Winter => "WINTER"
    case AllSeason => "ALL_SEASON"
  }

  /** The season enum check: a string is accepted iff it names a season. */
  function ParseSeason(s: string): (r: Option<Season>)
    ensures r.Some? ==> SeasonName(r.value) == s
    ensures forall t :: SeasonName(t) == s ==> r == Some(t)
  {
    match s
    case "SPRING" => Some(Spring)
    case "SUMMER" => Some(Summer)
    case "AUTUMN" => Some(Autumn)
    case "WINTER" => Some(Winter)
    case "ALL_SEASON" => Some(AllSeason)
    case _ => None
  }

  /** A stored clothing item as the list endpoint returns it (timestamps and owner left out). */
  datatype Clothing = Clothing(
    id: string,
    name: string,
    category: Category,
    color: string,
    brand: Option<string>,
    size: Option<string>,
    season: Option<Season>,
    tags: Option<string>,
    imageUrl: string)

  /** `item.category === name`. */
  predicate HasCategoryName(item: Clothing, name: string)
  {
    CategoryName(item.category) == name
  }

  /** `item.season === name`: an item without a season never matches. */
  predicate HasSeasonName(item: Clothing, name: string)
  {
    item.season.Some? && SeasonName(item.season.value) == name
  }

  /** A stored outfit as the outfit list shows it. */
  datatype Outfit = Outfit(
    id: string,
    name: string,
    description: Option<string>,
    occasion: Option<string>,
    season: Option<Season>)

  /** JavaScript truthiness of an optional string: present and non-empty. */
  predicate Truthy(s: Option<string>)
  {
    s.Some? && s.value != ""
  }

  /** The `occasionLabels` table shared by the calendar and the outfit list. */
  const OccasionLabels: map<string, string> :=
    map["casual" := "休闲", "formal" := "正式", "business" := "商务", "sport" := "运动"]

  /** `occasionLabels[o] || o`: the label of a known occasion, the raw text otherwise. */
  function OccasionLabel(o: string): (r: string)
    ensures o in OccasionLabels ==> r == OccasionLabels[o] && r != o
    ensures o !in OccasionLabels ==> r == o
  {
    if o in OccasionLabels && OccasionLabels[o] != "" then OccasionLabels[o] else o
  }

  /** The occasion tag on an outfit card or a calendar cell: shown only for a truthy occasion. */
  function OccasionTag(occasion: Option<string>): (r: Option<string>)
    ensures r.None? <==> !Truthy(occasion)
    ensures r.Some? ==> r.value == OccasionLabel(occasion.value)
  {
    if Truthy(occasion) then Some(OccasionLabel(occasion.value)) else None
  }

  /** An uploaded file as the browser describes it. */
  datatype ImageFile = ImageFile(name: string, mimeType: string, size: nat)

  const AllowedImageTypes: seq<string> := ["image/jpeg", "image/png", "image/webp"]

  /** 5 MiB, in bytes. */
  const MaxImageSize: nat := 5 * 1024 * 1024

  datatype ImageError = UnsupportedType | TooLarge
  {
    function Message(): string
    {
      match this
      case UnsupportedType => "只支持 JPEG、PNG、WebP 格式的图片"
      case TooLarge => "图片大小不能超过 5MB"
    }
  }

  /** The image rule: the type is checked first, then the size; exactly 5 MiB is allowed. */
  function CheckImage(f: ImageFile): (r: Option<ImageError>)
    ensures r.None? <==> f.mimeType in AllowedImageTypes && f.size <= 5242880
    ensures r == Some(UnsupportedType) <==> f.mimeType !in AllowedImageTypes
    ensures r == Some(TooLarge) <==> f.mimeType in AllowedImageTypes && f.size > 5242880
  {
    if f.mimeType !in AllowedImageTypes then Some(UnsupportedType)
    else if f.size > MaxImageSize then Some(TooLarge)
    else None
  }

  /**
   * How an awaited `fetch` whose only answer the page reads is `response.ok`
   * ends: an ok answer, a non-ok answer (on which the page throws
   * `new Error(fallback)`), or a rejection carrying an `Error`'s message, or
   * `None` for any other thrown value.
   */
  datatype RequestOutcome = OkResponse | ErrorResponse | Threw(message: Option<string>)

  /**
   * The message of the page's `catch`,
   * `error instanceof Error ? error.message : fallback`: the fallback for a
   * non-ok answer and for a thrown non-`Error`, the error's own message otherwise.
   */
  function CaughtMessage(outcome: RequestOutcome, fallback: string): (r: string)
    requires !outcome.OkResponse?
    ensures outcome.ErrorResponse? ==> r == fallback
    ensures outcome.Threw? && outcome.message.Some? ==> r == outcome.message.value
    ensures outcome.Threw? && outcome.message.None? ==> r == fallback
  {
    match outcome
    case ErrorResponse => fallback
    case Threw(m) => m.GetOr(fallback)
  }
}
