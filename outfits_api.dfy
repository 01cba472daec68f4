/**
 * `GET /api/outfits` (offset pagination over the user's outfits) and the
 * `outfitSchema` check of `POST /api/outfits`.
 */
module OutfitsApi {
  import opened Wrappers
  import opened Domain

  /** The query string: `None` stands for a missing or empty parameter. */
  datatype PageQuery = PageQuery(page: Option<int>, limit: Option<int>)

  datatype PageResponse<T> = PageResponse(outfits: seq<T>, total: nat, page: int, totalPages: nat)

  /** `Math.ceil(n / d)` on whole numbers. */
  function CeilDiv(n: nat, d: nat): (r: nat)
    requires d >= 1
    ensures r * d >= n && (r == 0 || (r - 1) * d < n)
    ensures r == 0 <==> n == 0
  {
    (n + d - 1) / d
  }

  /** `s.slice(start, end)` for `0 <= start <= end`: both ends are clamped to the length. */
  function Slice<T>(s: seq<T>, start: nat, end: nat): (r: seq<T>)
    requires start <= end
    ensures |r| == if start >= |s| then 0 else (if end <= |s| then end else |s|) - start
    ensures forall k :: 0 <= k < |r| ==> r[k] == s[start + k]
  {
    var lo := if start <= |s| then start else |s|;
    var hi := if end <= |s| then end else |s|;
    s[lo..hi]
  }

  /**
   * The page `page` of `limit` items: the contiguous run of the list from
   * `(page - 1) * limit` of length `min(limit, total - start)` (or nothing),
   * with the full length and the page count beside it.
   */
  function Paginate<T>(items: seq<T>, page: int, limit: int): (r: PageResponse<T>)
    requires page >= 1 && limit >= 1
    ensures r.total == |items| && r.page == page
    ensures r.totalPages * limit >= |items| && (r.totalPages == 0 || (r.totalPages - 1) * limit < |items|)
    ensures r.totalPages == 0 <==> items == []
    ensures var start := PageStart(page, limit);
      && |r.outfits| == (if start >= |items| then 0 else if |items| - start < limit then |items| - start else limit)
      && forall k :: 0 <= k < |r.outfits| ==> r.outfits[k] == items[start + k]
  {
    var startIndex := PageStart(page, limit);
    var endIndex := startIndex + limit;
    PageResponse(Slice(items, startIndex, endIndex), |items|, page, CeilDiv(|items|, limit))
  }

  /** `startIndex`: the items on the pages before `page`. */
  function PageStart(page: int, limit: int): nat
    requires page >= 1 && limit >= 1
  {
    (page - 1) * limit
  }

  /** The handler: `page` defaults to 1 and `limit` to 10. */
  function ListOutfits<T>(items: seq<T>, q: PageQuery): (r: PageResponse<T>)
    requires q.page.Some? ==> q.page.value >= 1
    requires q.limit.Some? ==> q.limit.value >= 1
    ensures r.page == q.page.GetOr(1)
    ensures r.total == |items|
    ensures |r.outfits| <= q.limit.GetOr(10)
    ensures r.totalPages == CeilDiv(|items|, q.limit.GetOr(10))
    ensures q.page.None? ==> r.outfits == items[..if |items| <= q.limit.GetOr(10) then |items| else q.limit.GetOr(10)]
    ensures q.page.None? && q.limit.None? ==> r.outfits == items[..if |items| <= 10 then |items| else 10]
    ensures r == Paginate(items, q.page.GetOr(1), q.limit.GetOr(10))
  {
    Paginate(items, q.page.GetOr(1), q.limit.GetOr(10))
  }

  /** Pages 1 to n, one after the other. */
  function PagesUpTo<T>(items: seq<T>, limit: int, n: nat): seq<T>
    requires limit >= 1
  {
    if n == 0 then [] else PagesUpTo(items, limit, n - 1) + Paginate(items, n, limit).outfits
  }

  lemma MulMono(a: nat, b: nat, c: nat)
    requires a <= b
    ensures a * c <= b * c
  {
  }

  /** The first n pages are the list's first n * limit items. */
  lemma {:induction false} PagesUpToIsPrefix<T>(items: seq<T>, limit: int, n: nat)
    requires limit >= 1
    ensures PagesUpTo(items, limit, n) == items[..if n * limit <= |items| then n * limit else |items|]
  {
    if n > 0 {
      PagesUpToIsPrefix(items, limit, n - 1);
      var start := PageStart(n, limit);
      assert (n - 1) * limit == start;
      assert n * limit == start + limit;
      assert Paginate(items, n, limit).outfits == Slice(items, start, start + limit);
      PrefixThenSlice(items, start, start + limit);
    }
  }

  /** A prefix up to `a` followed by the slice from `a` to `b` is the prefix up to `b`. */
  lemma PrefixThenSlice<T>(items: seq<T>, a: nat, b: nat)
    requires a <= b
    ensures items[..if a <= |items| then a else |items|] + Slice(items, a, b) == items[..if b <= |items| then b else |items|]
  {
  }

  /** Concatenating pages 1 to totalPages gives back the whole list. */
  lemma PagesCoverList<T>(items: seq<T>, limit: int)
    requires limit >= 1
    ensures PagesUpTo(items, limit, CeilDiv(|items|, limit)) == items
  {
    PagesUpToIsPrefix(items, limit, CeilDiv(|items|, limit));
  }

  /** Every page after the last one is empty. */
  lemma PagesBeyondLastAreEmpty<T>(items: seq<T>, page: int, limit: int)
    requires limit >= 1 && page > CeilDiv(|items|, limit)
    ensures Paginate(items, page, limit).outfits == []
  {
    MulMono(CeilDiv(|items|, limit), page - 1, limit);
  }

  /** The request body of `POST /api/outfits`, with each field present or not. */
  datatype OutfitBody = OutfitBody(name: string, description: Option<string>, occasion: Option<string>, season: Option<string>)

  /** What `outfitSchema.parse` returns: the fields `createOutfit` receives. */
  datatype NewOutfit = NewOutfit(name: string, description: Option<string>, occasion: Option<string>, season: Option<Season>)

  /** The first issue zod reports, checking the schema's keys in order. */
  datatype OutfitSchemaError = EmptyOutfitName | InvalidOutfitSeason
  {
    /** The message sent with status 400; `None` where zod writes its own default text. */
    function CustomMessage(): Option<string>
    {
      match this
      case EmptyOutfitName => Some("搭配名称不能为空")
      case InvalidOutfitSeason => None
    }
  }

  /**
   * `outfitSchema.parse`: accepted iff the name is non-empty and the season,
   * when present, is one of the five; description and occasion are free.
   */
  function ParseOutfitBody(b: OutfitBody): (r: Result<NewOutfit, OutfitSchemaError>)
    ensures r.Success? <==> b.name != "" && (b.season.None? || ParseSeason(b.season.value).Some?)
    ensures b.name == "" ==> r == Failure(EmptyOutfitName)
    ensures b.name != "" && b.season.Some? && ParseSeason(b.season.value).None? ==> r == Failure(InvalidOutfitSeason)
    ensures r.Success? ==>
      && r.value.name == b.name && r.value.description == b.description && r.value.occasion == b.occasion
      && (r.value.season.None? <==> b.season.None?)
      && (r.value.season.Some? ==> SeasonName(r.value.season.value) == b.season.value)
  {
    if |b.name| < 1 then Failure(EmptyOutfitName)
    else if b.season.Some? && ParseSeason(b.season.value).None? then Failure(InvalidOutfitSeason)
    else
      var season := if b.season.Some? then ParseSeason(b.season.value) else None;
      Success(NewOutfit(b.name, b.description, b.occasion, season))
  }
}
