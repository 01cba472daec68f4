/**
 * The outfit list page: the pager's visibility and button rules, page
 * changes, loading a page, and deleting an outfit.
 */
module OutfitsPageView {
  import opened Wrappers
  import opened Domain
  import Seqs
  import OutfitsApi

  /** Every page request the list makes asks for twelve outfits. */
  const PageSize := 12

  /** The pager is shown only when there is more than one page. */
  predicate PagerShown(totalPages: int)
  {
    totalPages > 1
  }

  datatype PagerButton = Previous | Next

  /** `上一页` is disabled on the first page, `下一页` on the last. */
  predicate Disabled(b: PagerButton, currentPage: int, totalPages: int)
  {
    match b
    case Previous => currentPage == 1
    case Next => currentPage == totalPages
  }

  /** The page a press asks for: one back or one on. */
  function PageAfter(b: PagerButton, currentPage: int): (r: int)
    ensures b.Previous? ==> r == currentPage - 1
    ensures b.Next? ==> r == currentPage + 1
  {
    match b
    case Previous => currentPage - 1
    case Next => currentPage + 1
  }

  /** An enabled press from a page in range lands on a page in range. */
  lemma EnabledPressStaysInRange(b: PagerButton, currentPage: int, totalPages: int)
    requires PagerShown(totalPages) && 1 <= currentPage <= totalPages
    requires !Disabled(b, currentPage, totalPages)
    ensures 1 <= PageAfter(b, currentPage) <= totalPages
    ensures PageAfter(b, currentPage) != currentPage
  {
  }

  /**
   * The pager does not keep the page in range by itself. Deleting outfits
   * does not fetch the list again, so `totalPages` can shrink below
   * `currentPage` at the next fetch; `下一页` is then still enabled, since it
   * is disabled only on the exact last page, and a press moves further past it.
   */
  lemma NextPastLastPageStaysEnabled(currentPage: int, totalPages: int)
    requires PagerShown(totalPages) && currentPage > totalPages
    ensures !Disabled(Next, currentPage, totalPages)
    ensures PageAfter(Next, currentPage) > totalPages
    ensures !Disabled(Next, PageAfter(Next, currentPage), totalPages)
  {
  }

  /**
   * That state is reached: with 25 outfits the list has three pages; after
   * the twelve on page 2 are deleted and `下一页` is pressed, the answer for
   * page 3 of the remaining 13 reports two pages, and `下一页` stays enabled.
   */
  lemma DeletionsCanLeavePagePastLast<T>(all: seq<T>, remaining: seq<T>)
    requires |all| == 25 && |remaining| == |all| - PageSize
    ensures OutfitsApi.Paginate(all, 1, PageSize).totalPages == 3
    ensures var r := OutfitsApi.Paginate(remaining, 3, PageSize);
      && r.totalPages == 2 && r.page == 3 && r.outfits == []
      && PagerShown(r.totalPages) && !Disabled(Next, r.page, r.totalPages)
  {
    var first := OutfitsApi.Paginate(all, 1, PageSize);
    assert first.totalPages * 12 >= 25 && (first.totalPages - 1) * 12 < 25;
    var r := OutfitsApi.Paginate(remaining, 3, PageSize);
    assert r.totalPages * 12 >= 13 && (r.totalPages - 1) * 12 < 13;
  }

  /** Every press in `presses` is enabled at the moment it is made. */
  predicate AllEnabled(presses: seq<PagerButton>, currentPage: int, totalPages: int)
    decreases |presses|
  {
    presses == []
    || (!Disabled(presses[0], currentPage, totalPages)
        && AllEnabled(presses[1..], PageAfter(presses[0], currentPage), totalPages))
  }

  /** The page after a run of presses. */
  function PressAll(presses: seq<PagerButton>, currentPage: int): (r: int)
    ensures r == currentPage + Seqs.Count(presses, (b: PagerButton) => b.Next?) - Seqs.Count(presses, (b: PagerButton) => b.Previous?)
    decreases |presses|
  {
    if presses == [] then currentPage
    else PressAll(presses[1..], PageAfter(presses[0], currentPage))
  }

  /** Pressing only enabled buttons never leaves the range 1 to `totalPages`. */
  lemma {:induction false} EnabledPressesStayInRange(presses: seq<PagerButton>, currentPage: int, totalPages: int)
    requires PagerShown(totalPages) && 1 <= currentPage <= totalPages
    requires AllEnabled(presses, currentPage, totalPages)
    ensures 1 <= PressAll(presses, currentPage) <= totalPages
    decreases |presses|
  {
    if presses != [] {
      EnabledPressStaysInRange(presses[0], currentPage, totalPages);
      EnabledPressesStayInRange(presses[1..], PageAfter(presses[0], currentPage), totalPages);
    }
  }

  function OutfitId(o: Outfit): string { o.id }

  /** The list page's state. */
  class OutfitsList {
    var outfits: seq<Outfit>
    var currentPage: int
    var totalPages: int
    var isLoading: bool
    var error: string

    /** The first render: page 1 of 1, loading, nothing shown. */
    constructor ()
      ensures outfits == [] && currentPage == 1 && totalPages == 1 && isLoading && error == ""
    {
      outfits := [];
      currentPage := 1;
      totalPages := 1;
      isLoading := true;
      error := "";
    }

    /**
     * `fetchOutfits`, run when `currentPage` changes: the request it makes,
     * answered by the list route, is this query.
     */
    function Query(): (q: OutfitsApi.PageQuery)
      reads this
      ensures q.page == Some(currentPage) && q.limit == Some(PageSize)
    {
      OutfitsApi.PageQuery(Some(currentPage), Some(PageSize))
    }

    /**
     * The answer to `fetchOutfits`: after an ok answer, the page `data` read
     * from it replaces the list and the page count; otherwise the caught
     * message is recorded, where a non-ok answer throws
     * `new Error('获取搭配方案失败')`, and both are kept. Loading ends either way.
     */
    method LoadPage(outcome: RequestOutcome, data: OutfitsApi.PageResponse<Outfit>)
      modifies this
      ensures !isLoading && currentPage == old(currentPage)
      ensures outcome.OkResponse? ==> outfits == data.outfits && totalPages == data.totalPages && error == old(error)
      ensures !outcome.OkResponse? ==>
        outfits == old(outfits) && totalPages == old(totalPages) && error == CaughtMessage(outcome, "获取搭配方案失败")
    {
      if outcome.OkResponse? {
        outfits := data.outfits;
        totalPages := data.totalPages;
      } else {
        error := CaughtMessage(outcome, "获取搭配方案失败");
      }
      isLoading := false;
    }

    /** `handlePageChange`: sets the page and nothing else; the effect then asks for that page. */
    method HandlePageChange(page: int) returns (query: OutfitsApi.PageQuery)
      modifies this
      ensures currentPage == page && query == OutfitsApi.PageQuery(Some(page), Some(PageSize))
      ensures outfits == old(outfits) && totalPages == old(totalPages) && isLoading == old(isLoading) && error == old(error)
    {
      currentPage := page;
      query := Query();
    }

    /**
     * A press on a pager button the page shows enabled: it asks for the page
     * one back or one on. From a page in range it lands in range; from a page
     * past the last (see `NextPastLastPageStaysEnabled`) `下一页` goes further.
     */
    method Press(b: PagerButton) returns (query: OutfitsApi.PageQuery)
      requires PagerShown(totalPages) && !Disabled(b, currentPage, totalPages)
      modifies this
      ensures currentPage == PageAfter(b, old(currentPage))
      ensures old(1 <= currentPage <= totalPages) ==> 1 <= currentPage <= totalPages
      ensures query.page == Some(currentPage)
      ensures outfits == old(outfits) && totalPages == old(totalPages) && isLoading == old(isLoading) && error == old(error)
    {
      if 1 <= currentPage <= totalPages {
        EnabledPressStaysInRange(b, currentPage, totalPages);
      }
      query := HandlePageChange(PageAfter(b, currentPage));
    }

    /**
     * `handleDelete`: nothing without confirmation; an ok answer drops every
     * outfit with that id and keeps the rest in order, without fetching the
     * page again; otherwise the caught message (`删除失败` for a non-ok
     * answer) is recorded.
     */
    method HandleDelete(id: string, confirmed: bool, outcome: RequestOutcome)
      modifies this
      ensures confirmed && outcome.OkResponse? ==> outfits == Seqs.RemoveById(old(outfits), OutfitId, id) && error == old(error)
      ensures confirmed && !outcome.OkResponse? ==> outfits == old(outfits) && error == CaughtMessage(outcome, "删除失败")
      ensures !confirmed ==> outfits == old(outfits) && error == old(error)
      ensures currentPage == old(currentPage) && totalPages == old(totalPages) && isLoading == old(isLoading)
    {
      if !confirmed {
        return;
      }
      if outcome.OkResponse? {
        outfits := Seqs.RemoveById(outfits, OutfitId, id);
      } else {
        error := CaughtMessage(outcome, "删除失败");
      }
    }
  }
}
