# Wardrobe app: a verified model of its rules

This project models the deterministic rules in a Next.js wardrobe app and
proves properties about them. In the app a user stores clothing items with
photos, groups them into outfits, pages through the outfits, and records
on a calendar which outfit was worn on which day. The model covers these
pieces:

- **Db** (`db.dfy`): the clause and parameter lists that `updateClothing`
  builds for its `UPDATE` statement. This includes the camelCase to
  snake_case column names, the skipped `id` and `undefined` entries, the
  sequential `$n` placeholders and the id appended last.
- **OutfitsApi** (`outfits_api.dfy`): offset pagination in `GET /api/outfits`
  and the outfit record schema.
- **ClothingsApi** (`clothings_api.dfy`): the category and season query
  filters, the clothing record schema, and the checks an upload passes
  through in order.
- **ClothingsPage** (`clothings_page.dfy`): the inventory page's
  category, season and free-text filter, and its state, kept in step by
  the filtering effect.
- **Calendar** (`calendar_page.dfy`): the month grid, the first-match log
  lookup, the month heading, and the add-record dialog.
- **AddClothing** (`add_clothing_page.dfy`): the add-item form, its image
  checks, its submit checks in their fixed order, and how a submit ends.
- **OutfitsPageView** (`outfits_page.dfy`): the outfit list's pager, page
  changes, page loading and deletion.
- **Suggest** (`suggest_page.dfy`): the suggestion page's filters, the
  generate request, the card badges and the save payload.
- **Domain**, **Text**, **Seqs** and **Wrappers** hold the shared pieces.
  These are the two enums, the records, the occasion labels, the image
  rule, the JavaScript string operations the pages use, and list filtering.

The app has no suggestion engine: the suggest route only echoes its
request body back. The model therefore covers only what the page does
around it. The echoed answer has no `suggestions` or `totalClothings`
field, so the page stores `undefined` in both. The `Generated` case of
Suggest.SuggestView.FinishGenerate describes the answer the page expects,
not the one the route gives.

Parts that update state in place are classes. Their methods state the
whole new state in terms of the old one. The filtering, schema and label
rules are functions, and lemmas state their properties. Page and form
state is modelled directly, without React. An effect that re-runs when its
inputs change (for example `filterClothings`) runs inside each method that
changes one of those inputs.

The outfit list's pager disables `下一页` only on the exact last page. Deleting
outfits does not fetch the list again, so a later fetch can report fewer pages
than the current page number. `下一页` then stays enabled and moves further
past the end (OutfitsPageView.NextPastLastPageStaysEnabled), and the model's
`Press` allows that state instead of excluding it.

## Model

| member | source | states |
|---|---|---|
| Domain.ParseCategory | lib/db.ts:128-131 | Reading a category name is the exact inverse of naming it, for all ten categories; any other string is no category |
| Domain.ParseSeason | lib/db.ts:139-141 | Reading a season name is the exact inverse of naming it, for all five seasons; any other string is no season |
| Domain.OccasionLabel | app/dashboard/calendar/page.tsx:55-60 | A known occasion (casual, formal, business, sport) shows its Chinese label, which differs from the key; any other occasion shows as written |
| Domain.OccasionTag | app/dashboard/calendar/page.tsx:282-286 | The tag is absent exactly when the occasion is missing or empty; otherwise it is the occasion's label, falling back to the raw text |
| Domain.CheckImage | app/api/clothings/route.ts:72-81 | An image passes iff its type is JPEG, PNG or WebP and its size is at most 5,242,880 bytes; a wrong type is reported before size; a too-large image of an allowed type reports size |
| Domain.CaughtMessage | app/dashboard/clothings/page.tsx:110-117 | A failed request shows the fallback for a non-ok answer and for a thrown non-`Error`, and the thrown error's message otherwise |
| Text.Lower | app/dashboard/clothings/page.tsx:88 | Lower-casing keeps the length and maps each character independently: A-Z to a-z, all others unchanged |
| Text.Trim | app/dashboard/clothings/page.tsx:87 | Trimming gives the empty string exactly when the input is all whitespace; otherwise the result starts and ends with a non-space |
| Text.TrimDropsBlankEnds | app/dashboard/clothings/page.tsx:87 | What `trim` leaves is a middle part of the input, with a blank prefix and a blank suffix cut off |
| Text.Contains | app/dashboard/clothings/page.tsx:90 | `includes` holds iff the term occurs at some position of the text |
| Text.ParseNatToString | lib/db.ts:84 | Reading back a placeholder number's decimal text gives that number |
| Seqs.RemoveById | app/dashboard/clothings/page.tsx:114 | Deleting by id keeps exactly the items whose id differs, as a subsequence in the original order, and shrinks the list by the number of items that had that id |
| Seqs.FilterCommutes | app/api/clothings/route.ts:35-41 | Two filters applied in either order give the same list |
| Seqs.FilterMembership | app/dashboard/clothings/page.tsx:73-98 | An item is in the filtered list exactly when it is in the input and passes the test |
| Seqs.FilterIdempotent | app/dashboard/clothings/page.tsx:73-98 | Filtering a filtered list again by the same test changes nothing |
| Db.SnakeKey | lib/db.ts:83 | A column name is as long as the key plus its number of upper-case letters, and has no upper-case letter |
| Db.SnakeKeyOfLowerKey | lib/db.ts:83 | A key without upper-case letters is its own column name |
| Db.SnakeKeyAppend | lib/db.ts:83 | The conversion works on the parts of a key independently |
| Db.ImageUrlColumn | lib/db.ts:83 | `imageUrl` is stored in the column `image_url` |
| Db.CamelKeyOfSnakeKey | lib/db.ts:83 | A key without underscores can be read back from its column name, so such keys never share a column |
| Db.UpdateClothingStatement | lib/db.ts:75-92 | No statement iff no entry contributes. Otherwise clause j names the j-th contributing entry's column with placeholder j+1, parameter j is that entry's value (`null` included), and the id is the last parameter, numbered like the `WHERE` placeholder |
| Db.NoneKeptIffNoneContributes | lib/db.ts:90 | The statement is skipped exactly when every entry is the id or `undefined` |
| Db.ClausePlaceholder | lib/db.ts:84 | A clause is the column, then ` = $`, then the decimal placeholder number, which reads back as that number |
| OutfitsApi.CeilDiv | app/api/outfits/route.ts:36 | The page count is the integer ceiling of total/limit, zero exactly for an empty list |
| OutfitsApi.Paginate | app/api/outfits/route.ts:28-37 | `total` is the full length and `page` is echoed. `totalPages` is the ceiling of total/limit. The page holds `max(0, min(limit, total - start))` items, which are `items[start + k]` in order, with `start = (page-1)*limit` |
| OutfitsApi.ListOutfits | app/api/outfits/route.ts:21-37 | A missing page means 1 and a missing limit means 10, each on its own: the answer is the pagination of the list at those values, so `totalPages` is the ceiling of total over the limit used, and a missing page gives the first `limit` outfits. With no parameters the answer is the first ten outfits |
| OutfitsApi.PagesCoverList | app/api/outfits/route.ts:28-36 | Pages 1 to totalPages, concatenated, are the whole list |
| OutfitsApi.PagesUpToIsPrefix | app/api/outfits/route.ts:28-30 | Pages 1 to n, concatenated, are the first n*limit items |
| OutfitsApi.PagesBeyondLastAreEmpty | app/api/outfits/route.ts:28-30 | A page after the last one is empty |
| OutfitsApi.ParseOutfitBody | app/api/outfits/route.ts:7-12 | Accepted iff the name is non-empty and the season is absent or one of the five. An empty name reports `搭配名称不能为空`; a named outfit with any other season reports the season error. Accepted fields are copied |
| ClothingsApi.FilterByQuery | app/api/clothings/route.ts:33-41 | The result is one filter of the stored list by the query test, so it keeps the stored order and every copy of a repeated item. It holds exactly the items matching every given (non-empty) parameter, so an item with no season never matches a season query |
| ClothingsApi.NoQueryKeepsAll | app/api/clothings/route.ts:33-43 | With neither parameter (or both empty) the whole list is returned |
| ClothingsApi.FilterOrderIrrelevant | app/api/clothings/route.ts:35-41 | Filtering by category then season gives the same list as season then category |
| ClothingsApi.UnknownCategorySelectsNothing | app/api/clothings/route.ts:35-37 | A category parameter that names no category selects nothing |
| ClothingsApi.ParseClothingBody | app/api/clothings/route.ts:9-17 | Accepted iff name and color are non-empty, the category is one of ten and the season is absent or one of five. Otherwise the first failing key reports, in order name, category, color, season. Accepted fields are copied |
| ClothingsApi.CheckUpload | app/api/clothings/route.ts:65-81 | An upload passes iff the schema holds, an image is present and the image passes. A schema error is reported before a missing image, a missing image before the image checks, and a rejected image reports the image rule's error (type before size) |
| ClothingsPage.FilterClothingsSelects | app/dashboard/clothings/page.tsx:73-98 | The shown list is one filter of the loaded list by the selection test, so it keeps the loaded order and every copy of a repeated item, and holds exactly the selected items. Selected means: the category matches unless `all`, the season matches unless `all`, and a non-blank term occurs in the lower-cased name, color, brand or tags (a missing brand or tags never matches) |
| ClothingsPage.NothingSelectedShowsAll | app/dashboard/clothings/page.tsx:77-87 | With both selections `all` and a blank term, every item is shown |
| ClothingsPage.FilterClothingsIdempotent | app/dashboard/clothings/page.tsx:73-98 | Filtering the shown list again changes nothing |
| ClothingsPage.ClothingsView.constructor | app/dashboard/clothings/page.tsx:42-48 | Nothing is loaded, both selections are `all`, the term is empty and the page is loading |
| ClothingsPage.ClothingsView.FetchClothings | app/dashboard/clothings/page.tsx:58-71 | After an ok answer the list read from it replaces the loaded one and is re-filtered. Otherwise the lists are kept and the caught message is recorded: `获取衣物列表失败` for a non-ok answer or a thrown non-`Error`, the error's own message for a rejected request or an unreadable body. Loading ends either way |
| ClothingsPage.ClothingsView.SelectCategory | app/dashboard/clothings/page.tsx:167 | The new category is stored. The filtering effect (lines 54-56) then re-filters the shown list. The loaded list, the other selections, the error and loading are unchanged |
| ClothingsPage.ClothingsView.SelectSeason | app/dashboard/clothings/page.tsx:183 | The new season is stored. The filtering effect (lines 54-56) then re-filters the shown list. The loaded list, the other selections, the error and loading are unchanged |
| ClothingsPage.ClothingsView.SetSearchTerm | app/dashboard/clothings/page.tsx:155 | The new term is stored. The filtering effect (lines 54-56) then re-filters the shown list. The loaded list, the other selections, the error and loading are unchanged |
| ClothingsPage.ClothingsView.RemoveClothing | app/dashboard/clothings/page.tsx:114 | The loaded list loses every item with that id and keeps the others in order; the shown list is re-filtered; the selections, the error and loading are unchanged |
| ClothingsPage.ClothingsView.HandleDelete | app/dashboard/clothings/page.tsx:100-118 | Nothing happens without confirmation. An ok answer removes the item as above. Otherwise both lists are unchanged and the caught message is recorded: `删除失败` for a non-ok answer or a thrown non-`Error`, the error's own message for a rejected request. Selections and loading are unchanged |
| Calendar.DaysInMonth | app/dashboard/calendar/page.tsx:147-166 | The grid has `startingDayOfWeek + daysInMonth` cells (at most 37 for a real month). The leading cells are empty, day d sits at `startingDayOfWeek + d - 1`, and the days increase along the grid |
| Calendar.FirstLogIndex | app/dashboard/calendar/page.tsx:171 | The index found is of a log worn that day with none earlier; when none is found, no log was worn that day |
| Calendar.OutfitLogForDate | app/dashboard/calendar/page.tsx:168-172 | An empty cell has no log; otherwise the result is the first log worn that day, or none when no log was |
| Calendar.FormatMonthShowsMonthPlusOne | app/dashboard/calendar/page.tsx:174-178 | The heading reads back as the year and the zero-based month plus one |
| Calendar.AddLogRequest | app/dashboard/calendar/page.tsx:110-122 | Nothing is sent iff no outfit is chosen; otherwise the request carries the chosen outfit, the selected day, the occasion and the notes |
| Calendar.AddLogAlert | app/dashboard/calendar/page.tsx:110-145 | With no outfit chosen the alert asks for one. After an ok answer it reports success. Otherwise it shows the caught message, `添加穿搭记录失败` for a non-ok answer |
| Calendar.CalendarView.constructor | app/dashboard/calendar/page.tsx:63-71 | The page opens on today with the dialog closed and its fields empty |
| Calendar.CalendarView.ClickCell | app/dashboard/calendar/page.tsx:259-264 | A day cell selects that day and opens the dialog; an empty cell changes nothing |
| Calendar.CalendarView.Cancel | app/dashboard/calendar/page.tsx:381-386 | Cancel closes the dialog and empties outfit, occasion and notes |
| Calendar.CalendarView.HandleAddOutfitLog | app/dashboard/calendar/page.tsx:110-145 | The request sent is the guard's and the alert is `AddLogAlert`'s. An ok answer closes and empties the dialog. No outfit, or a failed request, leaves the dialog as it was |
| AddClothing.InitialForm | app/dashboard/clothings/add/page.tsx:47-55 | The form starts on category `TOP` and season `ALL_SEASON`, with every text field empty |
| AddClothing.WithField | app/dashboard/clothings/add/page.tsx:84-86 | An input change sets that one field and leaves the other six alone |
| AddClothing.CategoryOptionsAreTheCategories | app/dashboard/clothings/add/page.tsx:18-29 | The category select offers exactly the ten category names, each once |
| AddClothing.SeasonOptionsAreTheSeasons | app/dashboard/clothings/add/page.tsx:31-37 | The season select offers exactly the five season names, each once |
| AddClothing.SubmitCheck | app/dashboard/clothings/add/page.tsx:88-104 | A submit passes iff an image is chosen and name and color are non-blank. Otherwise the first failure is reported, in order image, name, color |
| AddClothing.Body | app/dashboard/clothings/add/page.tsx:112 | The form data is sent with all seven fields present, empty ones included |
| AddClothing.FailureMessage | app/dashboard/clothings/add/page.tsx:119-126 | A refused upload shows the server's error, or `上传失败` when it has none. A thrown error shows its message, and a non-`Error` value shows `上传失败，请稍后重试` |
| AddClothing.AcceptedSubmitPassesUpload | app/dashboard/clothings/add/page.tsx:88-113 | A submit the form lets through, with an image it accepted and both selects on an option, passes every check of the upload route |
| AddClothing.BlankNamePassesUploadButNotForm | app/dashboard/clothings/add/page.tsx:96-99 | The form refuses a name of spaces that the upload route would accept |
| AddClothing.AddClothingForm.constructor | app/dashboard/clothings/add/page.tsx:43-55 | No image, the initial form, no error, not loading |
| AddClothing.AddClothingForm.HandleFileSelect | app/dashboard/clothings/add/page.tsx:57-82 | No file changes nothing. A rejected file sets the type or size message and keeps the previous image. An accepted file replaces it and clears the error. A kept image always passes the checks |
| AddClothing.AddClothingForm.HandleInputChange | app/dashboard/clothings/add/page.tsx:84-86 | Only the form data changes, by that one field |
| AddClothing.AddClothingForm.HandleSubmit | app/dashboard/clothings/add/page.tsx:88-113 | A failed check sets its message and sends nothing. Otherwise loading starts, the error clears, and the chosen image and the form data are sent |
| AddClothing.AddClothingForm.FinishSubmit | app/dashboard/clothings/add/page.tsx:115-129 | A created item navigates back to the list; a failure shows its message; loading ends either way |
| OutfitsPageView.EnabledPressStaysInRange | app/dashboard/outfits/page.tsx:245-265 | When the pager is shown and the current page is within 1 to totalPages, an enabled button moves to a different page within 1 to totalPages |
| OutfitsPageView.NextPastLastPageStaysEnabled | app/dashboard/outfits/page.tsx:258-264 | On a page past the last one (reachable after deletions shrink the page count), `下一页` is still enabled and a press moves further past the last page, where it stays enabled |
| OutfitsPageView.DeletionsCanLeavePagePastLast | app/dashboard/outfits/page.tsx:73-107 | With 25 outfits the list has three pages; after the twelve on page 2 are deleted without a re-fetch and the next page is asked for, the answer is page 3 of 2, empty, with the pager shown and `下一页` still enabled |
| OutfitsPageView.PressAll | app/dashboard/outfits/page.tsx:250-261 | After a run of presses the page has moved by the number of next presses minus the number of previous presses |
| OutfitsPageView.EnabledPressesStayInRange | app/dashboard/outfits/page.tsx:245-265 | Pressing only enabled buttons, starting in range, never leaves 1 to totalPages |
| OutfitsPageView.OutfitsList.constructor | app/dashboard/outfits/page.tsx:63-67 | The list starts on page 1 of 1, loading, with nothing shown |
| OutfitsPageView.OutfitsList.Query | app/dashboard/outfits/page.tsx:75 | The list asks the route for the current page, twelve outfits at a time |
| OutfitsPageView.OutfitsList.LoadPage | app/dashboard/outfits/page.tsx:73-87 | After an ok answer the page read from it replaces the shown outfits and the page count. Otherwise both are kept and the caught message is recorded: `获取搭配方案失败` for a non-ok answer or a thrown non-`Error`, the error's own message otherwise. The current page never changes. Loading ends either way |
| OutfitsPageView.OutfitsList.HandlePageChange | app/dashboard/outfits/page.tsx:109-111 | Only the current page changes, and the next request asks for it |
| OutfitsPageView.OutfitsList.Press | app/dashboard/outfits/page.tsx:245-265 | Any button the shown pager leaves enabled moves one page back or on and asks for that page; from a page in range it stays in range; the outfits, page count, error and loading are unchanged |
| OutfitsPageView.OutfitsList.HandleDelete | app/dashboard/outfits/page.tsx:89-107 | Nothing happens without confirmation. An ok answer removes every outfit with that id, keeps the rest in order, and leaves the page and page count as they were. Otherwise the caught message is recorded, `删除失败` for a non-ok answer |
| Suggest.ItemIds | app/dashboard/outfits/suggest/page.tsx:96 | The ids have the items' length and order; the i-th id is the i-th item's |
| Suggest.SavePayload | app/dashboard/outfits/suggest/page.tsx:91-97 | The payload copies name, occasion and season, uses the reason as description, and lists the item ids in order |
| Suggest.AsOutfitBody | app/dashboard/outfits/suggest/page.tsx:104 | The outfit route reads name, description, occasion and season from the payload, all present |
| Suggest.SavePayloadSchema | app/dashboard/outfits/suggest/page.tsx:91-97 | Saving passes the outfit schema iff the suggestion has a name and one of the five seasons, so an empty season is refused |
| Suggest.SaveAlert | app/dashboard/outfits/suggest/page.tsx:107-117 | An ok answer alerts `搭配方案已保存成功！`. A non-ok answer throws `new Error('保存搭配失败')`, so it alerts that text. A rejected request alerts its error's message, and a thrown non-`Error` alerts `保存搭配失败` |
| Suggest.OccasionBadge | app/dashboard/outfits/suggest/page.tsx:226-230 | An empty occasion has no badge. casual, formal and business show their labels. Any other occasion shows `运动` |
| Suggest.OccasionBadgeVersusTag | app/dashboard/outfits/suggest/page.tsx:226-230 | This badge agrees with the outfit list's tag exactly for the four known occasions (and the text `运动`) |
| Suggest.SeasonBadgeForSeasons | app/dashboard/outfits/suggest/page.tsx:233 | Among the five seasons, only all-season has no badge |
| Suggest.WithFilter | app/dashboard/outfits/suggest/page.tsx:121-123 | A filter change sets that one filter and leaves the other two alone |
| Suggest.GenerateFailureMessage | app/dashboard/outfits/suggest/page.tsx:76-83 | A failed request shows the server's error or the thrown message, falling back to `生成搭配建议失败` |
| Suggest.SuggestView.constructor | app/dashboard/outfits/suggest/page.tsx:49-58 | The page starts with no suggestions, not loading, and all filters empty |
| Suggest.SuggestView.HandleFilterChange | app/dashboard/outfits/suggest/page.tsx:121-123 | Only the filters change, by that one field |
| Suggest.SuggestView.StartGenerate | app/dashboard/outfits/suggest/page.tsx:60-72 | Loading starts, and the error and previous suggestions are cleared, before the filters are sent |
| Suggest.SuggestView.FinishGenerate | app/dashboard/outfits/suggest/page.tsx:74-86 | The answer's suggestions and count replace the old ones, or its error is shown; loading ends either way |

## Left out

- Suggestion scoring, composition and ranking: the suggest route (app/api/outfits/suggest/route.ts) only echoes its body, so there is nothing to model.
- SQL execution and the database schema (`sql`, `sql.unsafe`, `initializeDatabase`): they are database I/O. The model stops at the clause and parameter lists.
- `fetch`, authentication, `NextResponse`, `router.push`, `alert` and `confirm`: they are network, framework and browser I/O. Their outcomes are method parameters (`confirmed`, a `RequestOutcome` with the data read from an ok answer, or an outcome datatype of the page). The messages passed to `alert` are results of functions (Calendar.AddLogAlert, Suggest.SaveAlert) or of methods (Calendar.CalendarView.HandleAddOutfitLog).
- File saving and naming in `POST /api/clothings` (`writeFile`, `mkdirSync`, `Date.now`, `Math.random`): filesystem work and nondeterminism.
- The `FileReader` preview on the add form: an asynchronous browser API.
- JavaScript `Date`: days are (year, zero-based month, day) triples. The month length and first weekday are inputs to `Calendar.DaysInMonth`. `toDateString` equality is equality of triples. Time zones, `toISOString` and `changeMonth` are not modelled.
- Calendar.CalendarView.HandleAddOutfitLog: the logs are not re-fetched after a successful add, because the outfit-log route is a stub (app/api/outfit-logs/route.ts).
- OutfitsApi.Paginate: page and limit must be at least 1. `parseInt` of malformed or negative strings, `NaN`, and `slice` with negative indices are not modelled.
- Text.Lower: only A-Z are lower-cased, not all of Unicode. The whitespace set used by `trim` is listed by hand.
- ClothingsApi.ParseClothingBody: zod writes its own message for a bad category or season; that text is not modelled (`CustomMessage` is `None`). The same holds for OutfitsApi.ParseOutfitBody. Any extra keys (such as the suggestion page's `clothingIds`) are dropped, as zod does.
- ClothingsApi.ParseClothingBody: name, category and color are always-present strings, and every optional field is either a string or absent. So three error paths are not modelled: a body missing a required key (zod's `Required`, status 400), an optional field sent as JSON `null`, and a `data` form field that `JSON.parse` rejects (status 500).
- OutfitsApi.ParseOutfitBody: the name is an always-present string, so a body without `name` and optional fields sent as JSON `null` are not modelled.
- Label lookups with keys that JavaScript objects inherit (such as `constructor`) are treated as unknown keys.
- The order of `Object.entries` is taken to be the order of the entry list given to Db.UpdateClothingStatement.
- OutfitsPageView.OutfitsList.HandlePageChange: the page does not set loading again when the page changes, and the model keeps that.
- JSX rendering, CSS, and the pages with no logic (the home page, the dashboard index, the layout, the Next.js config).
