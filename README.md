# Casa Bonita — a verified model of the site's core

This project models the core of the Casa Bonita Residencial website in Dafny. It has four parts:

- **Stock proxy** (`proxy.js`). A small Node server that keeps one access token for the stock API. It renews the token when it has expired. It relays `/api/units/stock` queries to the upstream API with that token, and puts CORS headers on every answer.
- **Blog back ends.** Two implementations of the same blog API: Flask (`admin_blog/app.py`) and PHP (`admin_blog/index.php`). Both cover the list (public or paginated for the dashboard), create, update and delete. Both also cover at most three "popular" posts and the clean-up of orphaned uploads. The PHP front controller also routes requests and serves static files.
- **Blog pages** (`assets/js/blog.js` and `admin_blog/static/js/script.js`):
  - the public blog list, with category and text filters and a windowed pager;
  - in the administrator's dashboard: the date shown in the edit form, the category select with its "new category" text box, and the dashboard pager.
- **Interactive lot map** (`assets/js/script-mapa.js`) and **landing page** (`assets/js/script.js`):
  - lot ids and their parsing;
  - the ingestion of stock units from both stages, with a retry after an expired token;
  - the merge of API units into the list of lots;
  - the text search with area and status filters and sort order;
  - the detail lookup, the side panels and the "back" button, the zoom throttle and the image bounds;
  - the landing page's contact form, its slide carousel and the testimonial slide classes.

Files and modules (one module per file):

| file | module | models |
|---|---|---|
| `wrappers.dfy` | `Wrappers` | `Option`, `Result` |
| `text.dfy` | `Text` | the string operations the sources use: JavaScript `trim`, `toLowerCase`, `includes`, `indexOf`, `replace` with a global pattern, decimal digits |
| `proxy.dfy` | `Proxy` | `proxy.js` |
| `blog_table.dfy` | `BlogTable` | the `blog` table both back ends query: rows, `ORDER BY fecha DESC`, `LIMIT`/`OFFSET`, the popular flag |
| `blog_flask.dfy` | `BlogFlask` | `admin_blog/app.py` |
| `blog_php.dfy` | `BlogPhp` | `admin_blog/index.php` |
| `blog_list.dfy` | `BlogList` | `assets/js/blog.js` |
| `admin_dashboard.dfy` | `AdminDashboard` | `admin_blog/static/js/script.js` |
| `parcel_lots.dfy` | `ParcelLots` | lot data in `assets/js/script-mapa.js` |
| `parcel_search.dfy` | `ParcelSearch` | search, filters, sort and lookup in `assets/js/script-mapa.js` |
| `parcel_ui.dfy` | `ParcelUi` | panels, throttle and bounds in `assets/js/script-mapa.js` |
| `landing.dfy` | `Landing` | `assets/js/script.js` |

Modelling conventions:

- **State the source changes in place becomes a class.** This covers:
  - the proxy's token cache (`Proxy.TokenCache`);
  - the database table (`BlogTable.Table`);
  - the blog page's card lists and current page (`BlogList.BlogView`);
  - the category select (`AdminDashboard.CategoryControls`);
  - the map's `unitsData` and `todosLosLotes` (`ParcelLots.LotStore`);
  - the side panels (`ParcelUi.MapPanels`);
  - the throttle's captured `last` (`ParcelUi.Throttle`);
  - the carousel index and its indicator array (`Landing.Carousel`).
- **Each state-changing method states its new state** as a pure function of the old state. The lemmas are proved about those functions.
- **Network replies, the clock, file-system results and unique-id generation are parameters.** Examples: `Proxy.TokenCache.GetValidToken` takes the token server's reply and both times; `BlogPhp.CreateBlog` takes the `uniqid()` value and whether `move_uploaded_file` succeeded; `BlogFlask.CleanupImages` takes the directory listing and the files whose removal fails.
- **Where the system's documented behaviour and its code differ, the model follows the code.** The documentation describes the proxy retrying after a 401 and answering 502 when the upstream API is unreachable. The code differs:
  - `proxy.js` never invalidates its token on a 401, has no retry and no renewal coalescing;
  - `proxy.js` answers 500 with "Failed to connect to API" on an upstream connection error;
  - the 405 and 404 answers are produced without obtaining a token;
  - the retry after a 401 exists only in the map (`getUnitsData`), and the model has it there.

## Model

| member | source | states |
|---|---|---|
| Proxy.StartupContinues | proxy.js:12-19 | The process keeps running unless it is in production and the API key or the subdomain is missing or empty. |
| Proxy.Renewal | proxy.js:53-65 | A token reply succeeds exactly when both credentials are configured and the reply is JSON with `succeeded`, `data` and a non-empty `accessToken`. The token returned is that `accessToken`. |
| Proxy.TokenCache.GetValidToken | proxy.js:28-72 | A cached token is returned without renewing iff a token and expiry are set and `now` is before the expiry. Otherwise the result is exactly the renewal outcome. A successful renewal stores the token with expiry reply time + 55 minutes. A failed renewal leaves the cache untouched. |
| Proxy.RenewThenReuse | proxy.js:28-72 | A successful renewal is reused with no new renewal by any later request within 55 minutes. After a failed renewal the next request renews again. |
| Proxy.RelayUrl | proxy.js:114 | The upstream URL is the fixed stock endpoint followed by the request's query string unchanged (nothing when there is none). |
| Proxy.RelayHeaders | proxy.js:118-127 | The relayed request carries exactly five headers. It has the bearer token and the configured subdomain. |
| Proxy.Handle | proxy.js:74-196 | A request whose route needs no token leaves the cache as it was. A token or stock request is answered with the cached token when it still serves, otherwise with the renewal's outcome. The cache changes only when a renewal succeeds. |
| Proxy.PreflightAnyPath | proxy.js:80-85 | OPTIONS on any path answers 200 with the CORS headers and no body, and never calls upstream. |
| Proxy.RouteCharacterisation | proxy.js:87-112 | The route is 405 iff the verb is not OPTIONS, GET or POST. It is the token envelope iff GET/POST on `/auth/external/token`. It is the stock relay iff GET/POST on a path starting `/api/units/stock`. It is 404 otherwise. |
| Proxy.CorsOnEveryResponse | proxy.js:76-78 | Every answer of every route carries `Access-Control-Allow-Origin: *` and the allowed methods and headers. |
| Proxy.RelayKeepsQuery | proxy.js:112-157 | A stock request is relayed with the same verb, body only for POST, the original query string and the bearer token. The upstream status and text are returned unchanged. |
| Proxy.TokenFailureIs500 | proxy.js:191-195 | When no token can be obtained, a token or stock request answers 500 "Internal server error" and nothing is sent upstream. |
| Proxy.StockQueryExample | proxy.js:112-127 | A stock lookup for project CASABONITA, stage 1 is relayed to the upstream stock URL with that exact query. |
| BlogTable.StoredFileNameRoundTrip | admin_blog/app.py:312 | Removing the `/static/uploads/` prefix from a stored path gives back the saved file name. |
| BlogTable.WithPopular | admin_blog/app.py:478 | Setting the popular flag changes only that row's flag. Missing ids change nothing. |
| BlogTable.PopularBoundKept | admin_blog/app.py:469-478 | With the guard "mark only while fewer than three are popular", the number of popular posts never exceeds three, and unmarking never raises it. |
| BlogTable.TextLeqTotal | admin_blog/app.py:192 | The date order used by `ORDER BY fecha` is total. |
| BlogTable.TextLeqTrans | admin_blog/app.py:192 | The date order used by `ORDER BY fecha` is transitive. |
| BlogTable.FechaLeqTotal | admin_blog/app.py:192 | The order with NULL dates placed last under DESC is total. |
| BlogTable.FechaLeqTrans | admin_blog/app.py:192 | The order with NULL dates is transitive. |
| BlogTable.InsertNewestFirst | admin_blog/app.py:192 | Inserting a row into a listing keeps every row and adds that one. |
| BlogTable.InsertKeepsNewestFirst | admin_blog/app.py:192 | Inserting into a newest-first listing keeps it newest first. |
| BlogTable.SortNewestFirst | admin_blog/app.py:192 | The ordered listing is a permutation of the rows. |
| BlogTable.SortIsNewestFirst | admin_blog/app.py:192 | The ordered listing is newest first. |
| BlogTable.RowsBelow | admin_blog/app.py:192 | The rows read from the table are exactly the stored rows, each once, in id order. |
| BlogTable.Window | admin_blog/app.py:172 | `LIMIT n OFFSET k` yields at most n rows: the slice from k, or nothing past the end. |
| BlogTable.PopularOf | admin_blog/app.py:447 | `WHERE es_popular = TRUE` keeps exactly the popular rows of the listing. |
| BlogTable.PopularOfKeepsOrder | admin_blog/app.py:447 | Selecting the popular rows keeps the newest-first order. |
| BlogTable.PopularListing | admin_blog/app.py:447 | The popular listing has at most three posts, all popular and present. While no more than three are popular, it holds every one of them. |
| BlogTable.PopularListingNewestFirst | admin_blog/app.py:447 | The popular listing is newest first. |
| BlogTable.PageCountIsCeiling | admin_blog/app.py:178 | `(total + per_page - 1) // per_page` is the least page count that covers every row. It is zero for an empty table. |
| BlogTable.PageNonEmptyIff | admin_blog/app.py:171-178 | A page from 1 on has rows iff its number is at most the page count. |
| BlogTable.Table.constructor | admin_blog/app.py:224 | A new table is empty and the first id is 1. |
| BlogTable.Table.AllRows | admin_blog/app.py:192 | The full listing holds exactly the stored rows. |
| BlogTable.Table.NewestFirstRows | admin_blog/app.py:192 | `SELECT * ORDER BY fecha DESC` returns the stored rows newest first, as a permutation. |
| BlogTable.Table.Insert | admin_blog/app.py:223-227 | An INSERT adds the row under a fresh id and advances the id counter. |
| BlogTable.Table.Replace | admin_blog/app.py:273-284 | An UPDATE replaces an existing row. The affected count is 1 only when something changed, as MySQL reports. |
| BlogTable.Table.Delete | admin_blog/app.py:324-325 | A DELETE removes the row. The affected count is 1 iff the row existed. |
| BlogFlask.AllowedFile | admin_blog/app.py:48-49 | An allowed name has a dot. |
| BlogFlask.AllowedFileIff | admin_blog/app.py:48-49 | A name is allowed iff it has a dot and the lower-cased text after its last dot is an allowed extension. |
| BlogFlask.SaveImage | admin_blog/app.py:51-68 | An upload yields a URL iff a named file with an allowed extension was given and the image service answered. The URL is the service's. |
| BlogFlask.DashboardPageFacts | admin_blog/app.py:169-189 | The dashboard page count covers every row and is the least such count. A page from 1 on has rows iff it is within the count. |
| BlogFlask.GetBlogs | admin_blog/app.py:156-198 | Without the dashboard flag, every post is listed newest first, without pagination. With it, `page` (default 1) and `per_page` (default 6) select the rows at offset `(page-1)*per_page` of the newest-first listing, and the reply echoes page, size, page count and total. A negative size or offset is the database error; a zero size is the division-by-zero failure. A listed page is never longer than its size, and it is non-empty exactly when the page number is in range. |
| BlogFlask.CreateBlog | admin_blog/app.py:200-230 | A form missing any field (the image included) is refused with "faltan datos" and the table and next id are unchanged. Otherwise one row is inserted under the next id, with the saved image URL, and the next id advances by one. |
| BlogFlask.UpdateBlog | admin_blog/app.py:233-292 | A form with nothing sent is refused. A new image replaces the stored path and the old file is removed. Without an image the other columns are replaced and the image is kept. No affected row answers 404. |
| BlogFlask.UnchangedUpdateIs404 | admin_blog/app.py:277-286 | Re-sending a stored post's own title, content, category and flag without an image leaves the table and the next id unchanged, removes no image, and replies 404 "no se encontró el blog", because the affected count is 0. |
| BlogFlask.DeleteBlog | admin_blog/app.py:295-333 | A missing id answers 404 "Blog no encontrado" and changes nothing. An existing id removes the row and reports its image file for removal. |
| BlogFlask.PopularListingFromTable | admin_blog/app.py:438-451 | The popular listing is newest first and made of stored rows. |
| BlogFlask.GetPopulares | admin_blog/app.py:438-451 | The reply is exactly the first three popular rows of the newest-first listing, without pagination. It is at most three posts, all popular stored posts, newest first. |
| BlogFlask.TogglePopular | admin_blog/app.py:454-483 | Without a session it answers 401 and changes nothing. Marking while three are popular is refused. Otherwise only that flag is set. The count of popular posts never rises above three. |
| BlogFlask.CollectReferenced | admin_blog/app.py:353-357 | The referenced set is exactly the file names of the rows that have an image. |
| BlogFlask.CollectedAreReferenced | admin_blog/app.py:347-357 | Collecting over the full listing gives the files referenced by the table. |
| BlogFlask.RemoveOrphans | admin_blog/app.py:365-376 | Every orphan is tried once. The removed files are the orphans whose removal did not fail, and the count is their number. |
| BlogFlask.CleanupImages | admin_blog/app.py:336-388 | Without a session it answers 401. A missing upload directory is reported. Otherwise the orphans are the listed files no row references, and only they are removed. |
| BlogPhp.StripTrailingSlashes | admin_blog/index.php:41-56 | The trailing-slash step of `basename()` and `pathinfo()`: the result is a prefix of the path that does not end in `/`, and every character dropped from the end is a `/`. |
| BlogPhp.Basename | admin_blog/index.php:56 | A base name contains no slash. |
| BlogPhp.Extension | admin_blog/index.php:41 | `pathinfo` extension: it has no dot or slash. |
| BlogPhp.SaveImage | admin_blog/index.php:46-64 | An upload is stored iff it arrived without error, its extension is allowed and the move succeeded. The stored path is `/static/uploads/` + unique id + `_` + base name. |
| BlogPhp.SaveThenDeleteSameFile | admin_blog/index.php:60-72 | The file that deletion targets is the file that saving wrote. |
| BlogPhp.SkipSpace | admin_blog/index.php:317-318 | `intval` skips exactly the leading white space. |
| BlogPhp.LeadingDigits | admin_blog/index.php:317-318 | `intval` reads exactly the leading digits. |
| BlogPhp.IntValRoundTrip | admin_blog/index.php:317-318 | `intval` of a printed natural number gives it back. |
| BlogPhp.AllDigitsLeading | admin_blog/index.php:317-318 | All of an all-digit string is read. |
| BlogPhp.NonNumericIsZero | admin_blog/index.php:317-318 | Text that does not start with space, a sign or a digit reads as 0. |
| BlogPhp.CeilDivIsPageCount | admin_blog/index.php:332 | `ceil(total / perPage)` is the same page count as the Flask formula. |
| BlogPhp.GetBlogs | admin_blog/index.php:310-354 | Without the dashboard flag, every post is listed newest first. With it, `intval` of `page` (default 1) and `per_page` (default 6) select the rows at offset `(page-1)*per_page` of the newest-first listing, and the reply echoes page, size, page count and total; with no parameters that is page 1 of 6. A negative size or offset is the database error; a zero size is the uncaught division by zero. A listed page is never longer than its size, and it is non-empty exactly when the page number is in range. |
| BlogPhp.PageFacts | admin_blog/index.php:322-343 | The PHP page count equals the Flask one, covers every row, and a page has rows iff it is within the count. |
| BlogPhp.CreateBlog | admin_blog/index.php:356-390 | Missing text fields are refused with "faltan datos". A sent image that cannot be saved is refused. Both refusals leave the table and next id unchanged. Otherwise one row is inserted under the next id, with the image path or NULL, and the next id advances by one. |
| BlogPhp.UpdateBlog | admin_blog/index.php:414-472 | Nothing sent is refused. A good image that cannot be saved is refused. A saved image replaces and removes the old one. Otherwise the text columns are replaced. No affected row answers 404. |
| BlogPhp.PostedForm | admin_blog/index.php:415-426 | A POST delivers the form it sent; any other verb leaves `$_POST` and `$_FILES` empty, so nothing is sent. |
| BlogPhp.UpdateRequest | admin_blog/index.php:163-169 | PUT /api/blogs/<id> is always refused with "no se modifico ningun dato" and changes nothing. A POST to /api/blogs/<id>/update of text without an image writes that text into the stored post. |
| BlogPhp.DashboardEditLost | admin_blog/index.php:163-165 | A title-only edit that would change a stored post arrives over PUT as a form with nothing in it. |
| BlogPhp.EmptyFileInputBlanksText | admin_blog/index.php:426-461 | An empty file input with blank text fields passes the "nothing sent" guard. It then overwrites the post's text with empty strings. |
| BlogPhp.DeleteBlog | admin_blog/index.php:474-508 | A missing id answers 404 and changes nothing. An existing id removes the row and its image file. |
| BlogPhp.GetPopulares | admin_blog/index.php:546-560 | The reply is exactly the first three popular rows of the newest-first listing. It is at most three posts, newest first, each a stored popular post. |
| BlogPhp.TogglePopular | admin_blog/index.php:510-544 | Without a session it answers 401. Marking while three are popular is refused. Otherwise only that flag changes. There are never more than three popular posts. |
| BlogPhp.Filter | admin_blog/index.php:605-609 | `array_diff` keeps exactly the elements that pass, in their order: the result is a subsequence of the input. |
| BlogPhp.ReferencedInIff | admin_blog/index.php:594-600 | A file is referenced iff some row's image path maps to it. |
| BlogPhp.CollectReferenced | admin_blog/index.php:594-600 | The loop collects exactly the referenced files. |
| BlogPhp.UnlinkAll | admin_blog/index.php:612-618 | The count is the number of orphans whose unlink succeeded, and they are the removed files. |
| BlogPhp.Entries | admin_blog/index.php:603-606 | The directory entries are the listing without `.` and `..`, and nothing when there is no directory. |
| BlogPhp.Orphans | admin_blog/index.php:609 | The orphans are exactly the existing files that no row references. |
| BlogPhp.CleanupImages | admin_blog/index.php:579-630 | Without a session it answers 401. Otherwise the removed files are the orphans that could be unlinked, and the count is their number. |
| BlogPhp.OrphanedIff | admin_blog/index.php:594-609 | A file is orphaned iff no stored row's image names it. |
| BlogPhp.MatchStatic | admin_blog/index.php:124 | `/^\/static\/(.+)$/` captures a non-empty rest without a newline. |
| BlogPhp.NotFoundKinds | admin_blog/index.php:210-222 | An unmatched path under `/api/` gets the JSON 404. Any other unmatched path gets the page 404. |
| BlogPhp.PathNormal | admin_blog/index.php:113-114 | Removing `/admin_blog` leaves a path without that text unchanged. |
| BlogPhp.NotStatic | admin_blog/index.php:124-125 | An API path is never served as a static file. |
| BlogPhp.DigitsLackM | admin_blog/index.php:159-175 | A numeric blog path contains no `m`. |
| BlogPhp.PlainIdMatch | admin_blog/index.php:159 | `/api/blogs/<digits>` matches the id pattern with that number. |
| BlogPhp.SuffixIdMatch | admin_blog/index.php:167-175 | `/api/blogs/<digits>/update` and `/popular` match only their own pattern. |
| BlogPhp.ApiReached | admin_blog/index.php:113-222 | With or without the `/admin_blog` prefix, an API path is dispatched by the API cases. |
| BlogPhp.PlainIdDispatch | admin_blog/index.php:159-174 | GET, PUT and DELETE on a numeric id reach get, update and delete. |
| BlogPhp.IdRoutes | admin_blog/index.php:159-174 | With either prefix, GET/PUT/DELETE `/api/blogs/<n>` route to get, update and delete of n. |
| BlogPhp.SuffixRoutes | admin_blog/index.php:167-178 | POST `…/<n>/update` routes to update, and PUT `…/<n>/popular` to the popular toggle. |
| BlogPhp.PopularesNoId | admin_blog/index.php:159-178 | `/api/blogs/populares` matches none of the id patterns. |
| BlogPhp.PopularesReached | admin_blog/index.php:179-181 | GET `/admin_blog/api/blogs/populares` reaches the popular listing. |
| BlogPhp.MimeType | admin_blog/index.php:238-251 | The content type is the table entry for the lower-cased extension, or `application/octet-stream`. |
| BlogPhp.ServeStatic | admin_blog/index.php:226-261 | A missing file is a 404. A served file has its MIME type and one hour of public caching. |
| BlogPhp.ExtensionOf | admin_blog/index.php:238 | The extension of `dir/stem.e` is `e`. |
| BlogPhp.MimeOfName | admin_blog/index.php:238-251 | A file `stem.e` is served with the type listed for lower-cased `e`. |
| BlogList.CardsOf | assets/js/blog.js:77-83 | One card per post, in order. |
| BlogList.TruthyCategories | assets/js/blog.js:146 | The kept categories are exactly the non-empty categories of the posts. |
| BlogList.IndexOf | assets/js/blog.js:146 | The first position of an element, or the length when it is absent. |
| BlogList.DedupeFacts | assets/js/blog.js:146 | `new Set` keeps each value once, every value, in order of first appearance. |
| BlogList.TruthyOrder | assets/js/blog.js:144-146 | A category that comes earlier among the posts' non-empty categories has its first post earlier. |
| BlogList.CategoriesFacts | assets/js/blog.js:144-146 | The category menu lists each non-empty category of the posts exactly once, in the order of each category's first post. |
| BlogList.FilterCards | assets/js/blog.js:354-379 | The filtered cards are exactly the matching cards, in page order. |
| BlogList.LowerKeepsEnds | assets/js/blog.js:352 | Lower-casing and trimming text without edge spaces only lower-cases it. |
| BlogList.TitlePieceFound | assets/js/blog.js:352-375 | Searching any piece of a title, without edge spaces, finds that card. |
| BlogList.NoFilterKeepsAll | assets/js/blog.js:351-379 | With category "all" and empty search, every card is shown. |
| BlogList.WindowFacts | assets/js/blog.js:274-280 | The pager window holds at most three pages within 1..total, and includes the current page when that page is in range. |
| BlogList.PageItems | assets/js/blog.js:291-297 | One item per page of the window, the current one marked. |
| BlogList.PrevNextIff | assets/js/blog.js:267-312 | A previous link appears iff the page is past 1. A next link appears iff it is before the last page. |
| BlogList.PagesExist | assets/js/blog.js:260-314 | Every page number shown exists. |
| BlogList.CurrentMarkedIff | assets/js/blog.js:291-297 | A page is marked current iff it is the current page and in range. |
| BlogList.EndsLinked | assets/js/blog.js:283-305 | The first and last page are links iff they are not the current page. |
| BlogList.DotsIff | assets/js/blog.js:283-305 | Dots appear iff the window leaves a gap after page 1 or before the last page. |
| BlogList.PageSliceFacts | assets/js/blog.js:388-391 | A page shows at most six posts, all from the filtered list. |
| BlogList.PageSliceIsPage | assets/js/blog.js:388-391 | The page shown is the sixth-sized window at the page's offset. It is non-empty iff the page is within the page count. |
| BlogList.ClickStaysInRange | assets/js/blog.js:317-338 | Clicking any pager item keeps the current page between 1 and the page count. |
| BlogList.RenderHead | assets/js/blog.js:266-288 | The start of the bar: the previous link when past page 1, then page 1 and the dots when the window starts later. |
| BlogList.RenderPages | assets/js/blog.js:290-297 | The loop builds one item per visible page. |
| BlogList.RenderTail | assets/js/blog.js:299-312 | The end of the bar: the dots and last page when the window ends earlier, then the next link when before the last page. |
| BlogList.BlogView.constructor | assets/js/blog.js:4-15 | The page starts with no cards, page 1, category "all" and no search. |
| BlogList.BlogView.UpdatePagination | assets/js/blog.js:260-314 | The pager becomes the layout for the current page and page count, and nothing else changes. |
| BlogList.BlogView.ShowCurrentPage | assets/js/blog.js:388-416 | The visible posts become the current page, and the no-results note shows iff nothing matches. |
| BlogList.BlogView.RenderBlogs | assets/js/blog.js:69-93 | No posts leave the list as it was. Otherwise the cards become the posts, all shown, on page 1. |
| BlogList.BlogView.ApplyFilters | assets/js/blog.js:351-385 | The filtered list becomes the cards matching category and search, and the page returns to 1. |
| BlogList.BlogView.Search | assets/js/blog.js:457-461 | Typing sets the search text and filters by it. |
| BlogList.BlogView.FilterByCategory | assets/js/blog.js:172-185 | Choosing a category sets it and filters by it. |
| BlogList.BlogView.ClearAllFilters | assets/js/blog.js:231-257 | Clearing restores category "all" and empty search, and shows every card from page 1. |
| BlogList.BlogView.RemoveFilterChip | assets/js/blog.js:464-485 | Removing the category chip resets the category to "all"; any chip click filters again from page 1. With no search text left, every card is shown. |
| BlogList.BlogView.Click | assets/js/blog.js:317-338 | A pager click moves to the page the item names, within range. |
| AdminDashboard.DateForInput | admin_blog/static/js/script.js:203-228 | An empty date sets nothing. GMT/UTC dates go through `Date`. Other dates keep their text up to the first space or `T`, or unchanged when they have neither. |
| AdminDashboard.DateForInputIdempotent | admin_blog/static/js/script.js:217-224 | Formatting an already formatted date changes nothing. |
| AdminDashboard.UpdateSelectLayout | admin_blog/static/js/script.js:717-733 | The select keeps its first two options followed by the categories in order. |
| AdminDashboard.ChooseThenValue | admin_blog/static/js/script.js:741-772 | After choosing an option, the category read is that option unless it is "nueva" or empty, in which case it is "". The text box shows iff "nueva" was chosen. |
| AdminDashboard.EditThenValue | admin_blog/static/js/script.js:176-199 | After editing a post, the category read back is the post's category when it is a listed option, otherwise its trimmed text. The new-category box is shown exactly when the category is not a listed option. |
| AdminDashboard.CategoryControls.constructor | admin_blog/static/js/script.js:716-720 | The controls start with the given options, none selected and the box hidden. |
| AdminDashboard.CategoryControls.UpdateCategorySelect | admin_blog/static/js/script.js:717-733 | The select becomes its first two options plus the categories. |
| AdminDashboard.CategoryControls.ChangeSelection | admin_blog/static/js/script.js:741-758 | The change handler sets the selection, box and text as `Choose` prescribes. |
| AdminDashboard.CategoryControls.GetCategoryValue | admin_blog/static/js/script.js:764-772 | Returns the trimmed text for "nueva" or empty, otherwise the selection. |
| AdminDashboard.DashboardPagination | admin_blog/static/js/script.js:651-696 | One page or none gives no buttons. Otherwise: a previous button when past page 1, buttons 1..total with the current one active, and a next button before the last page. |
| AdminDashboard.OneActiveButton | admin_blog/static/js/script.js:677-691 | Only the current page's button is active, and it appears iff the page is in range. Previous appears iff the page is past 1. Next appears iff it is before the last page. |
| ParcelLots.UpperRun | assets/js/script-mapa.js:682 | The run of capital letters from a position. |
| ParcelLots.DigitRun | assets/js/script-mapa.js:682 | The run of digits from a position. |
| ParcelLots.FirstLotMatchShape | assets/js/script-mapa.js:682-695 | A match of the block-lot pattern has a non-empty block and lot. |
| ParcelLots.FirstOldMatchShape | assets/js/script-mapa.js:699-705 | A match of the old "Lote" pattern has a non-empty block and lot. |
| ParcelLots.ParseLotId | assets/js/script-mapa.js:680-713 | The id is kept. A block is found iff a lot number is found. |
| ParcelLots.ParseCanonicalId | assets/js/script-mapa.js:682-695 | `LETTERSdigits-lot` parses to that block (letters and digits) and lot. |
| ParcelLots.NoDashNoLotMatch | assets/js/script-mapa.js:682 | Without a dash the block-lot pattern never matches. |
| ParcelLots.ParseOldFormId | assets/js/script-mapa.js:699-705 | `Lote LETTERSlot` parses to that block and lot. |
| ParcelLots.NoFormNoParts | assets/js/script-mapa.js:680-713 | An id in neither form has no block and no lot. |
| ParcelLots.NoOldMatch | assets/js/script-mapa.js:699 | Without "Lote " the old pattern never matches. |
| ParcelLots.DefaultIffUnknown | assets/js/script-mapa.js:183-194 | On a lower-cased status, the default colours come back iff the status is not one of the four switch cases. |
| ParcelLots.StatusColorFacts | assets/js/script-mapa.js:182-195 | The colour ignores letter case. The default blue is used iff the status is not one of the four known ones. |
| ParcelLots.IngestKeys | assets/js/script-mapa.js:135-149 | The key order lists each stored code once, and every stored code. |
| ParcelLots.IngestUntouched | assets/js/script-mapa.js:135-149 | A code not in the reply keeps its entry. |
| ParcelLots.IngestLastWins | assets/js/script-mapa.js:136-148 | A code's entry is the last kept unit with that code, tagged with the stage. |
| ParcelLots.StageUnits | assets/js/script-mapa.js:77-135 | A stage yields units iff its first reply is 2xx with a JSON body, or it was 401 and, after a successful renewal, the retry is 2xx with a JSON body. Every other outcome throws. |
| ParcelLots.StagesStop | assets/js/script-mapa.js:73-165 | A throw in stage 1 leaves `unitsData` empty. A throw in stage 2 keeps only what stage 1 stored. |
| ParcelLots.GetLotInfo | assets/js/script-mapa.js:169-179 | A code has information iff it is stored. The status defaults to "N/A" and the area to 0. |
| ParcelLots.UpdateAll | assets/js/script-mapa.js:309-316 | Each lot takes the API's status and area when the API knows it. |
| ParcelLots.NewLotsOnce | assets/js/script-mapa.js:319-351 | The merge appends each API code not already listed exactly once. |
| ParcelLots.NewLotsAreNew | assets/js/script-mapa.js:322-346 | Appended lots come from the API, were absent, and are "Disponible". |
| ParcelLots.MergeUpdates | assets/js/script-mapa.js:306-316 | After the merge, each existing lot sits at its own position, updated from the API. |
| ParcelLots.UpdatedIds | assets/js/script-mapa.js:309-316 | Updating keeps the set of lot ids. |
| ParcelLots.LotStore.constructor | assets/js/script-mapa.js:63 | The store starts with no units and the given lots. |
| ParcelLots.LotStore.IngestStage | assets/js/script-mapa.js:135-149 | One stage's units are folded into `unitsData`. |
| ParcelLots.LotStore.GetUnitsData | assets/js/script-mapa.js:67-166 | `unitsData` becomes the fold over all stages. The call fails iff some stage fails. |
| ParcelLots.LotStore.UpdateKnownLots | assets/js/script-mapa.js:309-316 | The lots are updated in place from `unitsData`. |
| ParcelLots.LotStore.AppendMissingLots | assets/js/script-mapa.js:319-351 | The missing API lots are appended in key order. |
| ParcelLots.LotStore.MergeIntoLots | assets/js/script-mapa.js:306-351 | The lots become the merge of the old lots with `unitsData`. Nothing changes when there is no API data. |
| ParcelSearch.Filter | assets/js/script-mapa.js:1024-1033 | The kept lots are exactly those passing, in order. |
| ParcelSearch.Blank | assets/js/script-mapa.js:1036 | Characters other than letters, digits, space and `-` become spaces, one for one. |
| ParcelSearch.SeparatorIndex | assets/js/script-mapa.js:1037 | The first space or dash. |
| ParcelSearch.Tokens | assets/js/script-mapa.js:1037 | The parts are non-empty and contain no separator. |
| ParcelSearch.NumberParts | assets/js/script-mapa.js:1040 | The number parts are exactly the all-digit parts. |
| ParcelSearch.BlockPart | assets/js/script-mapa.js:1043 | The block part is the first query part that holds a lower-case letter; it is empty exactly when no part has one. |
| ParcelSearch.RemoveSpaces | assets/js/script-mapa.js:1077 | The result has no white space. |
| ParcelSearch.SearchFacts | assets/js/script-mapa.js:1021-1079 | Results are the stage's lots, in their order. An empty or blank text returns every lot of the stage. |
| ParcelSearch.IdContainingQueryFound | assets/js/script-mapa.js:1045-1057 | A lot of the stage whose lower-cased id contains the normalised query is always found. |
| ParcelSearch.NoLoteWordUnchanged | assets/js/script-mapa.js:1036 | Where no whole word "lote" starts at or after a position, the removal leaves the rest of the query as it is. |
| ParcelSearch.LoteWordDropped | assets/js/script-mapa.js:1036 | An example: the query "lote a1" loses its whole word "lote" and searches as " a1". |
| ParcelSearch.InsertSorted | assets/js/script-mapa.js:941-953 | Inserting keeps every lot and adds one. |
| ParcelSearch.InsertKeepsSorted | assets/js/script-mapa.js:941-953 | Inserting into an ordered list keeps it ordered. |
| ParcelSearch.SortLots | assets/js/script-mapa.js:941-953 | The sorted list is a permutation of the lots. |
| ParcelSearch.SortLotsSorted | assets/js/script-mapa.js:941-953 | The list is in the chosen area order. The default order leaves it as it was. |
| ParcelSearch.ResultLotsFacts | assets/js/script-mapa.js:911-953 | The rendered lots are the search results passing the area and status filters, in the chosen order. |
| ParcelSearch.Find | assets/js/script-mapa.js:1086-1098 | `find` returns a passing lot iff one exists, and the one it returns is the first that passes. |
| ParcelSearch.DetailLotFacts | assets/js/script-mapa.js:1082-1098 | A lot is found iff one with that id exists in the stage. In stage 1 it is the first lot with that id whose block has no "2". In stage 2, or whenever a lot with that id has a "2" in its block, it is the first such lot. Otherwise it is the first lot with that id. |
| ParcelUi.AcceptedFacts | assets/js/script-mapa.js:1348 | The throttled function runs only at call times, in order, never twice within `wait`. A call is dropped only when it comes too soon. |
| ParcelUi.SpreadCallsAllRun | assets/js/script-mapa.js:1348 | Calls a full `wait` apart all run. |
| ParcelUi.SpreadFrom | assets/js/script-mapa.js:1348 | The same from any starting `last`. |
| ParcelUi.Throttle.constructor | assets/js/script-mapa.js:1348 | `last` starts at 0. |
| ParcelUi.Throttle.Call | assets/js/script-mapa.js:1348 | A call runs iff `wait` has passed since `last`, and only then moves `last`. |
| ParcelUi.HandlersKeepOnePanel | assets/js/script-mapa.js:981-987 | Every handler leaves at most one panel open, each button active exactly with its panel. |
| ParcelUi.BackUndoesShowDetail | assets/js/script-mapa.js:852-866 | "Back" after opening a lot's details restores exactly the panels shown before. |
| ParcelUi.BackFromDetailOverDetail | assets/js/script-mapa.js:1100-1113 | Opening details over details remembers nothing, so back closes everything. |
| ParcelUi.MapPanels.constructor | assets/js/script-mapa.js:849 | The page starts with every panel closed. |
| ParcelUi.MapPanels.HideAllPanels | assets/js/script-mapa.js:981-987 | All panels are hidden, both buttons inactive, and the remembered panel kept. |
| ParcelUi.MapPanels.ShowLotDetail | assets/js/script-mapa.js:1100-1113 | The open panel is remembered and the details shown alone. |
| ParcelUi.MapPanels.BackToPrevious | assets/js/script-mapa.js:852-866 | The remembered panel reopens, or everything closes, and it is forgotten. |
| ParcelUi.SearchDetailBack | assets/js/script-mapa.js:1258-1264 | Search list, details, back: the search list is shown again. |
| ParcelUi.SectorSize | assets/js/script-mapa.js:375-379 | Exactly the three stages have an image size. |
| ParcelUi.BoundsAreImage | assets/js/script-mapa.js:381-383 | A point is within a stage's bounds iff it is on its image. |
| Landing.MovesWrapAround | assets/js/script.js:516-526 | Next and previous stay in range, wrap around, and undo each other. |
| Landing.Advance | assets/js/script.js:540-545 | Repeated advancing stays in range. |
| Landing.AdvanceIsModular | assets/js/script.js:540-545 | Advancing n times from i lands on `(i + n) % total`. |
| Landing.MarkActive | assets/js/script.js:503-511 | Exactly the indicator at the current index is active. |
| Landing.OnlyActiveCount | assets/js/script.js:503-511 | At most one indicator is active, and none when the index has no indicator. |
| Landing.Carousel.constructor | assets/js/script.js:483-495 | The carousel starts at slide 0 and leaves the indicators as the page's markup has them. |
| Landing.Carousel.UpdateCarousel | assets/js/script.js:498-512 | The indicator of the current slide is on and every other is off. |
| Landing.Carousel.Next | assets/js/script.js:516-519 | The next slide, wrapping to the first; only its indicator is on. |
| Landing.Carousel.Prev | assets/js/script.js:523-526 | The previous slide, wrapping to the last; only its indicator is on. |
| Landing.Carousel.GoTo | assets/js/script.js:530-536 | An indicator click moves to its slide; only that indicator is on. |
| Landing.PlaceIsCircular | assets/js/script.js:719-733 | With three or more slides, a slide is active, prev or next exactly at the active, previous and next circular positions. |
| Landing.PlaceFewSlides | assets/js/script.js:719-733 | With one or two slides, the other slide is always marked prev. |
| Landing.UpdateSlideClasses | assets/js/script.js:703-735 | Each slide with a card gets the class of its placement, and the rest are untouched. |
| Landing.MissingFields | assets/js/script.js:34-35 | The missing fields are exactly the required fields left empty. |
| Landing.SubmitOrder | assets/js/script.js:21-64 | Unaccepted terms are reported first, whatever else is missing. Then a missing name, DNI or phone. Otherwise the message carries the entered name, DNI and phone, the entered e-mail or "No proporcionado", and the entered message or "Sin mensaje adicional". |

## Left out

- Network, DOM, timers and third-party libraries are not modelled: the HTTP servers, `fetch`, Leaflet layers and polygons, Swiper, Cloudinary, the MySQL/PDO connection and sessions. Their results are parameters.
- Login, logout, `get_blog_by_id`, categories listing, `/ping_db`, `/debug_mysql` and the page routes only read or render. The model routes to them but does not model their bodies.
- Floating point is not modelled. Lot areas are integers: `parseFloat` of the area text and `parseInt` of the range inputs become integer comparisons.
- AdminDashboard.DateForInput: stops at `ThroughDate` for GMT/UTC dates, because the calendar arithmetic of `Date` is not modelled.
- AdminDashboard.CategoryControls.UpdateCategorySelect: the browser's reselection when the selected option is removed is not modelled. The selection is kept as text.
- ParcelSearch.SortLots: states a permutation in area order but not stability. `Array.prototype.sort` is stable.
- Text.Lower: lower-cases ASCII letters only. The sources lower-case Spanish words written in ASCII.
- Keys are taken in insertion order. `Object.keys` lists integer-like keys first, and lot codes are never integer-like.
- Early returns when a DOM element is missing are not modelled (no select, no pager container, no carousel). The handlers are modelled on pages that have them.
- The blog tag filter is not modelled. Its list is always empty, so it never fails.
- The click listener that `updatePagination` adds anew on each call is modelled as one listener. Accumulated listeners would advance the page several times per click.
- The Douglas-Peucker simplification of polygons, counter and hero animations, the scroll progress bar, the mobile menu, the promo bar, toasts and WhatsApp links are presentation only.
- Database errors and PDO exceptions are not modelled. Their replies are fixed texts without state change.
- BlogPhp.IntVal: reads an optional sign and the leading decimal digits, unbounded. PHP's `intval` (index.php:317-318) also reads numeric strings with an exponent (`"1e1"` gives 10 since PHP 7.1) and saturates at `PHP_INT_MAX`; neither is modelled.
- BlogPhp.TogglePopular and BlogFlask.TogglePopular: `es_popular` is taken as an already decoded boolean, or none when absent (index.php:516, app.py:460). JSON truthiness of other values (`1`, `"yes"`, `[]`) is not modelled.
- Requests reach the model already parsed: method, path, query arguments, form fields and JSON members. URL decoding, query-string and multipart parsing are not modelled. For the PHP update the parsed form passes through `PostedForm`, since PHP fills `$_POST` and `$_FILES` for a POST only.
- ParcelSearch.LoteWordDropped: is one example query. That no whole word "lote" is left in any query after the removal is not proved; `NoLoteWordUnchanged` states only that text without one passes unchanged.

## Findings

| source | as written | input that shows it | evidently intended | confidence | as-written member | corrected member |
|---|---|---|---|---|---|---|
| admin_blog/index.php:163-165 | `PUT /api/blogs/<id>` calls `apiUpdateBlog`, which reads only `$_POST` and `$_FILES`. PHP leaves both empty for a PUT, and `parseFormData` is never called. | The dashboard's edit, `fetch('api/blogs/7', {method: 'PUT', body: formData})` (admin_blog/static/js/script.js:288) with a new title: answered "no se modifico ningun dato", post unchanged. | The edit form reaches the update, as it does over `POST /api/blogs/<id>/update` and under Flask. | high (PHP request parsing; not executed) | BlogPhp.UpdateRequest, BlogPhp.DashboardEditLost | BlogPhp.UpdateBlog |
