# CESKT trainer community — a Dafny model of its client logic

CESKT is a React front end over a Supabase backend: a community board of
posts with likes, bookmarks, comments and view counts; trainer searches; a
list of continuing-education courses; and a post editor. This project models
the parts of the client that decide something. Those are:

- the engagement state of the post detail page (like, bookmark, comments and
  the view record), as a class whose methods take the backend's answer as a
  parameter;
- the board list: viewer ids for signed-in users and guests, author
  enrichment, the category and title filter, page count and page slice, and
  the pagination bar;
- the three trainer searches (search modal, trainer directory, trainer page)
  and the course filter;
- small string logic: the route title in the top bar, the text preview cut,
  the specialty string and the post editor's submit sequence.

JavaScript semantics are written out where they matter:

- truthiness of strings and nulls;
- `toLowerCase` on ASCII letters;
- `includes`;
- `trim` with the ECMAScript whitespace set;
- `length` and `slice` of the preview text, counted in UTF-16 code units, with clamped bounds;
- `Math.ceil(n / 5)`;
- `??` and `||` defaults;
- `Array.prototype.find` taking the first match.

Every backend call becomes a parameter. This covers the auth session, query
results and the outcome of a write. An outcome is `Ok`, `DuplicateKey` (code
23505) or `OtherError`.

Files:

- `opt.dfy` and `strings.dfy`: shared definitions (`Option`, JavaScript string operations).
- `seqs.dfy`: filter, some, dedupe and slice with their properties.
- `views.dfy`: the `post_views` upsert.
- `identity.dfy`: viewer and guest ids.
- `authors.dfy`: author lookup and enrichment.
- One file per page or component: `post_detail.dfy`, `board.dfy`,
  `pagination.dfy`, `board_section.dfy`, `post_card.dfy`, `text_preview.dfy`,
  `trainer_search.dfy`, `education.dfy`, `topnav.dfy`, `post_write.dfy`.

Where the code differs from the intent one might read into it, the model
follows the code. These cases are stated as lemmas:

- A 23505 on a like insert still adds one to the shown count
  (`PostDetail.DuplicateKeyOvercounts`).
- The board's initial category "개체" is not one of its chips. The "전체" chip
  therefore filters literally (`Board.AllChipFiltersLiterally`).
- The trainer page matches its own placeholder text "전문 분야 미입력", and the
  modal does not (`TrainerSearch.PageFindsPlaceholder`).
- The trainer page calls `toLowerCase` on a trainer's location without a
  null check. A trainer with a null location whose name does not match makes
  the filter throw, where the modal simply finds it by its specialty
  (`TrainerSearch.NullLocationBreaksPage`).
- The preview's limit of 60 counts UTF-16 code units, so text of 31 emoji is
  cut after 30 of them (`TextPreview.EmojiTextIsCut`).
- The previous-page target lies at or below the current page only from page 1
  upward (`Pagination.PrevTarget`).

## Model

| member | source | states |
|---|---|---|
| PostDetail.LikeToggled | src/pages/PostDetailPage.tsx:125-162 | the like flag flips exactly on a successful write, or on a 23505 answer to an insert; the count moves with the viewer's own like by exactly one and is otherwise unchanged |
| PostDetail.BookmarkToggled | src/pages/PostDetailPage.tsx:165-202 | the bookmark flips exactly for a signed-in non-guest user whose delete succeeded, or whose insert succeeded or hit 23505; a null or `guest-` id changes nothing |
| PostDetail.PostDetailPage.constructor | src/pages/PostDetailPage.tsx:10-17 | the page starts loading, not liked, not bookmarked, with count 0, no comments and an empty comment box |
| PostDetail.PostDetailPage.InitUser | src/pages/PostDetailPage.tsx:49-67 | the user id is set from a successful auth call and otherwise left as it was |
| PostDetail.PostDetailPage.FetchPost | src/pages/PostDetailPage.tsx:73-97 | nothing happens without a user and post id; a failed load only ends loading; a successful one sets the comments (empty when null), records the view as an upsert keyed by post and user, and ends loading |
| PostDetail.PostDetailPage.FetchMeta | src/pages/PostDetailPage.tsx:100-121 | once ready, liked iff a like row was found, bookmarked iff a bookmark row was found, count the reported count or 0 when missing; the like state is `LoadedLikes` of the answers |
| PostDetail.PostDetailPage.ToggleLike | src/pages/PostDetailPage.tsx:125-162 | without a user the like state is unchanged; otherwise it becomes `LikeToggled` of the old state; its frame excludes bookmarks and comments |
| PostDetail.PostDetailPage.ToggleBookmark | src/pages/PostDetailPage.tsx:165-202 | the bookmark becomes `BookmarkToggled` of the old one; its frame excludes likes and comments |
| PostDetail.PostDetailPage.EditComment | src/pages/PostDetailPage.tsx:344 | the comment box holds the typed text |
| PostDetail.PostDetailPage.SubmitComment | src/pages/PostDetailPage.tsx:205-227 | blank text or a failed update leaves comments and text unchanged; success puts the new comment in front of the old list and clears the text |
| PostDetail.NewComment | src/pages/PostDetailPage.tsx:209-215 | the new comment carries the typed text unchanged, the author "나" with its image, the time "방금" and the current time as its id |
| PostDetail.CanBookmark | src/pages/PostDetailPage.tsx:166 | bookmarking is allowed exactly for a present, non-empty id that does not start with `guest-` |
| PostDetail.GuestCannotBookmark | src/pages/PostDetailPage.tsx:166 | a viewer without a session, who browses under a `guest-` id, cannot bookmark; a signed-in user with a real id can |
| PostDetail.LikeRoundTrip | src/pages/PostDetailPage.tsx:128-160 | a successful like followed by a successful unlike restores the like state |
| PostDetail.MetaLoadSyncs | src/pages/PostDetailPage.tsx:115-117 | a load whose answers reflect the backend (the viewer's row found exactly when it exists, the exact count) leaves the page agreeing with the like rows, and it still agrees after any series of toggles |
| PostDetail.FailedLoadOutOfSync | src/pages/PostDetailPage.tsx:115-117 | a failed count while like rows exist, or a lookup that misreports the viewer's row, leaves the page out of step with the backend |
| PostDetail.ToggleKeepsSync | src/pages/PostDetailPage.tsx:125-162 | with no other writer, a toggle answered by the backend keeps flag and count in agreement with the like rows |
| PostDetail.TogglesKeepSync | src/pages/PostDetailPage.tsx:125-162 | the agreement survives any sequence of toggles, failing or not |
| PostDetail.DuplicateKeyOvercounts | src/pages/PostDetailPage.tsx:148-160 | after a load whose lookup missed the viewer's row while the count was 1, the page is out of step, and a 23505 answer then shows two likes where one row exists |
| Views.Upsert | src/pages/PostDetailPage.tsx:87-89 | the row is present afterwards, no other row is added, an existing row leaves the table unchanged, and no duplicate appears |
| Views.UpsertIdempotent | src/pages/PostDetailPage.tsx:87-89 | recording the same view twice equals recording it once |
| Views.UpsertAll | src/pages/BoardPage.tsx:60-68 | afterwards the table holds the old rows plus one row per listed post for the viewer, and no duplicates |
| Views.UpsertAllPresent | src/pages/BoardPage.tsx:60-68 | when every view is already recorded, the upserts change nothing |
| Views.UpsertAllIdempotent | src/pages/BoardPage.tsx:60-68 | loading the board list twice records no view twice |
| Identity.GuestIdFrom | src/pages/BoardPage.tsx:31 | a stored non-empty guest id is reused; otherwise the fresh UUID is taken |
| Identity.ViewerId | src/pages/BoardPage.tsx:33 | the signed-in id when there is one, else `guest-` followed by the guest id |
| Identity.GuestStore.constructor | src/pages/BoardPage.tsx:31 | the store starts with the browser's stored items |
| Identity.GuestStore.ResolveViewer | src/pages/BoardPage.tsx:27-33 | the key `guest_id` holds the guest id afterwards; a stored one is reused and the storage is unchanged; the viewer id is built from it |
| Identity.GuestIdStable | src/pages/BoardPage.tsx:31-32 | once written, the guest id is returned again by every later load |
| Identity.GuestAndUserIdsDiffer | src/pages/BoardPage.tsx:33 | a guest viewer id differs from any signed-in id that does not itself start with `guest-` |
| Authors.FirstTrainer | src/pages/BoardPage.tsx:49 | the index found holds a row with the post's user id and no earlier row does; none found means no row matches |
| Authors.Author | src/pages/BoardPage.tsx:49 | the author found is the first row of the query result with the post's user id; none is found exactly when the query failed or no row has that id |
| Authors.Enrich | src/pages/BoardPage.tsx:48-56 | post count and order are kept; the name and image are the first matching row's (each defaulting when null), else "익명" and the placeholder; the board list adds the thumbnail or "" and the home section none |
| Authors.UserIdsOf | src/pages/BoardPage.tsx:42 | every post's user id, in order |
| Seqs.Dedupe | src/pages/BoardPage.tsx:42 | `[...new Set(xs)]`: no duplicates, exactly the members of the input, in first-occurrence order |
| Board.FilteredPosts | src/pages/BoardPage.tsx:74-80 | an order-preserving subsequence of the posts holding exactly those in the active category (any category under "개체") whose title contains the query, ignoring case, each as often as in the input |
| Board.TotalPages | src/pages/BoardPage.tsx:82 | the fewest five-post pages that hold all filtered posts |
| Board.CurrentPosts | src/pages/BoardPage.tsx:83-86 | at most five posts, all from the filtered list, exactly the page's slice, and non-empty for any page from 1 to the page count |
| Board.PaginationMeansSeveralPages | src/pages/BoardPage.tsx:153 | the bar is shown exactly when there are at least two pages |
| Board.BoardPage.constructor | src/pages/BoardPage.tsx:19-22 | no posts, category "개체", empty query, page 1 |
| Board.BoardPage.FetchPosts | src/pages/BoardPage.tsx:25-72 | the viewer id and guest id are resolved; on a failed query nothing else changes; otherwise the posts are the enriched rows, the author ids are deduplicated, and a view is upserted for each post |
| Board.BoardPage.SetSearchQuery | src/pages/BoardPage.tsx:110-113 | the query is set and the page goes back to 1 |
| Board.BoardPage.SelectCategory | src/pages/BoardPage.tsx:130-133 | the category is set and the page goes back to 1 |
| Board.BoardPage.ClickPagination | src/pages/BoardPage.tsx:153-160 | the page becomes the click's target; from a page in range it stays in range and shows at least one post |
| Board.PostIds | src/pages/BoardPage.tsx:64 | the id of each post, in order |
| Board.LoadRecordsEveryView | src/pages/BoardPage.tsx:60-68 | after a load every listed post has a view row for the viewer and no row is duplicated |
| Board.InitialCategoryListsAll | src/pages/BoardPage.tsx:20 | under the initial category with an empty search, every post is listed in order |
| Board.AllChipFiltersLiterally | src/pages/BoardPage.tsx:7-14 | "전체" is a chip and "개체" is not; under "전체" only posts whose category is literally "전체" are listed |
| Board.SearchIgnoresCase | src/pages/BoardPage.tsx:78-80 | queries with the same lower-case form list the same posts |
| Pagination.PrevTarget | src/components/board/Pagination.tsx:17 | at least 1, one below the page from page 2 up, and never above the page from page 1 up |
| Pagination.NextTarget | src/components/board/Pagination.tsx:39 | at most the page count, and one above the page below it |
| Pagination.PageNumbers | src/components/board/Pagination.tsx:25 | exactly the numbers 1 to the page count, strictly increasing, one button each |
| Pagination.Target | src/components/board/Pagination.tsx:17-39 | a page button reports its own number; previous and next report their clamped targets |
| Pagination.TargetsInRange | src/components/board/Pagination.tsx:17-39 | from a page in range, every click on the bar reports a page in range |
| Pagination.PrevDisabledIffStays | src/components/board/Pagination.tsx:18 | on every page, previous is disabled exactly when it would not move |
| Pagination.NextDisabledIffStays | src/components/board/Pagination.tsx:40 | on every page, next is disabled exactly when it would not move |
| TrainerSearch.AnyFieldHitsIff | src/components/SearchModal.tsx:29-37 | the field test passes iff some non-empty string field contains the query, ignoring case |
| TrainerSearch.ModalSearch | src/components/SearchModal.tsx:28-38 | an order-preserving subsequence holding exactly the matching trainers, each as often as in the input |
| TrainerSearch.ModalFieldStrings | src/components/SearchModal.tsx:28-32 | the strings offered to the test are the name, the non-null location, and the specialty's items or its string |
| TrainerSearch.ModalMatchesIff | src/components/SearchModal.tsx:29-37 | a trainer matches iff its name, non-null location or one of its specialties is non-empty and contains the query; a null specialty offers nothing |
| TrainerSearch.ModalEmptyQuery | src/components/SearchModal.tsx:34-37 | with an empty query, exactly the trainers having some non-empty field are found |
| TrainerSearch.ModalIgnoresCase | src/components/SearchModal.tsx:36 | queries with the same lower-case form find the same trainers |
| TrainerSearch.DirectorySearch | src/sections/TrainerDirectory.tsx:45-55 | an order-preserving subsequence holding exactly the matching trainers, each as often as in the input |
| TrainerSearch.DirectoryMatchesIff | src/sections/TrainerDirectory.tsx:46-54 | a trainer matches iff its non-empty name, location or specialty contains the query, ignoring case |
| TrainerSearch.DirectoryIsModal | src/sections/TrainerDirectory.tsx:45-55 | the directory's test is the modal's for a trainer with a single string specialty |
| TrainerSearch.DirectoryEmptyQuery | src/sections/TrainerDirectory.tsx:50-54 | with an empty query, exactly the trainers with a non-empty field are found |
| TrainerSearch.SpecialtyString | src/pages/TrainerPage.tsx:35-39 | a list is joined with ", " and every item occurs in the result; a string is itself; null is "전문 분야 미입력" |
| TrainerSearch.PageSearch | src/pages/TrainerPage.tsx:41-48 | the filter throws exactly when some trainer has a null location and a name that does not contain the query; otherwise an order-preserving subsequence holding exactly the trainers whose name, location or specialty string contains the query, ignoring case, each as often as in the input |
| TrainerSearch.PageEmptyQueryKeepsAll | src/pages/TrainerPage.tsx:44-46 | an empty query never throws and keeps every trainer, in order |
| TrainerSearch.ModalHitIsPageHit | src/pages/TrainerPage.tsx:41-48 | every trainer the modal's test finds, the trainer page's test finds too, unless the page throws on it |
| TrainerSearch.PageFindsPlaceholder | src/pages/TrainerPage.tsx:38 | a trainer without specialty matches "미입력" on the trainer page, without throwing, and not in the modal |
| TrainerSearch.NullLocationBreaksPage | src/pages/TrainerPage.tsx:45 | a trainer with a null location and specialty "요가" is found by the modal for "요가", while the trainer page's filter throws on it |
| Education.FilteredCourses | src/pages/EducationPage.tsx:39-47 | an order-preserving subsequence holding exactly the courses whose type or format is the chip (any under "전체") and whose title contains the query, ignoring case, each as often as in the input |
| Education.AllWithEmptyQueryListsAll | src/pages/EducationPage.tsx:17-18 | the initial chip "전체" with an empty query lists every course in order |
| Education.OnlineChipExcludes | src/pages/EducationPage.tsx:40-43 | under "온라인" every listed course has type or format "온라인" |
| Education.ChipNarrows | src/pages/EducationPage.tsx:40-43 | every chip lists a part of what "전체" lists |
| Education.EmptyQueryTestRedundant | src/pages/EducationPage.tsx:45 | the `query === ""` test changes nothing, since every title contains the empty string |
| Education.QueryIgnoresCase | src/pages/EducationPage.tsx:45 | queries with the same lower-case form list the same courses |
| TopNav.Title | src/components/TopNav.tsx:55-64 | `/board/write…` is "글쓰기", ahead of other `/board/…` paths ("게시글 보기"); `/board` is "게시판"; `/trainers/…` is "트레이너 프로필"; `/trainers` is "트레이너 찾기"; `/login` is "로그인"; the default title appears exactly on every other path |
| TopNav.TitleSource | src/components/TopNav.tsx:57-61 | board titles come only from paths under `/board`, trainer titles only from paths under `/trainers` |
| TopNav.IsHome | src/components/TopNav.tsx:66 | the home page `/` carries the default title |
| TopNav.BackButtonShown | src/components/TopNav.tsx:72 | the back button is missing exactly on `/`, so every page with a title of its own has one |
| TopNav.ProfileMenuShown | src/components/TopNav.tsx:96 | the menu is shown only to a signed-in user, and a click on the icon while it is open closes it |
| TopNav.UserIconClick | src/components/TopNav.tsx:47-53 | with an email the click toggles the profile menu; without one it navigates to `/login` |
| TopNav.ClickTogglesMenu | src/components/TopNav.tsx:47-53 | after a click the menu is on screen iff the user is signed in and it was closed; a second click restores the first state |
| PostWrite.SubmitStatus | src/pages/PostWritePage.tsx:20-58 | success only for a complete form from a signed-in user whose insert succeeded; the missing-fields, login and failure messages each appear exactly in their case, in the handler's order; a success always reads "등록 완료" |
| PostWrite.PostWriteForm.constructor | src/pages/PostWritePage.tsx:10-15 | empty fields, not submitting, no status |
| PostWrite.PostWriteForm.SetTitle | src/pages/PostWritePage.tsx:112 | the title holds the typed text |
| PostWrite.PostWriteForm.SetContent | src/pages/PostWritePage.tsx:119 | the content holds the editor's HTML |
| PostWrite.PostWriteForm.SelectCategory | src/pages/PostWritePage.tsx:95-98 | the category becomes the chosen dropdown entry |
| PostWrite.PostWriteForm.BeginSubmit | src/pages/PostWritePage.tsx:20-38 | the status is cleared; an incomplete form or a missing session ends with its error and not submitting; otherwise the form is submitting and the payload carries the fields and the session's user id |
| PostWrite.PostWriteForm.FinishSubmit | src/pages/PostWritePage.tsx:50-58 | "등록 완료" on success, "등록 실패" on failure, and not submitting either way |
| PostWrite.PostWriteForm.Submit | src/pages/PostWritePage.tsx:20-58 | whatever happens the form ends not submitting with the status `SubmitStatus` names; a row is sent only for a complete form from a signed-in user, under that user's id |
| PostWrite.BlankTitleRefused | src/pages/PostWritePage.tsx:22-25 | a title of spaces alone is refused like an empty one |
| BoardSection.AuthorIds | src/sections/BoardSection.tsx:43 | no duplicates, no null or empty ids, every post's non-empty user id, and nothing that is not some post's id |
| BoardSection.SectionPosts | src/sections/BoardSection.tsx:49-56 | one entry per post in order, the post itself unchanged; with a trainer row its name and image, each defaulting to "익명" and the 24x24 placeholder when null; without one "익명" and the placeholder |
| TextPreview.Truncate | src/components/board/PostCard.tsx:21 | counted in UTF-16 code units: text up to the limit is unchanged; longer text keeps its first `maxLength` code units and gains "..."; never longer than the limit plus three |
| TextPreview.Utf16Astral | src/components/board/PostCard.tsx:21 | every character outside the Basic Multilingual Plane counts twice toward `length` |
| TextPreview.EmojiTextIsCut | src/components/board/PostCard.tsx:21 | 31 emoji are 62 code units, so at the default limit they are cut to their first 60 code units plus "..." |
| TextPreview.ExtractedText | src/sections/BoardSection.tsx:8 | the text content when non-empty, else the inner text, and empty only when both are |
| TextPreview.ExtractTextFromHtml | src/sections/BoardSection.tsx:5-10 | at most the limit plus three code units, and empty only when the page holds no text |
| TextPreview.DefaultPreviewBound | src/components/board/PostCard.tsx:17 | with the default limit of 60, a preview has at most 63 code units |
| TextPreview.TruncateIdempotent | src/components/board/PostCard.tsx:21 | cutting a preview again gives the same preview |
| PostCard.ThumbnailSrc | src/components/board/PostCard.tsx:48 | the thumbnail when there was no load error and it is non-empty, else the fallback; never empty |
| PostCard.ProfileSrc | src/components/board/PostCard.tsx:75 | the author image when non-empty, else the fallback; never empty |
| PostCard.Preview | src/components/board/PostCard.tsx:66-68 | shown iff the post has content; at most 63 code units; the whole extracted text when it fits |
| PostCard.CardImage.constructor | src/components/board/PostCard.tsx:37 | a card starts with its thumbnail and no load error |
| PostCard.CardImage.OnError | src/components/board/PostCard.tsx:37-50 | after a load error the flag is set and the image shows the fallback; a later error changes nothing, and no other operation clears the flag |
| PostCard.ErrorMeansFallback | src/components/board/PostCard.tsx:48 | once the image failed, the source is the fallback whatever the thumbnail |

## Left out

- Supabase itself is not modelled. The auth calls, queries, inserts, deletes and upserts are replaced by their results, passed in as parameters.
- The HTML-to-text step of `extractTextFromHTML` is not modelled. The browser's `textContent` and `innerText` are inputs.
- Strings outside the preview are sequences of code points, not of UTF-16 code units. `includes`, `startsWith` and `trim` give the same answers either way for the inputs they get, but the model does not prove that.
- The trainer page's `name` is a string in the model. A null name would make its `toLowerCase` throw as well; only the null location is modelled.
- `toLowerCase` is modelled on ASCII letters only. Other characters, Hangul included, are left as they are, and Unicode case mapping is not modelled.
- `maxLength` is a natural number. A negative or fractional limit passed to `slice` is not modelled; every caller uses the default 60.
- Asynchrony is not modelled: `await`, `Promise.all`, effect ordering, `setTimeout` navigation after a post is saved, and interleaving with other writers. Each handler runs to completion between its awaits. `PostWrite.PostWriteForm` splits the submit at the insert's await.
- The realtime subscription and `onAuthStateChange` in the top bar are not modelled. The session lookup that sets the email and name is an input.
- The board list's view upserts are assumed to succeed. Their results are awaited but never inspected.
- The post detail page's `fetchAuthorInfo` (name and image of the author shown on the page), `handleShare` and the post body rendering are not modelled. They only fill in display fields.
- `alert`, `console` output, navigation other than the user-icon redirect, styling and date formatting are not modelled.
- `Board.BoardPage.ClickPagination`: only the clicks the bar offers are modelled, so the page buttons carry numbers from 1 to the page count.
- The trainer search modal's record type declares the specialty as a list or null. Data read from the database may also be a single string, and the model accepts that case too, as the code does.
