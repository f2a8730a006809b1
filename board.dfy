/**
 * The board list page: it loads the posts with their authors, records a
 * view of each for the current viewer, and shows the posts that pass the
 * category chip and the title search, five to a page.
 */
module Board {

  import opened Opt
  import opened JsStrings
  import opened Seqs
  import opened Views
  import opened Identity
  import opened Authors
  import opened Pagination

  const PostsPerPage := 5

  /** The category the page starts with. It is not one of the chips below. */
  const InitialCategory := "개체"

  /** The category chips offered. */
  const Categories := ["전체", "웨이트 트레이닝", "영양 정보", "근골격계 정보", "운동 루틴", "논문 분석"]

  const BoardPlaceholder := "https://placehold.co/40x40?text=👤"

  predicate InCategory(p: EnrichedPost, activeCategory: string) {
    activeCategory == InitialCategory || p.post.category == activeCategory
  }

  predicate TitleMatches(p: EnrichedPost, query: string) {
    ContainsIgnoreCase(p.post.title, query)
  }

  /** `posts.filter(category test).filter(title test)`. */
  function FilteredPosts(posts: seq<EnrichedPost>, activeCategory: string, query: string): (r: seq<EnrichedPost>)
    ensures IsSubsequence(r, posts)
    ensures forall p :: p in r <==> p in posts && InCategory(p, activeCategory) && TitleMatches(p, query)
    ensures forall p ::
      multiset(r)[p] == if InCategory(p, activeCategory) && TitleMatches(p, query) then multiset(posts)[p] else 0
  {
    FilterFilter(posts, p => InCategory(p, activeCategory), p => TitleMatches(p, query),
                 p => InCategory(p, activeCategory) && TitleMatches(p, query));
    Filter(Filter(posts, p => InCategory(p, activeCategory)), p => TitleMatches(p, query))
  }

  /** `Math.ceil(n / 5)`: the fewest five-post pages that hold `n` posts. */
  function TotalPages(n: nat): (r: nat)
    ensures n <= r * PostsPerPage
    ensures r == 0 || (r - 1) * PostsPerPage < n
  {
    (n + PostsPerPage - 1) / PostsPerPage
  }

  /** `filtered.slice((page - 1) * 5, page * 5)`. */
  function CurrentPosts(filtered: seq<EnrichedPost>, page: int): (r: seq<EnrichedPost>)
    ensures |r| <= PostsPerPage
    ensures forall p :: p in r ==> p in filtered
    ensures 1 <= page && page * PostsPerPage <= |filtered| ==>
      r == filtered[(page - 1) * PostsPerPage..page * PostsPerPage]
    ensures 1 <= page && (page - 1) * PostsPerPage <= |filtered| < page * PostsPerPage ==>
      r == filtered[(page - 1) * PostsPerPage..]
    ensures 1 <= page <= TotalPages(|filtered|) ==> |r| > 0
  {
    Slice(filtered, (page - 1) * PostsPerPage, page * PostsPerPage)
  }

  /** The pagination bar is rendered only when there is more than one page's worth. */
  predicate ShowPagination(filtered: seq<EnrichedPost>) {
    |filtered| > PostsPerPage
  }

  lemma PaginationMeansSeveralPages(filtered: seq<EnrichedPost>)
    ensures ShowPagination(filtered) <==> TotalPages(|filtered|) >= 2
  {
  }

  class BoardPage {
    var posts: seq<EnrichedPost>
    var activeCategory: string
    var searchQuery: string
    var currentPage: int

    ghost predicate Valid()
      reads this
    {
      currentPage >= 1
    }

    constructor ()
      ensures Valid()
      ensures posts == [] && activeCategory == InitialCategory && searchQuery == "" && currentPage == 1
    {
      posts := [];
      activeCategory := InitialCategory;
      searchQuery := "";
      currentPage := 1;
    }

    function Filtered(): seq<EnrichedPost>
      reads this
    {
      FilteredPosts(posts, activeCategory, searchQuery)
    }

    function Total(): nat
      reads this
    {
      TotalPages(|Filtered()|)
    }

    function Visible(): seq<EnrichedPost>
      reads this
    {
      CurrentPosts(Filtered(), currentPage)
    }

    /**
     * `fetchPosts`: resolve the viewer, load the posts (`rawPosts` is null on
     * error) and their authors, then upsert one view per post into `views`.
     * Returns the viewer id and the deduplicated author ids it queried.
     */
    method FetchPosts(store: GuestStore, authId: Option<string>, freshUuid: string,
                      rawPosts: Option<seq<Post>>, trainers: Option<seq<TrainerRow>>, views: seq<ViewRow>)
      returns (viewerId: string, userIds: seq<Option<string>>, views': seq<ViewRow>)
      modifies this`posts, store
      ensures var g := GuestIdFrom(old(store.items), freshUuid);
        store.items == old(store.items)[GuestKey := g] && viewerId == ViewerId(authId, g)
      ensures rawPosts.None? ==> posts == old(posts) && userIds == [] && views' == views
      ensures rawPosts.Some? ==>
        && userIds == Dedupe(UserIdsOf(rawPosts.value))
        && posts == Enrich(rawPosts.value, trainers, BoardPlaceholder, true)
        && views' == UpsertAll(views, PostIds(rawPosts.value), viewerId)
    {
      var guestId;
      viewerId, guestId := store.ResolveViewer(authId, freshUuid);
      userIds, views' := [], views;
      if rawPosts.None? {
        return;
      }
      userIds := Dedupe(UserIdsOf(rawPosts.value));
      posts := Enrich(rawPosts.value, trainers, BoardPlaceholder, true);
      views' := UpsertAll(views, PostIds(rawPosts.value), viewerId);
    }

    /** Typing in the search box goes back to page 1. */
    method SetSearchQuery(query: string)
      modifies this`searchQuery, this`currentPage
      ensures searchQuery == query && currentPage == 1 && Valid()
    {
      searchQuery := query;
      currentPage := 1;
    }

    /** Clicking a category chip goes back to page 1. */
    method SelectCategory(category: string)
      requires category in Categories
      modifies this`activeCategory, this`currentPage
      ensures activeCategory == category && currentPage == 1 && Valid()
    {
      activeCategory := category;
      currentPage := 1;
    }

    /** A click on the pagination bar, which is on screen only when there is more than one page. */
    method ClickPagination(click: Click)
      requires Valid() && ShowPagination(Filtered())
      requires click.PageButton? ==> click.k in PageNumbers(Total())
      modifies this`currentPage
      ensures Valid()
      ensures currentPage == Target(click, old(currentPage), Total())
      ensures old(currentPage) <= Total() ==> currentPage <= Total() && |Visible()| > 0
    {
      currentPage := Target(click, currentPage, Total());
    }
  }

  /** The id of every post, in order; a definition, used by `LoadRecordsEveryView`. */
  function PostIds(posts: seq<Post>): (r: seq<string>)
    ensures |r| == |posts| && forall i :: 0 <= i < |posts| ==> r[i] == posts[i].id
  {
    seq(|posts|, i requires 0 <= i < |posts| => posts[i].id)
  }

  /** After a load, every listed post has a view row for the viewer and no row is duplicated. */
  lemma LoadRecordsEveryView(views: seq<ViewRow>, posts: seq<Post>, viewerId: string)
    requires NoDuplicates(views)
    ensures var after := UpsertAll(views, PostIds(posts), viewerId);
      NoDuplicates(after) && forall i :: 0 <= i < |posts| ==> ViewRow(posts[i].id, viewerId) in after
  {
    var ids := PostIds(posts);
    forall i | 0 <= i < |posts|
      ensures posts[i].id in ids
    {
      assert ids[i] == posts[i].id;
    }
  }

  /** The starting category hides nothing: with an empty search every post is listed, in order. */
  lemma InitialCategoryListsAll(posts: seq<EnrichedPost>)
    ensures FilteredPosts(posts, InitialCategory, "") == posts
  {
    forall p | p in posts
      ensures InCategory(p, InitialCategory) && TitleMatches(p, "")
    {
      EmptyQueryMatches(p.post.title);
    }
    FilterKeepsAll(posts, p => InCategory(p, InitialCategory));
    FilterKeepsAll(posts, p => TitleMatches(p, ""));
  }

  /**
   * The "전체" chip is compared like any other category: once it is
   * selected, only posts whose category is literally "전체" are listed.
   */
  lemma AllChipFiltersLiterally(posts: seq<EnrichedPost>, query: string)
    ensures "전체" in Categories && InitialCategory !in Categories
    ensures forall p :: p in FilteredPosts(posts, "전체", query) ==> p.post.category == "전체"
  {
  }

  /** The search ignores ASCII case: queries with the same lower-case form list the same posts. */
  lemma SearchIgnoresCase(posts: seq<EnrichedPost>, activeCategory: string, q1: string, q2: string)
    requires Lower(q1) == Lower(q2)
    ensures FilteredPosts(posts, activeCategory, q1) == FilteredPosts(posts, activeCategory, q2)
  {
    var mid := Filter(posts, p => InCategory(p, activeCategory));
    FilterAgree(mid, p => TitleMatches(p, q1), p => TitleMatches(p, q2));
  }
}
