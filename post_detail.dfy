/**
 * The engagement state of the post detail page: whether the viewer liked
 * and bookmarked the post, the like count shown, and the comment list.
 * Every backend call is replaced by the outcome it reported, passed in as
 * a parameter; the methods then do what the page does with that outcome.
 */
module PostDetail {

  import opened Opt
  import opened JsStrings
  import opened Views
  import opened Identity

  /** What a backend write reported: success, the unique-violation code 23505, or any other error. */
  datatype Outcome = Ok | DuplicateKey | OtherError

  /** A comment as the page stores it in the post's `comments` column. */
  datatype Comment = Comment(id: int, author: string, authorImage: string, content: string, time: string)

  /** What the initial post query returned: an error, or the post with its (possibly null) comments. */
  datatype PostFetch = FetchFailed | Fetched(comments: Option<seq<Comment>>)

  const MyAuthor := "나"
  const MyAuthorImage := "https://placehold.co/40x40?text=ME"
  const JustNow := "방금"

  /**
   * The comment the page builds from the text box, stamped with the current
   * time. A definition: its ensures spell out the literal, and what it means
   * for the page is stated by `PostDetailPage.SubmitComment`.
   */
  function NewComment(now: int, text: string): (c: Comment)
    // it carries the typed text as it is, under the page's fixed author, stamped "방금" and keyed by the time
    ensures c.content == text && c.id == now
    ensures c.author == MyAuthor && c.authorImage == MyAuthorImage && c.time == JustNow
  {
    Comment(now, MyAuthor, MyAuthorImage, text, JustNow)
  }

  /** The like button's state: `isLiked` and `likeCount`. */
  datatype LikeState = LikeState(liked: bool, count: int)

  function Own(liked: bool): int {
    if liked then 1 else 0
  }

  /**
   * `toggleLike` for a signed-in viewer, given what the delete (when liked)
   * or the insert (when not) reported. A 23505 on insert counts as done.
   */
  function LikeToggled(s: LikeState, outcome: Outcome): (r: LikeState)
    // the flag flips exactly when the write is taken as done
    ensures (r.liked != s.liked) <==> (outcome.Ok? || (outcome.DuplicateKey? && !s.liked))
    // the count moves with the viewer's own like and nothing else
    ensures r.count - Own(r.liked) == s.count - Own(s.liked)
  {
    if s.liked then
      if outcome.Ok? then LikeState(false, s.count - 1) else s
    else
      if outcome.OtherError? then s else LikeState(true, s.count + 1)
  }

  /**
   * Bookmarks are for signed-in users: an id that is present, non-empty and
   * not a guest id. A definition of the guard; `GuestCannotBookmark` relates
   * it to the viewer ids the app builds.
   */
  predicate CanBookmark(user: Option<string>): (r: bool)
    ensures r ==> user.Some? && user.value != "" && !StartsWith(user.value, GuestPrefix)
    ensures user.Some? && user.value != "" && !StartsWith(user.value, GuestPrefix) ==> r
  {
    OptTruthy(user) && !StartsWith(user.value, GuestPrefix)
  }

  /**
   * A viewer id built for a guest never passes the bookmark guard, and a real
   * signed-in id does. On the detail page itself `InitUser` only ever stores
   * the auth id, so there the `guest-` test is a defensive one: it matters
   * for guest ids built elsewhere, as the board list builds them.
   */
  lemma GuestCannotBookmark(authId: Option<string>, guestId: string)
    ensures authId.None? ==> !CanBookmark(Some(ViewerId(authId, guestId)))
    ensures authId.Some? && authId.value != "" && !StartsWith(authId.value, GuestPrefix) ==>
      CanBookmark(Some(ViewerId(authId, guestId)))
  {
  }

  /** `toggleBookmark`, given what the delete (when bookmarked) or the insert (when not) reported. */
  function BookmarkToggled(bookmarked: bool, user: Option<string>, outcome: Outcome): (r: bool)
    ensures r != bookmarked <==> CanBookmark(user) && (outcome.Ok? || (outcome.DuplicateKey? && !bookmarked))
  {
    if !CanBookmark(user) then bookmarked
    else if bookmarked then !outcome.Ok?
    else !outcome.OtherError?
  }

  class PostDetailPage {
    const postId: string
    var user: Option<string>
    var loading: bool
    var isLiked: bool
    var likeCount: int
    var isBookmarked: bool
    var comments: seq<Comment>
    var commentText: string

    /** The page's initial state before any effect has run. */
    constructor (postId: string)
      ensures this.postId == postId && user == None && loading
      ensures !isLiked && likeCount == 0 && !isBookmarked
      ensures comments == [] && commentText == ""
    {
      this.postId := postId;
      user := None;
      loading := true;
      isLiked := false;
      likeCount := 0;
      isBookmarked := false;
      comments := [];
      commentText := "";
    }

    function Likes(): LikeState
      reads this
    {
      LikeState(isLiked, likeCount)
    }

    /** Both effects that load data wait for a user id and a post id. */
    predicate Ready()
      reads this
    {
      OptTruthy(user) && postId != ""
    }

    /** `initUser`: the authenticated user's id, or nothing when the auth call failed. */
    method InitUser(authUser: Option<string>)
      modifies this`user
      ensures user == if authUser.Some? then authUser else old(user)
    {
      if authUser.None? {
        return;
      }
      user := authUser;
    }

    /**
     * `fetchPost`: load the comments and record the view as an upsert keyed
     * by `(post_id, user_id)`; `viewSaved` is whether that upsert succeeded.
     */
    method FetchPost(fetched: PostFetch, viewSaved: bool, views: seq<ViewRow>) returns (views': seq<ViewRow>)
      modifies this`comments, this`loading
      ensures !old(Ready()) ==> comments == old(comments) && loading == old(loading) && views' == views
      ensures old(Ready()) && fetched.FetchFailed? ==> comments == old(comments) && !loading && views' == views
      ensures old(Ready()) && fetched.Fetched? ==>
        && comments == fetched.comments.GetOr([])
        && !loading
        && views' == if viewSaved then Upsert(views, ViewRow(postId, user.value)) else views
    {
      views' := views;
      if !Ready() {
        return;
      }
      match fetched {
        case FetchFailed =>
          loading := false;
          return;
        case Fetched(c) =>
          comments := if c.Some? then c.value else [];
          if viewSaved {
            views' := Upsert(views, ViewRow(postId, user.value));
          }
          loading := false;
      }
    }

    /**
     * `fetchMeta`: `likeRow` and `bookmarkRow` are the viewer's rows found
     * (null when absent or when the query failed) and `count` the post's
     * reported like count (null on failure).
     */
    method FetchMeta(likeRow: Option<int>, bookmarkRow: Option<int>, count: Option<int>)
      modifies this`isLiked, this`isBookmarked, this`likeCount
      ensures !old(Ready()) ==> isLiked == old(isLiked) && isBookmarked == old(isBookmarked) && likeCount == old(likeCount)
      ensures old(Ready()) ==>
        && (isLiked <==> likeRow.Some?)
        && (isBookmarked <==> bookmarkRow.Some?)
        && likeCount == (if count.Some? then count.value else 0)
      ensures old(Ready()) ==> Likes() == LoadedLikes(likeRow, count)
    {
      if !Ready() {
        return;
      }
      isLiked := likeRow.Some?;
      isBookmarked := bookmarkRow.Some?;
      likeCount := count.GetOr(0);
    }

    /** `toggleLike`; `outcome` is what the delete or insert reported. Bookmarks and comments are out of its frame. */
    method ToggleLike(outcome: Outcome)
      modifies this`isLiked, this`likeCount
      ensures !OptTruthy(user) ==> Likes() == old(Likes())
      ensures OptTruthy(user) ==> Likes() == LikeToggled(old(Likes()), outcome)
    {
      if !OptTruthy(user) {
        return;
      }
      if isLiked {
        if !outcome.Ok? {
          return;
        }
        isLiked := false;
        likeCount := likeCount - 1;
      } else {
        if outcome.OtherError? {
          return;
        }
        isLiked := true;
        likeCount := likeCount + 1;
      }
    }

    /** `toggleBookmark`; likes and comments are out of its frame. */
    method ToggleBookmark(outcome: Outcome)
      modifies this`isBookmarked
      ensures isBookmarked == BookmarkToggled(old(isBookmarked), user, outcome)
    {
      if !OptTruthy(user) || StartsWith(user.value, GuestPrefix) {
        return;
      }
      if isBookmarked {
        if !outcome.Ok? {
          return;
        }
        isBookmarked := false;
      } else {
        if outcome.OtherError? {
          return;
        }
        isBookmarked := true;
      }
    }

    /** Typing in the comment box. */
    method EditComment(text: string)
      modifies this`commentText
      ensures commentText == text
    {
      commentText := text;
    }

    /**
     * `handleCommentSubmit`: `now` is the timestamp used as the comment id
     * and `outcome` what the update of the post's comment list reported.
     */
    method SubmitComment(now: int, outcome: Outcome)
      modifies this`comments, this`commentText
      ensures IsBlank(old(commentText)) || !outcome.Ok? ==>
        comments == old(comments) && commentText == old(commentText)
      ensures !IsBlank(old(commentText)) && outcome.Ok? ==>
        comments == [NewComment(now, old(commentText))] + old(comments) && commentText == ""
    {
      TrimEmptyIffBlank(commentText);
      if Trim(commentText) == "" {
        return;
      }
      var updated := [NewComment(now, commentText)] + comments;
      if !outcome.Ok? {
        return;
      }
      comments := updated;
      commentText := "";
    }
  }

  /** Liking and then unliking, both succeeding, restores the like state. */
  lemma LikeRoundTrip(s: LikeState)
    requires !s.liked
    ensures LikeToggled(LikeToggled(s, Ok), Ok) == s
  {
  }

  /**
   * What the backend does with the like write for a viewer, given the set of
   * users whose like row exists for the post: a delete removes the row, an
   * insert of an existing row fails with 23505, and `failed` stands for any
   * other error, which changes nothing.
   */
  function LikeWrite(likers: set<string>, user: string, liked: bool, failed: bool): (Outcome, set<string>) {
    if failed then (OtherError, likers)
    else if liked then (Ok, likers - {user})
    else if user in likers then (DuplicateKey, likers)
    else (Ok, likers + {user})
  }

  /** The page agrees with the backend: the flag is the viewer's row and the count is the number of rows. */
  predicate InSync(s: LikeState, likers: set<string>, user: string) {
    s.liked == (user in likers) && s.count == |likers|
  }

  /**
   * The like state a meta load leaves: `!!like` and `count ?? 0`. A failed
   * lookup or count reads as no row and as nothing.
   */
  function LoadedLikes(likeRow: Option<int>, count: Option<int>): LikeState {
    LikeState(likeRow.Some?, count.GetOr(0))
  }

  /**
   * A load whose answers reflect the backend (the viewer's row found exactly
   * when it exists, the exact count) puts the page in sync, and any series of
   * toggles after it keeps it so.
   */
  lemma MetaLoadSyncs(likeRow: Option<int>, count: Option<int>, likers: set<string>, user: string, attempts: seq<bool>)
    requires (likeRow.Some? <==> user in likers) && count == Some(|likers|)
    ensures InSync(LoadedLikes(likeRow, count), likers, user)
    ensures var (s, likers') := Replay(LoadedLikes(likeRow, count), likers, user, attempts); InSync(s, likers', user)
  {
    TogglesKeepSync(LoadedLikes(likeRow, count), likers, user, attempts);
  }

  /**
   * A load whose answers do not reflect the backend leaves the page out of
   * step: a failed count while rows exist, or a lookup that missed the
   * viewer's row (or reported one that is not there).
   */
  lemma FailedLoadOutOfSync(likeRow: Option<int>, count: Option<int>, likers: set<string>, user: string)
    ensures count.None? && likers != {} ==> !InSync(LoadedLikes(likeRow, count), likers, user)
    ensures (likeRow.Some? <==> user !in likers) ==> !InSync(LoadedLikes(likeRow, count), likers, user)
  {
    if count.None? && likers != {} {
      var u :| u in likers;
      assert |likers| >= 1 by {
        assert {u} <= likers;
        assert |{u}| == 1;
      }
    }
  }

  /** With no other writer, one toggle answered by the backend keeps the page in sync. */
  lemma ToggleKeepsSync(s: LikeState, likers: set<string>, user: string, failed: bool)
    requires InSync(s, likers, user)
    ensures InSync(LikeToggled(s, LikeWrite(likers, user, s.liked, failed).0), LikeWrite(likers, user, s.liked, failed).1, user)
  {
    if !failed && !s.liked {
      assert |likers + {user}| == |likers| + 1;
    }
    if !failed && s.liked {
      assert |likers - {user}| == |likers| - 1;
    }
  }

  /** The like state and the backend rows after a series of toggles; `attempts[k]` says whether the k-th write failed. */
  function Replay(s: LikeState, likers: set<string>, user: string, attempts: seq<bool>): (LikeState, set<string>)
    decreases |attempts|
  {
    if attempts == [] then (s, likers)
    else
      var (o, likers') := LikeWrite(likers, user, s.liked, attempts[0]);
      Replay(LikeToggled(s, o), likers', user, attempts[1..])
  }

  /** Any number of toggles, failing or not, keeps a synced page in sync. */
  lemma {:induction false} TogglesKeepSync(s: LikeState, likers: set<string>, user: string, attempts: seq<bool>)
    requires InSync(s, likers, user)
    ensures InSync(Replay(s, likers, user, attempts).0, Replay(s, likers, user, attempts).1, user)
    decreases |attempts|
  {
    if attempts != [] {
      ToggleKeepsSync(s, likers, user, attempts[0]);
      var (o, likers') := LikeWrite(likers, user, s.liked, attempts[0]);
      TogglesKeepSync(LikeToggled(s, o), likers', user, attempts[1..]);
    }
  }

  /**
   * When the page is out of step (the like lookup failed at load, so the
   * flag reads false while the viewer's row exists), the 23505 answer still
   * adds one: the shown count exceeds the rows.
   */
  lemma DuplicateKeyOvercounts(user: string)
    ensures var s := LoadedLikes(None, Some(1));
      !InSync(s, {user}, user) &&
      var (o, likers') := LikeWrite({user}, user, s.liked, false);
      o == DuplicateKey && LikeToggled(s, o) == LikeState(true, 2) && |likers'| == 1
  {
    FailedLoadOutOfSync(None, Some(1), {user}, user);
  }
}
