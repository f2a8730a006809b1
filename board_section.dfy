/**
 * The home page's "latest posts" section: the five newest posts with their
 * authors attached and a text preview of each.
 */
module BoardSection {

  import opened Opt
  import opened JsStrings
  import opened Seqs
  import opened Authors

  const SectionPlaceholder := "https://placehold.co/24x24?text=👤"

  /** `[...new Set(rawPosts.map(p => p.user_id).filter(Boolean))]`. */
  function AuthorIds(posts: seq<Post>): (r: seq<Option<string>>)
    ensures NoDuplicates(r)
    ensures forall u :: u in r ==> OptTruthy(u)
    ensures forall i :: 0 <= i < |posts| && OptTruthy(posts[i].userId) ==> posts[i].userId in r
    ensures forall u :: u in r ==> exists i :: 0 <= i < |posts| && posts[i].userId == u
  {
    var ids := UserIdsOf(posts);
    var r := Dedupe(Filter(ids, OptTruthy));
    forall i | 0 <= i < |posts| && OptTruthy(posts[i].userId)
      ensures posts[i].userId in r
    {
      assert ids[i] in ids;
    }
    forall u | u in r
      ensures exists i :: 0 <= i < |posts| && posts[i].userId == u
    {
      var i :| 0 <= i < |ids| && ids[i] == u;
    }
    r
  }

  /** The section's posts with their authors; nothing else about a post changes. */
  function SectionPosts(posts: seq<Post>, trainers: Option<seq<TrainerRow>>): (r: seq<EnrichedPost>)
    ensures |r| == |posts|
    ensures forall i :: 0 <= i < |posts| ==> r[i].post == posts[i] && r[i].thumbnail.None?
    ensures forall i :: 0 <= i < |posts| && Author(trainers, posts[i].userId).None? ==>
      r[i].authorName == Anonymous && r[i].authorImage == SectionPlaceholder
    // with one: the first such row's name and image, each defaulting when null
    ensures forall i :: 0 <= i < |posts| && Author(trainers, posts[i].userId).Some? ==>
      r[i].authorName == Author(trainers, posts[i].userId).value.name.GetOr(Anonymous)
      && r[i].authorImage == Author(trainers, posts[i].userId).value.image.GetOr(SectionPlaceholder)
  {
    Enrich(posts, trainers, SectionPlaceholder, false)
  }
}
