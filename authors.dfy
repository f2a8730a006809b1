/**
 * Attaching the author's name and picture to each post: the lists look up
 * the trainer row whose `user_id` is the post's `user_id` (the first one,
 * as `Array.prototype.find` does) and fall back to "익명" and a placeholder.
 */
module Authors {

  import opened Opt

  datatype TrainerRow = TrainerRow(userId: string, name: Option<string>, image: Option<string>)

  datatype Post = Post(id: string, title: string, category: string, content: string,
                       userId: Option<string>, thumbnailUrl: Option<string>)

  /** A post with its author attached; `thumbnail` is set only by the board page. */
  datatype EnrichedPost = EnrichedPost(post: Post, authorName: string, authorImage: string, thumbnail: Option<string>)

  const Anonymous := "익명"

  predicate Wrote(t: TrainerRow, userId: Option<string>) {
    userId == Some(t.userId)
  }

  /** `trainers.findIndex(t => t.user_id === userId)`, or nothing when no row matches. */
  function FirstTrainer(trainers: seq<TrainerRow>, userId: Option<string>): (r: Option<nat>)
    ensures r.Some? ==> r.value < |trainers| && Wrote(trainers[r.value], userId)
    ensures r.Some? ==> forall j :: 0 <= j < r.value ==> !Wrote(trainers[j], userId)
    ensures r.None? ==> forall j :: 0 <= j < |trainers| ==> !Wrote(trainers[j], userId)
    decreases |trainers|
  {
    if trainers == [] then None
    else if Wrote(trainers[0], userId) then Some(0)
    else match FirstTrainer(trainers[1..], userId)
      case None => None
      case Some(i) => Some(i + 1)
  }

  /** `trainers?.find(...)`: a failed trainer query (null) finds nothing. */
  function Author(trainers: Option<seq<TrainerRow>>, userId: Option<string>): (r: Option<TrainerRow>)
    // the author found is the first row of the query result with the post's user id
    ensures r.Some? ==> trainers.Some? && r.value in trainers.value && Wrote(r.value, userId)
    ensures r.Some? ==> exists i ::
      0 <= i < |trainers.value| && trainers.value[i] == r.value && forall j :: 0 <= j < i ==> !Wrote(trainers.value[j], userId)
    // none is found when the query failed or no row has that user id
    ensures r.None? <==> trainers.None? || forall t :: t in trainers.value ==> !Wrote(t, userId)
  {
    if trainers.None? then None
    else match FirstTrainer(trainers.value, userId)
      case None => None
      case Some(i) => Some(trainers.value[i])
  }

  function EnrichOne(p: Post, trainers: Option<seq<TrainerRow>>, placeholder: string, withThumbnail: bool): EnrichedPost {
    var t := Author(trainers, p.userId);
    EnrichedPost(
      p,
      if t.Some? then t.value.name.GetOr(Anonymous) else Anonymous,
      if t.Some? then t.value.image.GetOr(placeholder) else placeholder,
      if withThumbnail then Some(p.thumbnailUrl.GetOr("")) else None)
  }

  /** `rawPosts.map(post => ({ ...post, authorName, authorImage[, thumbnail] }))`. */
  function Enrich(posts: seq<Post>, trainers: Option<seq<TrainerRow>>, placeholder: string, withThumbnail: bool): (r: seq<EnrichedPost>)
    ensures |r| == |posts|
    ensures forall i :: 0 <= i < |posts| ==> r[i].post == posts[i]
    // without a trainer row for the post's author: "익명" and the placeholder
    ensures forall i :: 0 <= i < |posts| && Author(trainers, posts[i].userId).None? ==>
      r[i].authorName == Anonymous && r[i].authorImage == placeholder
    // with one: the first such row's name and image, each defaulting when null
    ensures forall i :: 0 <= i < |posts| && Author(trainers, posts[i].userId).Some? ==>
      r[i].authorName == Author(trainers, posts[i].userId).value.name.GetOr(Anonymous)
      && r[i].authorImage == Author(trainers, posts[i].userId).value.image.GetOr(placeholder)
    // the board list adds `thumbnail_url || ""`; the home section adds no thumbnail
    ensures forall i :: 0 <= i < |posts| ==>
      r[i].thumbnail == if withThumbnail then Some(posts[i].thumbnailUrl.GetOr("")) else None
  {
    seq(|posts|, i requires 0 <= i < |posts| => EnrichOne(posts[i], trainers, placeholder, withThumbnail))
  }

  /** The `user_id` of every post, in order; a definition, used by the author lookups. */
  function UserIdsOf(posts: seq<Post>): (r: seq<Option<string>>)
    ensures |r| == |posts| && forall i :: 0 <= i < |posts| ==> r[i] == posts[i].userId
  {
    seq(|posts|, i requires 0 <= i < |posts| => posts[i].userId)
  }
}
