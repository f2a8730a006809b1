/**
 * The `post_views` table as the client sees it: rows keyed by
 * `(post_id, user_id)`, written with `upsert(..., { onConflict: "post_id,user_id" })`.
 * The rows carry only their key, so an upsert that hits an existing key
 * leaves the table as it was.
 */
module Views {

  import opened Seqs

  datatype ViewRow = ViewRow(postId: string, userId: string)

  /** One upsert keyed by `(post_id, user_id)`. */
  function Upsert(rows: seq<ViewRow>, row: ViewRow): (r: seq<ViewRow>)
    ensures row in r
    ensures forall x :: x in r <==> x in rows || x == row
    ensures row in rows ==> r == rows
    ensures NoDuplicates(rows) ==> NoDuplicates(r)
  {
    if row in rows then rows else rows + [row]
  }

  /** Recording the same view twice leaves exactly what recording it once left. */
  lemma UpsertIdempotent(rows: seq<ViewRow>, row: ViewRow)
    ensures Upsert(Upsert(rows, row), row) == Upsert(rows, row)
  {
  }

  /** One upsert per listed post for the same viewer, as the board list issues them. */
  function UpsertAll(rows: seq<ViewRow>, postIds: seq<string>, viewer: string): (r: seq<ViewRow>)
    ensures forall x :: x in r <==> x in rows || (x.userId == viewer && x.postId in postIds)
    ensures NoDuplicates(rows) ==> NoDuplicates(r)
    decreases |postIds|
  {
    if postIds == [] then rows
    else UpsertAll(Upsert(rows, ViewRow(postIds[0], viewer)), postIds[1..], viewer)
  }

  /** When every view is already recorded, recording them again changes nothing. */
  lemma {:induction false} UpsertAllPresent(rows: seq<ViewRow>, postIds: seq<string>, viewer: string)
    requires forall id :: id in postIds ==> ViewRow(id, viewer) in rows
    ensures UpsertAll(rows, postIds, viewer) == rows
    decreases |postIds|
  {
    if postIds != [] {
      assert postIds[0] in postIds;
      UpsertAllPresent(rows, postIds[1..], viewer);
    }
  }

  /** Opening the board list twice records no view twice. */
  lemma UpsertAllIdempotent(rows: seq<ViewRow>, postIds: seq<string>, viewer: string)
    ensures UpsertAll(UpsertAll(rows, postIds, viewer), postIds, viewer) == UpsertAll(rows, postIds, viewer)
  {
    UpsertAllPresent(UpsertAll(rows, postIds, viewer), postIds, viewer);
  }
}
