/**
 * The two rewrites the page applies to its post list: the edit handler
 * retitles every post carrying the edited id, the archive handler flips the
 * status of every post carrying the given id. Both keep the list's length
 * and order and leave every other post as it was.
 */
module PostStore {
  import opened Types

  /** The fields a post keeps through an edit: id, author, date and status. */
  predicate SameIdentity(p: Post, q: Post) {
    p.id == q.id && p.author == q.author && p.date == q.date && p.status == q.status
  }

  /** Replaces every post whose id is `id` by a copy carrying the draft's text. */
  function EditPosts(posts: seq<Post>, id: string, d: Draft): (r: seq<Post>)
    ensures |r| == |posts|
    ensures forall i :: 0 <= i < |posts| ==> SameIdentity(r[i], posts[i])
    ensures forall i :: 0 <= i < |posts| && posts[i].id != id ==> r[i] == posts[i]
    ensures forall i :: 0 <= i < |posts| && posts[i].id == id ==>
      r[i].title == d.title && r[i].content == d.content && r[i].category == d.category
  {
    if posts == [] then []
    else
      var p := posts[0];
      [if p.id == id then p.(title := d.title, content := d.content, category := d.category) else p]
        + EditPosts(posts[1..], id, d)
  }

  /** Flips the status of every post whose id is `id`. */
  function ToggleArchive(posts: seq<Post>, id: string): (r: seq<Post>)
    ensures |r| == |posts|
    ensures forall i :: 0 <= i < |posts| && posts[i].id != id ==> r[i] == posts[i]
    ensures forall i :: 0 <= i < |posts| && posts[i].id == id ==>
      r[i].status != posts[i].status && r[i] == posts[i].(status := r[i].status)
  {
    if posts == [] then []
    else
      var p := posts[0];
      [if p.id == id then p.(status := Flip(p.status)) else p] + ToggleArchive(posts[1..], id)
  }

  /** Archiving twice with the same id restores the list. */
  lemma ToggleArchiveTwice(posts: seq<Post>, id: string)
    ensures ToggleArchive(ToggleArchive(posts, id), id) == posts
  {
  }

  /** An edit whose id matches no post leaves the list as it was. */
  lemma EditPostsNoMatch(posts: seq<Post>, id: string, d: Draft)
    requires forall i :: 0 <= i < |posts| ==> posts[i].id != id
    ensures EditPosts(posts, id, d) == posts
  {
  }

  /** Submitting the same edit again changes nothing more. */
  lemma EditPostsIdempotent(posts: seq<Post>, id: string, d: Draft)
    ensures EditPosts(EditPosts(posts, id, d), id, d) == EditPosts(posts, id, d)
  {
  }

  /** Editing text and toggling status touch disjoint fields, so their order does not matter. */
  lemma EditArchiveCommute(posts: seq<Post>, editId: string, d: Draft, archiveId: string)
    ensures ToggleArchive(EditPosts(posts, editId, d), archiveId)
         == EditPosts(ToggleArchive(posts, archiveId), editId, d)
  {
  }
}
