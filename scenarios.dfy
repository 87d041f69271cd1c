/**
 * Concrete runs of the page: an active-only filter example, the category
 * choices of the sample data, a create followed by an archive, and an edit
 * of a post that is no longer in the list.
 */
module Scenarios {
  import opened Types
  import opened PostStore
  import opened ViewFilter
  import opened Categories
  import opened IndexPage

  /** Showing only active posts of two, one active and one archived, keeps the active one. */
  lemma ActiveOnlyExample(lower: string -> string)
    ensures
      var a := Post("1", "t1", "c1", "u", "d", Active, "A");
      var b := Post("2", "t2", "c2", "u", "d", Archived, "B");
      FilteredPosts([a, b], Only(Active), "", ALL_CATEGORIES, lower) == [a]
  {
  }

  /** The sample posts offer their two categories, in list order. */
  lemma SampleCategories()
    ensures AllCategories(SAMPLE_POSTS) == ["Корпоративные события", "Новые политики"]
  {
    var cats := CategoryList(SAMPLE_POSTS);
    assert cats == ["Корпоративные события", "Новые политики"];
    assert cats[..1] == ["Корпоративные события"] && cats[..1][..0] == [];
    assert InsertionOrder(cats[..1]) == ["Корпоративные события"];
  }

  /**
   * From the initial page: create a post and archive it at once. Only the
   * new post is archived, provided its id is not a sample post's; the feed
   * holds exactly one new entry, the "new" one; archiving announces nothing.
   */
  method CreateThenArchive(postStamp: string, noticeStamp: string, today: string)
    returns (list: seq<Post>, feed: seq<Notification>)
    requires postStamp != "1" && postStamp != "2"
    ensures list == [Post(postStamp, "T", "C", CURRENT_USER, today, Archived, "Cat")] + SAMPLE_POSTS
    ensures feed == [Notification(noticeStamp, NEW_POST_PREFIX + "T", New, JUST_NOW)] + SAMPLE_NOTIFICATIONS
  {
    var page := new Index();
    page.OpenCreateDialog();
    page.TypeTitle("T");
    page.TypeContent("C");
    page.TypeCategory("Cat");
    var ok := page.Submit(postStamp, noticeStamp, today);
    assert ok;
    page.HandleArchive(postStamp);
    list := page.posts;
    feed := page.notifications;
  }

  /**
   * From the initial page: edit a post whose id is in no list entry. The list
   * stays as it was, yet the feed gains an "update" entry.
   */
  method EditOfMissingPost(stamp: string) returns (list: seq<Post>, feed: seq<Notification>)
    ensures list == SAMPLE_POSTS
    ensures feed == [Notification(stamp, UPDATE_PREFIX + "T", Update, JUST_NOW)] + SAMPLE_NOTIFICATIONS
  {
    var page := new Index();
    page.OpenEditDialog(Post("gone", "old", "old", "u", "d", Active, "x"));
    page.TypeTitle("T");
    var ok := page.Submit(stamp, "unused", "unused");
    assert ok;
    EditPostsNoMatch(SAMPLE_POSTS, "gone", Draft("T", "old", "x"));
    list := page.posts;
    feed := page.notifications;
  }
}
