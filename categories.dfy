/**
 * The category choices: the posts' categories with repeats dropped, in the
 * order in which they first appear. The page builds them by inserting every
 * category into a JavaScript Set, which keeps insertion order and ignores
 * values it already holds; `InsertionOrder` is that Set's content.
 */
module Categories {
  import opened Types
  import opened PostStore

  /** The category of each post, position by position. */
  function CategoryList(posts: seq<Post>): (r: seq<string>)
    ensures |r| == |posts|
    ensures forall i :: 0 <= i < |posts| ==> r[i] == posts[i].category
  {
    if posts == [] then [] else [posts[0].category] + CategoryList(posts[1..])
  }

  /** No value occurs twice. */
  predicate Distinct<T(==)>(s: seq<T>) {
    forall i, j :: 0 <= i < j < |s| ==> s[i] != s[j]
  }

  /** The content of a Set of strings after inserting the elements of `s` from left to right. */
  function InsertionOrder(s: seq<string>): (r: seq<string>)
    ensures Distinct(r)
    ensures forall x :: x in r <==> x in s
  {
    if s == [] then []
    else
      var prev := InsertionOrder(s[..|s| - 1]);
      var last := s[|s| - 1];
      assert forall x :: x in s <==> x in s[..|s| - 1] || x == last by {
        assert s == s[..|s| - 1] + [last];
      }
      if last in prev then prev else prev + [last]
  }

  /** The category choices: each category of the posts, once. */
  function AllCategories(posts: seq<Post>): (r: seq<string>)
    ensures Distinct(r)
    ensures forall c :: c in r <==> c in CategoryList(posts)
  {
    InsertionOrder(CategoryList(posts))
  }

  /** Index of the first occurrence of `x` in `s`. */
  function FirstIndex<T(==)>(s: seq<T>, x: T): (k: nat)
    requires x in s
    ensures k < |s| && s[k] == x && x !in s[..k]
  {
    if s[0] == x then 0
    else
      var k := 1 + FirstIndex(s[1..], x);
      assert s[..k] == [s[0]] + s[1..][..k - 1];
      k
  }

  /** The first occurrence of a value that occurs in a prefix lies in that prefix. */
  lemma FirstIndexInPrefix<T>(s: seq<T>, m: nat, x: T)
    requires m <= |s| && x in s[..m]
    ensures FirstIndex(s, x) == FirstIndex(s[..m], x)
  {
    var a, b := FirstIndex(s[..m], x), FirstIndex(s, x);
    assert s[..m][..a] == s[..a] && s[a] == x;
    assert forall i :: 0 <= i < a ==> s[..a][i] == s[i];
    assert forall i :: 0 <= i < b ==> s[..b][i] == s[i];
  }

  /** Later choices first appear later: the Set keeps first-appearance order. */
  lemma {:induction false} InsertionOrderFollowsFirstAppearance(s: seq<string>)
    ensures forall i, j :: 0 <= i < j < |InsertionOrder(s)| ==>
      FirstIndex(s, InsertionOrder(s)[i]) < FirstIndex(s, InsertionOrder(s)[j])
  {
    if s != [] {
      var n := |s|;
      var pre, last := s[..n - 1], s[n - 1];
      var prev := InsertionOrder(pre);
      InsertionOrderFollowsFirstAppearance(pre);
      forall x | x in prev ensures FirstIndex(s, x) == FirstIndex(pre, x) < n - 1 {
        FirstIndexInPrefix(s, n - 1, x);
      }
      var r := InsertionOrder(s);
      if last in prev {
        assert r == prev;
        forall i, j | 0 <= i < j < |r| ensures FirstIndex(s, r[i]) < FirstIndex(s, r[j]) {
          assert r[i] in prev && r[j] in prev;
        }
      } else {
        LastFirstOccurrence(s);
        assert r == prev + [last];
        forall i, j | 0 <= i < j < |r| ensures FirstIndex(s, r[i]) < FirstIndex(s, r[j]) {
          assert r[i] == prev[i] && r[i] in prev;
          if j < |prev| {
            assert r[j] == prev[j] && r[j] in prev;
          } else {
            assert r[j] == last;
          }
        }
      }
    }
  }

  /** A last element that occurs nowhere before first occurs at the end. */
  lemma LastFirstOccurrence(s: seq<string>)
    requires s != [] && s[|s| - 1] !in s[..|s| - 1]
    ensures FirstIndex(s, s[|s| - 1]) == |s| - 1
  {
    assert forall i :: 0 <= i < |s| - 1 ==> s[..|s| - 1][i] == s[i];
  }

  /** Each category once, exactly the posts' categories, in first-appearance order. */
  lemma AllCategoriesSpec(posts: seq<Post>)
    ensures Distinct(AllCategories(posts))
    ensures forall c :: c in AllCategories(posts) <==> exists i :: 0 <= i < |posts| && posts[i].category == c
    ensures forall i, j :: 0 <= i < j < |AllCategories(posts)| ==>
      FirstIndex(CategoryList(posts), AllCategories(posts)[i]) < FirstIndex(CategoryList(posts), AllCategories(posts)[j])
  {
    var cats := CategoryList(posts);
    InsertionOrderFollowsFirstAppearance(cats);
    forall c | c in AllCategories(posts) ensures exists i :: 0 <= i < |posts| && posts[i].category == c {
      var i :| 0 <= i < |cats| && cats[i] == c;
      assert posts[i].category == c;
    }
    forall c, i | 0 <= i < |posts| && posts[i].category == c ensures c in AllCategories(posts) {
      assert cats[i] == c;
    }
  }

  /** Archiving changes no category, so the choices stay the same. */
  lemma ToggleArchiveKeepsCategories(posts: seq<Post>, id: string)
    ensures AllCategories(ToggleArchive(posts, id)) == AllCategories(posts)
  {
    assert CategoryList(ToggleArchive(posts, id)) == CategoryList(posts);
  }
}
