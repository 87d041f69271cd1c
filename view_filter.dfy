/**
 * The visible list: the posts that pass the status filter, the search box
 * and the category filter together, in their original order. Lower-casing
 * is locale library behaviour and is passed in as `lower`; every property
 * here holds whatever `lower` is.
 */
module ViewFilter {
  import opened Types
  import opened Text

  /** The status tabs: everything, or one status. */
  datatype StatusFilter = All | Only(status: Status)

  /** The category value that selects every category. */
  const ALL_CATEGORIES := "all"

  /** The "all" tab shows every post; under a one-status tab the archive toggle takes a shown post out of view. */
  predicate MatchesStatus(p: Post, filter: StatusFilter)
    ensures filter == All ==> MatchesStatus(p, filter)
    ensures MatchesStatus(p, filter) && filter.Only? ==> Flip(p.status) != filter.status
  {
    match filter
    case All => true
    case Only(s) => p.status == s
  }

  /** An empty query matches; otherwise the lower-cased query must occur in the title, content or author. */
  predicate MatchesSearch(p: Post, query: string, lower: string -> string)
    ensures query == "" ==> MatchesSearch(p, query, lower)
    ensures lower(query) == lower(p.title) ==> MatchesSearch(p, query, lower)
  {
    query == ""
    || Includes(lower(p.title), lower(query))
    || Includes(lower(p.content), lower(query))
    || Includes(lower(p.author), lower(query))
  }

  /** A post passes "all" and its own category, and no other. */
  predicate MatchesCategory(p: Post, category: string)
    ensures category == ALL_CATEGORIES || category == p.category ==> MatchesCategory(p, category)
    ensures MatchesCategory(p, category) && category != ALL_CATEGORIES ==> category == p.category
  {
    category == ALL_CATEGORIES || p.category == category
  }

  /** The three predicates combined with AND. */
  predicate Matches(p: Post, filter: StatusFilter, query: string, category: string, lower: string -> string)
    ensures filter == All && query == "" && category == ALL_CATEGORIES ==> Matches(p, filter, query, category, lower)
    ensures filter == All && category == ALL_CATEGORIES ==>
      (Matches(p, filter, query, category, lower) <==> MatchesSearch(p, query, lower))
  {
    MatchesStatus(p, filter) && MatchesSearch(p, query, lower) && MatchesCategory(p, category)
  }

  function FilteredPosts(posts: seq<Post>, filter: StatusFilter, query: string, category: string,
                         lower: string -> string): (r: seq<Post>)
    ensures |r| <= |posts|
    ensures forall i :: 0 <= i < |r| ==> Matches(r[i], filter, query, category, lower)
    ensures forall p :: p in r <==> p in posts && Matches(p, filter, query, category, lower)
  {
    if posts == [] then []
    else
      assert forall p :: p in posts <==> p == posts[0] || p in posts[1..] by {
        assert posts == [posts[0]] + posts[1..];
      }
      (if Matches(posts[0], filter, query, category, lower) then [posts[0]] else [])
        + FilteredPosts(posts[1..], filter, query, category, lower)
  }

  /** `a` can be obtained from `b` by deleting elements: an order-preserving selection. */
  predicate IsSubsequence<T(==)>(a: seq<T>, b: seq<T>)
    decreases |b|
  {
    a == [] || (b != [] && ((a[0] == b[0] && IsSubsequence(a[1..], b[1..])) || IsSubsequence(a, b[1..])))
  }

  /** The visible list keeps the original order. */
  lemma {:induction false} FilteredIsSubsequence(posts: seq<Post>, filter: StatusFilter, query: string,
                                                 category: string, lower: string -> string)
    ensures IsSubsequence(FilteredPosts(posts, filter, query, category, lower), posts)
  {
    if posts != [] {
      var rest := FilteredPosts(posts[1..], filter, query, category, lower);
      FilteredIsSubsequence(posts[1..], filter, query, category, lower);
      if Matches(posts[0], filter, query, category, lower) {
        var r := [posts[0]] + rest;
        assert r[0] == posts[0] && r[1..] == rest;
        assert IsSubsequence(r[1..], posts[1..]);
      } else {
        assert FilteredPosts(posts, filter, query, category, lower) == rest;
      }
    }
  }

  /** Filtering a concatenation filters each part: with the one-post case this pins the result down. */
  lemma {:induction false} FilteredAppend(a: seq<Post>, b: seq<Post>, filter: StatusFilter, query: string,
                                          category: string, lower: string -> string)
    ensures FilteredPosts(a + b, filter, query, category, lower)
         == FilteredPosts(a, filter, query, category, lower) + FilteredPosts(b, filter, query, category, lower)
  {
    if a != [] {
      var head := if Matches(a[0], filter, query, category, lower) then [a[0]] else [];
      assert (a + b)[0] == a[0] && (a + b)[1..] == a[1..] + b;
      FilteredAppend(a[1..], b, filter, query, category, lower);
      assert FilteredPosts(a + b, filter, query, category, lower)
          == head + FilteredPosts(a[1..] + b, filter, query, category, lower);
    } else {
      assert a + b == b;
    }
  }

  /** One post is visible on its own exactly when it passes the three predicates. */
  lemma FilteredSingle(p: Post, filter: StatusFilter, query: string, category: string, lower: string -> string)
    ensures FilteredPosts([p], filter, query, category, lower)
         == if Matches(p, filter, query, category, lower) then [p] else []
  {
  }

  /** With every filter off the whole list is visible. */
  lemma {:induction false} FilteredShowAll(posts: seq<Post>, lower: string -> string)
    ensures FilteredPosts(posts, All, "", ALL_CATEGORIES, lower) == posts
  {
    if posts != [] {
      FilteredShowAll(posts[1..], lower);
      assert Matches(posts[0], All, "", ALL_CATEGORIES, lower);
      assert posts == [posts[0]] + posts[1..];
    }
  }
}
