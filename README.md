# Corporate announcements board: post and notification state

This project models the state logic of the single page of a corporate
announcements board. Users create, edit, archive and filter short posts. A
notification feed records every create and every update. All state lives in
the page's component (`src/pages/Index.tsx`) and is lost on reload.

What is modelled:

- `Types`: the `Post`, `Notification` and draft records, the two status values
  and the two notification kinds. It also holds the fixed labels the page
  writes into new records: the author "Текущий пользователь", the timestamp
  "только что" and the two message prefixes. The sample posts and
  notifications the page starts with are here too.
- `PostStore`: the two list rewrites used by the handlers. `EditPosts` is the
  edit handler's rewrite and `ToggleArchive` is the archive handler's. Both
  are specified position by position.
- `Text`: the substring test the search box uses, proved equal to "occurs at
  some index".
- `ViewFilter`: the visible list. The status, search and category tests are
  combined with AND and the original order is kept.
- `Categories`: the category choices. The page builds them with a JavaScript
  `Set`, so each category appears once, in order of first appearance.
- `IndexPage.Index`: a class holding the component's state (`posts`,
  `notifications`, `draft`, `isCreating`, `editingPost`). Its methods are the
  event handlers: create, edit, archive, open and close the dialog, type into
  the form, submit, and clear the feed.
- `Scenarios`: concrete runs from the initial page.

Reads of the clock become parameters. The page turns the millisecond clock
into ids. The create handler reads it twice: `postStamp` is the new post's
id and `noticeStamp` is its notification's id. The two are equal only when
the clock does not tick between the reads. The edit handler reads the clock
once, as `stamp`. `today` is the date of a new post. Lower-casing is
locale-dependent library behaviour, so it is a parameter `lower` of the
filter, and every filter property holds whatever `lower` is. A handler's `ok`
result tells whether it took its success path. On the other path the page
only shows an error notice.

In these places the code does something a reader might not expect; the
model follows the code:

- The submit guard tests only for empty fields, so a field holding only blanks
  is accepted.
- Editing a post whose id is no longer in the list is not rejected. The list
  stays as it is, but an "update" notification is still added
  (`Scenarios.EditOfMissingPost`).
- Nothing in the handlers keeps create mode and edit mode apart. Opening the
  edit dialog leaves `isCreating` as it was, and a successful edit does not
  clear it. `OpenEditDialog` and `OpenCreateDialog` state exactly when the
  modes stay exclusive. In the page, the modal dialog hides the buttons that
  would mix them.
- Ids are not checked for uniqueness. Edit and archive act on every post that
  carries the id. The model assumes distinct ids only in
  `Scenarios.CreateThenArchive`. There the new post's id must differ from the
  sample ids, or archiving it would also flip a sample post.
- The category filter uses the string "all" to mean "every category". A post
  whose category is literally "all" therefore cannot be shown on its own:
  selecting that category shows every post. The model keeps this behaviour.

## Model

| member | source | states |
|---|---|---|
| `Types.IsComplete` | src/pages/Index.tsx:74 | an emptied draft never passes the guard; a draft of blanks passes it |
| `Types.Flip` | src/pages/Index.tsx:131 | the toggled status is the other of the two values |
| `PostStore.EditPosts` | src/pages/Index.tsx:110-114 | length is kept; every post keeps its id, author, date and status; posts with another id are unchanged; posts with the id take the draft's title, content and category |
| `PostStore.ToggleArchive` | src/pages/Index.tsx:129-132 | length is kept; posts with another id are unchanged; a post with the id differs from before only in its status, which is the other value |
| `PostStore.ToggleArchiveTwice` | src/pages/Index.tsx:129-132 | archiving twice with the same id gives back the original list |
| `PostStore.EditPostsNoMatch` | src/pages/Index.tsx:110-114 | when no post carries the id, the edit leaves the list unchanged |
| `PostStore.EditPostsIdempotent` | src/pages/Index.tsx:110-114 | applying the same edit a second time changes nothing more |
| `PostStore.EditArchiveCommute` | src/pages/Index.tsx:110-132 | an edit and an archive toggle give the same list in either order |
| `Text.Includes` | src/pages/Index.tsx:154-156 | a text includes only queries no longer than itself; it includes the empty query and itself |
| `Text.IncludesIff` | src/pages/Index.tsx:154-156 | the substring scan succeeds exactly when the query occurs at some index of the text |
| `Text.IncludesEmpty` | src/pages/Index.tsx:152-156 | the empty string occurs in every text |
| `ViewFilter.MatchesStatus` | src/pages/Index.tsx:151 | the "all" tab passes every post; under a one-status tab a shown post's archive-toggled copy is not shown |
| `ViewFilter.MatchesSearch` | src/pages/Index.tsx:152-156 | the empty query passes every post; a query that lower-cases to the post's lower-cased title passes it |
| `ViewFilter.MatchesCategory` | src/pages/Index.tsx:157 | a post passes "all" and its own category, and no other category |
| `ViewFilter.Matches` | src/pages/Index.tsx:151-159 | with every filter off, every post passes; with status and category off, the search alone decides |
| `ViewFilter.FilteredPosts` | src/pages/Index.tsx:150-160 | the visible list is no longer than the list; a post is visible exactly when it is in the list and passes the status, search and category tests |
| `ViewFilter.FilteredIsSubsequence` | src/pages/Index.tsx:150-160 | the visible list is an order-preserving selection from the list |
| `ViewFilter.FilteredAppend` | src/pages/Index.tsx:150-160 | filtering a concatenation gives the concatenation of the filtered parts |
| `ViewFilter.FilteredSingle` | src/pages/Index.tsx:151-159 | a single post is kept exactly when it passes the three tests |
| `ViewFilter.FilteredShowAll` | src/pages/Index.tsx:151-157 | with status "all", an empty query and category "all", the whole list is visible |
| `Categories.CategoryList` | src/pages/Index.tsx:71 | one category per post, position by position |
| `Categories.InsertionOrder` | src/pages/Index.tsx:71 | the Set's content has no repeats and holds exactly the inserted values |
| `Categories.AllCategories` | src/pages/Index.tsx:71 | the category choices have no repeats and hold exactly the categories of the posts |
| `Categories.InsertionOrderFollowsFirstAppearance` | src/pages/Index.tsx:71 | the Set's content is ordered by each value's first occurrence in the input |
| `Categories.AllCategoriesSpec` | src/pages/Index.tsx:71 | the category choices have no repeats, are exactly the categories of the posts, and follow first-appearance order |
| `Categories.ToggleArchiveKeepsCategories` | src/pages/Index.tsx:129-132 | archiving does not change the category choices |
| `IndexPage.Index.DialogOpen` | src/pages/Index.tsx:461 | a closed dialog is in neither mode; an open dialog whose modes are kept apart is in exactly one |
| `IndexPage.Index.constructor` | src/pages/Index.tsx:31-69 | the page starts with the two sample posts and notifications, an empty draft and the dialog closed |
| `IndexPage.Index.HandleCreatePost` | src/pages/Index.tsx:73-102 | with an incomplete draft nothing changes; otherwise an active post by the current user, built from the draft with the first clock read as id and the given date, is put first; one "new" notification with the second clock read as id is put first; the draft is emptied and create mode is left |
| `IndexPage.Index.HandleEditPost` | src/pages/Index.tsx:104-127 | without an edited post or with an incomplete draft nothing changes; otherwise the list becomes `EditPosts` of the old list, one "update" notification is put first even when no post matches, the draft is emptied, edit mode is left and create mode is untouched |
| `IndexPage.Index.HandleArchive` | src/pages/Index.tsx:129-134 | the list becomes `ToggleArchive` of the old list; the feed and the form are untouched |
| `IndexPage.Index.OpenEditDialog` | src/pages/Index.tsx:136-143 | edit mode holds the post and the draft holds a copy of its text; the modes are exclusive afterwards exactly when create mode was off |
| `IndexPage.Index.OpenCreateDialog` | src/pages/Index.tsx:145-148 | create mode is on with an empty draft; the modes are exclusive afterwards exactly when no post is being edited |
| `IndexPage.Index.CloseDialog` | src/pages/Index.tsx:507-511 | both modes are off and the draft is empty |
| `IndexPage.Index.OnOpenChange` | src/pages/Index.tsx:461-466 | closing resets both modes and the draft; opening changes nothing |
| `IndexPage.Index.TypeTitle` | src/pages/Index.tsx:480 | only the draft's title changes |
| `IndexPage.Index.TypeCategory` | src/pages/Index.tsx:489 | only the draft's category changes |
| `IndexPage.Index.TypeContent` | src/pages/Index.tsx:498 | only the draft's content changes |
| `IndexPage.Index.Submit` | src/pages/Index.tsx:515 | while a post is being edited, the result is that of the edit handler; otherwise it is that of the create handler |
| `IndexPage.Index.ClearNotifications` | src/pages/Index.tsx:196 | the feed is empty, whatever it held before |
| `Scenarios.ActiveOnlyExample` | src/pages/Index.tsx:150-160 | of an active post and an archived one, the active-only view shows just the active post |
| `Scenarios.SampleCategories` | src/pages/Index.tsx:71 | the sample posts offer their two categories in list order |
| `Scenarios.CreateThenArchive` | src/pages/Index.tsx:73-134 | creating a post from the initial page and archiving it at once leaves only that post archived, in front of the unchanged sample posts, with exactly one new notification, of kind "new" |
| `Scenarios.EditOfMissingPost` | src/pages/Index.tsx:104-127 | editing a post that is not in the list keeps the list and still adds an "update" notification |

## Left out

- Rendering: the JSX layout, styling, icons, cards, table, tabs, dialog markup
  and the toast notices (src/pages/Index.tsx:162-523). These are presentation
  and library calls. The toasts are reflected only in the handlers' `ok` result.
- The clock: each `Date.now()` read becomes a parameter (`postStamp`,
  `noticeStamp` or `stamp`) and `new Date().toISOString()` becomes `today`.
  Turning them into strings is not modelled.
- `toLowerCase` and the `ru-RU` date formatting: both are Unicode and locale
  library behaviour. Lower-casing is the parameter `lower`.
- The hiding of the edit and archive actions for post id "2" in the table view
  (src/pages/Index.tsx:426). This is a rendering special case tied to the
  sample data.
- The `showNotifications` and `viewMode` toggles and the notification count
  badge. They only affect what is displayed.
- The setters of the status filter, the search query and the selected category
  (src/pages/Index.tsx:266-311). They store one value each. The model passes
  those values to `ViewFilter.FilteredPosts` as arguments.
- React's `useState` scheduling. Each handler is one atomic update of the
  component state.
