/**
 * The page's state and its event handlers. Each handler is one atomic
 * update of the component's state. Clock reads are parameters. The create
 * handler reads the millisecond clock twice, once for the post's id
 * (`postStamp`) and once for the notification's (`noticeStamp`); the two
 * are equal unless the clock ticks between the reads. The edit handler
 * reads it once (`stamp`). `today` is the calendar date of a new post.
 *
 * A handler's `ok` result says whether it took its success path; on the
 * other path the page only shows an error notice and changes nothing.
 */
module IndexPage {
  import opened Types
  import opened PostStore

  class Index {
    var posts: seq<Post>
    var notifications: seq<Notification>
    var draft: Draft
    var isCreating: bool
    var editingPost: Option<Post>

    /** The dialog is in at most one of its two modes. */
    predicate OneMode()
      reads this
    {
      !(isCreating && editingPost.Some?)
    }

    /**
     * The dialog is shown while creating or while a post is being edited;
     * with the modes kept apart, an open dialog is in exactly one of them.
     */
    predicate DialogOpen()
      reads this
      ensures DialogOpen() && OneMode() ==> (isCreating <==> editingPost.None?)
      ensures !DialogOpen() ==> !isCreating && editingPost.None?
    {
      isCreating || editingPost.Some?
    }

    constructor ()
      ensures posts == SAMPLE_POSTS && notifications == SAMPLE_NOTIFICATIONS
      ensures draft == EMPTY_DRAFT && !isCreating && editingPost == None
      ensures !DialogOpen()
    {
      posts := SAMPLE_POSTS;
      notifications := SAMPLE_NOTIFICATIONS;
      draft := EMPTY_DRAFT;
      isCreating := false;
      editingPost := None;
    }

    /**
     * Creates a post from the draft, puts it first, announces it first in the
     * feed, then empties the draft and leaves create mode.
     */
    method HandleCreatePost(postStamp: string, noticeStamp: string, today: string) returns (ok: bool)
      modifies this
      ensures ok <==> IsComplete(old(draft))
      ensures !ok ==> unchanged(this)
      ensures ok ==> posts == [Post(postStamp, old(draft).title, old(draft).content, CURRENT_USER, today, Active,
                                    old(draft).category)] + old(posts)
      ensures ok ==> notifications == [Notification(noticeStamp, NEW_POST_PREFIX + old(draft).title, New, JUST_NOW)]
                                      + old(notifications)
      ensures ok ==> draft == EMPTY_DRAFT && !isCreating && editingPost == old(editingPost)
      ensures old(OneMode()) ==> OneMode()
    {
      if !IsComplete(draft) {
        return false;
      }
      var post := Post(postStamp, draft.title, draft.content, CURRENT_USER, today, Active, draft.category);
      posts := [post] + posts;
      notifications := [Notification(noticeStamp, NEW_POST_PREFIX + draft.title, New, JUST_NOW)] + notifications;
      draft := EMPTY_DRAFT;
      isCreating := false;
      ok := true;
    }

    /**
     * Writes the draft's text into every post carrying the edited post's id,
     * announces the update (whether or not any post carries that id), then
     * empties the draft and leaves edit mode. Create mode is not touched.
     */
    method HandleEditPost(stamp: string) returns (ok: bool)
      modifies this
      ensures ok <==> old(editingPost).Some? && IsComplete(old(draft))
      ensures !ok ==> unchanged(this)
      ensures ok ==> posts == EditPosts(old(posts), old(editingPost).value.id, old(draft))
      ensures ok ==> notifications == [Notification(stamp, UPDATE_PREFIX + old(draft).title, Update, JUST_NOW)]
                                      + old(notifications)
      ensures ok ==> draft == EMPTY_DRAFT && editingPost == None && isCreating == old(isCreating)
      ensures ok ==> OneMode()
    {
      if editingPost.None? || !IsComplete(draft) {
        return false;
      }
      posts := EditPosts(posts, editingPost.value.id, draft);
      notifications := [Notification(stamp, UPDATE_PREFIX + draft.title, Update, JUST_NOW)] + notifications;
      draft := EMPTY_DRAFT;
      editingPost := None;
      ok := true;
    }

    /** Flips the status of the posts carrying `id`; nothing else changes and nothing is announced. */
    method HandleArchive(id: string)
      modifies this`posts
      ensures posts == ToggleArchive(old(posts), id)
      ensures notifications == old(notifications)
    {
      posts := ToggleArchive(posts, id);
    }

    /** Enters edit mode for `post` with its text copied into the draft. */
    method OpenEditDialog(post: Post)
      modifies this`editingPost, this`draft
      ensures editingPost == Some(post)
      ensures draft == Draft(post.title, post.content, post.category)
      ensures DialogOpen()
      ensures OneMode() <==> !isCreating
    {
      editingPost := Some(post);
      draft := Draft(post.title, post.content, post.category);
    }

    /** Enters create mode with an empty draft. */
    method OpenCreateDialog()
      modifies this`isCreating, this`draft
      ensures isCreating && draft == EMPTY_DRAFT
      ensures DialogOpen()
      ensures OneMode() <==> editingPost.None?
    {
      isCreating := true;
      draft := EMPTY_DRAFT;
    }

    /** The cancel button and closing the dialog: leave both modes and empty the draft. */
    method CloseDialog()
      modifies this`isCreating, this`editingPost, this`draft
      ensures !isCreating && editingPost == None && draft == EMPTY_DRAFT
      ensures !DialogOpen()
    {
      isCreating := false;
      editingPost := None;
      draft := EMPTY_DRAFT;
    }

    /** The dialog reports a change of visibility; only closing resets the form. */
    method OnOpenChange(open: bool)
      modifies this`isCreating, this`editingPost, this`draft
      ensures open ==> unchanged(this)
      ensures !open ==> !isCreating && editingPost == None && draft == EMPTY_DRAFT
    {
      if !open {
        CloseDialog();
      }
    }

    /** The form's three inputs each replace one field of the draft. */
    method TypeTitle(value: string)
      modifies this`draft
      ensures draft == old(draft).(title := value)
    {
      draft := draft.(title := value);
    }

    method TypeCategory(value: string)
      modifies this`draft
      ensures draft == old(draft).(category := value)
    {
      draft := draft.(category := value);
    }

    method TypeContent(value: string)
      modifies this`draft
      ensures draft == old(draft).(content := value)
    {
      draft := draft.(content := value);
    }

    /** The submit button: edit while a post is being edited, create otherwise. */
    method Submit(stamp: string, noticeStamp: string, today: string) returns (ok: bool)
      modifies this
      ensures ok <==> IsComplete(old(draft))
      ensures !ok ==> unchanged(this)
      ensures ok && old(editingPost).Some? ==>
        posts == EditPosts(old(posts), old(editingPost).value.id, old(draft))
        && notifications == [Notification(stamp, UPDATE_PREFIX + old(draft).title, Update, JUST_NOW)]
                            + old(notifications)
        && isCreating == old(isCreating)
      ensures ok && old(editingPost).None? ==>
        posts == [Post(stamp, old(draft).title, old(draft).content, CURRENT_USER, today, Active, old(draft).category)]
                 + old(posts)
        && notifications == [Notification(noticeStamp, NEW_POST_PREFIX + old(draft).title, New, JUST_NOW)]
                            + old(notifications)
        && !isCreating
      ensures ok ==> draft == EMPTY_DRAFT && editingPost == None
    {
      if editingPost.Some? {
        ok := HandleEditPost(stamp);
      } else {
        ok := HandleCreatePost(stamp, noticeStamp, today);
      }
    }

    /** The feed's clear button. */
    method ClearNotifications()
      modifies this`notifications
      ensures notifications == []
    {
      notifications := [];
    }
  }
}
