/** How the components call each other: the App mounts a fresh CreatePost
    dialog, the dialog hands a new post to the App, and the Feed dialog's
    buttons call the App's handlers with the post it shows, after which the
    Feed receives the new list. */
module Session {
  import opened PostModel
  import opened Storage
  import opened AppStore
  import opened FeedView
  import opened CreateFlow

  /** The sidebar's "Create" button: the App shows the dialog, and because
      the dialog is rendered only while it is shown, it mounts with every
      field at its initial value. A dialog that was closed, or that posted,
      is never used again. */
  method OpenCreateDialog(app: App) returns (form: CreatePost)
    modifies app
    ensures fresh(form) && form.storage == app.storage
    ensures form.imageUrl == "" && form.caption == "" && form.preview == ""
    ensures form.croppedImage == None && form.cropAreaPixels == None && !form.isCropping
    ensures app.showCreatePost
    ensures app.posts == old(app.posts) && app.showClearFeedModal == old(app.showClearFeedModal)
  {
    app.OpenCreatePost();
    form := new CreatePost(app.storage);
  }

  /** "Post" in the dialog. Storage is written twice: first by the dialog,
      from what storage holds (`written` is storage after that write), then
      by the App, from its own list. The post goes through exactly when the
      dialog's guard holds; the record is built from the dialog's fields.
      When storage mirrored the App's list before, the dialog's write already
      holds the App's new list, the App's write agrees with it, and storage
      still mirrors the list after. */
  method SubmitPost(app: App, form: CreatePost, id: string, timestamp: string)
    returns (created: Option<Post>, ghost written: Option<seq<Post>>)
    requires form.storage == app.storage
    requires app.Mirrored()
    modifies app, form, app.storage
    ensures app.Mirrored()
    ensures created.Some? <==> CanPost(old(form.croppedImage), old(form.caption))
    ensures created.None? ==>
      unchanged(form) && unchanged(app) && unchanged(app.storage) &&
      written == old(app.storage.posts)
    ensures created.Some? ==>
      created.value == Post(id, old(form.croppedImage).value, old(form.caption), timestamp, false, false) &&
      written == Some([created.value] + old(app.posts)) &&
      app.posts == [created.value] + old(app.posts) &&
      app.storage.posts == written && !app.showCreatePost &&
      app.showClearFeedModal == old(app.showClearFeedModal) &&
      form.caption == "" && form.croppedImage == None && form.preview == "" && !form.isCropping &&
      form.imageUrl == old(form.imageUrl) && form.cropAreaPixels == old(form.cropAreaPixels)
  {
    created := form.HandlePost(id, timestamp);
    written := app.storage.posts;
    if created.Some? {
      app.PostCreated(created.value);
    }
  }

  /** The heart button of the open post dialog. The App writes its whole
      new list to storage, so storage mirrors the list afterwards whatever
      it held before; the modal flags are left alone. */
  method LikeSelected(app: App, feed: Feed)
    requires feed.Valid() && feed.selected.Some?
    modifies app, app.storage, feed
    ensures app.posts == Toggle(old(app.posts), old(feed.Current()).value.id, Liked)
    ensures app.showCreatePost == old(app.showCreatePost) && app.showClearFeedModal == old(app.showClearFeedModal)
    ensures app.Mirrored() && app.storage.posts == Some(app.posts)
    ensures feed.Valid() && feed.posts == app.posts && feed.view == old(feed.view)
    ensures feed.selected == ResetSelection(old(feed.selected), |feed.postList|)
  {
    var post := feed.Current().value;
    app.LikePost(post);
    feed.Update(app.posts, feed.view);
  }

  /** The bookmark button of the open post dialog; as for the heart, storage
      mirrors the list afterwards and the modal flags are left alone. */
  method SaveSelected(app: App, feed: Feed)
    requires feed.Valid() && feed.selected.Some?
    modifies app, app.storage, feed
    ensures app.posts == Toggle(old(app.posts), old(feed.Current()).value.id, Saved)
    ensures app.showCreatePost == old(app.showCreatePost) && app.showClearFeedModal == old(app.showClearFeedModal)
    ensures app.Mirrored() && app.storage.posts == Some(app.posts)
    ensures feed.Valid() && feed.posts == app.posts && feed.view == old(feed.view)
    ensures feed.selected == ResetSelection(old(feed.selected), |feed.postList|)
  {
    var post := feed.Current().value;
    app.SavePost(post);
    feed.Update(app.posts, feed.view);
  }

  /** The trash button of the open post dialog; as for the heart, storage
      mirrors the list afterwards and the modal flags are left alone. */
  method DeleteSelected(app: App, feed: Feed)
    requires feed.Valid() && feed.selected.Some?
    modifies app, app.storage, feed
    ensures app.posts == RemoveId(old(app.posts), old(feed.Current()).value.id)
    ensures app.showCreatePost == old(app.showCreatePost) && app.showClearFeedModal == old(app.showClearFeedModal)
    ensures app.Mirrored() && app.storage.posts == Some(app.posts)
    ensures feed.Valid() && feed.posts == app.posts && feed.view == old(feed.view)
    ensures feed.selected == ResetSelection(old(feed.selected), |feed.postList|)
  {
    var post := feed.Current().value;
    app.DeletePost(post.id);
    feed.Update(app.posts, feed.view);
  }
}
