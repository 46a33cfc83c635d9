# Flick photo feed: a Dafny model of its post store, feed view and post-creation flow

Flick is a single-user photo feed that runs in the browser. A user creates a
post from an uploaded file or an image URL, crops it to a fixed 400x500
picture, captions it, and then browses the feed, likes, saves and deletes
posts, or clears the whole feed. The posts live in the App component's
state and are mirrored, as one JSON array, under the `posts` key of the
browser's local storage.

The model has three cooperating parts plus the wiring between them:

- `AppStore` (`app.dfy`): the App component as a class with the post list
  `posts`, the shared `storage` object and the two modal flags. Its handlers
  prepend, toggle by id, delete by id and clear. Creating, liking, saving
  and deleting rewrite the whole stored list; clearing removes the key. The pure list functions they call are in `PostModel`
  (`posts.dfy`) and `Seqs` (`seqs.dfy`, the order-preserving `filter`).
  The storage mirror is in `Storage` (`storage.dfy`): an `Option` that is
  `None` when the key is missing.
- `FeedView` (`feed.dfy`): the Feed component. It has the view projection
  `Shown`, the wrap-around `Prev`/`Next` arithmetic, the reset of an
  out-of-range selection, and a `Feed` class holding `postList` and the
  selected index. `Valid()` says the shown list follows the props and the
  selection indexes into it.
- `CreateFlow` (`createpost.dfy`): the CreatePost dialog as a class with
  `imageUrl`, `caption`, `preview`, `croppedImage`, `cropAreaPixels` and
  `isCropping`. Its guarded handlers are plain methods; the crop render
  and `String.prototype.trim` are pure functions.
- `Session` (`session.dfy`): a submitted post goes from the dialog to the
  App, and the Feed dialog's buttons call the App's handlers. A post is
  written to storage twice, once by the dialog and once by the App;
  `SubmitPost` states that the two writes hold the same list.

Things outside the model arrive as parameters: the generated id, the
creation timestamp, whether an image loads, the file reader's data URL,
the crop rectangle and the canvas encoder. A failed image load, the
`alert` calls and a missing file change no state, so they have no method.

Three behaviours of the code that the model keeps as written:
- Loading a corrupt `posts` value throws in the code (`JSON.parse`); it does
  not fall back to an empty list. The model has no corrupt value at all.
- The stored caption is the text as typed, not trimmed. Only the guard trims it.
- The reset effect drops a selection only when its index is at or past the
  end of the new list. An in-range index is kept, even when the post it
  pointed at was deleted or left the view, so the dialog then shows its
  neighbour.

## Model

| member | source | states |
|---|---|---|
| `Seqs.Filter` | src/App.js:65 | the result is an order-preserving subsequence, holds only kept elements, and holds every kept element exactly as often as the input; it is no longer than the input |
| `Seqs.FilterUnique` | src/components/Feed.js:14-17 | those three properties determine the filter: any subsequence that satisfies them equals `Filter` |
| `Seqs.FilterAll` | src/App.js:65 | filtering with a predicate that holds of every element returns the input unchanged |
| `Seqs.FilterEmpty` | src/components/Feed.js:37 | the filter is empty exactly when no element is kept |
| `PostModel.Toggle` | src/App.js:41-60 | same length and positions; id, image, caption, timestamp and the other flag do not change; the toggled flag flips exactly on the posts whose id matches |
| `PostModel.ToggleTwice` | src/App.js:43-45 | toggling the same flag of the same id twice gives back the original collection |
| `PostModel.ToggleAbsent` | src/App.js:43-45 | toggling an id that no post carries changes nothing |
| `PostModel.RemoveId` | src/App.js:65 | the result is an order-preserving subsequence of the input, holds no post with the id, and holds every other post exactly as often as the input |
| `PostModel.RemoveAbsent` | src/App.js:63-69 | deleting an id that no post carries changes nothing |
| `PostModel.UniqueAfterCreate` | src/App.js:30-35 | prepending a post with a fresh id keeps ids unique |
| `PostModel.UniqueAfterToggle` | src/App.js:41-60 | toggling keeps ids unique |
| `PostModel.UniqueAfterRemove` | src/App.js:63-69 | deleting keeps ids unique |
| `PostModel.UniqueCons` | src/App.js:32 | a prepended list has unique ids exactly when the new id is absent from the old list and the old list has unique ids |
| `Storage.LocalStorage.constructor` | src/App.js:15 | the store starts with the given value of the `posts` key, `None` for a missing key |
| `Storage.LoadPosts` | src/App.js:15 | a missing key reads as the empty list; a stored list reads as itself |
| `AppStore.App.constructor` | src/App.js:7-17 | after mount the in-memory list is what storage holds, or empty for a missing key; storage is not written; both modals are closed |
| `AppStore.App.Mirrored` | src/App.js:15-33 | the in-memory list equals what the `posts` key reads as; the constructor establishes it and every handler keeps it |
| `AppStore.App.PostCreated` | src/App.js:30-38 | the new post is at index 0, the earlier posts follow in their order, the length grows by one, storage holds the new list, the create dialog closes |
| `AppStore.App.LikePost` | src/App.js:41-49 | the list becomes `Toggle(old, post.id, Liked)` and storage holds the new list |
| `AppStore.App.SavePost` | src/App.js:52-60 | the list becomes `Toggle(old, post.id, Saved)` and storage holds the new list |
| `AppStore.App.DeletePost` | src/App.js:63-69 | the list becomes the posts whose id differs, in order, and storage holds the new list |
| `AppStore.App.ClearFeed` | src/App.js:72-74 | only opens the confirmation; the posts are untouched |
| `AppStore.App.ConfirmClearFeed` | src/App.js:76-80 | the key is removed, the list is empty, the mirror holds, the confirmation closes; there is no failure path |
| `AppStore.App.CancelClearFeed` | src/App.js:82-84 | closes the confirmation and keeps the posts |
| `AppStore.App.OpenCreatePost` | src/App.js:90 | opens the create dialog and keeps the posts |
| `AppStore.App.CloseCreatePost` | src/App.js:114 | closes the create dialog and keeps the posts |
| `FeedView.Shown` | src/components/Feed.js:13-21 | every view is an order-preserving subsequence no longer than the collection; `"saved"` holds only saved posts and all of them; `"liked"` likewise for liked posts; any other view is the collection unchanged |
| `FeedView.SavedViewExact` | src/components/Feed.js:14-15 | the `"saved"` view is the only subsequence holding exactly the saved posts |
| `FeedView.LikedViewExact` | src/components/Feed.js:16-17 | the `"liked"` view is the only subsequence holding exactly the liked posts |
| `FeedView.ClearFeedOffered` | src/components/Feed.js:37 | the "Clear Feed" button is rendered when the shown list is non-empty and the view is not `"saved"` |
| `FeedView.ClearFeedOfferedIff` | src/components/Feed.js:37 | "Clear Feed" is offered exactly when the view is not `"saved"` and the view shows a post: for `"liked"` some post is liked, otherwise the collection is non-empty |
| `FeedView.Prev` | src/components/Feed.js:100 | for an index in range the result is in range and equals (i - 1) mod len, so the first post wraps to the last |
| `FeedView.Next` | src/components/Feed.js:116 | for an index in range the result is in range and equals (i + 1) mod len, so the last post wraps to the first |
| `FeedView.NextThenPrev` | src/components/Feed.js:100-116 | "previous" after "next" returns to the starting index |
| `FeedView.PrevThenNext` | src/components/Feed.js:100-116 | "next" after "previous" returns to the starting index |
| `FeedView.ResetSelection` | src/components/Feed.js:24-28 | the selection is dropped exactly when it is at or beyond the list length; otherwise it is kept |
| `FeedView.Feed.constructor` | src/components/Feed.js:8-21 | after mount the shown list is the view of the props and nothing is selected |
| `FeedView.Feed.Update` | src/components/Feed.js:13-28 | the shown list is recomputed from the new props and the selection passes through the reset, so the selection stays an index into the shown list |
| `FeedView.Feed.Open` | src/components/Feed.js:67 | selects the clicked index |
| `FeedView.Feed.Close` | src/components/Feed.js:91 | clears the selection |
| `FeedView.Feed.Current` | src/components/Feed.js:85 | a post is shown exactly when an index is selected, and it is the shown post at the selected index, which lies inside the shown list |
| `FeedView.Feed.ShowPrev` | src/components/Feed.js:100 | the selection moves to `Prev` and stays in range |
| `FeedView.Feed.ShowNext` | src/components/Feed.js:116 | the selection moves to `Next` and stays in range |
| `CreateFlow.SkipStart` | src/components/CreatePost.js:125 | the returned index is the first one from the start position that is not white space, or the end |
| `CreateFlow.SkipEnd` | src/components/CreatePost.js:125 | the returned index ends the range once its trailing white space is dropped; the character before it is not white space |
| `CreateFlow.Trim` | src/components/CreatePost.js:125 | the result is a slice of the caption with only white space around it, and it neither starts nor ends with white space |
| `CreateFlow.TrimEmptyIff` | src/components/CreatePost.js:125 | a caption trims to empty exactly when every character is white space |
| `CreateFlow.CanPost` | src/components/CreatePost.js:125 | posting is allowed exactly when there is a non-empty cropped image and the caption has a character that is not white space |
| `CreateFlow.CreateCroppedImage` | src/components/CreatePost.js:62-103 | it rejects for no preview first, then for a failed image load, then for a missing crop area; a success draws the crop area of the preview onto a 400x500 canvas |
| `CreateFlow.NoAreaNoImage` | src/components/CreatePost.js:83-87 | without a crop area no image is ever drawn |
| `CreateFlow.DoneCroppingNeverMissesArea` | src/components/CreatePost.js:106-112 | with a crop area set, the crop-area rejection cannot happen, and a loaded preview always draws |
| `CreateFlow.CreatePost.constructor` | src/components/CreatePost.js:7-14 | every field starts empty, null or false |
| `CreateFlow.CreatePost.FileLoaded` | src/components/CreatePost.js:23-27 | a loaded file becomes the URL field and the preview, and cropping starts |
| `CreateFlow.CreatePost.ImageUrlInput` | src/components/CreatePost.js:37-40 | the typed URL is kept and the preview is cleared at once |
| `CreateFlow.CreatePost.UrlImageLoaded` | src/components/CreatePost.js:46-49 | a URL whose image loaded becomes the preview, and cropping starts |
| `CreateFlow.CreatePost.CropComplete` | src/components/CreatePost.js:57-59 | records the crop rectangle and nothing else |
| `CreateFlow.CreatePost.CaptionChanged` | src/components/CreatePost.js:237 | records the caption exactly as typed |
| `CreateFlow.CreatePost.DoneCropping` | src/components/CreatePost.js:106-121 | no crop area, a rejected render or an empty encoding leave every field unchanged; otherwise the encoded image becomes both the cropped image and the preview, and cropping ends |
| `CreateFlow.CreatePost.HandlePost` | src/components/CreatePost.js:124-153 | when the guard fails nothing changes and storage is not written; otherwise the record has the given id and timestamp, the cropped image, the caption as typed and both flags false; storage becomes that record in front of the previously stored list (empty if the key was missing); caption, cropped image, preview and cropping are reset |
| `Session.OpenCreateDialog` | src/App.js:90-114 | the create dialog is shown and a fresh dialog is mounted with every field at its initial value, sharing the App's storage; the posts are kept |
| `Session.SubmitPost` | src/components/CreatePost.js:124-152 | the post goes through exactly when the guard holds; a refused post changes neither the dialog, the App nor storage; otherwise the record has the given id and timestamp, the cropped image, the caption as typed and both flags false, the dialog's write and the App's write hold the same list (the new post in front of the old one), storage still mirrors the App's list, the create dialog closes, and the dialog's caption, cropped image, preview and cropping are reset |
| `Session.LikeSelected` | src/components/Feed.js:139 | the heart toggles `liked` on the shown post's id; the two modal flags are kept; storage mirrors the list whatever it held before; the feed is recomputed from the new list in the same view and its selection passes through the reset, so it stays valid |
| `Session.SaveSelected` | src/components/Feed.js:147 | the bookmark toggles `saved` on the shown post's id; the two modal flags are kept; storage mirrors the list whatever it held before; the feed is recomputed from the new list in the same view and its selection passes through the reset, so it stays valid |
| `Session.DeleteSelected` | src/components/Feed.js:156 | the trash button removes the shown post's id; the two modal flags are kept; storage mirrors the list whatever it held before; the feed is recomputed from the new list in the same view and its selection passes through the reset, so it stays valid |

## Left out

- Rendering, CSS classes, icons and modal layout: they are display only.
- The Sidebar component is not part of this model. The view is just the string passed to the Feed.
- Dark mode (its state, the DOM class toggle and the `darkMode` key) is not modelled. It is independent of the posts.
- Canvas drawing and JPEG encoding: the encoder is a function parameter of `DoneCropping`. The pixel scaling of the crop is floating point and browser-defined.
- `CreateFlow.CropArea`: the rectangle's coordinates are integers here, though they are floating point in the browser. Only the rectangle's presence affects the logic.
- `FileReader` and `Image` loading: the outcomes are parameters or separate callback methods. A failed load, the `alert` calls and a missing file change nothing, so they have no method.
- Interleaving of asynchronous callbacks with other input: `DoneCropping` runs its render as one step.
- The react-easy-crop interaction and the zoom slider. The crop position and zoom are not modelled; only the reported rectangle is.
- Id generation and the clock: the id and timestamp are parameters. Unique ids are proved preserved only when the new id is fresh; the code does not check this.
- JSON encoding and decoding of the `posts` key: it is taken to round-trip exactly. Corrupt stored data, on which the code throws, is not modelled.
- Timestamp formatting with date-fns and its two fallbacks (the current time in the grid, "Unknown Date" in the dialog): they depend on the locale and the clock.
- `AppStore.App.CloseCreatePost`, `CreateFlow.CreatePost`: closing the dialog, or posting from it, unmounts the CreatePost component and discards its state. The model does not destroy the object; a reopened dialog is a fresh `CreatePost` from `Session.OpenCreateDialog`, and nothing stops a caller from using a discarded one.
- `CreateFlow.CreatePost.DoneCropping`: when `createCroppedImage` rejects, the awaited call throws and the rejection goes uncaught. The model returns without a change instead; the state is the same, since the code sets nothing before the throw.
- Storage write failures such as an exceeded quota: the code does not handle them.
