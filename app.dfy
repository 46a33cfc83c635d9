/** The App component's state: the in-memory post list, the storage it
    mirrors, and the two modal flags its handlers set. */
module AppStore {
  import opened PostModel
  import opened Storage

  class App {
    var posts: seq<Post>
    const storage: LocalStorage
    var showCreatePost: bool
    var showClearFeedModal: bool

    /** Storage, read back the way the mount effect reads it, gives the
        in-memory list. */
    ghost predicate Mirrored()
      reads this, storage
    {
      LoadPosts(storage.posts) == posts
    }

    /** First render followed by the mount effect: the post list is what
        storage holds, or empty when the key is missing. Storage itself is
        not written. */
    constructor (storage: LocalStorage)
      ensures this.storage == storage
      ensures posts == LoadPosts(storage.posts)
      ensures storage.posts == old(storage.posts)
      ensures !showCreatePost && !showClearFeedModal
      ensures Mirrored()
    {
      this.storage := storage;
      posts := LoadPosts(storage.posts);
      showCreatePost := false;
      showClearFeedModal := false;
    }

    method OpenCreatePost()
      modifies this
      ensures showCreatePost
      ensures posts == old(posts) && showClearFeedModal == old(showClearFeedModal)
    {
      showCreatePost := true;
    }

    method CloseCreatePost()
      modifies this
      ensures !showCreatePost
      ensures posts == old(posts) && showClearFeedModal == old(showClearFeedModal)
    {
      showCreatePost := false;
    }

    /** `handlePostCreated`: the new post goes in front of all earlier ones,
        the whole list is written back, and the create dialog closes. */
    method PostCreated(newPost: Post)
      modifies this, storage
      ensures posts == [newPost] + old(posts)
      ensures |posts| == |old(posts)| + 1 && posts[0] == newPost && posts[1..] == old(posts)
      ensures storage.posts == Some(posts)
      ensures !showCreatePost && showClearFeedModal == old(showClearFeedModal)
    {
      var updated := [newPost] + posts;
      storage.posts := Some(updated);
      posts := updated;
      showCreatePost := false;
    }

    /** `handleLikePost`: flips `liked` on the posts carrying `post`'s id and
        writes the whole list back. */
    method LikePost(post: Post)
      modifies this, storage
      ensures posts == Toggle(old(posts), post.id, Liked)
      ensures storage.posts == Some(posts)
      ensures showCreatePost == old(showCreatePost) && showClearFeedModal == old(showClearFeedModal)
    {
      var updated := Toggle(posts, post.id, Liked);
      storage.posts := Some(updated);
      posts := updated;
    }

    /** `handleSavePost`: flips `saved` on the posts carrying `post`'s id and
        writes the whole list back. */
    method SavePost(post: Post)
      modifies this, storage
      ensures posts == Toggle(old(posts), post.id, Saved)
      ensures storage.posts == Some(posts)
      ensures showCreatePost == old(showCreatePost) && showClearFeedModal == old(showClearFeedModal)
    {
      var updated := Toggle(posts, post.id, Saved);
      storage.posts := Some(updated);
      posts := updated;
    }

    /** `handleDeletePost`: keeps the posts whose id differs from `postId`
        and writes the whole list back. */
    method DeletePost(postId: string)
      modifies this, storage
      ensures posts == RemoveId(old(posts), postId)
      ensures storage.posts == Some(posts)
      ensures showCreatePost == old(showCreatePost) && showClearFeedModal == old(showClearFeedModal)
    {
      var updated := RemoveId(posts, postId);
      storage.posts := Some(updated);
      posts := updated;
    }

    /** `handleClearFeed`: only asks for confirmation. */
    method ClearFeed()
      modifies this
      ensures showClearFeedModal
      ensures posts == old(posts) && showCreatePost == old(showCreatePost)
    {
      showClearFeedModal := true;
    }

    /** `confirmClearFeed`: removes the key, empties the list and closes the
        confirmation. It has no failure path. */
    method ConfirmClearFeed()
      modifies this, storage
      ensures storage.posts == None && posts == []
      ensures Mirrored()
      ensures !showClearFeedModal && showCreatePost == old(showCreatePost)
    {
      storage.posts := None;
      posts := [];
      showClearFeedModal := false;
    }

    /** `cancelClearFeed`: closes the confirmation and keeps everything. */
    method CancelClearFeed()
      modifies this
      ensures !showClearFeedModal
      ensures posts == old(posts) && showCreatePost == old(showCreatePost)
    {
      showClearFeedModal := false;
    }
  }
}
