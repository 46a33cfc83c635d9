/** The browser's key-value store, reduced to its `posts` key. A value of
    `None` is a missing key; `Some(ps)` is the JSON array `ps`, whose
    encoding and decoding are taken to round-trip exactly. */
module Storage {
  import opened PostModel

  class LocalStorage {
    var posts: Option<seq<Post>>

    constructor (stored: Option<seq<Post>>)
      ensures posts == stored
    {
      posts := stored;
    }
  }

  /** What `JSON.parse(localStorage.getItem("posts")) || []` yields: a
      missing key reads as the empty collection, a present one as its list. */
  function LoadPosts(stored: Option<seq<Post>>): (r: seq<Post>)
    ensures stored.None? ==> r == []
    ensures forall ps :: stored == Some(ps) ==> r == ps
  {
    match stored
    case None => []
    case Some(ps) => ps
  }
}
