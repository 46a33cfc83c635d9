/** The Feed component: the list shown for the current view, the index of the
    post opened in the full-post dialog, and the dialog's navigation. */
module FeedView {
  import opened Seqs
  import opened PostModel

  /** The list the view effect shows: the saved posts for `"saved"`, the
      liked posts for `"liked"`, and every post for any other view name. */
  function Shown(posts: seq<Post>, view: string): (r: seq<Post>)
    ensures |r| <= |posts|
    ensures IsSubseq(r, posts)
    ensures view == "saved" ==>
      (forall p :: p in r ==> p.saved) &&
      (forall p: Post :: p.saved ==> multiset(r)[p] == multiset(posts)[p])
    ensures view == "liked" ==>
      (forall p :: p in r ==> p.liked) &&
      (forall p: Post :: p.liked ==> multiset(r)[p] == multiset(posts)[p])
    ensures view != "saved" && view != "liked" ==> r == posts
  {
    if view == "saved" then Filter(posts, (p: Post) => p.saved)
    else if view == "liked" then Filter(posts, (p: Post) => p.liked)
    else SubseqRefl(posts); posts
  }

  /** The "saved" view is exactly the saved posts in their feed order: any
      order-preserving selection holding only saved posts, each as often as
      the feed does, is that view. */
  lemma SavedViewExact(posts: seq<Post>, r: seq<Post>)
    requires IsSubseq(r, posts)
    requires forall p :: p in r ==> p.saved
    requires forall p: Post :: p.saved ==> multiset(r)[p] == multiset(posts)[p]
    ensures r == Shown(posts, "saved")
  {
    FilterUnique(posts, (p: Post) => p.saved, r);
  }

  /** The "liked" view is exactly the liked posts in their feed order. */
  lemma LikedViewExact(posts: seq<Post>, r: seq<Post>)
    requires IsSubseq(r, posts)
    requires forall p :: p in r ==> p.liked
    requires forall p: Post :: p.liked ==> multiset(r)[p] == multiset(posts)[p]
    ensures r == Shown(posts, "liked")
  {
    FilterUnique(posts, (p: Post) => p.liked, r);
  }

  /** "Clear Feed" is offered while the shown list is non-empty and the view
      is not `"saved"`. */
  predicate ClearFeedOffered(postList: seq<Post>, view: string)
  {
    |postList| > 0 && view != "saved"
  }

  /** In terms of the whole collection: never in the saved view; in the liked
      view exactly when some post is liked; otherwise whenever there is a
      post at all. */
  lemma ClearFeedOfferedIff(posts: seq<Post>, view: string)
    ensures ClearFeedOffered(Shown(posts, view), view) <==>
      view != "saved" &&
      (if view == "liked" then exists i :: 0 <= i < |posts| && posts[i].liked
       else |posts| > 0)
  {
    if view == "liked" {
      FilterEmpty(posts, (p: Post) => p.liked);
      if exists i :: 0 <= i < |posts| && posts[i].liked {
        var i :| 0 <= i < |posts| && posts[i].liked;
        assert posts[i] in posts;
      }
    }
  }

  /** The left arrow: one back, wrapping from the first post to the last. */
  function Prev(i: int, len: int): (r: int)
    ensures 0 <= i < len ==> 0 <= r < len && r == (i - 1) % len
  {
    if i > 0 then i - 1 else len - 1
  }

  /** The right arrow: one forward, wrapping from the last post to the first. */
  function Next(i: int, len: int): (r: int)
    ensures 0 <= i < len ==> 0 <= r < len && r == (i + 1) % len
  {
    if i < len - 1 then i + 1 else 0
  }

  lemma NextThenPrev(i: int, len: int)
    requires 0 <= i < len
    ensures Prev(Next(i, len), len) == i
  {
  }

  lemma PrevThenNext(i: int, len: int)
    requires 0 <= i < len
    ensures Next(Prev(i, len), len) == i
  {
  }

  /** The reset effect: a selection at or past the end of the new list is
      dropped; any other selection, and no selection, is kept. */
  function ResetSelection(selected: Option<int>, len: int): (r: Option<int>)
    ensures r == None <==> selected == None || selected.value >= len
    ensures r != None ==> r == selected && r.value < len
  {
    if selected.Some? && selected.value >= len then None else selected
  }

  class Feed {
    var posts: seq<Post>
    var view: string
    var postList: seq<Post>
    var selected: Option<int>

    /** The shown list follows the props, and a selection is an index into it. */
    ghost predicate Valid()
      reads this
    {
      postList == Shown(posts, view) &&
      (selected.Some? ==> 0 <= selected.value < |postList|)
    }

    /** Mounting: the view effect runs once with the initial props. */
    constructor (posts: seq<Post>, view: string)
      ensures Valid()
      ensures this.posts == posts && this.view == view && selected == None
    {
      this.posts := posts;
      this.view := view;
      postList := Shown(posts, view);
      selected := None;
    }

    /** New props: the view effect recomputes the shown list, then the reset
        effect drops a selection that fell off its end. A selection still in
        range keeps its index, even if another post now sits there. */
    method Update(newPosts: seq<Post>, newView: string)
      requires Valid()
      modifies this
      ensures Valid()
      ensures posts == newPosts && view == newView
      ensures postList == Shown(newPosts, newView)
      ensures selected == ResetSelection(old(selected), |postList|)
    {
      posts, view := newPosts, newView;
      postList := Shown(posts, view);
      selected := ResetSelection(selected, |postList|);
    }

    /** A click on the post image at `index` of the grid. */
    method Open(index: int)
      requires Valid()
      requires 0 <= index < |postList|
      modifies this
      ensures Valid()
      ensures selected == Some(index)
      ensures posts == old(posts) && view == old(view) && postList == old(postList)
    {
      selected := Some(index);
    }

    /** The dialog's close button. */
    method Close()
      requires Valid()
      modifies this
      ensures Valid()
      ensures selected == None
      ensures posts == old(posts) && view == old(view) && postList == old(postList)
    {
      selected := None;
    }

    /** The post shown in the dialog, if it is open: the one at the selected
        index, which `Valid()` keeps inside the shown list, so the dialog's
        guard never hides an open selection. */
    function Current(): (r: Option<Post>)
      requires Valid()
      reads this
      ensures r.Some? <==> selected.Some?
      ensures r.Some? ==> r.value in postList
      ensures r.Some? ==> r.value == postList[selected.value]
    {
      if selected.Some? then Some(postList[selected.value]) else None
    }

    /** The left arrow of the open dialog. */
    method ShowPrev()
      requires Valid()
      requires selected.Some?
      modifies this
      ensures Valid()
      ensures selected == Some(Prev(old(selected).value, |postList|))
      ensures posts == old(posts) && view == old(view) && postList == old(postList)
    {
      selected := Some(Prev(selected.value, |postList|));
    }

    /** The right arrow of the open dialog. */
    method ShowNext()
      requires Valid()
      requires selected.Some?
      modifies this
      ensures Valid()
      ensures selected == Some(Next(old(selected).value, |postList|))
      ensures posts == old(posts) && view == old(view) && postList == old(postList)
    {
      selected := Some(Next(selected.value, |postList|));
    }
  }
}
