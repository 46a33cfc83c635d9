/** The post record and the pure sequence transformations that the App
    component's handlers apply to the post collection. */
module PostModel {
  import opened Seqs

  datatype Option<T> = None | Some(value: T)

  /** One feed entry, as stored under the `posts` key. The image is a data
      URI and the timestamp the locale string taken at creation time. */
  datatype Post = Post(
    id: string,
    image: string,
    caption: string,
    timestamp: string,
    liked: bool,
    saved: bool)

  /** The two flags a user can toggle on a post. */
  datatype Flag = Liked | Saved

  function Has(p: Post, f: Flag): bool
  {
    match f
    case Liked => p.liked
    case Saved => p.saved
  }

  function Other(f: Flag): Flag
  {
    match f
    case Liked => Saved
    case Saved => Liked
  }

  /** The collection after a toggle of flag `f` on post `id`: the `map` with
      a conditional record update in `handleLikePost`/`handleSavePost`. Every
      post keeps its position, its identity, image, caption, timestamp and
      other flag; flag `f` flips on exactly the posts whose id is `id`. */
  function Toggle(ps: seq<Post>, id: string, f: Flag): (r: seq<Post>)
    ensures |r| == |ps|
    ensures forall i :: 0 <= i < |ps| ==>
      r[i].id == ps[i].id && r[i].image == ps[i].image &&
      r[i].caption == ps[i].caption && r[i].timestamp == ps[i].timestamp
    ensures forall i :: 0 <= i < |ps| ==>
      Has(r[i], f) == (if ps[i].id == id then !Has(ps[i], f) else Has(ps[i], f))
    ensures forall i :: 0 <= i < |ps| ==> Has(r[i], Other(f)) == Has(ps[i], Other(f))
  {
    if ps == [] then []
    else
      var p := ps[0];
      var q := if p.id != id then p
               else match f
                    case Liked => p.(liked := !p.liked)
                    case Saved => p.(saved := !p.saved);
      [q] + Toggle(ps[1..], id, f)
  }

  /** Toggling the same flag of the same post twice restores the collection. */
  lemma ToggleTwice(ps: seq<Post>, id: string, f: Flag)
    ensures Toggle(Toggle(ps, id, f), id, f) == ps
  {
  }

  /** A toggle of an id that no post carries changes nothing. */
  lemma ToggleAbsent(ps: seq<Post>, id: string, f: Flag)
    requires forall i :: 0 <= i < |ps| ==> ps[i].id != id
    ensures Toggle(ps, id, f) == ps
  {
  }

  /** The collection after `handleDeletePost(id)`: it keeps every post whose
      id differs, as often as before and in order, and none with that id. */
  function RemoveId(ps: seq<Post>, id: string): (r: seq<Post>)
    ensures IsSubseq(r, ps)
    ensures forall p :: p in r ==> p.id != id
    ensures forall p: Post :: p.id != id ==> multiset(r)[p] == multiset(ps)[p]
  {
    Filter(ps, (p: Post) => p.id != id)
  }

  /** Deleting an id that no post carries leaves the collection unchanged. */
  lemma RemoveAbsent(ps: seq<Post>, id: string)
    requires forall i :: 0 <= i < |ps| ==> ps[i].id != id
    ensures RemoveId(ps, id) == ps
  {
    FilterAll(ps, (p: Post) => p.id != id);
  }

  /** No two posts of the collection share an id. The source never checks
      this; it relies on fresh identifiers from its id generator. */
  ghost predicate UniqueIds(ps: seq<Post>)
  {
    forall i, j :: 0 <= i < j < |ps| ==> ps[i].id != ps[j].id
  }

  lemma UniqueCons(p: Post, ps: seq<Post>)
    ensures UniqueIds([p] + ps) <==> (forall q :: q in ps ==> q.id != p.id) && UniqueIds(ps)
  {
    var s := [p] + ps;
    if UniqueIds(s) {
      forall q | q in ps ensures q.id != p.id {
        var j :| 0 <= j < |ps| && ps[j] == q;
        assert s[0] == p && s[j + 1] == q;
      }
      forall i, j | 0 <= i < j < |ps| ensures ps[i].id != ps[j].id {
        assert s[i + 1] == ps[i] && s[j + 1] == ps[j];
      }
    }
    if (forall q :: q in ps ==> q.id != p.id) && UniqueIds(ps) {
      forall i, j | 0 <= i < j < |s| ensures s[i].id != s[j].id {
        if i == 0 {
          assert s[j] == ps[j - 1] && ps[j - 1] in ps;
        } else {
          assert s[i] == ps[i - 1] && s[j] == ps[j - 1];
        }
      }
    }
  }

  /** Creating a post with a fresh id keeps the ids unique. */
  lemma UniqueAfterCreate(p: Post, ps: seq<Post>)
    requires UniqueIds(ps)
    requires forall q :: q in ps ==> q.id != p.id
    ensures UniqueIds([p] + ps)
  {
    UniqueCons(p, ps);
  }

  /** Toggling a flag keeps the ids unique. */
  lemma UniqueAfterToggle(ps: seq<Post>, id: string, f: Flag)
    requires UniqueIds(ps)
    ensures UniqueIds(Toggle(ps, id, f))
  {
  }

  /** Deleting keeps the ids unique. */
  lemma {:induction false} UniqueAfterRemove(ps: seq<Post>, id: string)
    requires UniqueIds(ps)
    ensures UniqueIds(RemoveId(ps, id))
  {
    if ps != [] {
      var p, t := ps[0], ps[1..];
      assert ps == [p] + t;
      UniqueCons(p, t);
      UniqueAfterRemove(t, id);
      var rt := RemoveId(t, id);
      if p.id != id {
        assert RemoveId(ps, id) == [p] + rt;
        forall q | q in rt ensures q.id != p.id {
          assert multiset(rt)[q] == multiset(t)[q];
          assert q in t;
        }
        UniqueCons(p, rt);
      } else {
        assert RemoveId(ps, id) == rt;
      }
    }
  }
}
