/** What the read handlers compute, as functions of the collections, and the
    properties of those functions. */
module Queries {
  import opened Records

  /** The ids of a slice of users, in slice order. */
  function UserIds(us: seq<User>): (ids: seq<string>)
    ensures |ids| == |us|
    ensures forall i :: 0 <= i < |us| ==> ids[i] == us[i].id
  {
    seq(|us|, i requires 0 <= i < |us| => us[i].id)
  }

  /** The ids of a slice of posts, in slice order. It repeats UserIds
      because main.go repeats the user scan for posts. */
  function PostIds(ps: seq<Post>): (ids: seq<string>)
    ensures |ids| == |ps|
    ensures forall i :: 0 <= i < |ps| ==> ids[i] == ps[i].id
  {
    seq(|ps|, i requires 0 <= i < |ps| => ps[i].id)
  }

  /** The position of the first occurrence of key, scanning from the front. */
  function FirstIndex(ids: seq<string>, key: string): (r: Option<nat>)
    ensures r.None? ==> key !in ids
    ensures r.Some? ==> r.value < |ids| && ids[r.value] == key
    ensures r.Some? ==> forall j :: 0 <= j < r.value ==> ids[j] != key
  {
    if ids == [] then None
    else if ids[0] == key then Some(0)
    else match FirstIndex(ids[1..], key)
      case None => None
      case Some(i) => Some(i + 1)
  }

  /** Appending an id moves no earlier first occurrence, and it is found
      only when the key was absent before. */
  lemma FirstIndexAppend(ids: seq<string>, k: string, key: string)
    ensures FirstIndex(ids + [k], key) ==
      if key in ids then FirstIndex(ids, key)
      else if k == key then Some(|ids|)
      else None
  {
    var r := FirstIndex(ids + [k], key);
    if key in ids {
      var i :| 0 <= i < |ids| && ids[i] == key;
      assert (ids + [k])[i] == key;
      var f := FirstIndex(ids, key);
      assert r.value <= i;
      assert (ids + [k])[f.value] == key;
      assert r.value == f.value by {
        assert forall j :: 0 <= j < |ids| ==> (ids + [k])[j] == ids[j];
      }
    } else {
      assert forall j :: 0 <= j < |ids| ==> (ids + [k])[j] == ids[j];
      if k == key {
        assert (ids + [k])[|ids|] == key;
      }
    }
  }

  /** What getUser answers: the first user with the requested id, in slice
      order, or the zero-valued user when there is none. */
  function LookupUser(us: seq<User>, key: string): (r: User)
    ensures (forall i :: 0 <= i < |us| ==> us[i].id != key) ==> r == ZeroUser
    ensures forall i ::
      (0 <= i < |us| && us[i].id == key && forall j :: 0 <= j < i ==> us[j].id != key) ==> r == us[i]
  {
    match FirstIndex(UserIds(us), key)
    case None => ZeroUser
    case Some(i) => us[i]
  }

  /** The same for getPost; the zero-valued post has a nil owner. */
  function LookupPost(ps: seq<Post>, key: string): (r: Post)
    ensures (forall i :: 0 <= i < |ps| ==> ps[i].id != key) ==> r == ZeroPost
    ensures forall i ::
      (0 <= i < |ps| && ps[i].id == key && forall j :: 0 <= j < i ==> ps[j].id != key) ==> r == ps[i]
  {
    match FirstIndex(PostIds(ps), key)
    case None => ZeroPost
    case Some(i) => ps[i]
  }

  /** When no stored id is empty, the zero-valued user comes back exactly
      when no user has the requested id. */
  lemma LookupUserZero(us: seq<User>, key: string)
    requires forall i :: 0 <= i < |us| ==> us[i].id != ""
    ensures LookupUser(us, key) == ZeroUser <==> key !in UserIds(us)
  {
  }

  /** The same for posts. */
  lemma LookupPostZero(ps: seq<Post>, key: string)
    requires forall i :: 0 <= i < |ps| ==> ps[i].id != ""
    ensures LookupPost(ps, key) == ZeroPost <==> key !in PostIds(ps)
  {
  }

  /** Looking up after a user was appended: an earlier user with the same id
      shadows the new one (ids are not unique), otherwise the new user is
      found by its own id. */
  lemma LookupUserAfterAppend(us: seq<User>, u: User, key: string)
    ensures LookupUser(us + [u], key) ==
      if key in UserIds(us) then LookupUser(us, key)
      else if u.id == key then u
      else ZeroUser
  {
    assert UserIds(us + [u]) == UserIds(us) + [u.id];
    FirstIndexAppend(UserIds(us), u.id, key);
  }

  /** The same for posts. */
  lemma LookupPostAfterAppend(ps: seq<Post>, p: Post, key: string)
    ensures LookupPost(ps + [p], key) ==
      if key in PostIds(ps) then LookupPost(ps, key)
      else if p.id == key then p
      else ZeroPost
  {
    assert PostIds(ps + [p]) == PostIds(ps) + [p.id];
    FirstIndexAppend(PostIds(ps), p.id, key);
  }

  /** The post has an owner and the owner's id is the key. */
  predicate OwnedBy(p: Post, key: string) {
    p.user.Some? && p.user.value.id == key
  }

  /** The posts owned by key, in slice order. */
  function PostsOf(ps: seq<Post>, key: string): seq<Post>
  {
    if ps == [] then []
    else PostsOf(ps[..|ps| - 1], key) + (if OwnedBy(ps[|ps| - 1], key) then [ps[|ps| - 1]] else [])
  }

  /** Filtering distributes over concatenation. */
  lemma {:induction false} PostsOfAppend(a: seq<Post>, b: seq<Post>, key: string)
    ensures PostsOf(a + b, key) == PostsOf(a, key) + PostsOf(b, key)
  {
    if b == [] {
      assert a + b == a;
    } else {
      var b' := b[..|b| - 1];
      assert (a + b)[..|a + b| - 1] == a + b';
      PostsOfAppend(a, b', key);
    }
  }

  /** Each post occurs in the result as often as in the slice when its owner
      is the key, and not at all otherwise. */
  lemma {:induction false} PostsOfCount(ps: seq<Post>, key: string, p: Post)
    ensures multiset(PostsOf(ps, key))[p] == if OwnedBy(p, key) then multiset(ps)[p] else 0
  {
    if ps != [] {
      var init := ps[..|ps| - 1];
      PostsOfCount(init, key, p);
      assert ps == init + [ps[|ps| - 1]];
    }
  }

  lemma {:induction false} PostsOfMember(ps: seq<Post>, key: string, p: Post)
    ensures p in PostsOf(ps, key) <==> p in ps && OwnedBy(p, key)
  {
    PostsOfCount(ps, key, p);
  }

  /** a can be obtained from b by deleting elements. */
  predicate IsSubsequence<T(==)>(a: seq<T>, b: seq<T>)
    decreases |b|
  {
    if a == [] then true
    else if b == [] then false
    else
      (a[|a| - 1] == b[|b| - 1] && IsSubsequence(a[..|a| - 1], b[..|b| - 1])) ||
      IsSubsequence(a, b[..|b| - 1])
  }

  /** The filter keeps the slice order. */
  lemma {:induction false} PostsOfSubsequence(ps: seq<Post>, key: string)
    ensures IsSubsequence(PostsOf(ps, key), ps)
  {
    if ps != [] {
      var init := ps[..|ps| - 1];
      PostsOfSubsequence(init, key);
      var r := PostsOf(ps, key);
      if OwnedBy(ps[|ps| - 1], key) {
        assert r[..|r| - 1] == PostsOf(init, key);
      } else if r != [] {
        assert r == PostsOf(init, key);
      }
    }
  }

  lemma {:induction false} PostsOfEmpty(ps: seq<Post>, key: string)
    ensures PostsOf(ps, key) == [] <==> forall i :: 0 <= i < |ps| ==> !OwnedBy(ps[i], key)
  {
    if ps != [] {
      var init := ps[..|ps| - 1];
      PostsOfEmpty(init, key);
      assert forall i :: 0 <= i < |init| ==> init[i] == ps[i];
    }
  }

  /** The position of the first post without an owner. */
  function FirstNilUser(ps: seq<Post>): (r: Option<nat>)
    ensures r.None? ==> forall i :: 0 <= i < |ps| ==> ps[i].user.Some?
    ensures r.Some? ==> r.value < |ps| && ps[r.value].user.None?
    ensures r.Some? ==> forall j :: 0 <= j < r.value ==> ps[j].user.Some?
  {
    if ps == [] then None
    else if ps[0].user.None? then Some(0)
    else match FirstNilUser(ps[1..])
      case None => None
      case Some(i) => Some(i + 1)
  }

  /** The outcome of getPostsOfUser: the matching posts, or the nil-pointer
      panic raised at the first post that has no owner. */
  datatype Listing = Listed(posts: seq<Post>) | NilUserPanic(at: nat)

  function ListByOwner(ps: seq<Post>, key: string): (r: Listing)
    ensures r.Listed? <==> forall i :: 0 <= i < |ps| ==> ps[i].user.Some?
    ensures r.NilUserPanic? ==> r.at < |ps| && ps[r.at].user.None?
    ensures r.NilUserPanic? ==> forall j :: 0 <= j < r.at ==> ps[j].user.Some?
    ensures r.Listed? ==> r.posts == PostsOf(ps, key)
  {
    match FirstNilUser(ps)
    case Some(i) => NilUserPanic(i)
    case None => Listed(PostsOf(ps, key))
  }

  /** When every post has an owner, the listing is exactly the owned posts:
      in slice order, with their multiplicities, and empty when none match. */
  lemma ListByOwnerExact(ps: seq<Post>, key: string)
    requires forall i :: 0 <= i < |ps| ==> ps[i].user.Some?
    ensures ListByOwner(ps, key).Listed?
    ensures IsSubsequence(ListByOwner(ps, key).posts, ps)
    ensures forall p ::
      multiset(ListByOwner(ps, key).posts)[p] == if OwnedBy(p, key) then multiset(ps)[p] else 0
    ensures ListByOwner(ps, key).posts == [] <==>
      forall i :: 0 <= i < |ps| ==> ps[i].user.value.id != key
  {
    PostsOfSubsequence(ps, key);
    forall p
      ensures multiset(PostsOf(ps, key))[p] == if OwnedBy(p, key) then multiset(ps)[p] else 0
    {
      PostsOfCount(ps, key, p);
    }
    PostsOfEmpty(ps, key);
  }

  /** Listing after a post was appended: an ownerless post makes every later
      listing panic (at the first ownerless post); an owned one is added at
      the end of its owner's listing. */
  lemma {:induction false} ListByOwnerAfterAppend(ps: seq<Post>, p: Post, key: string)
    ensures ListByOwner(ps + [p], key) ==
      match ListByOwner(ps, key)
      case NilUserPanic(i) => NilUserPanic(i)
      case Listed(xs) =>
        if p.user.None? then NilUserPanic(|ps|)
        else if p.user.value.id == key then Listed(xs + [p])
        else Listed(xs)
  {
    PostsOfAppend(ps, [p], key);
  }
}
