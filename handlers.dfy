/** The HTTP handlers of main.go with the JSON and HTTP parts removed: each
    is one sequential step on the two package-level slices. */
module Handlers {
  import opened Records
  import opened Queries
  import opened Decimal

  /** The package state: the `users` and `posts` slices. */
  class Store {
    var users: seq<User>
    var posts: seq<Post>

    /** Every stored id has the shape the id generator produces (the seed
        data has it too); in particular no stored id is empty. */
    predicate IdsGenerated()
      reads this
    {
      (forall i :: 0 <= i < |users| ==> IsGeneratedId(users[i].id)) &&
      (forall i :: 0 <= i < |posts| ==> IsGeneratedId(posts[i].id))
    }

    /** Both slices start out nil. */
    constructor ()
      ensures users == [] && posts == []
      ensures IdsGenerated()
    {
      users := [];
      posts := [];
    }

    /** getUsers: the whole slice, unchanged. */
    method GetUsers() returns (r: seq<User>)
      ensures r == users
    {
      r := users;
    }

    /** getPosts: the whole slice, unchanged. */
    method GetPosts() returns (r: seq<Post>)
      ensures r == posts
    {
      r := posts;
    }

    /** createUser: overwrite the decoded record's id with the id drawn as n
        and append the record. */
    method CreateUser(decoded: User, n: nat) returns (created: User)
      requires n < MaxId
      modifies this
      ensures created == decoded.(id := GeneratedId(n))
      ensures users == old(users) + [created]
      ensures posts == old(posts)
      ensures old(IdsGenerated()) ==> IdsGenerated()
    {
      created := decoded.(id := GeneratedId(n));
      users := users + [created];
    }

    /** createPost: the same for posts; the owner is stored as decoded, nil
        when the body had no "user". */
    method CreatePost(decoded: Post, n: nat) returns (created: Post)
      requires n < MaxId
      modifies this
      ensures created == decoded.(id := GeneratedId(n))
      ensures posts == old(posts) + [created]
      ensures users == old(users)
      ensures old(IdsGenerated()) ==> IdsGenerated()
    {
      created := decoded.(id := GeneratedId(n));
      posts := posts + [created];
    }

    /** getUser: scan the slice and return the first user with the id. */
    method GetUser(id: string) returns (u: User)
      ensures u == LookupUser(users, id)
      ensures IdsGenerated() ==> (u == ZeroUser <==> id !in UserIds(users))
    {
      if IdsGenerated() {
        LookupUserZero(users, id);
      }
      var i := 0;
      while i < |users|
        invariant 0 <= i <= |users|
        invariant forall j :: 0 <= j < i ==> users[j].id != id
      {
        if users[i].id == id {
          return users[i];
        }
        i := i + 1;
      }
      return ZeroUser;
    }

    /** getPost: scan the slice and return the first post with the id. */
    method GetPost(id: string) returns (p: Post)
      ensures p == LookupPost(posts, id)
      ensures IdsGenerated() ==> (p == ZeroPost <==> id !in PostIds(posts))
    {
      if IdsGenerated() {
        LookupPostZero(posts, id);
      }
      var i := 0;
      while i < |posts|
        invariant 0 <= i <= |posts|
        invariant forall j :: 0 <= j < i ==> posts[j].id != id
      {
        if posts[i].id == id {
          return posts[i];
        }
        i := i + 1;
      }
      return ZeroPost;
    }

    /** getPostsOfUser: collect, in order, every post whose owner has the id.
        Reading the owner of a post that has none is Go's nil-pointer panic,
        which ends the scan. */
    method GetPostsOfUser(id: string) returns (r: Listing)
      ensures r == ListByOwner(posts, id)
    {
      var postsOfUser: seq<Post> := [];
      var i := 0;
      while i < |posts|
        invariant 0 <= i <= |posts|
        invariant forall j :: 0 <= j < i ==> posts[j].user.Some?
        invariant postsOfUser == PostsOf(posts[..i], id)
      {
        var item := posts[i];
        if item.user.None? {
          return NilUserPanic(i);
        }
        assert posts[..i + 1][..i] == posts[..i];
        if item.user.value.id == id {
          postsOfUser := postsOfUser + [item];
        }
        i := i + 1;
      }
      assert posts[..i] == posts;
      return Listed(postsOfUser);
    }

    /** The mock data that main appends before serving, in its order. */
    method Seed()
      modifies this
      ensures users == old(users) + SeedUsers
      ensures posts == old(posts) + SeedPosts
      ensures old(IdsGenerated()) ==> IdsGenerated()
    {
      posts := posts + [WatchPost];
      users := users + [Rufus];
      posts := posts + [ListenPost];
      posts := posts + [ReadPost];
      users := users + [Sam];
    }
  }

  const VideoURL := "https://www.youtube.com/watch?v=SonwZ6MF5BE"
  const Rufus := User("1", "Rufus", "sam2001rufus@gmail.com", "helloworld")
  const Sam := User("2", "Sam", "sam2001@gmail.com", "hello")
  const WatchPost := Post("1", "watch", VideoURL, Some(Rufus))
  const ListenPost := Post("2", "listen", VideoURL, Some(Sam))
  const ReadPost := Post("3", "read", VideoURL, Some(Sam))
  const SeedUsers := [Rufus, Sam]
  const SeedPosts := [WatchPost, ListenPost, ReadPost]

  /** Against the seed data: Sam's posts are "listen" and "read", user "1"
      is Rufus, post "3" is "read" and there is no user "3". */
  lemma SeedQueries()
    ensures ListByOwner(SeedPosts, "2") == Listed([ListenPost, ReadPost])
    ensures LookupUser(SeedUsers, "1") == Rufus
    ensures LookupPost(SeedPosts, "3") == ReadPost
    ensures LookupUser(SeedUsers, "3") == ZeroUser
  {
    assert [WatchPost][..0] == [];
    assert PostsOf([WatchPost], "2") == [];
    assert [WatchPost, ListenPost][..1] == [WatchPost];
    assert PostsOf([WatchPost, ListenPost], "2") == [ListenPost];
    assert SeedPosts[..2] == [WatchPost, ListenPost];
  }

  /** The server right after start-up, queried through its handlers. */
  method SeededStartup() returns (ofSam: Listing, first: User, third: Post, missing: User)
    ensures ofSam == Listed([ListenPost, ReadPost])
    ensures first == Rufus
    ensures third == ReadPost
    ensures missing == ZeroUser
  {
    SeedQueries();
    var s := new Store();
    s.Seed();
    assert s.posts == SeedPosts && s.users == SeedUsers;
    ofSam := s.GetPostsOfUser("2");
    first := s.GetUser("1");
    third := s.GetPost("3");
    missing := s.GetUser("3");
  }

  /** A post created without an owner makes every later getPostsOfUser on
      the seeded server panic, whatever id is asked for. */
  method OwnerlessPostCrash(decoded: Post, n: nat, id: string) returns (r: Listing)
    requires decoded.user.None?
    requires n < MaxId
    ensures r == NilUserPanic(|SeedPosts|)
  {
    var s := new Store();
    s.Seed();
    var created := s.CreatePost(decoded, n);
    r := s.GetPostsOfUser(id);
    ListByOwnerAfterAppend(SeedPosts, created, id);
  }
}
