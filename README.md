# In-memory users/posts API, modelled in Dafny

The program is a small HTTP API in one Go file, `main.go`. It keeps two
package-level slices, `users` and `posts`, and has handlers that append to
them, scan them by id, list them, and list the posts of one owner. `main`
fills them with a fixed mock dataset before it starts serving. This project
models that state and those handlers, with the HTTP and JSON parts removed.
It proves what each handler returns and how it changes the slices.

Layout:

- `decimal.dfy` (module `Decimal`): `strconv.Itoa` on non-negative numbers
  and the mock id `strconv.Itoa(rand.Intn(10000000))`. The random draw is a
  caller-supplied `n < MaxId`. It is proved that the id is the canonical
  decimal string of `n`: non-empty, digits only, at most 7 characters, no
  leading zero except in `"0"`. It reads back to `n`, and every string of that
  shape is the id of exactly one draw.
- `records.dfy` (module `Records`): `User`, `Post` (its `*User` owner is an
  `Option<User>`), and the zero values `User{}` and `Post{}`.
- `queries.dfy` (module `Queries`): what the read handlers compute, written as
  functions of the slices, and lemmas about them. These cover first-match
  lookup, the zero value exactly when nothing matches, lookup after an append
  (including a duplicate id shadowing a newer record), and the owner filter.
  The filter keeps slice order, keeps each matching post with its
  multiplicity, drops every other post, is empty exactly when nothing
  matches, and distributes over concatenation. The nil-owner panic is also
  covered.
- `handlers.dfy` (module `Handlers`): the class `Store` with fields
  `users: seq<User>` and `posts: seq<Post>`, one method per handler, the seed
  method, and two client methods that run the handlers on the seeded state.

Facts about `main.go` that the model keeps:

- Everything is kept in memory. The handlers work only on the two slices;
  there is no pagination, and passwords are stored and returned as given.
- Ids are not unique. Each id is a random number below 10000000, so a new
  record can get an id already in use. Lookup then returns the earlier
  record (`Queries.LookupUserAfterAppend`).
- Posts have no timestamp. The owner is a pointer to a whole user record, not
  a user id; the model keeps the value it points to.
- `getPostsOfUser` does not always succeed. It dereferences `item.User`
  without a check, so a stored post without an owner makes it panic. In
  `net/http` that aborts the request. This path is modelled as the outcome
  `NilUserPanic(i)`, where `i` is the first ownerless post.

## Model

| member | source | states |
|---|---|---|
| `Decimal.Itoa` | main.go:49 | the decimal rendering is non-empty, digits only, without a leading zero unless it is "0", and starts with '0' exactly for 0 |
| `Decimal.ItoaRoundTrip` | main.go:49 | reading the rendered digits back gives the original number |
| `Decimal.ItoaInjective` | main.go:80 | distinct draws give distinct ids (equal ids come only from equal draws) |
| `Decimal.ItoaOfDecimalValue` | main.go:49 | every canonical decimal string is the rendering of its own value |
| `Decimal.ItoaLength` | main.go:49 | a number below 10^k is rendered with at most k digits |
| `Decimal.GeneratedId` | main.go:49 | the id drawn as n < 10000000 has the generated-id shape (canonical decimal, at most 7 characters) and denotes n |
| `Decimal.GeneratedIdOnto` | main.go:80 | every string of the generated-id shape is the id of exactly one draw below 10000000 |
| `Queries.FirstIndex` | main.go:60-65 | the index found holds the key and no earlier index does; none is found only when the key is absent |
| `Queries.FirstIndexAppend` | main.go:60-65 | appending an id keeps an earlier first occurrence and is found only for a key absent before |
| `Queries.LookupUser` | main.go:60-66 | the result is the first user, in slice order, with the requested id, or the zero user when no user has it |
| `Queries.LookupPost` | main.go:90-96 | the result is the first post with the requested id, or the zero post (nil owner) when none has it |
| `Queries.LookupUserZero` | main.go:66 | when no stored id is empty, the zero user is returned exactly when no user has the id |
| `Queries.LookupPostZero` | main.go:96 | when no stored id is empty, the zero post is returned exactly when no post has the id |
| `Queries.LookupUserAfterAppend` | main.go:49-50 | after appending a user, a lookup finds the earlier user if one already had the key, else the new user if its id is the key, else the zero user |
| `Queries.LookupPostAfterAppend` | main.go:80-81 | the same for posts |
| `Queries.PostsOfAppend` | main.go:104-109 | the owner filter of a concatenation is the concatenation of the filters |
| `Queries.PostsOfCount` | main.go:104-109 | each post occurs in the filter as often as in the slice if its owner has the key, and otherwise not at all |
| `Queries.PostsOfMember` | main.go:106-107 | a post is in the filter if and only if it is in the slice and its owner has the key |
| `Queries.PostsOfSubsequence` | main.go:105-107 | the filter is a subsequence of the slice (order preserved) |
| `Queries.PostsOfEmpty` | main.go:104-110 | the filter is empty if and only if no post's owner has the key |
| `Queries.FirstNilUser` | main.go:105-106 | the index found is the first post without an owner; none is found only when every post has one |
| `Queries.ListByOwner` | main.go:104-110 | the listing succeeds if and only if every post has an owner, and then it is the owner filter; otherwise it panics at the first ownerless post |
| `Queries.ListByOwnerExact` | main.go:104-110 | with every post owned, the listing is an order-preserving subsequence holding exactly the owned posts with their multiplicities, and empty exactly when none matches |
| `Queries.ListByOwnerAfterAppend` | main.go:78-81 | after a post is appended, an ownerless post makes the listing panic at its index unless it already panicked earlier; an owned post is added at the end of its owner's listing only |
| `Handlers.Store.constructor` | main.go:35-36 | both slices start empty, which satisfies the id-shape invariant |
| `Handlers.Store.GetUsers` | main.go:39-42 | returns the whole users slice and changes nothing |
| `Handlers.Store.GetPosts` | main.go:70-73 | returns the whole posts slice and changes nothing |
| `Handlers.Store.CreateUser` | main.go:45-53 | the returned record is the decoded one with only its id replaced by the generated id; it is appended at the end; earlier users and all posts are unchanged; the id-shape invariant is kept |
| `Handlers.Store.CreatePost` | main.go:76-83 | the same for posts, with the owner stored as decoded (possibly nil); users are unchanged |
| `Handlers.Store.GetUser` | main.go:56-67 | the scan returns the first matching user or the zero user, changes nothing, and under the invariant returns the zero user exactly when no id matches |
| `Handlers.Store.GetPost` | main.go:86-97 | the same for posts |
| `Handlers.Store.GetPostsOfUser` | main.go:100-111 | the accumulating scan returns the listing of the owner (or the nil-owner panic) and changes nothing |
| `Handlers.Store.Seed` | main.go:130-134 | appends the two mock users and the three mock posts in slice order and keeps the id-shape invariant |
| `Handlers.SeedQueries` | main.go:130-134 | on the seed data, owner "2" has exactly the posts "2" and "3", user "1" is Rufus, post "3" is "read" and user "3" is the zero user |
| `Handlers.SeededStartup` | main.go:130-134 | a fresh store seeded and queried through the handlers lists posts "2" and "3" for owner "2", returns Rufus for user "1", the "read" post for post "3" and the zero user for user "3" |
| `Handlers.OwnerlessPostCrash` | main.go:76-111 | on the seeded store, creating a post without an owner makes the following getPostsOfUser panic at that post for any requested id |

## Left out

- JSON decoding of request bodies, and the decode error that is ignored. The
  decoded record is an input to `CreateUser`/`CreatePost`. A malformed body
  therefore appears only as some arbitrary decoded record.
- JSON encoding of responses and the Content-Type header. Go encodes a nil
  slice as `null`, not `[]`. So an empty `getUsers`/`getPosts` before seeding
  and a `getPostsOfUser` with no match answer `null`. The model returns the
  empty sequence.
- Routing with `gorilla/mux` and path-variable extraction. The id is a
  parameter of the handler methods.
- The randomness of `rand.Intn`. The draw is a caller-supplied `n` below
  10000000, chosen freely by the caller.
- `strconv.Itoa` on negative numbers, which `rand.Intn` never returns.
- Loading `.env`, reading `MONGO_URI`, the 10-second context, and connecting
  and disconnecting the MongoDB client. No handler uses the client.
  `http.ListenAndServe` is also left out. All of these are I/O.
- Concurrent requests that touch the global slices. Each handler is one
  sequential step.
- Slice aliasing from Go's `append` sharing a backing array. The slices are
  values (`seq`), which is how the handlers observe them.
- Pointer identity of `Post.User`. The owner is a value: no handler mutates
  a user through a post, so only the pointed-to value is observable.
- How `net/http` recovers from the panic in `getPostsOfUser` (it logs it and
  drops the connection). The model stops at the panic outcome.
