/**
 * The Post collection the post-service controller reads and writes through
 * Mongoose, kept in the order `Post.find({}).sort({createdAt: -1})` returns
 * it: newest first. Ids are unique, as MongoDB's `_id` index makes them.
 */
module PostStore {
  import opened Wrappers
  import opened Json

  datatype Post = Post(id: string, user: string, content: string, mediaIds: seq<string>, createdAt: int)

  /** How a post document serialises in a response or a cache entry. */
  function PostJson(p: Post): Value {
    Obj(map["_id" := Str(p.id), "user" := Str(p.user), "content" := Str(p.content),
            "mediaIds" := StrArr(p.mediaIds), "createdAt" := Num(p.createdAt)])
  }

  predicate NewestFirst(posts: seq<Post>) {
    forall i, j :: 0 <= i < j < |posts| ==> posts[j].createdAt <= posts[i].createdAt
  }

  predicate UniqueIds(posts: seq<Post>) {
    forall i, j :: 0 <= i < j < |posts| ==> posts[i].id != posts[j].id
  }

  function Ids(posts: seq<Post>): (ids: set<string>)
    ensures forall p :: p in posts ==> p.id in ids
  {
    if posts == [] then {} else {posts[0].id} + Ids(posts[1..])
  }

  lemma {:induction false} IdsExclude(posts: seq<Post>, id: string)
    requires forall k :: 0 <= k < |posts| ==> posts[k].id != id
    ensures id !in Ids(posts)
  {
    if posts != [] {
      IdsExclude(posts[1..], id);
    }
  }

  /** `newPost.save()`: the new document takes its place in the listing order. */
  function Insert(posts: seq<Post>, p: Post): (r: seq<Post>)
    ensures |r| == |posts| + 1
    ensures multiset(r) == multiset(posts) + multiset{p}
    ensures forall x :: x in r <==> x in posts || x == p
    ensures Ids(r) == Ids(posts) + {p.id}
  {
    if posts == [] || posts[0].createdAt <= p.createdAt then [p] + posts
    else
      assert posts == [posts[0]] + posts[1..];
      [posts[0]] + Insert(posts[1..], p)
  }

  lemma {:induction false} InsertNewestFirst(posts: seq<Post>, p: Post)
    requires NewestFirst(posts)
    ensures NewestFirst(Insert(posts, p))
  {
    if posts != [] && p.createdAt < posts[0].createdAt {
      var rest := Insert(posts[1..], p);
      InsertNewestFirst(posts[1..], p);
      forall k | 0 <= k < |rest| ensures rest[k].createdAt <= posts[0].createdAt {
        assert rest[k] in rest;
        if rest[k] != p {
          var j :| 0 <= j < |posts[1..]| && posts[1..][j] == rest[k];
          assert posts[j + 1] == rest[k];
        }
      }
    }
  }

  lemma {:induction false} InsertUniqueIds(posts: seq<Post>, p: Post)
    requires UniqueIds(posts) && p.id !in Ids(posts)
    ensures UniqueIds(Insert(posts, p))
  {
    if posts != [] && p.createdAt < posts[0].createdAt {
      var rest := Insert(posts[1..], p);
      assert posts[0].id !in Ids(posts[1..]) by {
        forall k | 0 <= k < |posts[1..]| ensures posts[1..][k].id != posts[0].id {
          assert posts[1..][k] == posts[k + 1];
        }
        IdsExclude(posts[1..], posts[0].id);
      }
      InsertUniqueIds(posts[1..], p);
      forall k | 1 <= k < |rest| + 1 ensures ([posts[0]] + rest)[k].id != posts[0].id {
        assert rest[k - 1].id in Ids(rest);
      }
    }
  }

  /** `Post.findById(id)`. */
  function FindById(posts: seq<Post>, id: string): (r: Option<Post>)
    ensures r.Some? ==> r.value in posts && r.value.id == id
    ensures r.None? <==> id !in Ids(posts)
  {
    if posts == [] then None
    else if posts[0].id == id then Some(posts[0])
    else FindById(posts[1..], id)
  }

  /** The filter of `findOneAndDelete({_id: id, user: userId})`: the first post matching both. */
  function IndexOwned(posts: seq<Post>, id: string, user: string): (r: Option<nat>)
    ensures r.Some? ==> r.value < |posts| && posts[r.value].id == id && posts[r.value].user == user
    ensures r.None? ==> forall p :: p in posts ==> !(p.id == id && p.user == user)
  {
    if posts == [] then None
    else if posts[0].id == id && posts[0].user == user then Some(0)
    else
      var rest := IndexOwned(posts[1..], id, user);
      if rest.Some? then Some(rest.value + 1) else None
  }

  function RemoveAt(posts: seq<Post>, i: nat): (r: seq<Post>)
    requires i < |posts|
    ensures |r| == |posts| - 1
    ensures forall k :: 0 <= k < i ==> r[k] == posts[k]
    ensures forall k :: i <= k < |r| ==> r[k] == posts[k + 1]
    ensures forall x :: x in r ==> x in posts
  {
    posts[..i] + posts[i + 1..]
  }

  lemma RemoveAtKeepsOrder(posts: seq<Post>, i: nat)
    requires i < |posts| && NewestFirst(posts) && UniqueIds(posts)
    ensures NewestFirst(RemoveAt(posts, i)) && UniqueIds(RemoveAt(posts, i))
    ensures posts[i].id !in Ids(RemoveAt(posts, i))
  {
    var r := RemoveAt(posts, i);
    forall a, b | 0 <= a < b < |r|
      ensures r[b].createdAt <= r[a].createdAt && r[a].id != r[b].id
    {
      var a' := if a < i then a else a + 1;
      var b' := if b < i then b else b + 1;
      assert r[a] == posts[a'] && r[b] == posts[b'];
    }
    forall k | 0 <= k < |r| ensures r[k].id != posts[i].id {
      assert r[k] == posts[if k < i then k else k + 1];
    }
    IdsExclude(r, posts[i].id);
  }

  function Abs(n: int): nat {
    if n < 0 then -n else n
  }

  function Min(a: int, b: int): int {
    if a < b then a else b
  }

  /**
   * `.skip(skip).limit(limit)` on the sorted collection. MongoDB refuses a
   * negative skip (None), and reads a negative limit as its absolute value.
   */
  function Window(posts: seq<Post>, skip: int, limit: int): (r: Option<seq<Post>>)
    ensures r.None? <==> skip < 0
    ensures r.Some? ==> |r.value| <= Abs(limit)
    ensures r.Some? ==> forall k :: 0 <= k < |r.value| ==> skip + k < |posts| && r.value[k] == posts[skip + k]
    ensures r.Some? ==> |r.value| == Min(Abs(limit), if skip < |posts| then |posts| - skip else 0)
  {
    if skip < 0 then None
    else
      var count := Abs(limit);
      var from := if skip < |posts| then skip else |posts|;
      var to := if skip + count < |posts| then skip + count else |posts|;
      Some(posts[from..to])
  }

  function WindowJson(window: seq<Post>): (v: Value)
    ensures v.Arr? && |v.items| == |window|
    ensures forall k :: 0 <= k < |window| ==> v.items[k] == PostJson(window[k])
  {
    Arr(seq(|window|, k requires 0 <= k < |window| => PostJson(window[k])))
  }
}
