/**
 * post-service/src/controllers/post-controller.js: the write path (save,
 * publish, invalidate) and the cache-aside read path of posts. The Mongo
 * collection and the Redis keyspace are the fields of one PostService; the
 * event bus is the Publisher of post-service/src/utils/rabbitmq.js.
 */
module PostController {
  import opened Wrappers
  import opened Json
  import opened Http
  import opened EventBus
  import opened PostStore
  import opened PostCache
  import opened PostPaging
  import opened PostValidation
  import Subscriptions
  import PostPublisher

  /** The side effects a handler performed, in the order it performed them. */
  datatype Step = Saved(id: string) | Deleted(id: string) | Published(routingKey: string) | CacheInvalidated(id: string)

  const CreatedRoutingKey: string := "post.created"

  /** The routing key `DeletePost` names, as written. */
  const DeleteRoutingKey: string := "post.delete"

  /** The `post.created` payload: postId, userId, content and createdAt of the saved post. */
  function CreatedEvent(p: Post): (v: Value)
    ensures Get(v, "postId") == Some(Str(p.id)) && Get(v, "userId") == Some(Str(p.user))
    ensures Get(v, "content") == Some(Str(p.content)) && Get(v, "createdAt") == Some(Num(p.createdAt))
  {
    Obj(map["postId" := Str(p.id), "userId" := Str(p.user), "content" := Str(p.content), "createdAt" := Num(p.createdAt)])
  }

  /** The payload the deletion event was meant to carry. */
  function DeletedEvent(p: Post, userId: string): (v: Value)
    ensures Get(v, "postId") == Some(Str(p.id)) && Get(v, "mediaIds").Some?
    ensures Json.Strings(Get(v, "mediaIds").value) == p.mediaIds
  {
    Obj(map["postId" := Str(p.id), "userId" := Str(userId), "mediaIds" := StrArr(p.mediaIds)])
  }

  /** `res.json(JSON.parse(cached))`: a cached text that is not JSON throws into the 500 path. */
  function CachedReply(t: Text, failure: string): (r: Response)
    ensures Parse(t).Some? ==> r == Response(200, Parse(t).value)
    ensures Parse(t).None? ==> r.status == 500
  {
    match Parse(t)
    case Some(v) => Response(200, v)
    case None => Reply(500, false, failure)
  }

  predicate Hit(cache: map<string, Entry>, key: string) {
    key in cache && TextTruthy(cache[key].value)
  }

  class PostService {
    var posts: seq<Post>                 // the Post collection, newest first
    var cache: map<string, Entry>        // the service's Redis keyspace

    /** No post ever carries media: see PostValidation.MediaIdsNeverAccepted. */
    ghost predicate Valid()
      reads this
    {
      NewestFirst(posts) && UniqueIds(posts) && forall p :: p in posts ==> p.mediaIds == []
    }

    constructor ()
      ensures Valid() && posts == [] && cache == map[]
    {
      posts, cache := [], map[];
    }

    /** `invalidatePostCache`: delete `post:<id>`, then every key `keys("posts:*")` lists. */
    method InvalidatePostCache(id: string)
      modifies this`cache
      ensures cache == Invalidated(old(cache), id)
    {
      cache := cache - {PostKey(id)};
      var keys := set k | k in cache && IsListingKey(k);
      if |keys| > 0 {
        cache := cache - keys;
      }
    }

    /**
     * `createPost`: an invalid body is refused with 400 and nothing else
     * happens; otherwise save, then publish `post.created`, then invalidate.
     * A failure to publish leaves the post saved and the cache as it was.
     */
    method CreatePost(body: Value, userId: string, newId: string, now: int,
                      bus: PostPublisher.Publisher, link: Link)
      returns (res: Response, trace: seq<Step>)
      requires Valid() && bus.Valid()
      modifies this, bus
      ensures Valid() && bus.Valid()
      ensures ValidatePostObject(body).Fail? ==>
                res == Reply(400, false, ProblemMessage(ValidatePostObject(body).error)) && trace == []
                && posts == old(posts) && cache == old(cache) && unchanged(bus)
      ensures ValidatePostObject(body).Pass? && newId in Ids(old(posts)) ==>
                res == Reply(500, false, "Error creating post") && trace == [] && posts == old(posts) && cache == old(cache) && unchanged(bus)
      ensures ValidatePostObject(body).Pass? && newId !in Ids(old(posts)) ==>
                var post := Post(newId, userId, body.fields["content"].s, [], now);
                && posts == Insert(old(posts), post)
                && if old(bus.channel) || link == Up then
                     && res == Reply(201, true, "Post created successfully")
                     && trace == [Saved(newId), Published(CreatedRoutingKey), CacheInvalidated(newId)]
                     && bus.published == old(bus.published) + [Message(ExchangeName, CreatedRoutingKey, Stringify(CreatedEvent(post)))]
                     && cache == Invalidated(old(cache), newId)
                   else
                     && res == Reply(500, false, "Error creating post") && trace == [Saved(newId)]
                     && bus.published == old(bus.published) && cache == old(cache)
      ensures ValidatePostObject(body).Pass? && newId !in Ids(old(posts)) ==>
                bus.Client() == if old(bus.channel) then old(bus.Client()) else AfterConnect(old(bus.Client()), link)
    {
      var check := ValidatePostObject(body);
      if check.Fail? {
        return Reply(400, false, ProblemMessage(check.error)), [];
      }
      // `mediaIds` is not a key of the schema, so a body that passed has none
      // and `mediaIds || []` is always the empty list.
      assert "mediaIds" !in body.fields;
      var post := Post(newId, userId, body.fields["content"].s, [], now);
      if newId in Ids(posts) {
        // save() is refused by the unique _id index
        return Reply(500, false, "Error creating post"), [];
      }
      InsertNewestFirst(posts, post);
      InsertUniqueIds(posts, post);
      posts := Insert(posts, post);
      trace := [Saved(newId)];
      var sent := bus.PublishEvent(CreatedRoutingKey, CreatedEvent(post), link);
      if sent.Fail? {
        return Reply(500, false, "Error creating post"), trace;
      }
      trace := trace + [Published(CreatedRoutingKey)];
      InvalidatePostCache(newId);
      trace := trace + [CacheInvalidated(newId)];
      res := Reply(201, true, "Post created successfully");
    }

    /**
     * `getAllPost`: a hit at `posts:<page>:<limit>` answers from the cache
     * without reading the store; a miss reads the window, answers it and
     * caches it for 300 seconds.
     */
    method GetAllPost(pageQuery: Option<string>, limitQuery: Option<string>) returns (res: Response)
      requires Valid()
      modifies this`cache
      ensures var page := QueryInt(pageQuery, DefaultPage);
              var limit := QueryInt(limitQuery, DefaultLimit);
              var key := ListingKey(page, limit);
              if Hit(old(cache), key) then
                cache == old(cache) && res == CachedReply(old(cache)[key].value, "Error fetching all posts")
              else if Listing(posts, page, limit).Some? then
                && res == Response(200, Listing(posts, page, limit).value)
                && cache == old(cache)[key := Entry(Stringify(Listing(posts, page, limit).value), ListingTtl)]
              else
                res == Reply(500, false, "Error fetching all posts") && cache == old(cache)
    {
      var page := QueryInt(pageQuery, DefaultPage);
      var limit := QueryInt(limitQuery, DefaultLimit);
      var key := ListingKey(page, limit);
      if Hit(cache, key) {
        return CachedReply(cache[key].value, "Error fetching all posts");
      }
      var result := Listing(posts, page, limit);
      if result.None? {
        // MongoDB refuses the negative skip
        return Reply(500, false, "Error fetching all posts");
      }
      cache := cache[key := Entry(Stringify(result.value), ListingTtl)];
      res := Response(200, result.value);
    }

    /**
     * `getPost`: a hit answers from the cache; a miss for an unknown id is a
     * 404 that leaves the cache alone; a miss for a stored post caches it
     * under `post:<id>` for an hour.
     */
    method GetPost(id: string) returns (res: Response)
      requires Valid()
      modifies this`cache
      ensures var key := PostKey(id);
              if Hit(old(cache), key) then
                cache == old(cache) && res == CachedReply(old(cache)[key].value, "Error fetching post by Id")
              else if FindById(posts, id).None? then
                res == Reply(404, false, "Post Not Found") && cache == old(cache)
              else
                var p := FindById(posts, id).value;
                res == Response(200, PostJson(p)) && cache == old(cache)[key := Entry(Stringify(PostJson(p)), PostTtl)]
    {
      var key := PostKey(id);
      if Hit(cache, key) {
        return CachedReply(cache[key].value, "Error fetching post by Id");
      }
      var found := FindById(posts, id);
      if found.None? {
        return Reply(404, false, "Post Not Found");
      }
      cache := cache[key := Entry(Stringify(PostJson(found.value)), PostTtl)];
      res := Response(200, PostJson(found.value));
    }

    /** The delete of `findOneAndDelete` once the match is known: that post goes, the others stay in order. */
    method RemovePostAt(i: nat)
      requires Valid() && i < |posts|
      modifies this`posts
      ensures Valid() && posts == RemoveAt(old(posts), i)
    {
      RemoveAtKeepsOrder(posts, i);
      posts := RemoveAt(posts, i);
    }

    /**
     * `DeletePost` as written: only the caller's own post is deleted, else
     * 404. After the delete, building the event payload reads `post`, a name
     * nothing defines: the ReferenceError lands in the 500 path before
     * `PublishEvent` runs, so the event bus is never reached and no cache key
     * is invalidated, while the post stays deleted.
     */
    method DeletePost(id: string, userId: string) returns (res: Response, trace: seq<Step>)
      requires Valid()
      modifies this`posts
      ensures Valid()
      ensures IndexOwned(old(posts), id, userId).None? ==>
                res == Reply(404, false, "Post not found") && posts == old(posts) && trace == []
      ensures IndexOwned(old(posts), id, userId).Some? ==>
                && res == Reply(500, false, "Error deleting post")
                && posts == RemoveAt(old(posts), IndexOwned(old(posts), id, userId).value)
                && trace == [Deleted(id)]
    {
      var found := IndexOwned(posts, id, userId);
      if found.None? {
        return Reply(404, false, "Post not found"), [];
      }
      RemovePostAt(found.value);
      trace := [Deleted(id)];
      // PublishEvent('post.delete', {postId: post._id.toString(), ...}): `post` is undefined
      res := Reply(500, false, "Error deleting post");
    }

    /**
     * The deletion the handler evidently intends: publish the deleted post's
     * id and media under the key the subscribers bind, then invalidate.
     */
    method IntendedDeletePost(id: string, userId: string, bus: PostPublisher.Publisher, link: Link)
      returns (res: Response, trace: seq<Step>)
      requires Valid() && bus.Valid()
      modifies this, bus
      ensures Valid() && bus.Valid()
      ensures IndexOwned(old(posts), id, userId).None? ==>
                res == Reply(404, false, "Post not found") && posts == old(posts) && cache == old(cache) && trace == []
                && unchanged(bus)
      ensures IndexOwned(old(posts), id, userId).Some? ==>
                var gone := old(posts)[IndexOwned(old(posts), id, userId).value];
                && posts == RemoveAt(old(posts), IndexOwned(old(posts), id, userId).value)
                && if old(bus.channel) || link == Up then
                     && res == Reply(200, true, "Post deleted successfully")
                     && trace == [Deleted(id), Published(Subscriptions.PostDeletedKey), CacheInvalidated(id)]
                     && bus.published == old(bus.published)
                          + [Message(ExchangeName, Subscriptions.PostDeletedKey, Stringify(DeletedEvent(gone, userId)))]
                     && cache == Invalidated(old(cache), id)
                   else
                     res == Reply(500, false, "Error deleting post") && trace == [Deleted(id)] && bus.published == old(bus.published) && cache == old(cache)
      ensures IndexOwned(old(posts), id, userId).Some? ==>
                bus.Client() == if old(bus.channel) then old(bus.Client()) else AfterConnect(old(bus.Client()), link)
    {
      var found := IndexOwned(posts, id, userId);
      if found.None? {
        return Reply(404, false, "Post not found"), [];
      }
      var gone := posts[found.value];
      RemovePostAt(found.value);
      trace := [Deleted(id)];
      var sent := bus.PublishEvent(Subscriptions.PostDeletedKey, DeletedEvent(gone, userId), link);
      if sent.Fail? {
        return Reply(500, false, "Error deleting post"), trace;
      }
      trace := trace + [Published(Subscriptions.PostDeletedKey)];
      InvalidatePostCache(id);
      trace := trace + [CacheInvalidated(id)];
      res := Reply(200, true, "Post deleted successfully");
    }
  }
}
