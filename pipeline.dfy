/**
 * The services taken together: what the post service publishes, which
 * callbacks the subscriptions of search-service/src/server.js and
 * media-service/src/server.js route it to, and what the read models then
 * hold.
 */
module Pipeline {
  import opened Wrappers
  import opened Json
  import opened Subscriptions
  import opened PostStore
  import PostController
  import SearchIndex
  import MediaHandlers

  /** Every binding is a literal key, so topic routing is exact matching. */
  lemma BindingsAreLiteral()
    ensures forall s :: s in SearchSubscriptions + IntendedSearchSubscriptions + MediaSubscriptions ==> IsLiteralKey(s.bindingKey)
  {
    assert IsLiteralKey(PostCreatedKey) && IsLiteralKey(PostDeletedKey);
  }

  /** `post.created` reaches the search service's creation handler, and only it. */
  lemma CreatedReachesSearch()
    ensures Route(SearchSubscriptions, PostController.CreatedRoutingKey) == [SearchPostCreated]
    ensures Route(MediaSubscriptions, PostController.CreatedRoutingKey) == []
  {
  }

  /** The key `DeletePost` names, `post.delete`, is bound by nobody: the event would reach no handler. */
  lemma DeleteKeyReachesNobody()
    ensures Route(SearchSubscriptions, PostController.DeleteRoutingKey) == []
    ensures Route(MediaSubscriptions, PostController.DeleteRoutingKey) == []
  {
    assert PostController.DeleteRoutingKey != PostDeletedKey by {
      assert |PostController.DeleteRoutingKey| != |PostDeletedKey|;
    }
    assert PostController.DeleteRoutingKey != PostCreatedKey by {
      assert PostController.DeleteRoutingKey[5] != PostCreatedKey[5];
    }
  }

  /** As bound, a `post.deleted` event makes the search service run its creation handler. */
  lemma DeletedRunsSearchCreate()
    ensures Route(SearchSubscriptions, PostDeletedKey) == [SearchPostCreated]
    ensures SearchPostDeleted !in Route(SearchSubscriptions, PostDeletedKey)
  {
    assert PostDeletedKey != PostCreatedKey by {
      assert PostDeletedKey[5] != PostCreatedKey[5];
    }
  }

  /** With the intended binding each event reaches its own handler in each service. */
  lemma IntendedRouting()
    ensures Route(IntendedSearchSubscriptions, PostCreatedKey) == [SearchPostCreated]
    ensures Route(IntendedSearchSubscriptions, PostDeletedKey) == [SearchPostDeleted]
    ensures Route(MediaSubscriptions, PostDeletedKey) == [MediaPostDeleted]
  {
    assert PostDeletedKey != PostCreatedKey by {
      assert PostDeletedKey[5] != PostCreatedKey[5];
    }
  }

  /** The `post.created` payload, once parsed by the consumer, yields a search document carrying the post's fields. */
  lemma CreatedEventIndexesPost(p: Post)
    ensures Parse(Stringify(PostController.CreatedEvent(p))).Some?
    ensures SearchIndex.FromEvent(Parse(Stringify(PostController.CreatedEvent(p))).value)
            == SearchIndex.SearchPost(Some(Str(p.id)), Some(Str(p.user)), Some(Str(p.content)), Some(Num(p.createdAt)))
  {
  }

  /** The intended deletion payload names exactly the deleted post's media. */
  lemma DeletedEventNamesMedia(p: Post, userId: string)
    ensures MediaHandlers.MediaIdsOf(PostController.DeletedEvent(p, userId)) == p.mediaIds
    ensures Get(PostController.DeletedEvent(p, userId), "postId") == Some(Str(p.id))
  {
  }

  /**
   * Since no post is ever created with media, even the intended deletion
   * event selects no media record to delete.
   */
  lemma StoredPostsSelectNoMedia(p: Post, userId: string, records: seq<MediaHandlers.Media>)
    requires p.mediaIds == []
    ensures MediaHandlers.Selected(records, MediaHandlers.MediaIdsOf(PostController.DeletedEvent(p, userId))) == []
  {
    DeletedEventNamesMedia(p, userId);
    MediaHandlers.EmptyMediaIdsDeleteNothing(records);
  }

  /**
   * The consumers impose no order between events: with the intended
   * handlers, create-then-delete leaves the post out of the index, but a
   * delete that overtakes its create leaves a stale document.
   */
  lemma EventOrderMatters(entries: seq<SearchIndex.SearchPost>, created: Value, deleted: Value)
    requires Get(created, "postId") == Get(deleted, "postId")
    requires SearchIndex.Count(entries, Get(created, "postId")) == 0
    ensures var pid := Get(created, "postId");
            SearchIndex.Count(SearchIndex.RemovedFirst(SearchIndex.Inserted(entries, created), pid), pid) == 0
    ensures var pid := Get(created, "postId");
            SearchIndex.Count(SearchIndex.Inserted(SearchIndex.RemovedFirst(entries, pid), created), pid) == 1
  {
    var pid := Get(created, "postId");
    var once := SearchIndex.Inserted(entries, created);
    SearchIndex.RemovedFirstTouchesOne(once, pid);
    SearchIndex.CountZero(entries, pid);
    assert forall k :: 0 <= k < |entries| ==> once[k] == entries[k];
    var i := SearchIndex.FirstMatch(once, pid).value;
    assert i == |entries|;
    assert SearchIndex.RemovedFirst(once, pid) == entries;
  }
}
