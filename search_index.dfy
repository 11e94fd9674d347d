/**
 * search-service/src/eventHandler/search-event-handler.js: the search read
 * model, a collection of SearchPost documents fed by post events. Both
 * handlers catch every error, log it and resolve normally.
 */
module SearchIndex {
  import opened Wrappers
  import opened Json

  /** A search document: the four fields copied from the event, absent where the event lacks them. */
  datatype SearchPost = SearchPost(postId: Option<Value>, userId: Option<Value>, content: Option<Value>, createdAt: Option<Value>)

  /** Why a handler ended in its catch block. */
  datatype Failure =
    | NotAConstructor(name: string)   // `new X(...)` on a value that is not a constructor
    | NotAFunction(name: string)      // a call of a property that is not a function
    | ReadOfNull(property: string)    // a property read on `null`

  datatype LogLine = Created(postId: Option<Value>) | Deleted(postId: Option<Value>) | Failed(cause: Failure, context: string)

  /** The document `handlePostCreated` builds from an event. */
  function FromEvent(event: Value): (e: SearchPost)
    ensures e.postId == Get(event, "postId") && e.userId == Get(event, "userId")
    ensures e.content == Get(event, "content") && e.createdAt == Get(event, "createdAt")
  {
    SearchPost(Get(event, "postId"), Get(event, "userId"), Get(event, "content"), Get(event, "createdAt"))
  }

  /** How many documents carry this postId. */
  function Count(entries: seq<SearchPost>, postId: Option<Value>): (n: nat)
    ensures n <= |entries|
  {
    if entries == [] then 0
    else (if entries[0].postId == postId then 1 else 0) + Count(entries[1..], postId)
  }

  lemma {:induction false} CountAppend(entries: seq<SearchPost>, e: SearchPost, postId: Option<Value>)
    ensures Count(entries + [e], postId) == Count(entries, postId) + if e.postId == postId then 1 else 0
  {
    if entries != [] {
      assert (entries + [e])[1..] == entries[1..] + [e];
      CountAppend(entries[1..], e, postId);
    }
  }

  /** The index after the intended `save()` of a new document: a plain insert, not an upsert. */
  function Inserted(entries: seq<SearchPost>, event: Value): (r: seq<SearchPost>)
    ensures |r| == |entries| + 1 && r[..|entries|] == entries && r[|entries|] == FromEvent(event)
    ensures Count(r, Get(event, "postId")) == Count(entries, Get(event, "postId")) + 1
  {
    CountAppend(entries, FromEvent(event), Get(event, "postId"));
    entries + [FromEvent(event)]
  }

  /** The position of the first document with this postId: what `findOneAndDelete` removes. */
  function FirstMatch(entries: seq<SearchPost>, postId: Option<Value>): (r: Option<nat>)
    ensures r.Some? ==> r.value < |entries| && entries[r.value].postId == postId
    ensures r.Some? ==> forall k :: 0 <= k < r.value ==> entries[k].postId != postId
    ensures r.None? <==> Count(entries, postId) == 0
  {
    if entries == [] then None
    else if entries[0].postId == postId then Some(0)
    else
      var rest := FirstMatch(entries[1..], postId);
      if rest.Some? then Some(rest.value + 1) else None
  }

  lemma {:induction false} CountConcat(a: seq<SearchPost>, b: seq<SearchPost>, postId: Option<Value>)
    ensures Count(a + b, postId) == Count(a, postId) + Count(b, postId)
  {
    if a == [] {
      assert a + b == b;
    } else {
      assert (a + b)[1..] == a[1..] + b;
      CountConcat(a[1..], b, postId);
    }
  }

  /**
   * The index after the intended `findOneAndDelete({postId})`: the earliest
   * matching document goes, so exactly one fewer document carries that
   * postId when any did, and nothing changes when none did.
   */
  function RemovedFirst(entries: seq<SearchPost>, postId: Option<Value>): (r: seq<SearchPost>)
    ensures FirstMatch(entries, postId).None? ==> r == entries
    ensures FirstMatch(entries, postId).Some? ==>
              var i := FirstMatch(entries, postId).value;
              r == entries[..i] + entries[i + 1..]
    ensures Count(r, postId) == if Count(entries, postId) == 0 then 0 else Count(entries, postId) - 1
  {
    match FirstMatch(entries, postId)
    case None => entries
    case Some(i) =>
      var before, after := entries[..i], entries[i + 1..];
      assert entries == before + ([entries[i]] + after);
      CountConcat(before, [entries[i]] + after, postId);
      CountConcat([entries[i]], after, postId);
      CountConcat(before, after, postId);
      CountZero(before, postId);
      before + after
  }

  /** At most one document goes, only one carrying that postId; every other document stays. */
  lemma RemovedFirstTouchesOne(entries: seq<SearchPost>, postId: Option<Value>)
    ensures |RemovedFirst(entries, postId)| == |entries| - (if Count(entries, postId) == 0 then 0 else 1)
    ensures forall e: SearchPost :: e.postId != postId ==>
              multiset(RemovedFirst(entries, postId))[e] == multiset(entries)[e]
  {
    var m := FirstMatch(entries, postId);
    if m.Some? {
      var r := RemovedFirst(entries, postId);
      RemovedFirstMultiset(entries, postId, m.value);
      forall e: SearchPost | e.postId != postId
        ensures multiset(r)[e] == multiset(entries)[e]
      {
        assert e != entries[m.value];
      }
    }
  }

  lemma RemovedFirstMultiset(entries: seq<SearchPost>, postId: Option<Value>, i: nat)
    requires FirstMatch(entries, postId) == Some(i)
    ensures |RemovedFirst(entries, postId)| == |entries| - 1
    ensures multiset(entries) == multiset(RemovedFirst(entries, postId)) + multiset{entries[i]}
  {
    var before, after := entries[..i], entries[i + 1..];
    assert RemovedFirst(entries, postId) == before + after;
    calc {
      multiset(entries);
      { assert entries == before + ([entries[i]] + after); }
      multiset(before) + multiset([entries[i]] + after);
      multiset(before) + multiset{entries[i]} + multiset(after);
    }
  }

  lemma {:induction false} CountZero(entries: seq<SearchPost>, postId: Option<Value>)
    ensures Count(entries, postId) == 0 <==> forall k :: 0 <= k < |entries| ==> entries[k].postId != postId
  {
    if entries != [] {
      CountZero(entries[1..], postId);
      assert forall k :: 1 <= k < |entries| ==> entries[k] == entries[1..][k - 1];
    }
  }

  /** Removing a postId nobody indexed changes nothing. */
  lemma {:induction false} RemovedAbsent(entries: seq<SearchPost>, postId: Option<Value>)
    requires forall k :: 0 <= k < |entries| ==> entries[k].postId != postId
    ensures Count(entries, postId) == 0
    ensures RemovedFirst(entries, postId) == entries
  {
    if entries != [] {
      assert entries[0].postId != postId;
      RemovedAbsent(entries[1..], postId);
    }
  }

  /**
   * A redelivered `post.created` indexes the post twice, and one deletion
   * then leaves a stale document behind.
   */
  lemma {:induction false} RedeliveredCreateOutlivesDelete(entries: seq<SearchPost>, event: Value)
    ensures Count(Inserted(Inserted(entries, event), event), Get(event, "postId")) == Count(entries, Get(event, "postId")) + 2
    ensures Count(RemovedFirst(Inserted(Inserted(entries, event), event), Get(event, "postId")), Get(event, "postId")) > 0
  {
    var pid := Get(event, "postId");
    var twice := Inserted(Inserted(entries, event), event);
    assert twice[|twice| - 2].postId == pid;
    var i := FirstMatch(twice, pid).value;
    assert i < |twice| - 1;
    var r := RemovedFirst(twice, pid);
    assert r[|r| - 1] == twice[|twice| - 1];
    assert r == r[..|r| - 1] + [r[|r| - 1]];
    CountAppend(r[..|r| - 1], r[|r| - 1], pid);
  }

  class Index {
    var entries: seq<SearchPost>   // the Search collection
    var log: seq<LogLine>          // what the handlers reported, in order

    constructor ()
      ensures entries == [] && log == []
    {
      entries, log := [], [];
    }

    /**
     * `handlePostCreated` as written: `Search` is bound to the logger module,
     * so `new Search({...})` throws a TypeError before anything is saved (and
     * the `newSearchPost` it would then save is never defined). The
     * constructor's argument is built first, so a `null` event fails there,
     * reading `postId`. The catch logs the error; the index does not change.
     */
    method HandlePostCreated(event: Value)
      modifies this`log
      ensures entries == old(entries)
      ensures event == Null ==> log == old(log) + [Failed(ReadOfNull("postId"), "Error handling post creation event")]
      ensures event != Null ==> log == old(log) + [Failed(NotAConstructor("Search"), "Error handling post creation event")]
    {
      var cause := if event == Null then ReadOfNull("postId") else NotAConstructor("Search");
      log := log + [Failed(cause, "Error handling post creation event")];
    }

    /**
     * `handlePostDeleted` as written: the logger has no `findOneAndDelete`;
     * the catch logs the TypeError. The call's argument is built before the
     * callee is checked, so a `null` event fails reading `postId` instead.
     */
    method HandlePostDeleted(event: Value)
      modifies this`log
      ensures entries == old(entries)
      ensures event == Null ==> log == old(log) + [Failed(ReadOfNull("postId"), "Error handling post deletion event")]
      ensures event != Null ==>
                log == old(log) + [Failed(NotAFunction("Search.findOneAndDelete"), "Error handling post deletion event")]
    {
      var cause := if event == Null then ReadOfNull("postId") else NotAFunction("Search.findOneAndDelete");
      log := log + [Failed(cause, "Error handling post deletion event")];
    }

    /**
     * The creation handler with the Search model bound: save one document
     * copied from the event. A `null` event throws on `event.postId`; the
     * catch logs it and nothing is saved.
     */
    method IntendedHandlePostCreated(event: Value)
      modifies this
      ensures event == Null ==>
                entries == old(entries) && log == old(log) + [Failed(ReadOfNull("postId"), "Error handling post creation event")]
      ensures event != Null ==> entries == Inserted(old(entries), event)
      ensures event != Null ==> log == old(log) + [Created(Get(event, "postId"))]
    {
      if event == Null {
        log := log + [Failed(ReadOfNull("postId"), "Error handling post creation event")];
        return;
      }
      entries := entries + [FromEvent(event)];
      log := log + [Created(Get(event, "postId"))];
    }

    /**
     * The deletion handler with the Search model bound; success is logged
     * even when nothing matched. A `null` event throws on `event.postId`
     * before the query; the catch logs it and nothing is removed.
     */
    method IntendedHandlePostDeleted(event: Value)
      modifies this
      ensures event == Null ==>
                entries == old(entries) && log == old(log) + [Failed(ReadOfNull("postId"), "Error handling post deletion event")]
      ensures event != Null ==> entries == RemovedFirst(old(entries), Get(event, "postId"))
      ensures event != Null ==> log == old(log) + [Deleted(Get(event, "postId"))]
    {
      if event == Null {
        log := log + [Failed(ReadOfNull("postId"), "Error handling post deletion event")];
        return;
      }
      var i := FirstMatch(entries, Get(event, "postId"));
      if i.Some? {
        entries := entries[..i.value] + entries[i.value + 1..];
      }
      log := log + [Deleted(Get(event, "postId"))];
    }
  }
}
