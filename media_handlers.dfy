/**
 * media-service/src/eventHandlers/media-event-handlers.js: on `post.deleted`
 * the media service removes the post's media, each one first from cloud
 * storage and then from the Media collection, one at a time.
 */
module MediaHandlers {
  import opened Wrappers
  import opened Json

  datatype Media = Media(id: string, publicId: string)

  datatype LogLine = MediaDeleted(id: string, postId: Option<Value>) | Processed(postId: Option<Value>) | Failed(cause: string)

  /** The `mediaIds` of an event; anything but an array selects nothing. */
  function MediaIdsOf(event: Value): (ids: seq<string>)
    ensures Get(event, "mediaIds").None? ==> ids == []
  {
    match Get(event, "mediaIds")
    case Some(v) => Json.Strings(v)
    case None => []
  }

  /** `Media.find({_id: {$in: mediaIds}})`, in collection order. */
  function Selected(records: seq<Media>, ids: seq<string>): (r: seq<Media>)
    ensures |r| <= |records|
  {
    if records == [] then []
    else (if records[0].id in ids then [records[0]] else []) + Selected(records[1..], ids)
  }

  /** Only media whose id is listed are selected, and every listed one present is. */
  lemma {:induction false} SelectedMembers(records: seq<Media>, ids: seq<string>)
    ensures forall m :: m in Selected(records, ids) <==> m in records && m.id in ids
  {
    if records != [] {
      SelectedMembers(records[1..], ids);
      assert records == [records[0]] + records[1..];
    }
  }

  /** The collection once every record whose id is in `gone` is deleted. */
  function Without(records: seq<Media>, gone: set<string>): (r: seq<Media>)
    ensures |r| <= |records|
  {
    if records == [] then []
    else (if records[0].id in gone then [] else [records[0]]) + Without(records[1..], gone)
  }

  /** Exactly the records whose id is not in `gone` remain; the others are untouched. */
  lemma {:induction false} WithoutMembers(records: seq<Media>, gone: set<string>)
    ensures forall m :: m in Without(records, gone) <==> m in records && m.id !in gone
  {
    if records != [] {
      WithoutMembers(records[1..], gone);
      assert records == [records[0]] + records[1..];
    }
  }

  function IdsOf(ms: seq<Media>): set<string> {
    if ms == [] then {} else IdsOf(ms[..|ms| - 1]) + {ms[|ms| - 1].id}
  }

  function PublicIdsOf(ms: seq<Media>): set<string> {
    if ms == [] then {} else PublicIdsOf(ms[..|ms| - 1]) + {ms[|ms| - 1].publicId}
  }

  lemma {:induction false} IdsOfMembers(ms: seq<Media>)
    ensures forall m :: m in ms ==> m.id in IdsOf(ms)
  {
    if ms != [] {
      IdsOfMembers(ms[..|ms| - 1]);
      assert ms == ms[..|ms| - 1] + [ms[|ms| - 1]];
    }
  }

  /** How many selected records are processed before the first whose cloud deletion fails. */
  function Stop(selected: seq<Media>, cloudFails: set<string>): (n: nat)
    ensures n <= |selected|
    ensures forall k :: 0 <= k < n ==> selected[k].publicId !in cloudFails
    ensures n < |selected| ==> selected[n].publicId in cloudFails
  {
    if selected == [] || selected[0].publicId in cloudFails then 0
    else 1 + Stop(selected[1..], cloudFails)
  }

  function DeletedLines(ms: seq<Media>, postId: Option<Value>): (r: seq<LogLine>)
    ensures |r| == |ms| && forall k :: 0 <= k < |ms| ==> r[k] == MediaDeleted(ms[k].id, postId)
  {
    seq(|ms|, k requires 0 <= k < |ms| => MediaDeleted(ms[k].id, postId))
  }

  lemma IdsOfSnoc(ms: seq<Media>, m: Media)
    ensures IdsOf(ms + [m]) == IdsOf(ms) + {m.id}
    ensures PublicIdsOf(ms + [m]) == PublicIdsOf(ms) + {m.publicId}
  {
    assert (ms + [m])[..|ms|] == ms;
  }

  /** Deleting in two rounds is deleting the union. */
  lemma {:induction false} WithoutCompose(records: seq<Media>, a: set<string>, b: set<string>)
    ensures Without(Without(records, a), b) == Without(records, a + b)
  {
    if records != [] {
      var head, tail := records[0], records[1..];
      WithoutCompose(tail, a, b);
      var rest := Without(tail, a);
      if head.id in a {
        assert Without(records, a) == rest;
        assert Without(records, a + b) == Without(tail, a + b);
      } else {
        var once := [head] + rest;
        assert Without(records, a) == once;
        assert once[0] == head && once[1..] == rest;
        assert Without(once, b) == (if head.id in b then [] else [head]) + Without(rest, b);
        assert Without(records, a + b) == (if head.id in b then [] else [head]) + Without(tail, a + b);
      }
    }
  }

  lemma {:induction false} WithoutNothing(records: seq<Media>)
    ensures Without(records, {}) == records
  {
    if records != [] {
      WithoutNothing(records[1..]);
    }
  }

  lemma {:induction false} SelectedNone(records: seq<Media>, ids: seq<string>)
    requires forall k :: 0 <= k < |records| ==> records[k].id !in ids
    ensures Selected(records, ids) == []
  {
    if records != [] {
      assert forall k :: 0 <= k < |records[1..]| ==> records[1..][k] == records[k + 1];
      SelectedNone(records[1..], ids);
    }
  }

  /** An event without media selects nothing, and deleting nothing keeps the collection. */
  lemma EmptyMediaIdsDeleteNothing(records: seq<Media>)
    ensures Selected(records, []) == []
    ensures Without(records, IdsOf(Selected(records, []))) == records
  {
    SelectedNone(records, []);
    assert IdsOf([]) == {};
    WithoutNothing(records);
  }

  /** Redelivery is harmless: once a post's media are deleted, the same ids select nothing. */
  lemma RedeliverySelectsNothing(records: seq<Media>, ids: seq<string>)
    ensures Selected(Without(records, IdsOf(Selected(records, ids))), ids) == []
  {
    var gone := IdsOf(Selected(records, ids));
    var rest := Without(records, gone);
    SelectedMembers(records, ids);
    WithoutMembers(records, gone);
    IdsOfMembers(Selected(records, ids));
    forall k | 0 <= k < |rest| ensures rest[k].id !in ids {
      var m := rest[k];
      assert m in rest;
      assert m.id in ids ==> m in Selected(records, ids);
      assert m.id in ids ==> m.id in gone;
    }
    SelectedNone(rest, ids);
  }

  /**
   * The `for` loop of the handler over the selected media: each one is
   * removed from cloud storage, then from the collection, and logged; the
   * first refusal by cloud storage ends the loop.
   */
  method DeleteEach(records: seq<Media>, cloud: set<string>, selected: seq<Media>, cloudFails: set<string>,
                    postId: Option<Value>)
    returns (rs: seq<Media>, cs: set<string>, lines: seq<LogLine>, n: nat)
    ensures n == Stop(selected, cloudFails)
    ensures rs == Without(records, IdsOf(selected[..n]))
    ensures cs == cloud - PublicIdsOf(selected[..n])
    ensures lines == DeletedLines(selected[..n], postId)
  {
    rs, cs, lines := records, cloud, [];
    WithoutNothing(rs);
    assert IdsOf([]) == {} && PublicIdsOf([]) == {};
    n := 0;
    while n < |selected|
      invariant n <= |selected| && n <= Stop(selected, cloudFails)
      invariant rs == Without(records, IdsOf(selected[..n]))
      invariant cs == cloud - PublicIdsOf(selected[..n])
      invariant lines == DeletedLines(selected[..n], postId)
    {
      var media := selected[n];
      if media.publicId in cloudFails {
        break;
      }
      assert selected[..n + 1] == selected[..n] + [media];
      IdsOfSnoc(selected[..n], media);
      WithoutCompose(records, IdsOf(selected[..n]), {media.id});
      rs, cs := Without(rs, {media.id}), cs - {media.publicId};
      lines := lines + [MediaDeleted(media.id, postId)];
      n := n + 1;
    }
  }

  class Library {
    var records: seq<Media>   // the Media collection
    var cloud: set<string>    // the publicIds cloud storage holds
    var log: seq<LogLine>

    constructor ()
      ensures records == [] && cloud == {} && log == []
    {
      records, cloud, log := [], {}, [];
    }

    /**
     * `handlePostDeleted` as written: `deleteMediaFromCloudinary` is neither
     * imported nor defined, so the loop throws a ReferenceError at its first
     * record. The catch logs it; nothing is deleted anywhere. A `null` event
     * fails the destructuring that precedes the `try`: the handler's promise
     * is rejected (`rejected`) and it logs nothing.
     */
    method HandlePostDeleted(event: Value) returns (rejected: bool)
      modifies this`log
      ensures records == old(records) && cloud == old(cloud)
      ensures rejected <==> event == Null
      ensures event == Null ==> log == old(log)
      ensures event != Null && Selected(records, MediaIdsOf(event)) == [] ==> log == old(log) + [Processed(Get(event, "postId"))]
      ensures event != Null && Selected(records, MediaIdsOf(event)) != [] ==>
                log == old(log) + [Failed("deleteMediaFromCloudinary is not defined")]
    {
      if event == Null {
        return true;
      }
      rejected := false;
      var selected := Selected(records, MediaIdsOf(event));
      if selected != [] {
        log := log + [Failed("deleteMediaFromCloudinary is not defined")];
        return;
      }
      log := log + [Processed(Get(event, "postId"))];
    }

    /**
     * The handler with a cloud-storage client bound. `cloudFails` names the
     * publicIds whose deletion the storage refuses: the first such refusal
     * ends the loop, what was deleted before it stays deleted, and the error
     * is logged rather than raised. A `null` event is rejected before the
     * `try`, as in the handler as written, and changes nothing.
     */
    method IntendedHandlePostDeleted(event: Value, cloudFails: set<string>) returns (rejected: bool)
      modifies this
      ensures rejected <==> event == Null
      ensures event == Null ==> records == old(records) && cloud == old(cloud) && log == old(log)
      ensures event != Null ==>
              var selected := Selected(old(records), MediaIdsOf(event));
              var n := Stop(selected, cloudFails);
              && records == Without(old(records), IdsOf(selected[..n]))
              && cloud == old(cloud) - PublicIdsOf(selected[..n])
              && log == old(log) + DeletedLines(selected[..n], Get(event, "postId"))
                        + [if n == |selected| then Processed(Get(event, "postId")) else Failed("cloud storage refused")]
    {
      if event == Null {
        return true;
      }
      rejected := false;
      var postId := Get(event, "postId");
      var selected := Selected(records, MediaIdsOf(event));
      var rs, cs, lines, n := DeleteEach(records, cloud, selected, cloudFails, postId);
      records, cloud := rs, cs;
      log := log + lines + [if n == |selected| then Processed(postId) else Failed("cloud storage refused")];
    }
  }
}
