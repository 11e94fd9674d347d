# A social-media back end of four services and a gateway, modelled in Dafny

The system is a small social network split into Node.js services behind an
API gateway:

- the **identity service** registers users, logs them in, rotates refresh
  tokens and logs them out;
- the **post service** stores posts in MongoDB, caches them in Redis and
  publishes `post.created` / `post.delete` events on the RabbitMQ topic
  exchange `facebook_events`;
- the **search service** consumes post events into a Search collection;
- the **media service** consumes `post.deleted` events to remove a post's
  media from cloud storage and from its Media collection;
- the **API gateway** rewrites `/v1/...` paths to `/api/...`, decorates the
  proxied request's headers, and answers 500 on proxy or unhandled errors.

The model follows the code as written, including where it fails at run
time; each such place also has a corrected counterpart, and the
"Findings" table below lists both.

The model has one module per source concern:

- `Json`/`Http`: JSON values, their wire text, and responses;
- `Strings`: JavaScript's `String(n)` and `parseInt`;
- `EventBus`/`Subscriptions`: the exchange, the client state, and the start-up bindings;
- `PostPublisher` and `SearchConsumer`: the two `rabbitmq.js` files, as classes over the client state;
- `PostValidation`: the Joi post schema;
- `PostStore`, `PostCache`, `PostPaging` and `PostController`: the post service;
- `SearchIndex` and `MediaHandlers`: the two consumers;
- `RefreshTokens` and `Identity`: the identity service;
- `Gateway`: the gateway;
- `Pipeline`: properties of the services taken together.

Stateful code is modelled as classes. Each collection, cache or log is a
`seq` or `map` field, and each handler is a method whose `ensures` gives
the whole new state. Pure computations are modelled as functions, with
lemmas about them.

## Model

| member | source | states |
|---|---|---|
| EventBus.AfterConnect | post-service/src/utils/rabbitmq.js:9-22 | an attempt changes the state iff the broker is reachable; it never closes anything: at most one connection is added, a set channel stays set and the channel is set iff it was or the attempt succeeded, declarations are only appended (at most one), and `facebook_events` is declared afterwards iff it was before or the attempt succeeded |
| EventBus.AfterConnectCoherent | post-service/src/utils/rabbitmq.js:13-15 | once the channel is set, the client has connected and declared the exchange, and every connect attempt keeps this |
| PostPublisher.Publisher.ConnectRabbitMQ | post-service/src/utils/rabbitmq.js:9-22 | the client state becomes AfterConnect of the old one; a failure is returned to the caller; nothing is published |
| PostPublisher.Publisher.PublishEvent | post-service/src/utils/rabbitmq.js:24-31 | connects only while the channel is null; on success exactly one message is appended, on `facebook_events` with the given key and the stringified payload; on failure none is |
| SearchConsumer.Consumer.ConnectRabbitMQ | search-service/src/utils/rabbitmq.js:9-22 | the same connect steps; queues and acks are untouched |
| SearchConsumer.Consumer.ConsumeEvent | search-service/src/utils/rabbitmq.js:25-41 | lazy connect; on success exactly one new exclusive, server-named queue is added, bound to that routing key, with that handler; queue names stay distinct |
| SearchConsumer.Consumer.OnMessage | search-service/src/utils/rabbitmq.js:31-37 | a null delivery is ignored and not acked; unparsable content throws before the ack; otherwise the queue's handler gets the parsed event and the tag is acked once |
| Subscriptions.Route | search-service/src/server.js:42-43 | a routing key reaches handler h exactly when some binding pairs that key with h; no more callbacks than bindings |
| Subscriptions.RouteCountsBindings | search-service/src/server.js:42-43 | handler h is called exactly as many times as there are bindings pairing the routing key with h |
| Pipeline.BindingsAreLiteral | media-service/src/server.js:45 | every binding key is free of `*` and `#`, so topic matching is equality |
| Pipeline.CreatedReachesSearch | search-service/src/server.js:42 | `post.created` reaches the search creation handler only, and no media handler |
| Pipeline.DeleteKeyReachesNobody | post-service/src/controllers/post-controller.js:150 | the key `post.delete` that DeletePost names reaches no handler of either consumer |
| Pipeline.DeletedRunsSearchCreate | search-service/src/server.js:43 | as bound, `post.deleted` runs the search creation handler and never the deletion handler |
| Pipeline.IntendedRouting | search-service/src/server.js:42-43 | with deletions bound to handlePostDeleted, each event reaches its own handler in both consumers |
| Pipeline.CreatedEventIndexesPost | post-service/src/controllers/post-controller.js:39-45 | the published `post.created` payload parses back, and yields a search document holding the post's id, user, content and creation time |
| Pipeline.DeletedEventNamesMedia | post-service/src/controllers/post-controller.js:150-154 | the intended deletion payload names the deleted post's id and exactly its media ids |
| Pipeline.StoredPostsSelectNoMedia | media-service/src/eventHandlers/media-event-handlers.js:8 | since stored posts carry no media, a deletion event for one selects no media record |
| Pipeline.EventOrderMatters | search-service/src/eventHandler/search-event-handler.js:4-30 | with the corrected handlers, create-then-delete leaves no document for the post, but delete-then-create leaves exactly one |
| Json.Stringify | post-service/src/utils/rabbitmq.js:29 | `JSON.parse` of the stringified value gives the value back |
| Json.Get | search-service/src/eventHandler/search-event-handler.js:7-10 | a property read is defined exactly when the value is an object that has the key |
| Json.StrArr | post-service/src/controllers/post-controller.js:30-35 | the array built from strings reads back as the same strings, in order |
| Http.Reply | post-service/src/controllers/post-controller.js:23-26 | `res.status(s).json({success, message})` responds with status s |
| Strings.ParseIntToString | post-service/src/controllers/post-controller.js:65-66 | `parseInt(String(n))` is n for every integer n |
| Strings.IntToStringInjective | post-service/src/controllers/post-controller.js:69 | different integers have different decimal texts |
| Strings.TrimStart | post-service/src/controllers/post-controller.js:65 | the result is a suffix of the input; everything dropped is JavaScript white space; the result does not start with white space |
| PostValidation.Utf16Length | post-service/src/utils/validation.js:6 | a string's JavaScript length lies between its character count and twice that, and equals the character count iff no character lies above U+FFFF |
| PostValidation.ValidatePostObject | post-service/src/utils/validation.js:4-13 | passes exactly the bodies that are objects, have string content 3 to 5000 UTF-16 code units long, an array mediaId if any, and no other key; an object without content fails with "content is required" |
| PostValidation.ContentBounds | post-service/src/utils/validation.js:6 | a body holding only content passes iff its length in UTF-16 code units is within 3..5000, both ends inclusive |
| PostValidation.AstralCharactersCountTwice | post-service/src/utils/validation.js:6 | content of two U+1F600 emoji is four code units long and passes the 3-unit minimum |
| PostValidation.MediaIdsNeverAccepted | post-service/src/utils/validation.js:5-9 | any body carrying `mediaIds` is refused |
| PostValidation.IntendedAcceptsMedia | post-service/src/controllers/post-controller.js:30-35 | with `mediaIds` declared, a valid content with media ids is accepted; the schema as written refuses it |
| PostStore.Ids | post-service/src/controllers/post-controller.js:110 | every stored post's id is in the id set |
| PostStore.Insert | post-service/src/controllers/post-controller.js:37 | saving adds exactly the new post: one longer, the multiset grows by it, membership is old-or-new, ids gain its id |
| PostStore.InsertNewestFirst | post-service/src/controllers/post-controller.js:76 | inserting keeps the collection in `createdAt` descending order |
| PostStore.InsertUniqueIds | post-service/src/controllers/post-controller.js:37 | inserting a fresh id keeps ids unique |
| PostStore.FindById | post-service/src/controllers/post-controller.js:110 | a found post is stored and has that id; nothing is found iff no stored post has it |
| PostStore.IndexOwned | post-service/src/controllers/post-controller.js:136-139 | the match has both the id and the owner; no match means no stored post has both |
| PostStore.RemoveAt | post-service/src/controllers/post-controller.js:136-139 | exactly the one document goes; the others keep their order |
| PostStore.RemoveAtKeepsOrder | post-service/src/controllers/post-controller.js:136-139 | deleting keeps order and id uniqueness; the removed id is gone |
| PostStore.Window | post-service/src/controllers/post-controller.js:76 | a negative skip is refused; otherwise the result is the posts from position skip on, up to abs(limit) of them, in order |
| PostCache.PostKey | post-service/src/controllers/post-controller.js:103 | a post key is never a listing key |
| PostCache.ListingKey | post-service/src/controllers/post-controller.js:69 | a listing key always matches `posts:*` |
| PostCache.PostKeyInjective | post-service/src/controllers/post-controller.js:103 | distinct post ids are cached under distinct keys |
| PostCache.ListingKeyInjective | post-service/src/controllers/post-controller.js:69 | distinct (page, limit) pairs are cached under distinct keys |
| PostCache.Invalidated | post-service/src/controllers/post-controller.js:6-15 | invalidation removes the post's key and every `posts:*` key, keeps every other key, and never alters a kept entry |
| PostCache.InvalidatedMisses | post-service/src/controllers/post-controller.js:6-15 | after invalidation the post's key and every listing page miss |
| PostCache.InvalidatedKeepsOtherPosts | post-service/src/controllers/post-controller.js:8 | other posts' entries survive invalidation |
| PostCache.InvalidatedIdempotent | post-service/src/controllers/post-controller.js:6-15 | invalidating twice is invalidating once |
| PostPaging.QueryInt | post-service/src/controllers/post-controller.js:65-66 | an absent query takes the default, and a non-zero default never yields 0 |
| PostPaging.QueryIntReadsNumber | post-service/src/controllers/post-controller.js:65-66 | a query holding the text of a non-zero integer reads as that integer |
| PostPaging.QueryIntFallsBack | post-service/src/controllers/post-controller.js:65-66 | NaN and 0 both fall back to the default |
| PostPaging.CeilDiv | post-service/src/controllers/post-controller.js:82 | `Math.ceil(total / limit)` bounds, for a positive and for a negative limit |
| PostPaging.Listing | post-service/src/controllers/post-controller.js:76-84 | the listing exists iff the start index is not negative |
| PostPaging.PostListedOnItsPage | post-service/src/controllers/post-controller.js:67-82 | with a positive limit every post appears on page j/limit+1 at position j%limit, and that page is within totalPages |
| PostPaging.PostOnOnePage | post-service/src/controllers/post-controller.js:67 | a (page, position) pair names only one post |
| PostPaging.FullPages | post-service/src/controllers/post-controller.js:76 | every page before the last holds exactly `limit` posts |
| PostController.CreatedEvent | post-service/src/controllers/post-controller.js:39-45 | the payload carries the post's id, user, content and creation time |
| PostController.DeletedEvent | post-service/src/controllers/post-controller.js:150-154 | the payload carries the post's id and its media ids |
| PostController.CachedReply | post-service/src/controllers/post-controller.js:72-74 | parsable cached text answers 200 with its value; otherwise the 500 path |
| PostController.PostService.InvalidatePostCache | post-service/src/controllers/post-controller.js:6-15 | the cache becomes Invalidated of the old one |
| PostController.PostService.CreatePost | post-service/src/controllers/post-controller.js:17-61 | invalid body → 400 with Joi's message, nothing changes; otherwise the post is inserted without media; a successful publish → 201, one `post.created` message, cache invalidated; a failed publish → 500, post kept, cache unchanged; once the post is saved the bus is as PublishEvent leaves it (unchanged if a channel was open, else AfterConnect of the old state); store order and id uniqueness kept |
| PostController.PostService.GetAllPost | post-service/src/controllers/post-controller.js:63-98 | a hit answers from the cache without touching it; a miss answers the listing and caches it for 300 s; a negative skip is a 500 that caches nothing |
| PostController.PostService.GetPost | post-service/src/controllers/post-controller.js:100-131 | a hit answers from the cache; an unknown id → 404 with the cache unchanged; otherwise 200 and the post is cached for 3600 s |
| PostController.PostService.DeletePost | post-service/src/controllers/post-controller.js:133-170 | only the owner's post is deleted, else 404; after the delete the handler fails with 500, with nothing published and nothing invalidated |
| PostController.PostService.IntendedDeletePost | post-service/src/controllers/post-controller.js:133-170 | the corrected handler: delete, publish `post.deleted` with the post's id and media, invalidate, answer 200; a failed publish → 500 with the post deleted; once a post is deleted the bus is unchanged if a channel was open, else AfterConnect of the old state |
| SearchIndex.Inserted | search-service/src/eventHandler/search-event-handler.js:13 | a save appends one document and adds one to that postId's count |
| SearchIndex.FirstMatch | search-service/src/eventHandler/search-event-handler.js:25 | finds the first document with that postId; finds none iff the count is 0 |
| SearchIndex.RemovedFirst | search-service/src/eventHandler/search-event-handler.js:25 | the number of documents carrying that postId drops by exactly one when there was any, and stays 0 otherwise |
| SearchIndex.RemovedFirstTouchesOne | search-service/src/eventHandler/search-event-handler.js:25 | at most one document goes; documents with other postIds all stay |
| SearchIndex.CountZero | search-service/src/eventHandler/search-event-handler.js:25 | count 0 iff no document has that postId |
| SearchIndex.RemovedAbsent | search-service/src/eventHandler/search-event-handler.js:25 | deleting a postId nobody indexed changes nothing |
| SearchIndex.RedeliveredCreateOutlivesDelete | search-service/src/eventHandler/search-event-handler.js:13-25 | a redelivered create indexes the post twice, and one delete leaves a stale document |
| SearchIndex.Index.HandlePostCreated | search-service/src/eventHandler/search-event-handler.js:2-21 | as written: the index is unchanged, and one failure is logged: "not a constructor", or for a `null` event the read of `postId` on null |
| SearchIndex.Index.HandlePostDeleted | search-service/src/eventHandler/search-event-handler.js:23-30 | as written: the index is unchanged, and one failure is logged: "not a function", or for a `null` event the read of `postId` on null |
| SearchIndex.Index.IntendedHandlePostCreated | search-service/src/eventHandler/search-event-handler.js:4-21 | the corrected handler: the index becomes Inserted of the old one and success is logged; a `null` event fails reading `postId`, is logged as a failure and saves nothing |
| SearchIndex.Index.IntendedHandlePostDeleted | search-service/src/eventHandler/search-event-handler.js:23-30 | the corrected handler: the index becomes RemovedFirst of the old one; success is logged even when nothing matched; a `null` event fails reading `postId`, is logged as a failure and removes nothing |
| MediaHandlers.MediaIdsOf | media-service/src/eventHandlers/media-event-handlers.js:5 | an event without `mediaIds` selects no ids |
| MediaHandlers.SelectedMembers | media-service/src/eventHandlers/media-event-handlers.js:8 | `$in` selects exactly the stored records whose id is listed |
| MediaHandlers.WithoutMembers | media-service/src/eventHandlers/media-event-handlers.js:12 | exactly the records whose id is not deleted remain |
| MediaHandlers.WithoutCompose | media-service/src/eventHandlers/media-event-handlers.js:10-16 | deleting in two rounds is deleting the union |
| MediaHandlers.Stop | media-service/src/eventHandlers/media-event-handlers.js:10-16 | the loop runs up to, not including, the first record whose cloud deletion is refused |
| MediaHandlers.EmptyMediaIdsDeleteNothing | media-service/src/eventHandlers/media-event-handlers.js:8-16 | an event without media selects nothing and leaves the collection as it was |
| MediaHandlers.RedeliverySelectsNothing | media-service/src/eventHandlers/media-event-handlers.js:8-16 | once a post's media are deleted, the same event selects nothing |
| MediaHandlers.DeleteEach | media-service/src/eventHandlers/media-event-handlers.js:10-16 | after the loop, exactly the records processed before the first refusal are gone from the collection and from cloud storage, and each is logged |
| MediaHandlers.Library.HandlePostDeleted | media-service/src/eventHandlers/media-event-handlers.js:3-23 | as written: nothing is deleted anywhere; a `null` event rejects the handler's promise before its `try`, with nothing logged; otherwise a ReferenceError is logged when any record is selected, and success when none is |
| MediaHandlers.Library.IntendedHandlePostDeleted | media-service/src/eventHandlers/media-event-handlers.js:3-23 | the corrected handler: a `null` event is rejected and changes nothing; otherwise the collection, cloud storage and log are as DeleteEach leaves them, then success, or the refusal if one stopped the loop |
| RefreshTokens.Find | identity-service/src/controllers/identity-controller.js:114 | the found record holds the token; nothing is found iff no record does |
| RefreshTokens.RemoveAt | identity-service/src/controllers/identity-controller.js:132 | exactly one record goes; the others keep their order |
| RefreshTokens.Delete | identity-service/src/controllers/identity-controller.js:163 | the table shrinks by one iff a record holds the token; no record is added; every record with another token stays; in a valid table the token is found no more |
| RefreshTokens.Create | identity-service/src/models/RefreshToken.js:4-19 | an empty token is refused as required, then a missing user; a stored token is refused as a duplicate; it succeeds exactly when none of these holds, appending one record with equal timestamps and no expiry |
| RefreshTokens.IntendedCreate | identity-service/src/models/RefreshToken.js:21 | the corrected create keeps the expiry, and succeeds exactly when Create does |
| RefreshTokens.CreateKeepsTable | identity-service/src/models/RefreshToken.js:5-14 | create keeps tokens non-empty and unique, users present, and no record with an expiry |
| RefreshTokens.IntendedCreateKeepsTable | identity-service/src/models/RefreshToken.js:5-14 | the corrected create keeps tokens non-empty and unique, and users present |
| RefreshTokens.RemoveAtKeepsTable | identity-service/src/models/RefreshToken.js:8 | deleting keeps the table valid, and the deleted token is found no more |
| RefreshTokens.DeleteForgets | identity-service/src/controllers/identity-controller.js:163 | after logout's delete the token is found no more |
| RefreshTokens.StoredTokensNeverExpire | identity-service/src/controllers/identity-controller.js:116 | as written, no stored token is ever expired, however late the clock |
| RefreshTokens.IntendedTokensExpire | identity-service/src/controllers/identity-controller.js:116 | with the expiry kept, a token presented after it is recognised as expired |
| Identity.FindClash | identity-service/src/controllers/identity-controller.js:23 | a match shares the email or the username; no match iff no user shares either |
| Identity.FindByEmail | identity-service/src/controllers/identity-controller.js:68 | a match has that email; no match iff no user has it |
| Identity.FindById | identity-service/src/controllers/identity-controller.js:123 | a match has that id; no match iff no user has it |
| Identity.RotationReplaces | identity-service/src/controllers/identity-controller.js:130-132 | after a rotation the presented token is found no more, the new one is, and the table stays valid |
| Identity.IdentityService.GenerateToken | identity-service/src/controllers/identity-controller.js:35 | the new refresh token is stored per Create, or the failure is returned and nothing changes |
| Identity.IdentityService.Register | identity-service/src/controllers/identity-controller.js:8-52 | failed validation or a clash → 400, nothing created; otherwise exactly one user is added; 201 with both tokens, or 500 with the user still saved |
| Identity.IdentityService.Login | identity-service/src/controllers/identity-controller.js:55-99 | lookup by email only; an unknown email and a wrong password are both 400, and neither issues a token; otherwise the token is stored and 200 returns both tokens and the user id |
| Identity.IdentityService.Refresh | identity-service/src/controllers/identity-controller.js:103-146 | missing → 400; unknown or expired → 401; a user that is gone → 401, token kept; otherwise the new token is stored, the presented one removed, and 200 |
| Identity.IdentityService.Logout | identity-service/src/controllers/identity-controller.js:150-177 | missing → 400; otherwise the token is deleted if stored, is found no more, and 200 in both cases |
| Gateway.ProxyReqPath | api-gateway/src/server.js:83-85 | a URL with a leading `/v1` is forwarded starting with `/api`, keeping everything after the prefix, and no longer starts with `/v1`; any other URL is forwarded unchanged |
| Gateway.ProxyReqPathRewrites | api-gateway/src/server.js:84 | `/v1` followed by anything becomes `/api` followed by the same rest |
| Gateway.ProxyReqPathIsTextual | api-gateway/src/server.js:84 | the match is textual, so `/v10/x` is forwarded as `/api0/x` |
| Gateway.ProxyReqPathIdempotent | api-gateway/src/server.js:84 | rewriting twice is rewriting once |
| Gateway.ForwardedUser | api-gateway/src/server.js:117 | a user id is forwarded iff the request has a user with a non-empty userId, and it is that id |
| Gateway.JsonHeaders | api-gateway/src/server.js:115-119 | Content-Type is JSON, x-user-id is the forwarded user, and every other header is kept unchanged |
| Gateway.ProxyReqOpts.DecorateAuth | api-gateway/src/server.js:100-104 | missing headers are created and JSON is forced; no user id is forwarded |
| Gateway.ProxyReqOpts.DecorateJson | api-gateway/src/server.js:114-158 | the posts route's decorator (114-121), and the search route's, which is the same code (151-158): headers are created if missing, JSON is forced, and the user id is forwarded |
| Gateway.ProxyReqOpts.DecorateMedia | api-gateway/src/server.js:130-140 | headers are never created; a missing headers object or content type is a TypeError, and what was written before it stays; x-user-id is written before the content type is read; JSON is forced unless the upload is multipart |
| Gateway.ServerResponse.ProxyErrorHandler | api-gateway/src/server.js:86-94 | a response already started is left alone; otherwise 500 `{message, error}`, with "Unknown error" when the message is empty |
| Gateway.ServerResponse.GlobalErrorHandler | api-gateway/src/server.js:166-175 | a response already started is left alone; otherwise 500 `{success: false, message}`, plus `error` only when the error has a message |

## Left out

- Transports are not modelled: HTTP serving, the Express middleware chain, the gateway's rate limiter, CORS/helmet, and the token-validating middleware that sets `req.user`. The decorators receive `req.user` as a parameter.
- Logging is modelled only where a handler's log is its one visible outcome (the two consumers); other logger calls are left out.
- Broker I/O is an input (`Link`): whether `amqp.connect` and `createChannel` succeed. Reconnection, channel errors after connect, and the unawaited `connectRabbitMQ()` at module load (post-service/src/utils/rabbitmq.js:33) are not modelled.
- `assertExchange`, `assertQueue` and `bindQueue` are taken to succeed once a channel exists.
- Consumer callbacks are called without `await`, so handlers may interleave. Each handler call is modelled as one atomic step; `Pipeline.EventOrderMatters` shows only that order matters.
- Topic wildcards (`*`, `#`) are not modelled; every binding in the code is literal (`Pipeline.BindingsAreLiteral`).
- Redis TTLs are stored numbers; expiry over wall-clock time is not modelled. Redis and MongoDB outages are not modelled, except the failures named in the table.
- `JSON.stringify`/`JSON.parse` are an abstract pair: text is either an encoded value or characters that do not parse.
- `generateToken` (JWT signing) lives in a file that is not part of this model. Its token pair is a parameter; only its effect of storing the refresh token is modelled.
- Identity's Joi validators and the `User` model (password hashing, `comparePassword`) are not part of this model. Their verdicts are parameters.
- New ids (`_id`) and the clock are parameters. A malformed ObjectId, which Mongoose refuses with a cast error, is not modelled.
- The unique `_id` index: saving a duplicate id is modelled as the handler's 500 path.
- PostValidation.ProblemMessage: for an undeclared key, Joi's message starts with the key's name; the model keeps only the "is not allowed" part.
- Identity.IdentityService.Register: the 500 body's `error` field, which holds the exception's message, is not modelled; the body is `{success, message}` only.
- Identity.IdentityService.Refresh: a refresh token that is not a string (a number, an object) is not modelled; tokens are `Option<string>`.
- MediaHandlers.MediaIdsOf: a `mediaIds` that is not an array of strings is read as its string items, or as none; MongoDB's own handling of such `$in` operands is not modelled.
- MediaHandlers.Library.IntendedHandlePostDeleted: only refusals by cloud storage are modelled; a failing `Media.findByIdAndDelete` is not.
- MediaHandlers.Library: record ids are taken to be unique, as MongoDB's `_id` index keeps them; deletion by id (`Without`) removes every record with that id, which is the one record `findByIdAndDelete` removes only under that uniqueness. The class states no invariant for it.
- MediaHandlers.Library.HandlePostDeleted: a rejected handler is reported by `rejected`; the process-wide `unhandledRejection` logger (media-service/src/server.js:57-60) and the `console.log` of each event are not modelled.
- SearchIndex.RemovedFirst: `findOneAndDelete` with an undefined `postId` matches the documents that lack one; here absence is `None` and is matched the same way.
- Strings.ParseIntToString: integers are unbounded here; JavaScript numbers are doubles, so `String(n)` switches to exponent form from 1e21 and integers beyond 2^53 round, and the round trip is claimed only for the unbounded model.
- PostPaging.QueryIntReadsNumber: states the round trip for unbounded integers; for JavaScript doubles it holds only below 2^53 in magnitude.
- PostPaging.QueryInt: a query value is a string or absent; Express can also hand over an array or an object (`?page=1&page=2`), which is not modelled.
- PostCache.ListingKey: the key is built from the integer's plain decimal text; for values from 1e21 up JavaScript would write the exponent form (`posts:1e+21:10`).
- PostStore.Insert: posts with equal `createdAt` are placed before the existing ones; MongoDB leaves the order of ties in a sort unspecified, so only the descending order is the source's promise.
- RefreshTokens.Create: when both token and user are missing, Mongoose reports one validation error naming both; the model reports the token's.
- Media upload, the media controller and the search query endpoint are outside the core and are not modelled.
- The deletion event: the subscribers bind `post.deleted`, so the corrected `IntendedDeletePost` publishes under `post.deleted` rather than the `post.delete` the code names.

## Findings

| source | as written | input that shows it | evidently intended | confidence | as-written member | corrected member |
|---|---|---|---|---|---|---|
| post-service/src/controllers/post-controller.js:150-153 | after deleting, the event payload reads `post`, which nothing defines; the ReferenceError goes to the 500 path, so no event is published, no cache entry is invalidated, and the post stays deleted | DELETE of a post the caller owns | publish the deleted document's id and media, invalidate, answer 200 | high, not executed | PostController.PostService.DeletePost | PostController.PostService.IntendedDeletePost |
| post-service/src/controllers/post-controller.js:150 | the deletion event is published as `post.delete`, but the consumers bind `post.deleted` | any published deletion event | publish under `post.deleted` | high, not executed | Pipeline.DeleteKeyReachesNobody | Pipeline.IntendedRouting |
| search-service/src/server.js:43 | `post.deleted` is bound to handlePostCreated | a `post.deleted` event | bind it to handlePostDeleted | high, not executed | Pipeline.DeletedRunsSearchCreate | Pipeline.IntendedRouting |
| search-service/src/eventHandler/search-event-handler.js:2-13 | `Search` is the logger module, so `new Search(...)` throws, and the save refers to `newSearchPost`, which is never defined; no post is ever indexed | any `post.created` event | save one Search document copied from the event | high, not executed | SearchIndex.Index.HandlePostCreated | SearchIndex.Index.IntendedHandlePostCreated |
| search-service/src/eventHandler/search-event-handler.js:25 | `Search.findOneAndDelete` is not a function of the logger; nothing is ever removed | any event passed to the deletion handler | delete the document with that postId | high, not executed | SearchIndex.Index.HandlePostDeleted | SearchIndex.Index.IntendedHandlePostDeleted |
| media-service/src/eventHandlers/media-event-handlers.js:11 | `deleteMediaFromCloudinary` is neither imported nor defined; the first selected record throws, and nothing is deleted | a deletion event whose `mediaIds` match a stored record | delete each record from cloud storage and then from the collection | high, not executed | MediaHandlers.Library.HandlePostDeleted | MediaHandlers.Library.IntendedHandlePostDeleted |
| post-service/src/utils/validation.js:7 | the schema declares `mediaId`, while the controller reads `mediaIds`; a body with `mediaIds` is refused, so no post ever has media | `{"content": "hello", "mediaIds": ["m1"]}` | declare `mediaIds` | high, not executed | PostValidation.MediaIdsNeverAccepted | PostValidation.IntendedAcceptsMedia |
| identity-service/src/models/RefreshToken.js:4-21 | the schema has no `expiresAt` path, so strict mode drops it on create; `undefined < now` is false, so no refresh token ever expires (the TTL index is also on a field that is never stored, and its option is misspelt `expiresAfterSeconds` for `expireAfterSeconds`, so it would not expire documents even if the field were kept) | refresh with a token issued with an expiry in the past | keep `expiresAt` so that expired tokens are refused | high, not executed | RefreshTokens.StoredTokensNeverExpire | RefreshTokens.IntendedTokensExpire |
