/**
 * The vocabulary shared by every service's RabbitMQ client: the one topic
 * exchange, the messages published to it, and how far a connection attempt
 * gets. The broker itself is outside the model; each client records what it
 * asked of it.
 */
module EventBus {
  import opened Json

  const ExchangeName: string := "facebook_events"

  datatype Exchange = Exchange(name: string, kind: string, durable: bool)

  /** `assertExchange(EXCHANGE_NAME, 'topic', {durable: false})`. */
  const FacebookEvents: Exchange := Exchange(ExchangeName, "topic", false)

  /** One `channel.publish(exchange, routingKey, Buffer.from(JSON.stringify(message)))`. */
  datatype Message = Message(exchange: string, routingKey: string, content: Text)

  /** How far `amqp.connect` and `createChannel` get: broker I/O, given as input. */
  datatype Link = Unreachable | ChannelRefused | Up

  datatype BusError = ConnectFailed | ChannelFailed

  /**
   * The module-level state of one client file: how many connections it has
   * opened, whether `channel` is non-null, and the exchanges it declared.
   */
  datatype ClientState = ClientState(connections: nat, channel: bool, declared: seq<Exchange>)

  const Disconnected: ClientState := ClientState(0, false, [])

  /**
   * What one `connectRabbitMQ()` leaves behind: a refused connection changes
   * nothing; a refused channel leaves a new connection and `channel` as it
   * was; success sets both and declares the exchange. An attempt never
   * closes anything: connections only accumulate, a set `channel` stays set
   * and declarations are only ever appended, at most one per attempt.
   */
  function AfterConnect(s: ClientState, link: Link): (t: ClientState)
    ensures t == s <==> link == Unreachable
    ensures s.connections <= t.connections <= s.connections + 1
    ensures t.channel <==> s.channel || link == Up
    ensures s.declared <= t.declared && |t.declared| <= |s.declared| + 1
    ensures FacebookEvents in t.declared <==> FacebookEvents in s.declared || link == Up
  {
    match link
    case Unreachable => s
    case ChannelRefused => s.(connections := s.connections + 1)
    case Up => ClientState(s.connections + 1, true, s.declared + [FacebookEvents])
  }

  function ConnectError(link: Link): BusError
    requires link != Up
  {
    if link == Unreachable then ConnectFailed else ChannelFailed
  }

  /** Once `channel` is set the client has connected and declared the exchange. */
  ghost predicate Coherent(s: ClientState) {
    s.channel ==> s.connections > 0 && FacebookEvents in s.declared
  }

  lemma AfterConnectCoherent(s: ClientState, link: Link)
    requires Coherent(s)
    ensures Coherent(AfterConnect(s, link))
  {
  }
}

/**
 * The bindings each consuming service makes at start-up, as data:
 * search-service/src/server.js and media-service/src/server.js.
 */
module Subscriptions {

  /** The callbacks handed to `consumeEvent`. */
  datatype Handler = SearchPostCreated | SearchPostDeleted | MediaPostDeleted

  datatype Subscription = Subscription(bindingKey: string, handler: Handler)

  const PostCreatedKey: string := "post.created"
  const PostDeletedKey: string := "post.deleted"

  /** search-service binds `post.deleted` to handlePostCreated, as written. */
  const SearchSubscriptions: seq<Subscription> :=
    [Subscription(PostCreatedKey, SearchPostCreated), Subscription(PostDeletedKey, SearchPostCreated)]

  /** The binding the search service evidently meant for deletions. */
  const IntendedSearchSubscriptions: seq<Subscription> :=
    [Subscription(PostCreatedKey, SearchPostCreated), Subscription(PostDeletedKey, SearchPostDeleted)]

  const MediaSubscriptions: seq<Subscription> := [Subscription(PostDeletedKey, MediaPostDeleted)]

  /** A binding key without `*` or `#` matches exactly the routing key equal to it. */
  predicate IsLiteralKey(key: string) {
    forall i :: 0 <= i < |key| ==> key[i] != '*' && key[i] != '#'
  }

  /**
   * The callbacks a message with this routing key reaches, one per matching
   * binding (each binding has its own exclusive queue), in binding order.
   */
  function Route(subs: seq<Subscription>, routingKey: string): (r: seq<Handler>)
    ensures |r| <= |subs|
    ensures forall h :: h in r <==> Subscription(routingKey, h) in subs
  {
    if subs == [] then []
    else (if subs[0].bindingKey == routingKey then [subs[0].handler] else []) + Route(subs[1..], routingKey)
  }

  /** The positions of the bindings that deliver `routingKey` to handler `h`. */
  ghost function BindingsTo(subs: seq<Subscription>, routingKey: string, h: Handler): set<nat> {
    set i: nat | i < |subs| && subs[i] == Subscription(routingKey, h)
  }

  ghost function Shifted(positions: set<nat>): set<nat> {
    set i: nat | i in positions :: i + 1
  }

  lemma {:induction false} ShiftedSize(positions: set<nat>)
    ensures |Shifted(positions)| == |positions|
    decreases |positions|
  {
    if positions != {} {
      var x :| x in positions;
      var rest := positions - {x};
      ShiftedSize(rest);
      forall y | y in Shifted(positions)
        ensures y in Shifted(rest) + {x + 1}
      {
        var i: nat :| i in positions && y == i + 1;
        if i != x {
          assert i in rest;
        }
      }
      assert x + 1 !in Shifted(rest);
      assert Shifted(positions) == Shifted(rest) + {x + 1};
    }
  }

  lemma BindingsToSplit(subs: seq<Subscription>, routingKey: string, h: Handler)
    requires subs != []
    ensures BindingsTo(subs, routingKey, h)
      == (if subs[0] == Subscription(routingKey, h) then {0} else {}) + Shifted(BindingsTo(subs[1..], routingKey, h))
    ensures 0 !in Shifted(BindingsTo(subs[1..], routingKey, h))
  {
    var tail := BindingsTo(subs[1..], routingKey, h);
    forall i: nat | i in BindingsTo(subs, routingKey, h) && i > 0
      ensures i in Shifted(tail)
    {
      assert subs[1..][i - 1] == subs[i];
      var k: nat := i - 1;
      assert k in tail;
    }
    forall j: nat | j in tail
      ensures j + 1 in BindingsTo(subs, routingKey, h)
    {
      assert subs[1..][j] == subs[j + 1];
    }
  }

  /** Each handler is called once for every binding that routes the key to it. */
  lemma {:induction false} RouteCountsBindings(subs: seq<Subscription>, routingKey: string, h: Handler)
    ensures multiset(Route(subs, routingKey))[h] == |BindingsTo(subs, routingKey, h)|
    decreases |subs|
  {
    if subs != [] {
      var tail := BindingsTo(subs[1..], routingKey, h);
      RouteCountsBindings(subs[1..], routingKey, h);
      ShiftedSize(tail);
      BindingsToSplit(subs, routingKey, h);
      assert Route(subs, routingKey)
        == (if subs[0].bindingKey == routingKey then [subs[0].handler] else []) + Route(subs[1..], routingKey);
    }
  }
}
