/**
 * search-service/src/utils/rabbitmq.js: the consuming side of the event bus.
 * Each `consumeEvent` call asserts a fresh exclusive queue, binds it to one
 * routing key on `facebook_events` and registers a callback; each delivery
 * on that queue is parsed, handed to the callback and acknowledged.
 */
module SearchConsumer {
  import opened Wrappers
  import opened Json
  import opened EventBus
  import opened Subscriptions

  /** A queue this process asserted, its one binding and its consumer callback. */
  datatype Queue = Queue(name: nat, exclusive: bool, exchange: string, bindingKey: string, handler: Handler)

  /** What the broker hands the consume callback: a delivery tag and the body. */
  datatype Delivery = Delivery(tag: nat, content: Text)

  /**
   * What the consume callback did with one delivery. `Invoked` means the
   * handler was called and not awaited: its own outcome cannot reach the
   * callback, which acknowledges right after the call.
   */
  datatype Dispatch = Ignored | ParseThrew | Invoked(handler: Handler, event: Value)

  class Consumer {
    var connections: nat
    var channel: bool
    var declared: seq<Exchange>
    var queues: seq<Queue>
    var nextQueueName: nat         // the broker's generator of server-named queues
    var acked: seq<nat>            // delivery tags acknowledged, in order

    function Client(): ClientState
      reads this
    {
      ClientState(connections, channel, declared)
    }

    ghost predicate Valid()
      reads this
    {
      && Coherent(Client())
      && (forall i :: 0 <= i < |queues| ==>
            queues[i].name < nextQueueName && queues[i].exclusive && queues[i].exchange == ExchangeName)
      && (forall i, j :: 0 <= i < j < |queues| ==> queues[i].name != queues[j].name)
    }

    constructor ()
      ensures Valid() && Client() == Disconnected && queues == [] && acked == []
    {
      connections, channel, declared := 0, false, [];
      queues, nextQueueName, acked := [], 0, [];
    }

    /** `connectRabbitMQ`, the same steps as the publisher's copy of it. */
    method ConnectRabbitMQ(link: Link) returns (r: Outcome<BusError>)
      requires Valid()
      modifies this
      ensures Valid()
      ensures Client() == AfterConnect(old(Client()), link)
      ensures queues == old(queues) && nextQueueName == old(nextQueueName) && acked == old(acked)
      ensures r == if link == Up then Pass else Fail(ConnectError(link))
    {
      if link == Unreachable {
        return Fail(ConnectFailed);
      }
      connections := connections + 1;
      if link == ChannelRefused {
        return Fail(ChannelFailed);
      }
      channel := true;
      declared := declared + [FacebookEvents];
      return Pass;
    }

    /**
     * `consumeEvent(routingKey, callback)`: connect only while `channel` is
     * null; then a new exclusive, server-named queue bound to exactly this
     * routing key on `facebook_events`, consumed by this callback.
     */
    method ConsumeEvent(routingKey: string, handler: Handler, link: Link) returns (r: Outcome<BusError>)
      requires Valid()
      modifies this
      ensures Valid()
      ensures old(channel) ==> Client() == old(Client()) && r == Pass
      ensures !old(channel) ==> Client() == AfterConnect(old(Client()), link) && (r.Pass? <==> link == Up)
      ensures queues == if r.Pass? then old(queues) + [Queue(old(nextQueueName), true, ExchangeName, routingKey, handler)]
                        else old(queues)
      ensures acked == old(acked)
    {
      if !channel {
        r := ConnectRabbitMQ(link);
        if r.Fail? {
          return;
        }
      }
      var q := Queue(nextQueueName, true, ExchangeName, routingKey, handler);
      nextQueueName := nextQueueName + 1;
      queues := queues + [q];
      r := Pass;
    }

    /**
     * The consume callback of queue `q`: a null delivery is ignored and not
     * acknowledged; a body that is not JSON throws before the ack; any other
     * body is handed to the handler and acknowledged exactly once.
     */
    method OnMessage(q: nat, msg: Option<Delivery>) returns (d: Dispatch)
      requires Valid() && q < |queues|
      modifies this`acked
      ensures msg.None? ==> d == Ignored && acked == old(acked)
      ensures msg.Some? && Parse(msg.value.content).None? ==> d == ParseThrew && acked == old(acked)
      ensures msg.Some? && Parse(msg.value.content).Some? ==>
                d == Invoked(queues[q].handler, Parse(msg.value.content).value)
                && acked == old(acked) + [msg.value.tag]
    {
      if msg.None? {
        return Ignored;
      }
      var content := Parse(msg.value.content);
      if content.None? {
        return ParseThrew;
      }
      d := Invoked(queues[q].handler, content.value);
      acked := acked + [msg.value.tag];
    }
  }
}
