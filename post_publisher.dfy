/**
 * post-service/src/utils/rabbitmq.js: the publishing side of the event bus.
 * The module-level `connection` and `channel` variables become fields of one
 * Publisher object; the exchange's log of received messages is `published`.
 */
module PostPublisher {
  import opened Wrappers
  import opened Json
  import opened EventBus

  class Publisher {
    var connections: nat           // connections `amqp.connect` has opened
    var channel: bool              // `channel !== null`
    var declared: seq<Exchange>    // `assertExchange` calls made, in order
    var published: seq<Message>    // messages handed to `channel.publish`, in order

    function Client(): ClientState
      reads this
    {
      ClientState(connections, channel, declared)
    }

    ghost predicate Valid()
      reads this
    {
      Coherent(Client()) && forall m :: m in published ==> m.exchange == ExchangeName
    }

    /** The state when the module is loaded: both variables null. */
    constructor ()
      ensures Valid() && Client() == Disconnected && published == []
    {
      connections, channel, declared, published := 0, false, [], [];
    }

    /** `connectRabbitMQ`: a failure is logged and rethrown to the caller. */
    method ConnectRabbitMQ(link: Link) returns (r: Outcome<BusError>)
      requires Valid()
      modifies this
      ensures Valid()
      ensures Client() == AfterConnect(old(Client()), link)
      ensures published == old(published)
      ensures r == if link == Up then Pass else Fail(ConnectError(link))
    {
      if link == Unreachable {
        return Fail(ConnectFailed);
      }
      connections := connections + 1;
      if link == ChannelRefused {
        return Fail(ChannelFailed);
      }
      channel := true;
      declared := declared + [FacebookEvents];
      return Pass;
    }

    /**
     * `PublishEvent`: connect only while `channel` is null, then publish
     * exactly one message to `facebook_events`. Success is reported whatever
     * `channel.publish` returns; there is no retry and no outbox.
     */
    method PublishEvent(routingKey: string, message: Value, link: Link) returns (r: Outcome<BusError>)
      requires Valid()
      modifies this
      ensures Valid()
      ensures old(channel) ==> Client() == old(Client()) && r == Pass
      ensures !old(channel) ==> Client() == AfterConnect(old(Client()), link) && (r.Pass? <==> link == Up)
      ensures published == if r.Pass? then old(published) + [Message(ExchangeName, routingKey, Stringify(message))]
                           else old(published)
    {
      if !channel {
        r := ConnectRabbitMQ(link);
        if r.Fail? {
          return;
        }
      }
      published := published + [Message(ExchangeName, routingKey, Stringify(message))];
      r := Pass;
    }
  }
}
