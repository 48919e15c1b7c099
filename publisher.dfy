/** The order publisher (core/internal/adapters/outbound/messaging/
    message-publisher.go): topology setup with cleanup, publishing one order
    as a persistent JSON message, and shutdown.

    JSON encoding is represented by a function that may fail (`marshal`), the
    clock by the timestamp `now`. */
module Publisher {
  import opened Wrappers
  import opened Broker
  import CoreDomain

  /** Which setup call fails. */
  datatype SetupFaults = SetupFaults(
    dialFails: bool, channelFails: bool, exchangeFails: bool, queueFails: bool, bindFails: bool)

  datatype SetupError = ConnectFailed | ChannelFailed | ExchangeDeclareFailed | QueueDeclareFailed | BindFailed

  datatype PublishError = MarshalFailed | PublishFailed

  /** A durable direct exchange, not auto-deleted, not internal. */
  const OrdersExchangeDecl: ExchangeDecl := ExchangeDecl("direct", durable := true, autoDelete := false, internal := false)

  /** A durable queue, not deleted when unused, not exclusive. */
  const OrdersQueueDecl: QueueDecl := QueueDecl(durable := true, autoDelete := false, exclusive := false)

  /** The queue is bound under its own name as routing key. */
  function OrdersBinding(exchange: string, queue: string): Binding {
    Binding(queue, key := queue, exchange := exchange)
  }

  /** `NewRabbitMQPublisher`'s effect on the broker and its error. */
  function Setup(s: BrokerState, url: string, exchange: string, queue: string, f: SetupFaults)
    : (BrokerState, Option<SetupError>)
  {
    var s1 := Apply(s, Dial(url), f.dialFails);
    if f.dialFails then (s1, Some(ConnectFailed))
    else
      var s2 := Apply(s1, OpenChannel, f.channelFails);
      if f.channelFails then (Apply(s2, CloseConnection, false), Some(ChannelFailed))
      else
        var s3 := Apply(s2, ExchangeDeclare(exchange, OrdersExchangeDecl), f.exchangeFails);
        if f.exchangeFails then (Shutdown(s3, false, false), Some(ExchangeDeclareFailed))
        else
          var s4 := Apply(s3, QueueDeclare(queue, OrdersQueueDecl), f.queueFails);
          if f.queueFails then (Shutdown(s4, false, false), Some(QueueDeclareFailed))
          else
            var s5 := Apply(s4, QueueBind(OrdersBinding(exchange, queue)), f.bindFails);
            if f.bindFails then (Shutdown(s5, false, false), Some(BindFailed))
            else (s5, None)
  }

  /** The topology the publisher relies on is in place in `s`. */
  predicate HasTopology(s: BrokerState, exchange: string, queue: string) {
    && exchange in s.exchanges && s.exchanges[exchange] == OrdersExchangeDecl
    && queue in s.queues && s.queues[queue] == OrdersQueueDecl
    && OrdersBinding(exchange, queue) in s.bindings
  }

  /** A failed setup leaves nothing open (starting from nothing open) and has
      published nothing. */
  lemma SetupFailureClosesEverything(s: BrokerState, url: string, exchange: string, queue: string, f: SetupFaults)
    requires !s.connOpen && !s.channelOpen
    ensures var (s', err) := Setup(s, url, exchange, queue, f);
            err.Some? ==> !s'.connOpen && !s'.channelOpen && s'.published == s.published
  {
  }

  /** Setup succeeds exactly when every call does, and then the connection and
      channel are open, the topology is in place, and it was declared in the
      order exchange, queue, binding. */
  lemma SetupSuccess(s: BrokerState, url: string, exchange: string, queue: string, f: SetupFaults)
    ensures var (s', err) := Setup(s, url, exchange, queue, f);
            && (err.None? <==> !f.dialFails && !f.channelFails && !f.exchangeFails && !f.queueFails && !f.bindFails)
            && (err.None? ==> s'.connOpen && s'.channelOpen && HasTopology(s', exchange, queue))
            && (err.None? ==> s'.trace == s.trace + [Dial(url), OpenChannel, ExchangeDeclare(exchange, OrdersExchangeDecl),
                                                     QueueDeclare(queue, OrdersQueueDecl),
                                                     QueueBind(OrdersBinding(exchange, queue))])
  {
    var (s', err) := Setup(s, url, exchange, queue, f);
    if err.None? {
      assert s'.trace == s.trace + [Dial(url)] + [OpenChannel] + [ExchangeDeclare(exchange, OrdersExchangeDecl)]
                         + [QueueDeclare(queue, OrdersQueueDecl)] + [QueueBind(OrdersBinding(exchange, queue))];
    }
  }

  /** Declaring the topology again where it is already in place changes
      nothing but the trace: the declarations are idempotent. */
  lemma RedeclaringTopologyChangesNothing(s: BrokerState, url: string, exchange: string, queue: string, f: SetupFaults)
    requires HasTopology(s, exchange, queue) && s.connOpen && s.channelOpen
    requires !f.dialFails && !f.channelFails && !f.exchangeFails && !f.queueFails && !f.bindFails
    ensures var (s', _) := Setup(s, url, exchange, queue, f);
            s' == s.(trace := s'.trace)
  {
    var s3 := Apply(Apply(Apply(s, Dial(url), false), OpenChannel, false), ExchangeDeclare(exchange, OrdersExchangeDecl), false);
    assert s3.exchanges == s.exchanges;
    var s4 := Apply(s3, QueueDeclare(queue, OrdersQueueDecl), false);
    assert s4.queues == s.queues;
    var s5 := Apply(s4, QueueBind(OrdersBinding(exchange, queue)), false);
    assert s5.bindings == s.bindings;
  }

  /** The message published for an order: to the exchange under the queue's
      name, not mandatory, not immediate, JSON, persistent, stamped `now`. */
  function OrderPublishing(exchange: string, queue: string, body: seq<byte>, now: int): Publishing {
    Publishing(exchange, queue, mandatory := false, immediate := false, contentType := "application/json",
               body := body, deliveryMode := Persistent, timestamp := now)
  }

  /** `PublishOrder`'s effect: nothing at all when the order does not encode;
      otherwise one publish call, whose failure is returned and not retried. */
  function PublishSpec(s: BrokerState, exchange: string, queue: string, order: CoreDomain.Order,
                       marshal: CoreDomain.Order -> Option<seq<byte>>, now: int, publishFails: bool)
    : (BrokerState, Option<PublishError>)
  {
    match marshal(order)
    case None => (s, Some(MarshalFailed))
    case Some(body) =>
      var s' := Apply(s, Publish(OrderPublishing(exchange, queue, body, now)), publishFails);
      (s', if publishFails then Some(PublishFailed) else None)
  }

  /** Publishing succeeds exactly when encoding and the publish call do; on
      success exactly one persistent JSON message carrying the encoded order
      is added, routed by the queue's name; on any failure none is, and an
      encoding failure issues no call. */
  lemma PublishOrderOutcome(s: BrokerState, exchange: string, queue: string, order: CoreDomain.Order,
                            marshal: CoreDomain.Order -> Option<seq<byte>>, now: int, publishFails: bool)
    ensures var (s', err) := PublishSpec(s, exchange, queue, order, marshal, now, publishFails);
            && (err.None? <==> marshal(order).Some? && !publishFails)
            && (err == Some(MarshalFailed) <==> marshal(order).None?)
            && (marshal(order).None? ==> s' == s)
            && (err.Some? ==> s'.published == s.published)
            && (err.None? ==>
                  && |s'.published| == |s.published| + 1
                  && s'.published[..|s.published|] == s.published
                  && var m := s'.published[|s.published|];
                     && m.body == marshal(order).value
                     && m.exchange == exchange && m.key == queue
                     && m.contentType == "application/json"
                     && m.deliveryMode == Persistent && m.timestamp == now)
  {
    var (s', err) := PublishSpec(s, exchange, queue, order, marshal, now, publishFails);
    if err.None? {
      assert s'.published[..|s.published|] == s.published;
    }
  }

  /** A direct exchange delivers `m` to queue `q` when `q` is bound to it under
      `m`'s routing key. */
  predicate RoutesTo(s: BrokerState, m: Publishing, q: string) {
    && m.exchange in s.exchanges && s.exchanges[m.exchange].kind == "direct"
    && Binding(q, m.key, m.exchange) in s.bindings
  }

  /** After a successful setup, every order the publisher publishes is routed
      to its queue. */
  lemma PublishedOrderReachesQueue(s: BrokerState, url: string, exchange: string, queue: string, f: SetupFaults,
                                   order: CoreDomain.Order, marshal: CoreDomain.Order -> Option<seq<byte>>,
                                   now: int, publishFails: bool)
    requires Setup(s, url, exchange, queue, f).1.None?
    ensures var (s', err) := PublishSpec(Setup(s, url, exchange, queue, f).0, exchange, queue, order, marshal, now, publishFails);
            err.None? ==> RoutesTo(s', s'.published[|s'.published| - 1], queue)
  {
    SetupSuccess(s, url, exchange, queue, f);
  }

  class RabbitMQPublisher {
    /** Stands for the publisher's `conn` and `channel`. */
    const broker: Broker
    const exchange: string
    const queue: string

    constructor (broker: Broker, exchange: string, queue: string)
      ensures this.broker == broker && this.exchange == exchange && this.queue == queue
    {
      this.broker := broker;
      this.exchange := exchange;
      this.queue := queue;
    }

    method PublishOrder(order: CoreDomain.Order, marshal: CoreDomain.Order -> Option<seq<byte>>, now: int,
                        publishFails: bool) returns (err: Option<PublishError>)
      modifies broker
      ensures (broker.state, err) == PublishSpec(old(broker.state), exchange, queue, order, marshal, now, publishFails)
    {
      var body := marshal(order);
      if body.None? {
        return Some(MarshalFailed);
      }
      var failed := broker.Invoke(Publish(OrderPublishing(exchange, queue, body.value, now)), publishFails);
      if failed {
        return Some(PublishFailed);
      }
      err := None;
    }

    /** `Close`: channel first (its error only logged), then the connection
        (its error returned). */
    method Close(channelFails: bool, connFails: bool) returns (err: bool)
      modifies broker
      ensures broker.state == Shutdown(old(broker.state), channelFails, connFails)
      ensures err == connFails
    {
      var _ := broker.Invoke(CloseChannel, channelFails);
      err := broker.Invoke(CloseConnection, connFails);
    }
  }

  /** `NewRabbitMQPublisher`: a publisher on success; on failure an error, with
      everything already opened closed again. */
  method NewRabbitMQPublisher(broker: Broker, url: string, exchange: string, queue: string, f: SetupFaults)
    returns (r: Result<RabbitMQPublisher, SetupError>)
    modifies broker
    ensures (broker.state, if r.Ok? then None else Some(r.error)) == Setup(old(broker.state), url, exchange, queue, f)
    ensures r.Ok? ==> fresh(r.value) && r.value.broker == broker && r.value.exchange == exchange && r.value.queue == queue
  {
    var err := broker.Invoke(Dial(url), f.dialFails);
    if err {
      return Err(ConnectFailed);
    }
    err := broker.Invoke(OpenChannel, f.channelFails);
    if err {
      var _ := broker.Invoke(CloseConnection, false);
      return Err(ChannelFailed);
    }
    err := broker.Invoke(ExchangeDeclare(exchange, OrdersExchangeDecl), f.exchangeFails);
    if err {
      var _ := broker.Invoke(CloseChannel, false);
      var _ := broker.Invoke(CloseConnection, false);
      return Err(ExchangeDeclareFailed);
    }
    err := broker.Invoke(QueueDeclare(queue, OrdersQueueDecl), f.queueFails);
    if err {
      var _ := broker.Invoke(CloseChannel, false);
      var _ := broker.Invoke(CloseConnection, false);
      return Err(QueueDeclareFailed);
    }
    err := broker.Invoke(QueueBind(OrdersBinding(exchange, queue)), f.bindFails);
    if err {
      var _ := broker.Invoke(CloseChannel, false);
      var _ := broker.Invoke(CloseConnection, false);
      return Err(BindFailed);
    }
    var p := new RabbitMQPublisher(broker, exchange, queue);
    r := Ok(p);
  }
}
