/** The order consumer (ms/internal/adapters/inbound/consumer/rabbitmq.go):
    connection setup with cleanup, the acknowledgement decision for each
    delivery, in-order processing of a sequence of deliveries, and shutdown.

    The order processing service it calls is represented by its outcome
    (`serviceOk`), and JSON decoding by a function that may fail (`decode`). */
module Consumer {
  import opened Wrappers
  import opened Broker

  /** The message shape the consumer decodes. */
  datatype OrderMessage = OrderMessage(OrderID: string, CustomerID: string, Amount: real, Status: string)

  datatype Delivery = Delivery(tag: nat, body: seq<byte>)

  /** Which setup call fails: dial, opening the channel, declaring the queue,
      setting QoS. */
  datatype SetupFaults = SetupFaults(dialFails: bool, channelFails: bool, declareFails: bool, qosFails: bool)

  datatype SetupError = ConnectFailed | ChannelFailed | DeclareFailed | QosFailed

  /** The queue declaration: durable, not deleted when unused, not exclusive. */
  const OrdersQueueDecl: QueueDecl := QueueDecl(durable := true, autoDelete := false, exclusive := false)

  /** Prefetch one message at a time, per consumer (not global). */
  const QosCall: Call := Qos(prefetchCount := 1, prefetchSize := 0, global := false)

  /** Manual acknowledgement: auto-ack off, not exclusive, no-local off. */
  function ConsumeCall(queue: string): Call {
    Consume(Subscription(queue, "", autoAck := false, exclusive := false, noLocal := false))
  }

  /** `NewRabbitMQConsumer`'s effect on the broker and its error. Each failure
      closes what is already open (channel, then connection) before returning. */
  function Setup(s: BrokerState, url: string, queue: string, f: SetupFaults): (BrokerState, Option<SetupError>) {
    var s1 := Apply(s, Dial(url), f.dialFails);
    if f.dialFails then (s1, Some(ConnectFailed))
    else
      var s2 := Apply(s1, OpenChannel, f.channelFails);
      if f.channelFails then (Apply(s2, CloseConnection, false), Some(ChannelFailed))
      else
        var s3 := Apply(s2, QueueDeclare(queue, OrdersQueueDecl), f.declareFails);
        if f.declareFails then (Shutdown(s3, false, false), Some(DeclareFailed))
        else
          var s4 := Apply(s3, QosCall, f.qosFails);
          if f.qosFails then (Shutdown(s4, false, false), Some(QosFailed))
          else (s4, None)
  }

  /** A failed setup leaves no connection or channel open (starting from none
      open) and has not subscribed or published anything. */
  lemma SetupFailureClosesEverything(s: BrokerState, url: string, queue: string, f: SetupFaults)
    requires !s.connOpen && !s.channelOpen
    ensures var (s', err) := Setup(s, url, queue, f);
            err.Some? ==> && !s'.connOpen && !s'.channelOpen
                          && s'.subscriptions == s.subscriptions
                          && s'.published == s.published
  {
  }

  /** Setup succeeds exactly when every call succeeds; then the connection and
      channel are open, the queue is declared durable, non-exclusive and not
      auto-deleted, the prefetch is 1, and the calls were made in this order. */
  lemma SetupSuccess(s: BrokerState, url: string, queue: string, f: SetupFaults)
    ensures var (s', err) := Setup(s, url, queue, f);
            && (err.None? <==> !f.dialFails && !f.channelFails && !f.declareFails && !f.qosFails)
            && (err.None? ==>
                  && s'.connOpen && s'.channelOpen
                  && queue in s'.queues && s'.queues[queue] == QueueDecl(true, false, false)
                  && s'.prefetch == 1
                  && s'.trace == s.trace + [Dial(url), OpenChannel, QueueDeclare(queue, OrdersQueueDecl), QosCall])
  {
    var (s', err) := Setup(s, url, queue, f);
    if err.None? {
      assert s'.trace == s.trace + [Dial(url)] + [OpenChannel] + [QueueDeclare(queue, OrdersQueueDecl)] + [QosCall];
    }
  }

  /** The one acknowledgement call made for a delivery: undecodable bodies are
      rejected for good, a failed service call is rejected for redelivery,
      success is acknowledged. Never `multiple`. */
  function SettlementFor(d: Delivery, decode: seq<byte> -> Option<OrderMessage>, serviceOk: OrderMessage -> bool): Call {
    match decode(d.body)
    case None => Nack(d.tag, multiple := false, requeue := false)
    case Some(m) =>
      if serviceOk(m) then Ack(d.tag, multiple := false)
      else Nack(d.tag, multiple := false, requeue := true)
  }

  /** The three exits of the delivery state machine, each an if-and-only-if. */
  lemma SettlementCases(d: Delivery, decode: seq<byte> -> Option<OrderMessage>, serviceOk: OrderMessage -> bool)
    ensures var c := SettlementFor(d, decode, serviceOk);
            && IsSettlement(c) && c.tag == d.tag && !c.multiple
            && (c == Nack(d.tag, false, false) <==> decode(d.body).None?)
            && (c == Nack(d.tag, false, true) <==> decode(d.body).Some? && !serviceOk(decode(d.body).value))
            && (c == Ack(d.tag, false) <==> decode(d.body).Some? && serviceOk(decode(d.body).value))
  {
  }

  /** The calls made while processing `ds` in order; `settleFails(i)` is how
      the acknowledgement of the `i`-th delivery turns out. */
  function DrainSteps(ds: seq<Delivery>, decode: seq<byte> -> Option<OrderMessage>, serviceOk: OrderMessage -> bool,
                      settleFails: nat -> bool): (r: seq<Step>)
    ensures |r| == |ds|
  {
    seq(|ds|, i requires 0 <= i < |ds| => Step(SettlementFor(ds[i], decode, serviceOk), settleFails(i)))
  }

  /** The acknowledgement calls among `calls` that carry delivery tag `tag`. */
  function SettlementsOf(calls: seq<Call>, tag: nat): seq<Call> {
    if |calls| == 0 then []
    else
      var last := calls[|calls| - 1];
      SettlementsOf(calls[..|calls| - 1], tag) + (if IsSettlement(last) && last.tag == tag then [last] else [])
  }

  /** Processing deliveries with distinct tags in order settles each of them
      exactly once, with the call its own outcome selects, whatever the
      acknowledgement calls report (a failed ack is not retried). */
  lemma {:induction false} EachDeliverySettledOnce(ds: seq<Delivery>, decode: seq<byte> -> Option<OrderMessage>,
                                                   serviceOk: OrderMessage -> bool, settleFails: nat -> bool, k: nat)
    requires k < |ds|
    requires forall i, j :: 0 <= i < j < |ds| ==> ds[i].tag != ds[j].tag
    ensures SettlementsOf(Calls(DrainSteps(ds, decode, serviceOk, settleFails)), ds[k].tag)
            == [SettlementFor(ds[k], decode, serviceOk)]
  {
    var n := |ds| - 1;
    var calls := Calls(DrainSteps(ds, decode, serviceOk, settleFails));
    var init := Calls(DrainSteps(ds[..n], decode, serviceOk, settleFails));
    assert calls[..n] == init;
    var last := calls[n];
    assert last == SettlementFor(ds[n], decode, serviceOk);
    if k == n {
      NoSettlementsOfOtherTags(ds[..n], decode, serviceOk, settleFails, ds[k].tag);
    } else {
      EachDeliverySettledOnce(ds[..n], decode, serviceOk, settleFails, k);
    }
  }

  /** A tag that no delivery carries is never acknowledged. */
  lemma {:induction false} NoSettlementsOfOtherTags(ds: seq<Delivery>, decode: seq<byte> -> Option<OrderMessage>,
                                                    serviceOk: OrderMessage -> bool, settleFails: nat -> bool, tag: nat)
    requires forall i :: 0 <= i < |ds| ==> ds[i].tag != tag
    ensures SettlementsOf(Calls(DrainSteps(ds, decode, serviceOk, settleFails)), tag) == []
  {
    if |ds| > 0 {
      var n := |ds| - 1;
      var calls := Calls(DrainSteps(ds, decode, serviceOk, settleFails));
      assert calls[..n] == Calls(DrainSteps(ds[..n], decode, serviceOk, settleFails));
      assert calls[n] == SettlementFor(ds[n], decode, serviceOk);
      assert calls[n].tag != tag;
      NoSettlementsOfOtherTags(ds[..n], decode, serviceOk, settleFails, tag);
    }
  }

  class RabbitMQConsumer {
    /** Stands for the consumer's `conn` and `channel`, both non-nil once
        constructed. */
    const broker: Broker
    const queue: string

    constructor (broker: Broker, queue: string)
      ensures this.broker == broker && this.queue == queue
    {
      this.broker := broker;
      this.queue := queue;
    }

    /** `Start`: registers the subscription with manual acknowledgement. The
        goroutine that then receives deliveries is modelled by `Drain`. */
    method Start(fails: bool) returns (err: bool)
      modifies broker
      ensures broker.state == Apply(old(broker.state), ConsumeCall(queue), fails)
      ensures !fails ==> broker.state.subscriptions
                         == old(broker.state.subscriptions) + [Subscription(queue, "", false, false, false)]
      ensures err == fails
    {
      err := broker.Invoke(ConsumeCall(queue), fails);
    }

    /** `processMessage`: decode, hand the message to the service, then make
        exactly one acknowledgement call. `handed` is what the service
        received: nothing when the body does not decode. */
    method ProcessMessage(d: Delivery, decode: seq<byte> -> Option<OrderMessage>, serviceOk: OrderMessage -> bool,
                          settleFails: bool) returns (handed: Option<OrderMessage>)
      modifies broker
      ensures broker.state == Apply(old(broker.state), SettlementFor(d, decode, serviceOk), settleFails)
      ensures handed == decode(d.body)
    {
      var decoded := decode(d.body);
      if decoded.None? {
        var _ := broker.Invoke(Nack(d.tag, false, false), settleFails);
        return None;
      }
      handed := decoded;
      if !serviceOk(decoded.value) {
        var _ := broker.Invoke(Nack(d.tag, false, true), settleFails);
        return;
      }
      var _ := broker.Invoke(Ack(d.tag, false), settleFails);
    }

    /** Deliveries processed one at a time in delivery order, as prefetch 1
        and the single receiving goroutine arrange. */
    method Drain(ds: seq<Delivery>, decode: seq<byte> -> Option<OrderMessage>, serviceOk: OrderMessage -> bool,
                 settleFails: nat -> bool)
      modifies broker
      ensures broker.state == Run(old(broker.state), DrainSteps(ds, decode, serviceOk, settleFails))
    {
      for i := 0 to |ds|
        invariant broker.state == Run(old(broker.state), DrainSteps(ds[..i], decode, serviceOk, settleFails))
      {
        var steps := DrainSteps(ds[..i], decode, serviceOk, settleFails);
        var step := Step(SettlementFor(ds[i], decode, serviceOk), settleFails(i));
        var _ := ProcessMessage(ds[i], decode, serviceOk, settleFails(i));
        RunSnoc(old(broker.state), steps, step);
        assert steps + [step] == DrainSteps(ds[..i + 1], decode, serviceOk, settleFails);
      }
      assert ds[..|ds|] == ds;
    }

    /** `Close`: channel first, then connection. A channel close error is only
        logged; a connection close error is returned. */
    method Close(channelFails: bool, connFails: bool) returns (err: bool)
      modifies broker
      ensures broker.state == Shutdown(old(broker.state), channelFails, connFails)
      ensures err == connFails
    {
      var _ := broker.Invoke(CloseChannel, channelFails);
      err := broker.Invoke(CloseConnection, connFails);
    }
  }

  /** `NewRabbitMQConsumer`: a consumer on success; on failure an error and no
      consumer, with everything already opened closed again. */
  method NewRabbitMQConsumer(broker: Broker, url: string, queueName: string, f: SetupFaults)
    returns (r: Result<RabbitMQConsumer, SetupError>)
    modifies broker
    ensures (broker.state, if r.Ok? then None else Some(r.error)) == Setup(old(broker.state), url, queueName, f)
    ensures r.Ok? ==> fresh(r.value) && r.value.broker == broker && r.value.queue == queueName
  {
    var err := broker.Invoke(Dial(url), f.dialFails);
    if err {
      return Err(ConnectFailed);
    }
    err := broker.Invoke(OpenChannel, f.channelFails);
    if err {
      var _ := broker.Invoke(CloseConnection, false);
      return Err(ChannelFailed);
    }
    err := broker.Invoke(QueueDeclare(queueName, OrdersQueueDecl), f.declareFails);
    if err {
      var _ := broker.Invoke(CloseChannel, false);
      var _ := broker.Invoke(CloseConnection, false);
      return Err(DeclareFailed);
    }
    err := broker.Invoke(QosCall, f.qosFails);
    if err {
      var _ := broker.Invoke(CloseChannel, false);
      var _ := broker.Invoke(CloseConnection, false);
      return Err(QosFailed);
    }
    var c := new RabbitMQConsumer(broker, queueName);
    r := Ok(c);
  }
}
