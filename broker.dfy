/** An AMQP broker as one client sees it through one connection and one
    channel: whether they are open, the topology declared, the messages
    published, and the ordered trace of every call the client issued (with
    acknowledgements among them). The broker's own internals are not modelled:
    each call's outcome is an input (`fails`). */
module Broker {

  newtype byte = x: int | 0 <= x < 256

  /** `amqp.Persistent`, the delivery mode that asks the broker to store the
      message on disk. */
  const Persistent: nat := 2

  datatype ExchangeDecl = ExchangeDecl(kind: string, durable: bool, autoDelete: bool, internal: bool)

  datatype QueueDecl = QueueDecl(durable: bool, autoDelete: bool, exclusive: bool)

  datatype Binding = Binding(queue: string, key: string, exchange: string)

  datatype Publishing = Publishing(
    exchange: string,
    key: string,
    mandatory: bool,
    immediate: bool,
    contentType: string,
    body: seq<byte>,
    deliveryMode: nat,
    timestamp: int)

  datatype Subscription = Subscription(queue: string, consumer: string, autoAck: bool, exclusive: bool, noLocal: bool)

  /** The client calls the core makes, with the arguments it passes. */
  datatype Call =
    | Dial(url: string)
    | OpenChannel
    | CloseChannel
    | CloseConnection
    | ExchangeDeclare(exchange: string, decl: ExchangeDecl)
    | QueueDeclare(queue: string, qdecl: QueueDecl)
    | QueueBind(binding: Binding)
    | Qos(prefetchCount: int, prefetchSize: int, global: bool)
    | Consume(sub: Subscription)
    | Publish(msg: Publishing)
    | Ack(tag: nat, multiple: bool)
    | Nack(tag: nat, multiple: bool, requeue: bool)

  predicate IsSettlement(c: Call) {
    c.Ack? || c.Nack?
  }

  datatype BrokerState = BrokerState(
    trace: seq<Call>,
    connOpen: bool,
    channelOpen: bool,
    exchanges: map<string, ExchangeDecl>,
    queues: map<string, QueueDecl>,
    bindings: set<Binding>,
    prefetch: int,
    subscriptions: seq<Subscription>,
    published: seq<Publishing>)

  /** One call and how it turns out. */
  datatype Step = Step(call: Call, fails: bool)

  /** The effect of one call. Every call, failed or not, is appended to the
      trace. A call that fails changes nothing else; closing always releases
      the resource (the close error is only reported), and closing the
      connection also closes its channel. Declarations are keyed by name, so
      repeating one with the same arguments changes nothing. */
  function Apply(s: BrokerState, c: Call, fails: bool): (r: BrokerState)
    ensures r.trace == s.trace + [c]
  {
    var s := s.(trace := s.trace + [c]);
    match c
    case Dial(_) => if fails then s else s.(connOpen := true)
    case OpenChannel => if fails then s else s.(channelOpen := true)
    case CloseChannel => s.(channelOpen := false)
    case CloseConnection => s.(connOpen := false, channelOpen := false)
    case ExchangeDeclare(name, d) => if fails then s else s.(exchanges := s.exchanges[name := d])
    case QueueDeclare(name, d) => if fails then s else s.(queues := s.queues[name := d])
    case QueueBind(b) => if fails then s else s.(bindings := s.bindings + {b})
    case Qos(count, _, _) => if fails then s else s.(prefetch := count)
    case Consume(sub) => if fails then s else s.(subscriptions := s.subscriptions + [sub])
    case Publish(m) => if fails then s else s.(published := s.published + [m])
    case Ack(_, _) => s
    case Nack(_, _, _) => s
  }

  /** The calls of `steps`, in order. */
  function Calls(steps: seq<Step>): (r: seq<Call>)
    ensures |r| == |steps|
    ensures forall i :: 0 <= i < |steps| ==> r[i] == steps[i].call
  {
    seq(|steps|, i requires 0 <= i < |steps| => steps[i].call)
  }

  /** Running `steps` one after the other from `s`. */
  function Run(s: BrokerState, steps: seq<Step>): BrokerState {
    if |steps| == 0 then s
    else
      var last := steps[|steps| - 1];
      Apply(Run(s, steps[..|steps| - 1]), last.call, last.fails)
  }

  lemma RunSnoc(s: BrokerState, steps: seq<Step>, step: Step)
    ensures Run(s, steps + [step]) == Apply(Run(s, steps), step.call, step.fails)
  {
    assert (steps + [step])[..|steps|] == steps;
  }

  /** Running steps appends exactly their calls to the trace. */
  lemma {:induction false} RunTrace(s: BrokerState, steps: seq<Step>)
    ensures Run(s, steps).trace == s.trace + Calls(steps)
  {
    if |steps| > 0 {
      var init := steps[..|steps| - 1];
      RunTrace(s, init);
      assert Calls(steps) == Calls(init) + [steps[|steps| - 1].call];
    }
  }

  /** The shutdown both the consumer and the publisher perform in `Close`:
      the channel first, then the connection. The constructors' cleanup paths
      close in the same order and ignore the errors. */
  function Shutdown(s: BrokerState, channelFails: bool, connFails: bool): BrokerState {
    Apply(Apply(s, CloseChannel, channelFails), CloseConnection, connFails)
  }

  /** After shutdown nothing is open, whatever the close calls reported, the
      channel was closed before the connection, and nothing else changed. */
  lemma ShutdownClosesAll(s: BrokerState, channelFails: bool, connFails: bool)
    ensures var s' := Shutdown(s, channelFails, connFails);
            && !s'.connOpen && !s'.channelOpen
            && s'.trace == s.trace + [CloseChannel, CloseConnection]
            && s' == s.(trace := s'.trace, connOpen := false, channelOpen := false)
  {
    assert s.trace + [CloseChannel] + [CloseConnection] == s.trace + [CloseChannel, CloseConnection];
  }

  /** The stand-in for the client's connection and channel: every call goes
      through `Invoke`. */
  class Broker {
    var state: BrokerState

    constructor (s: BrokerState)
      ensures state == s
    {
      state := s;
    }

    /** Issue one call; its outcome is `fails`, reported back as the error. */
    method Invoke(c: Call, fails: bool) returns (err: bool)
      modifies this
      ensures state == Apply(old(state), c, fails)
      ensures err == fails
    {
      state := Apply(state, c, fails);
      err := fails;
    }
  }
}
