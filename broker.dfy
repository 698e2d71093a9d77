/**
 * The AMQP client underneath the library, seen from outside: a log of the
 * transport events and broker verbs the library issues, and an oracle that
 * decides how the broker answers each verb. Connection and channel handles
 * are opaque numbers handed out by the wire.
 */
module Broker {
  import opened Php

  /**
   * How a call returns: normally, with an AMQPProtocolChannelException, with
   * any other \Exception, or with a PHP \Error (a \Throwable that is not an
   * \Exception, which `catch (\Exception $e)` does not catch).
   */
  datatype Status = Returned | ChannelFault | OtherException | EngineError

  /** Caught by `catch (\Exception $e)`. */
  predicate IsException(s: Status) {
    s == ChannelFault || s == OtherException
  }

  datatype Op =
    | OpenConnection(conn: nat, hostname: Value, port: Value, username: Value, password: Value,
                     vhost: Value, connectTimeout: Value, readWriteTimeout: Value, heartbeat: Value)
    | OpenChannel(conn: nat, channel: nat)
    | CloseChannel(channel: nat)
    | ReconnectConnection(conn: nat)
    | QueueDeclare(channel: nat, queue: string, passive: Value, durable: Value, exclusive: Value,
                   autoDelete: Value, internal: Value, nowait: Value)
    | QueueBind(channel: nat, boundQueue: Value, boundExchange: Value, bindingKey: Value)
    | QueueDelete(channel: nat, queue: string)
    | ExchangeDeclare(channel: nat, exchange: string, exchangeType: Value, passive: Value, durable: Value,
                      autoDelete: Value, internal: Value, nowait: Value)
    | ExchangeDelete(channel: nat, exchange: string)
    | BasicPublish(channel: nat, body: string, exchange: string, routingKey: string, mandatory: bool)
    | TxSelect(channel: nat)
    | TxCommit(channel: nat)
    | TxRollback(channel: nat)
    | BasicQos(channel: nat, prefetchSize: Value, prefetchCount: int, global: bool)
    // `callback` is the object whose `consume` method receives the deliveries
    | BasicConsume(channel: nat, queue: string, consumerTag: string, noLocal: bool, noAck: bool,
                   exclusiveConsumer: bool, noWait: bool, callback: object)
    | BasicAck(channel: nat, deliveryTag: Value)
    | BasicNack(channel: nat, deliveryTag: Value)
    | Wait(channel: nat)

  /** The detail keys that opening a transport connection reads. */
  const TransportKeys: seq<string> :=
    ["hostname", "port", "username", "password", "vhost", "connect_timeout", "read_write_timeout", "heartbeat"]

  /** Opening a connection reads every transport key. */
  ghost predicate CanConnect(details: Array<Value>) {
    forall k :: k in TransportKeys ==> k in details.items
  }

  /** The AMQPStreamConnection that `getConnection` opens from the connection details. */
  function OpenConnectionOp(conn: nat, details: Array<Value>): Op {
    OpenConnection(conn, Get(details, "hostname"), Get(details, "port"), Get(details, "username"),
                   Get(details, "password"), Get(details, "vhost"), Get(details, "connect_timeout"),
                   Get(details, "read_write_timeout"), Get(details, "heartbeat"))
  }

  /**
   * What `getChannel` adds to the log, given the cached handles before the
   * call and the ones after: nothing when a channel was cached, otherwise
   * the connection (when none was open) and then a new channel.
   */
  function Opening(oldConn: Option<nat>, oldChannel: Option<nat>, conn: nat, channel: nat,
                   details: Array<Value>): seq<Op>
  {
    if oldChannel.Some? then []
    else (if oldConn.None? then [OpenConnectionOp(conn, details)] else []) + [OpenChannel(conn, channel)]
  }

  class Wire {
    /** Everything issued so far, in order. */
    var log: seq<Op>
    /** The next unused handle. */
    var handles: nat
    /** How the broker answers the verb logged at a given position. */
    const respond: nat -> Status

    constructor (respond: nat -> Status)
      ensures log == [] && handles == 0 && this.respond == respond
    {
      log := [];
      handles := 0;
      this.respond := respond;
    }

    method NewHandle() returns (h: nat)
      modifies this
      ensures h == old(handles) && handles == h + 1 && log == old(log)
    {
      h := handles;
      handles := handles + 1;
    }

    /** A transport event, which the model treats as always succeeding. */
    method Record(op: Op)
      modifies this
      ensures log == old(log) + [op] && handles == old(handles)
    {
      log := log + [op];
    }

    /** A broker verb: it is logged and answered by the oracle. */
    method Invoke(op: Op) returns (s: Status)
      modifies this
      ensures s == respond(|old(log)|)
      ensures log == old(log) + [op] && handles == old(handles)
    {
      s := respond(|log|);
      log := log + [op];
    }
  }
}
