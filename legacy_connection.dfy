/**
 * The older connection of src/Connection/AMQPConnection.php, which the
 * entities, the publisher and the consumer are written against: details
 * merged over its own DEFAULTS without any check, and a transport connection
 * and channel opened on first use and cached. It has no reconnect.
 */
module LegacyConnection {
  import opened Php
  import opened Broker

  const DefaultKeys: seq<string> :=
    ["hostname", "port", "username", "password", "vhost", "lazy", "read_timeout", "read_write_timeout", "heartbeat"]

  /** DEFAULTS of this generation: a read_timeout, and no connect_timeout. */
  const Defaults: Array<Value> := Array(DefaultKeys, map[
    "hostname" := Str("127.0.0.1"),
    "port" := Int(5672),
    "username" := Str("guest"),
    "password" := Str("guest"),
    "vhost" := Str("/"),
    "lazy" := Bool(true),
    "read_timeout" := Int(1),
    "read_write_timeout" := Int(8),
    "heartbeat" := Int(4)
  ])

  /** No key of DEFAULTS is listed twice. */
  lemma DefaultKeysDistinct()
    ensures Distinct(DefaultKeys)
  {
    PairwiseDistinct(DefaultKeys);
  }

  lemma DefaultsWellFormed()
    ensures Wf(Defaults)
  {
    DefaultKeysDistinct();
  }

  /** DEFAULTS hold every transport key except connect_timeout. */
  lemma DefaultsTransportKeys()
    ensures "connect_timeout" !in Defaults.items
    ensures forall k :: k in TransportKeys && k != "connect_timeout" ==> k in Defaults.items
  {
  }

  /**
   * DEFAULTS lack connect_timeout, which opening the transport connection
   * reads: merged details can open a connection exactly when the caller
   * supplied that key.
   */
  lemma ConnectTimeoutFromCaller(details: Array<Value>)
    requires Wf(details)
    ensures Wf(Defaults) && "connect_timeout" !in Defaults.items
    ensures CanConnect(Merge(Defaults, details)) <==> "connect_timeout" in details.items
  {
    DefaultsWellFormed();
    DefaultsTransportKeys();
    var merged := Merge(Defaults, details);
    assert "connect_timeout" in TransportKeys;
  }

  class AmqpConnection {
    const aliasName: string
    const connectionDetails: Array<Value>
    /** The cached AMQPStreamConnection. */
    var connection: Option<nat>
    /** The cached channel. */
    var channel: Option<nat>

    ghost predicate Valid()
      reads this
    {
      channel.Some? ==> connection.Some?
    }

    /** A connection is open, or the details hold everything needed to open one. */
    ghost predicate Ready()
      reads this
    {
      connection.Some? || CanConnect(connectionDetails)
    }

    /** Stores DEFAULTS overridden by the caller's details; opens nothing, whatever `lazy` says. */
    constructor (aliasName: string, details: Array<Value>)
      requires Wf(details)
      ensures this.aliasName == aliasName
      ensures connectionDetails == Merge(Defaults, details)
      ensures connectionDetails.items == Defaults.items + details.items
      ensures Valid() && connection.None? && channel.None?
    {
      this.aliasName := aliasName;
      connectionDetails := Merge(Defaults, details);
      connection := None;
      channel := None;
    }

    function GetName(): (r: string)
      ensures r == aliasName
    {
      aliasName
    }

    /** Opens the transport connection on first use; afterwards the same one is returned. */
    method GetConnection(wire: Wire) returns (c: nat)
      requires Valid() && Ready()
      modifies this`connection, wire
      ensures Valid() && connection == Some(c)
      ensures old(connection).Some? ==>
                c == old(connection).value && wire.log == old(wire.log) && wire.handles == old(wire.handles)
      ensures old(connection).None? ==>
                c == old(wire.handles) && wire.handles == c + 1
                && wire.log == old(wire.log) + [OpenConnectionOp(c, connectionDetails)]
    {
      if connection.None? {
        var h := wire.NewHandle();
        wire.Record(OpenConnectionOp(h, connectionDetails));
        connection := Some(h);
      }
      c := connection.value;
    }

    /** Opens a channel only when none is cached; later calls return the same channel. */
    method GetChannel(wire: Wire) returns (ch: nat)
      requires Valid() && Ready()
      modifies this, wire
      ensures Valid() && Ready() && channel == Some(ch) && connection.Some?
      ensures old(connection).Some? ==> connection == old(connection)
      ensures old(channel).Some? ==>
                ch == old(channel).value && connection == old(connection)
                && wire.log == old(wire.log) && wire.handles == old(wire.handles)
      ensures old(channel).None? ==> old(wire.handles) <= ch < wire.handles
      ensures wire.log == old(wire.log) + Opening(old(connection), old(channel), connection.value, ch, connectionDetails)
    {
      if channel.None? {
        var c := GetConnection(wire);
        var h := wire.NewHandle();
        wire.Record(OpenChannel(c, h));
        channel := Some(h);
      }
      ch := channel.value;
    }
  }
}
