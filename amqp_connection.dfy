/**
 * The connection of src/AMQPConnection.php: validated details merged over
 * DEFAULTS, a transport connection and a channel that are opened lazily and
 * cached, and a reconnect that drops the cached channel.
 */
module Connection {
  import opened Php
  import opened Broker

  const DefaultKeys: seq<string> :=
    ["hostname", "port", "username", "password", "vhost", "lazy", "read_write_timeout", "connect_timeout", "heartbeat"]

  /** DEFAULTS, in declaration order. */
  const Defaults: Array<Value> := Array(DefaultKeys, map[
    "hostname" := Str("127.0.0.1"),
    "port" := Int(5672),
    "username" := Str("guest"),
    "password" := Str("guest"),
    "vhost" := Str("/"),
    "lazy" := Bool(true),
    "read_write_timeout" := Int(8),
    "connect_timeout" := Int(10),
    "heartbeat" := Int(4)
  ])

  /** No key of DEFAULTS is listed twice. */
  lemma DefaultKeysDistinct()
    ensures Distinct(DefaultKeys)
  {
    PairwiseDistinct(DefaultKeys);
  }

  lemma DefaultsWellFormed()
    ensures Wf(Defaults) && CanConnect(Defaults)
  {
    DefaultKeysDistinct();
  }

  /** `array_diff(array_keys($details), array_keys(DEFAULTS))`: the unknown keys, in input order. */
  function UnknownKeys(keys: seq<string>): seq<string>
    decreases |keys|
  {
    if keys == [] then []
    else
      var n := |keys| - 1;
      UnknownKeys(keys[..n]) + (if keys[n] in DefaultKeys then [] else [keys[n]])
  }

  /** The unknown keys are exactly the input keys outside DEFAULTS. */
  lemma {:induction false} UnknownKeysMembers(keys: seq<string>)
    ensures forall k :: k in UnknownKeys(keys) <==> k in keys && k !in DefaultKeys
    decreases |keys|
  {
    if keys != [] {
      var n := |keys| - 1;
      UnknownKeysMembers(keys[..n]);
      assert keys == keys[..n] + [keys[n]];
    }
  }

  /** The unknown keys keep the order of the input: the filter distributes over concatenation. */
  lemma {:induction false} UnknownKeysInInputOrder(front: seq<string>, back: seq<string>)
    ensures UnknownKeys(front + back) == UnknownKeys(front) + UnknownKeys(back)
    decreases |back|
  {
    if back != [] {
      var n := |back| - 1;
      var last := if back[n] in DefaultKeys then [] else [back[n]];
      UnknownKeysInInputOrder(front, back[..n]);
      assert (front + back)[..|front + back| - 1] == front + back[..n];
      assert (front + back)[|front + back| - 1] == back[n];
      assert UnknownKeys(front + back) == UnknownKeys(front + back[..n]) + last;
      assert UnknownKeys(back) == UnknownKeys(back[..n]) + last;
    } else {
      assert front + back == front;
    }
  }

  function UnknownArgumentsMessage(aliasName: string, unknown: seq<string>): string {
    "Cannot create connection " + aliasName + ", received unknown arguments: " + Join(unknown, ", ") + "!"
  }

  /**
   * The details `createConnection` hands to the constructor: an
   * InvalidArgumentException naming every unknown key, or DEFAULTS with
   * each supplied key overriding.
   */
  function EffectiveDetails(aliasName: string, details: Array<Value>): (r: Result<Array<Value>, string>)
    requires Wf(details)
    ensures r.Ok? <==> UnknownKeys(details.keys) == []
    ensures r.Ok? ==> Wf(r.value) && r.value.keys == DefaultKeys && r.value.items == Defaults.items + details.items
    ensures r.Err? ==> UnknownKeys(details.keys) != []
                       && r.error == UnknownArgumentsMessage(aliasName, UnknownKeys(details.keys))
  {
    var unknown := UnknownKeys(details.keys);
    if unknown != [] then
      Err(UnknownArgumentsMessage(aliasName, unknown))
    else
      KnownDetailsMerge(details);
      Ok(Merge(Defaults, details))
  }

  /** Details with no unknown key merge over DEFAULTS without adding a key. */
  lemma KnownDetailsMerge(details: Array<Value>)
    requires Wf(details) && UnknownKeys(details.keys) == []
    ensures Wf(Merge(Defaults, details)) && Merge(Defaults, details).keys == DefaultKeys
  {
    DefaultsWellFormed();
    UnknownKeysMembers(details.keys);
    forall k | k in details.items
      ensures k in Defaults.items
    {
      assert k in details.keys;
    }
  }

  /** `createConnection` accepts the details iff every key is one of DEFAULTS. */
  lemma DetailsValidated(aliasName: string, details: Array<Value>)
    requires Wf(details)
    ensures EffectiveDetails(aliasName, details).Ok? <==> forall k :: k in details.items ==> k in DefaultKeys
  {
    UnknownKeysMembers(details.keys);
    if UnknownKeys(details.keys) != [] {
      assert UnknownKeys(details.keys)[0] in UnknownKeys(details.keys);
    }
  }

  /** With no details given, the connection uses exactly DEFAULTS. */
  lemma NoDetailsMeansDefaults(aliasName: string)
    ensures EffectiveDetails(aliasName, Empty()) == Ok(Defaults)
    ensures Defaults.items["hostname"] == Str("127.0.0.1") && Defaults.items["port"] == Int(5672)
    ensures Defaults.items["lazy"] == Bool(true) && Defaults.items["heartbeat"] == Int(4)
  {
  }

  /** The constructor opens the connection at once iff `lazy` is exactly false. */
  predicate LazyDisabled(details: Array<Value>) {
    IsSet(details, "lazy") && details.items["lazy"] == Bool(false)
  }

  class AmqpConnection {
    const aliasName: string
    const connectionDetails: Array<Value>
    /** The cached AMQPStreamConnection. */
    var connection: Option<nat>
    /** The cached channel. */
    var channel: Option<nat>

    ghost predicate Valid()
      reads this
    {
      channel.Some? ==> connection.Some?
    }

    /** A connection is open, or the details hold everything needed to open one. */
    ghost predicate Ready()
      reads this
    {
      connection.Some? || CanConnect(connectionDetails)
    }

    constructor (aliasName: string, connectionDetails: Array<Value>, wire: Wire)
      requires LazyDisabled(connectionDetails) ==> CanConnect(connectionDetails)
      modifies wire
      ensures this.aliasName == aliasName && this.connectionDetails == connectionDetails
      ensures Valid() && channel.None? && wire.handles >= old(wire.handles)
      ensures LazyDisabled(connectionDetails) ==>
                connection == Some(old(wire.handles))
                && wire.log == old(wire.log) + [OpenConnectionOp(old(wire.handles), connectionDetails)]
      ensures !LazyDisabled(connectionDetails) ==> connection.None? && wire.log == old(wire.log)
    {
      this.aliasName := aliasName;
      this.connectionDetails := connectionDetails;
      connection := None;
      channel := None;
      new;
      if LazyDisabled(connectionDetails) {
        var c := GetConnection(wire);
      }
    }

    function GetAliasName(): (r: string)
      ensures r == aliasName
    {
      aliasName
    }

    /** Opens the transport connection on first use; afterwards the same one is returned. */
    method GetConnection(wire: Wire) returns (c: nat)
      requires Valid() && Ready()
      modifies this`connection, wire
      ensures Valid() && connection == Some(c)
      ensures old(connection).Some? ==>
                c == old(connection).value && wire.log == old(wire.log) && wire.handles == old(wire.handles)
      ensures old(connection).None? ==>
                c == old(wire.handles) && wire.handles == c + 1
                && wire.log == old(wire.log) + [OpenConnectionOp(c, connectionDetails)]
    {
      if connection.None? {
        var h := wire.NewHandle();
        wire.Record(OpenConnectionOp(h, connectionDetails));
        connection := Some(h);
      }
      c := connection.value;
    }

    /** Opens a channel only when none is cached; later calls return the same channel. */
    method GetChannel(wire: Wire) returns (ch: nat)
      requires Valid() && Ready()
      modifies this, wire
      ensures Valid() && Ready() && channel == Some(ch) && connection.Some?
      ensures old(connection).Some? ==> connection == old(connection)
      ensures old(channel).Some? ==>
                ch == old(channel).value && connection == old(connection)
                && wire.log == old(wire.log) && wire.handles == old(wire.handles)
      ensures old(channel).None? ==> old(wire.handles) <= ch < wire.handles
      ensures wire.log == old(wire.log) + Opening(old(connection), old(channel), connection.value, ch, connectionDetails)
    {
      if channel.None? {
        var c := GetConnection(wire);
        var h := wire.NewHandle();
        wire.Record(OpenChannel(c, h));
        channel := Some(h);
      }
      ch := channel.value;
    }

    /**
     * Closes a channel that the transport connection hands out for the
     * purpose (php-amqplib's `channel()` opens a new one), forgets the cached
     * channel and reconnects the transport connection once.
     */
    method Reconnect(wire: Wire)
      requires Valid() && Ready()
      modifies this, wire
      ensures Valid() && Ready() && channel.None? && connection.Some?
      ensures old(connection).Some? ==> connection == old(connection)
      ensures old(wire.handles) <= wire.handles - 1
      ensures wire.log == old(wire.log)
                          + (if old(connection).None? then [OpenConnectionOp(connection.value, connectionDetails)] else [])
                          + [OpenChannel(connection.value, wire.handles - 1), CloseChannel(wire.handles - 1),
                             ReconnectConnection(connection.value)]
    {
      var c := GetConnection(wire);
      var h := wire.NewHandle();
      wire.Record(OpenChannel(c, h));
      wire.Record(CloseChannel(h));
      channel := None;
      var again := GetConnection(wire);
      wire.Record(ReconnectConnection(again));
    }
  }

  /** Merged details can always open a connection, and keep the caller's `lazy`. */
  lemma MergedDetails(details: Array<Value>, merged: Array<Value>)
    requires merged.items == Defaults.items + details.items
    ensures CanConnect(merged)
    ensures LazyDisabled(merged) <==> LazyDisabled(details)
  {
    DefaultsWellFormed();
    forall k | k in TransportKeys ensures k in merged.items {
      assert k in Defaults.items;
    }
    assert "lazy" in Defaults.items && Defaults.items["lazy"] == Bool(true);
  }

  /**
   * `createConnection`: rejects unknown keys, otherwise builds a connection
   * over the merged details (which opens at once when `lazy` is false).
   */
  method CreateConnection(aliasName: string, details: Array<Value>, wire: Wire)
    returns (r: Result<AmqpConnection, string>)
    requires Wf(details)
    modifies wire
    ensures r.Ok? <==> EffectiveDetails(aliasName, details).Ok?
    ensures r.Err? ==> r.error == EffectiveDetails(aliasName, details).error
                       && wire.log == old(wire.log) && wire.handles == old(wire.handles)
    ensures r.Ok? ==> && fresh(r.value) && r.value.Valid() && r.value.Ready() && r.value.channel.None?
                      && r.value.aliasName == aliasName
                      && r.value.connectionDetails == EffectiveDetails(aliasName, details).value
                      && (r.value.connection.Some? <==> LazyDisabled(details))
                      && wire.log == old(wire.log)
                           + (if r.value.connection.Some?
                              then [OpenConnectionOp(r.value.connection.value, r.value.connectionDetails)]
                              else [])
    ensures wire.handles >= old(wire.handles)
  {
    var effective := EffectiveDetails(aliasName, details);
    if effective.Err? {
      return Err(effective.error);
    }
    var merged := effective.value;
    MergedDetails(details, merged);
    var c := new AmqpConnection(aliasName, merged, wire);
    r := Ok(c);
  }
}
