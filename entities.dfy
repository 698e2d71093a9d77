/**
 * The entity record of src/Entity/AbstractAMQPEntity.php: a connection, a
 * broker name and an attribute array, all fixed when the entity is built.
 * Queue and exchange entities differ only in the broker verbs they issue
 * (modules QueueEntity and ExchangeEntity).
 */
module Entities {
  import opened Php
  import LegacyConnection

  datatype Kind = Queue | Exchange

  datatype Entity = Entity(kind: Kind, connection: LegacyConnection.AmqpConnection, name: string,
                           attributes: Array<Value>)

  /**
   * The constructor: connection and name as given, the attributes merged
   * over the initially empty attribute array, so exactly the caller's; the
   * class's default attributes are never consulted.
   */
  function NewEntity(kind: Kind, connection: LegacyConnection.AmqpConnection, name: string,
                     attributes: Array<Value>): (e: Entity)
    requires Wf(attributes)
    ensures e.kind == kind && e.connection == connection && e.name == name
    ensures e.attributes == attributes
  {
    MergeIntoEmpty(attributes);
    Entity(kind, connection, name, Merge(Empty(), attributes))
  }

  /** The entity's connection is consistent and can hand out a channel. */
  ghost predicate Usable(e: Entity)
    reads e.connection
  {
    e.connection.Valid() && e.connection.Ready()
  }

  /** When a `bind` attribute is set it is an array, as the configuration schema has it. */
  predicate BindIsArray(attributes: Array<Value>) {
    IsSet(attributes, "bind") ==> attributes.items["bind"].Arr?
  }

  /** `$this->attributes['bind'][$key]`. */
  function BindField(attributes: Array<Value>, key: string): Value
    requires IsSet(attributes, "bind") && attributes.items["bind"].Arr?
  {
    Get(attributes.items["bind"].a, key)
  }
}

/** src/Entity/QueueEntity.php: declare, then an optional single bind; or delete. */
module QueueEntity {
  import opened Php
  import opened Broker
  import opened Entities

  /** The queue defaults: six flags, all false (declared, but never merged in). */
  function DefaultAttributes(): (r: Array<Value>)
    ensures r.keys == ["passive", "durable", "exclusive", "auto_delete", "internal", "nowait"]
    ensures forall k :: k in r.items ==> r.items[k] == Bool(false)
  {
    Array(["passive", "durable", "exclusive", "auto_delete", "internal", "nowait"],
          map["passive" := Bool(false), "durable" := Bool(false), "exclusive" := Bool(false),
              "auto_delete" := Bool(false), "internal" := Bool(false), "nowait" := Bool(false)])
  }

  /** `queue_declare(name, passive, durable, exclusive, auto_delete, internal, nowait)`. */
  function DeclareOp(e: Entity, channel: nat): Op {
    QueueDeclare(channel, e.name, Get(e.attributes, "passive"), Get(e.attributes, "durable"),
                 Get(e.attributes, "exclusive"), Get(e.attributes, "auto_delete"),
                 Get(e.attributes, "internal"), Get(e.attributes, "nowait"))
  }

  /** `queue_bind(name, bind['exchange'], bind['routing_key'])`: this queue to the named exchange. */
  function BindOp(e: Entity, channel: nat): Op
    requires IsSet(e.attributes, "bind") && e.attributes.items["bind"].Arr?
  {
    QueueBind(channel, Str(e.name), BindField(e.attributes, "exchange"), BindField(e.attributes, "routing_key"))
  }

  /**
   * `create`: one declare and, when `bind` is set and the declare returned,
   * one bind after it on the same channel. A failure ends the call and is
   * passed on; nothing is retried.
   */
  method Create(e: Entity, wire: Wire) returns (s: Status)
    requires e.kind == Queue && Usable(e) && BindIsArray(e.attributes)
    modifies e.connection, wire
    ensures Usable(e) && e.connection.channel.Some?
    ensures var ch := e.connection.channel.value;
            var opening := Opening(old(e.connection.connection), old(e.connection.channel),
                                   e.connection.connection.value, ch, e.connection.connectionDetails);
            var declared := wire.respond(|old(wire.log)| + |opening|);
            var bound := IsSet(e.attributes, "bind") && declared == Returned;
            && wire.log == old(wire.log) + opening + [DeclareOp(e, ch)] + (if bound then [BindOp(e, ch)] else [])
            && s == (if bound then wire.respond(|old(wire.log)| + |opening| + 1) else declared)
  {
    var ch := e.connection.GetChannel(wire);
    s := wire.Invoke(DeclareOp(e, ch));
    if s == Returned && IsSet(e.attributes, "bind") {
      ghost var declared := wire.log;
      var again := e.connection.GetChannel(wire);
      assert again == ch && wire.log == declared;
      s := wire.Invoke(BindOp(e, again));
    }
  }

  /** `delete`: exactly one `queue_delete(name)`. */
  method Delete(e: Entity, wire: Wire) returns (s: Status)
    requires e.kind == Queue && Usable(e)
    modifies e.connection, wire
    ensures Usable(e) && e.connection.channel.Some?
    ensures var ch := e.connection.channel.value;
            var opening := Opening(old(e.connection.connection), old(e.connection.channel),
                                   e.connection.connection.value, ch, e.connection.connectionDetails);
            && wire.log == old(wire.log) + opening + [QueueDelete(ch, e.name)]
            && s == wire.respond(|old(wire.log)| + |opening|)
  {
    var ch := e.connection.GetChannel(wire);
    s := wire.Invoke(QueueDelete(ch, e.name));
  }
}

/** src/Entity/ExchangeEntity.php: declare, then an optional single bind; or delete. */
module ExchangeEntity {
  import opened Php
  import opened Broker
  import opened Entities

  /** The exchange defaults: type "topic" and five flags, all false (declared, but never merged in). */
  function DefaultAttributes(): (r: Array<Value>)
    ensures r.keys == ["exchange_type", "passive", "durable", "auto_delete", "internal", "nowait"]
    ensures "exchange_type" in r.items && r.items["exchange_type"] == Str("topic")
    ensures forall k :: k in r.items && k != "exchange_type" ==> r.items[k] == Bool(false)
  {
    Array(["exchange_type", "passive", "durable", "auto_delete", "internal", "nowait"],
          map["exchange_type" := Str("topic"), "passive" := Bool(false), "durable" := Bool(false),
              "auto_delete" := Bool(false), "internal" := Bool(false), "nowait" := Bool(false)])
  }

  /** `exchange_declare(name, exchange_type, passive, durable, auto_delete, internal, nowait)`. */
  function DeclareOp(e: Entity, channel: nat): Op {
    ExchangeDeclare(channel, e.name, Get(e.attributes, "exchange_type"), Get(e.attributes, "passive"),
                    Get(e.attributes, "durable"), Get(e.attributes, "auto_delete"),
                    Get(e.attributes, "internal"), Get(e.attributes, "nowait"))
  }

  /** `queue_bind(bind['queue'], name, bind['routing_key'])`: the named queue to this exchange. */
  function BindOp(e: Entity, channel: nat): Op
    requires IsSet(e.attributes, "bind") && e.attributes.items["bind"].Arr?
  {
    QueueBind(channel, BindField(e.attributes, "queue"), Str(e.name), BindField(e.attributes, "routing_key"))
  }

  /**
   * `create`: one declare and, when `bind` is set and the declare returned,
   * one bind of the named queue to this exchange. A failure ends the call
   * and is passed on; nothing is retried.
   */
  method Create(e: Entity, wire: Wire) returns (s: Status)
    requires e.kind == Exchange && Usable(e) && BindIsArray(e.attributes)
    modifies e.connection, wire
    ensures Usable(e) && e.connection.channel.Some?
    ensures var ch := e.connection.channel.value;
            var opening := Opening(old(e.connection.connection), old(e.connection.channel),
                                   e.connection.connection.value, ch, e.connection.connectionDetails);
            var declared := wire.respond(|old(wire.log)| + |opening|);
            var bound := IsSet(e.attributes, "bind") && declared == Returned;
            && wire.log == old(wire.log) + opening + [DeclareOp(e, ch)] + (if bound then [BindOp(e, ch)] else [])
            && s == (if bound then wire.respond(|old(wire.log)| + |opening| + 1) else declared)
  {
    var ch := e.connection.GetChannel(wire);
    s := wire.Invoke(DeclareOp(e, ch));
    if s == Returned && IsSet(e.attributes, "bind") {
      ghost var declared := wire.log;
      var again := e.connection.GetChannel(wire);
      assert again == ch && wire.log == declared;
      s := wire.Invoke(BindOp(e, again));
    }
  }

  /** `delete`: exactly one `exchange_delete(name)`. */
  method Delete(e: Entity, wire: Wire) returns (s: Status)
    requires e.kind == Exchange && Usable(e)
    modifies e.connection, wire
    ensures Usable(e) && e.connection.channel.Some?
    ensures var ch := e.connection.channel.value;
            var opening := Opening(old(e.connection.connection), old(e.connection.channel),
                                   e.connection.connection.value, ch, e.connection.connectionDetails);
            && wire.log == old(wire.log) + opening + [ExchangeDelete(ch, e.name)]
            && s == wire.respond(|old(wire.log)| + |opening|)
  {
    var ch := e.connection.GetChannel(wire);
    s := wire.Invoke(ExchangeDelete(ch, e.name));
  }
}

/** src/Entity/EntityFactory.php: builds a queue or an exchange from a type name. */
module EntityFactory {
  import opened Php
  import opened Entities
  import LegacyConnection

  /**
   * `createEntity`: "exchange" and "queue" give the matching entity with the
   * connection, name and attributes passed through; any other type is an
   * InvalidArgumentException.
   */
  function CreateEntity(connection: LegacyConnection.AmqpConnection, name: string, entityType: string,
                        attributes: Array<Value>): (r: Result<Entity, string>)
    requires Wf(attributes)
    ensures r.Ok? <==> entityType == "exchange" || entityType == "queue"
    ensures r.Ok? ==> && r.value.kind == (if entityType == "exchange" then Exchange else Queue)
                      && r.value.connection == connection && r.value.name == name
                      && r.value.attributes == attributes
    ensures r.Err? ==> r.error == "Unknown entity type " + entityType
  {
    if entityType == "exchange" then Ok(NewEntity(Exchange, connection, name, attributes))
    else if entityType == "queue" then Ok(NewEntity(Queue, connection, name, attributes))
    else Err("Unknown entity type " + entityType)
  }
}
