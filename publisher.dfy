/**
 * src/Publisher/Publisher.php: publishes on the channel of one fixed entity.
 * A queue is reached through the default exchange "" with the queue's name
 * as routing key; an exchange is addressed by name with the caller's key.
 */
module Publishing {
  import opened Php
  import opened Broker
  import opened Entities

  /** Where a message goes: an exchange name and a routing key. */
  datatype Destination = Destination(exchange: string, routingKey: string)

  /** The target of `publish($message, $routingKey)` on the given entity. */
  function Target(entity: Entity, routingKey: string): Destination {
    match entity.kind
    case Queue => Destination("", entity.name)
    case Exchange => Destination(entity.name, routingKey)
  }

  /** A queue target ignores the caller's routing key. */
  lemma QueueIgnoresRoutingKey(entity: Entity, key1: string, key2: string)
    requires entity.kind == Queue
    ensures Target(entity, key1) == Target(entity, key2)
    ensures Target(entity, key1).exchange == "" && Target(entity, key1).routingKey == entity.name
  {
  }

  /** An exchange target keeps the caller's routing key, so different keys reach different destinations. */
  lemma ExchangeKeepsRoutingKey(entity: Entity, key1: string, key2: string)
    requires entity.kind == Exchange
    ensures Target(entity, key1).exchange == entity.name && Target(entity, key1).routingKey == key1
    ensures key1 != key2 ==> Target(entity, key1) != Target(entity, key2)
  {
  }

  class Publisher {
    const entity: Entity

    constructor (entity: Entity)
      ensures this.entity == entity
    {
      this.entity := entity;
    }

    /**
     * `publish`: exactly one `basic_publish` of the unchanged body, mandatory
     * set, to the entity's target; the broker's answer is passed on, nothing
     * is retried. Callers that omit the routing key pass "".
     */
    method Publish(message: string, routingKey: string, wire: Wire) returns (s: Status)
      requires Usable(entity)
      modifies entity.connection, wire
      ensures Usable(entity) && entity.connection.channel.Some?
      ensures var ch := entity.connection.channel.value;
              var opening := Opening(old(entity.connection.connection), old(entity.connection.channel),
                                     entity.connection.connection.value, ch, entity.connection.connectionDetails);
              var target := Target(entity, routingKey);
              && wire.log == old(wire.log) + opening + [BasicPublish(ch, message, target.exchange, target.routingKey, true)]
              && s == wire.respond(|old(wire.log)| + |opening|)
    {
      var exchangeName := entity.name;
      var key := routingKey;
      if entity.kind == Queue {
        exchangeName := "";
        key := entity.name;
      }
      var ch := entity.connection.GetChannel(wire);
      s := wire.Invoke(BasicPublish(ch, message, exchangeName, key, true));
    }

    /** `startTransaction`: exactly one `tx_select` on the entity's channel. */
    method StartTransaction(wire: Wire) returns (s: Status)
      requires Usable(entity)
      modifies entity.connection, wire
      ensures Usable(entity) && entity.connection.channel.Some?
      ensures var ch := entity.connection.channel.value;
              var opening := Opening(old(entity.connection.connection), old(entity.connection.channel),
                                     entity.connection.connection.value, ch, entity.connection.connectionDetails);
              && wire.log == old(wire.log) + opening + [TxSelect(ch)]
              && s == wire.respond(|old(wire.log)| + |opening|)
    {
      var ch := entity.connection.GetChannel(wire);
      s := wire.Invoke(TxSelect(ch));
    }

    /** `commit`: exactly one `tx_commit` on the entity's channel. */
    method Commit(wire: Wire) returns (s: Status)
      requires Usable(entity)
      modifies entity.connection, wire
      ensures Usable(entity) && entity.connection.channel.Some?
      ensures var ch := entity.connection.channel.value;
              var opening := Opening(old(entity.connection.connection), old(entity.connection.channel),
                                     entity.connection.connection.value, ch, entity.connection.connectionDetails);
              && wire.log == old(wire.log) + opening + [TxCommit(ch)]
              && s == wire.respond(|old(wire.log)| + |opening|)
    {
      var ch := entity.connection.GetChannel(wire);
      s := wire.Invoke(TxCommit(ch));
    }

    /** `rollBack`: exactly one `tx_rollback` on the entity's channel. */
    method RollBack(wire: Wire) returns (s: Status)
      requires Usable(entity)
      modifies entity.connection, wire
      ensures Usable(entity) && entity.connection.channel.Some?
      ensures var ch := entity.connection.channel.value;
              var opening := Opening(old(entity.connection.connection), old(entity.connection.channel),
                                     entity.connection.connection.value, ch, entity.connection.connectionDetails);
              && wire.log == old(wire.log) + opening + [TxRollback(ch)]
              && s == wire.respond(|old(wire.log)| + |opening|)
    {
      var ch := entity.connection.GetChannel(wire);
      s := wire.Invoke(TxRollback(ch));
    }
  }
}
