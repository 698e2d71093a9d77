/**
 * src/Consumer/Consumer.php: sets QoS and registers a consumer on the queue
 * entity's channel, then waits for deliveries without end. The host name
 * and process id that make up the consumer tag are parameters.
 */
module Consuming {
  import opened Php
  import opened Broker
  import opened Entities
  import Processor

  /** `sprintf("%s_%s_%s", alias, gethostname(), getmypid())`. */
  function ConsumerTag(aliasName: string, hostname: string, pid: nat): string {
    aliasName + "_" + hostname + "_" + Digits(pid)
  }

  /** On one host under one alias, different processes get different consumer tags. */
  lemma {:induction false} ConsumerTagsDistinguishProcesses(aliasName: string, hostname: string, pid1: nat, pid2: nat)
    requires pid1 != pid2
    ensures ConsumerTag(aliasName, hostname, pid1) != ConsumerTag(aliasName, hostname, pid2)
  {
    var prefix := aliasName + "_" + hostname + "_";
    if ConsumerTag(aliasName, hostname, pid1) == ConsumerTag(aliasName, hostname, pid2) {
      assert Digits(pid1) == ConsumerTag(aliasName, hostname, pid1)[|prefix|..];
      assert Digits(pid2) == ConsumerTag(aliasName, hostname, pid2)[|prefix|..];
      DigitsRoundTrip(pid1);
      DigitsRoundTrip(pid2);
      assert false;
    }
  }

  class Consumer {
    const aliasName: string
    const entity: Entity
    const processor: Processor.MessageProcessor
    /** Never reassigned after its initialisation. */
    const prefetchCount: int := 1

    constructor (aliasName: string, entity: Entity, processor: Processor.MessageProcessor)
      ensures this.aliasName == aliasName && this.entity == entity && this.processor == processor
    {
      this.aliasName := aliasName;
      this.entity := entity;
      this.processor := processor;
    }

    /** Always false, so nothing but a failing setup ends `startConsuming`. */
    function ShouldStopConsuming(): (stop: bool)
      ensures !stop
    {
      false
    }

    /**
     * `setupConsumer`: `basic_qos(null, 1, true)` and, when it returned,
     * `basic_consume` of the entity's queue with the tag above, every flag
     * false and the processor's `consume` as callback, both on the entity's
     * channel.
     */
    method SetupConsumer(hostname: string, pid: nat, wire: Wire) returns (s: Status)
      requires Usable(entity)
      modifies entity.connection, wire
      ensures Usable(entity) && entity.connection.channel.Some?
      ensures var ch := entity.connection.channel.value;
              var opening := Opening(old(entity.connection.connection), old(entity.connection.channel),
                                     entity.connection.connection.value, ch, entity.connection.connectionDetails);
              var qos := wire.respond(|old(wire.log)| + |opening|);
              var consume := BasicConsume(ch, entity.name, ConsumerTag(aliasName, hostname, pid),
                                          false, false, false, false, processor);
              && wire.log == old(wire.log) + opening + [BasicQos(ch, Null, 1, true)]
                             + (if qos == Returned then [consume] else [])
              && s == (if qos == Returned then wire.respond(|old(wire.log)| + |opening| + 1) else qos)
    {
      var ch := entity.connection.GetChannel(wire);
      s := wire.Invoke(BasicQos(ch, Null, prefetchCount, true));
      if s == Returned {
        ghost var limited := wire.log;
        var again := entity.connection.GetChannel(wire);
        assert again == ch && wire.log == limited;
        s := wire.Invoke(BasicConsume(again, entity.name, ConsumerTag(aliasName, hostname, pid),
                                      false, false, false, false, processor));
      }
    }

    /**
     * `startConsuming`, observed for `cycles` turns of its loop: after a
     * setup that returned, one `wait` per turn on the same channel, whatever
     * each wait throws. A failing setup ends the call with its status.
     */
    method StartConsuming(hostname: string, pid: nat, cycles: nat, wire: Wire) returns (s: Status)
      requires Usable(entity)
      modifies entity.connection, wire
      ensures Usable(entity) && entity.connection.channel.Some?
      ensures var ch := entity.connection.channel.value;
              var opening := Opening(old(entity.connection.connection), old(entity.connection.channel),
                                     entity.connection.connection.value, ch, entity.connection.connectionDetails);
              var at := |old(wire.log)| + |opening|;
              var qos := wire.respond(at);
              var consume := BasicConsume(ch, entity.name, ConsumerTag(aliasName, hostname, pid),
                                          false, false, false, false, processor);
              && (s == Returned <==> qos == Returned && wire.respond(at + 1) == Returned)
              && (s == Returned ==>
                    wire.log == old(wire.log) + opening + [BasicQos(ch, Null, 1, true), consume]
                                + seq(cycles, _ => Wait(ch)))
              && (s != Returned ==>
                    wire.log == old(wire.log) + opening + [BasicQos(ch, Null, 1, true)]
                                + (if qos == Returned then [consume] else [])
                    && s == (if qos == Returned then wire.respond(at + 1) else qos))
    {
      s := SetupConsumer(hostname, pid, wire);
      if s != Returned {
        return;
      }
      ghost var start := wire.log;
      var ch := entity.connection.channel.value;
      var conn := entity.connection.connection.value;
      var turn := 0;
      while turn < cycles && !ShouldStopConsuming()
        invariant 0 <= turn <= cycles
        invariant Usable(entity) && entity.connection.channel == Some(ch)
        invariant entity.connection.connection == Some(conn)
        invariant wire.log == start + seq(turn, _ => Wait(ch))
      {
        var current := entity.connection.GetChannel(wire);
        var thrown := wire.Invoke(Wait(current));
        turn := turn + 1;
      }
    }
  }
}
