/**
 * src/Builder/ContainerBuilder.php: turns the normalised configuration into
 * a registry. Connections are built first, then exchanges, then queues,
 * each keyed by alias; then every publisher alias is resolved to an exchange
 * or, failing that, a queue, and every consumer alias to a queue. A dangling
 * reference raises a RuntimeException, an unknown connection detail the
 * InvalidArgumentException of `createConnection`; either way no container is
 * returned.
 */
module Builder {
  import opened Php
  import Connection
  import Entities
  import opened Registry

  /** The exception `createContainer` lets escape, with its message. */
  datatype Error = InvalidArgument(message: string) | Runtime(message: string)

  /*
   * Every loop of the builder walks the aliases of one section in order,
   * turns each entry into a value or an exception, stops at the first
   * exception and otherwise `put`s the value under the alias.
   */

  /**
   * The outcome of the first `done` turns of such a loop, where `steps[i]`
   * is what the loop body makes of the entry under `keys[i]`.
   */
  function Collect<V>(keys: seq<string>, steps: seq<Result<V, Error>>, done: nat): Result<Array<V>, Error>
    requires done <= |keys| == |steps|
    decreases done
  {
    if done == 0 then Ok(Empty())
    else
      match Collect(keys, steps, done - 1)
      case Err(e) => Err(e)
      case Ok(acc) =>
        match steps[done - 1]
        case Err(e) => Err(e)
        case Ok(v) => Ok(Set(acc, keys[done - 1], v))
  }

  /** A loop whose every turn succeeds succeeds. */
  lemma {:induction false} CollectAllOk<V>(keys: seq<string>, steps: seq<Result<V, Error>>, done: nat)
    requires done <= |keys| == |steps|
    requires forall j :: 0 <= j < done ==> steps[j].Ok?
    ensures Collect(keys, steps, done).Ok?
    decreases done
  {
    if done > 0 {
      CollectAllOk(keys, steps, done - 1);
    }
  }

  /** A loop with a failing turn fails. */
  lemma {:induction false} CollectFailsAt<V>(keys: seq<string>, steps: seq<Result<V, Error>>, done: nat, i: nat)
    requires i < done <= |keys| == |steps| && steps[i].Err?
    ensures Collect(keys, steps, done).Err?
    decreases done
  {
    if i < done - 1 {
      CollectFailsAt(keys, steps, done - 1, i);
    }
  }

  /** A successful loop holds the aliases of its turns, in the section's order. */
  lemma {:induction false} CollectKeys<V>(keys: seq<string>, steps: seq<Result<V, Error>>, done: nat)
    requires Distinct(keys) && done <= |keys| == |steps|
    requires Collect(keys, steps, done).Ok?
    ensures Wf(Collect(keys, steps, done).value) && Collect(keys, steps, done).value.keys == keys[..done]
    decreases done
  {
    if done > 0 {
      CollectKeys(keys, steps, done - 1);
      var acc := Collect(keys, steps, done - 1).value;
      var alias := keys[done - 1];
      DistinctPrefix(keys, done - 1);
      assert alias !in acc.items;
      assert Collect(keys, steps, done).value == Set(acc, alias, steps[done - 1].value);
      assert keys[..done] == acc.keys + [alias];
    }
  }

  /** In a successful loop, the entry under the alias of a turn is what that turn made. */
  lemma {:induction false} CollectAt<V>(keys: seq<string>, steps: seq<Result<V, Error>>, done: nat, i: nat)
    requires Distinct(keys) && i < done <= |keys| == |steps|
    requires Collect(keys, steps, done).Ok?
    ensures keys[i] in Collect(keys, steps, done).value.items
    ensures steps[i] == Ok(Collect(keys, steps, done).value.items[keys[i]])
    decreases done
  {
    if i < done - 1 {
      CollectAt(keys, steps, done - 1, i);
      DistinctAt(keys, i, done - 1);
    }
  }

  /**
   * A failed loop fails with the exception of its first failing turn: that
   * turn failed, every earlier one succeeded.
   */
  lemma {:induction false} CollectFirstError<V>(keys: seq<string>, steps: seq<Result<V, Error>>, done: nat)
    requires done <= |keys| == |steps|
    ensures Collect(keys, steps, done).Err? ==>
              exists i :: && 0 <= i < done && steps[i].Err?
                          && Collect(keys, steps, done).error == steps[i].error
                          && forall j :: 0 <= j < i ==> steps[j].Ok?
    decreases done
  {
    if done > 0 {
      CollectFirstError(keys, steps, done - 1);
      if Collect(keys, steps, done - 1).Ok? && steps[done - 1].Err? {
        CollectPrefixOk(keys, steps, done - 1);
      }
    }
  }

  /** A loop that got through its first `done` turns succeeded at each of them. */
  lemma {:induction false} CollectPrefixOk<V>(keys: seq<string>, steps: seq<Result<V, Error>>, done: nat)
    requires done <= |keys| == |steps|
    requires Collect(keys, steps, done).Ok?
    ensures forall j :: 0 <= j < done ==> steps[j].Ok?
    decreases done
  {
    if done > 0 {
      CollectPrefixOk(keys, steps, done - 1);
    }
  }

  /** Once a turn has thrown, the loop's outcome no longer changes. */
  lemma {:induction false} CollectErrorStays<V>(keys: seq<string>, steps: seq<Result<V, Error>>, failed: nat, done: nat)
    requires failed <= done <= |keys| == |steps|
    requires Collect(keys, steps, failed).Err?
    ensures Collect(keys, steps, done) == Collect(keys, steps, failed)
    decreases done
  {
    if done > failed {
      CollectErrorStays(keys, steps, failed, done - 1);
    }
  }

  /** `$collection->has($key)`: only a string names an alias of the collection. */
  predicate Has<V>(collection: Array<V>, key: Value) {
    key.Str? && key.s in collection.items
  }

  /** `$entry[$key]` on a section entry: an entry that is not an array reads as null throughout. */
  function Field(entry: Value, key: string): Value {
    if entry.Arr? then Get(entry.a, key) else Null
  }

  /** A root section the publisher and consumer loops walk: one that is not an array is skipped by `foreach`. */
  function Section(config: Array<Value>, root: string): Array<Value> {
    if root in config.items && config.items[root].Arr? then config.items[root].a else Empty()
  }

  // ---------------------------------------------------------------- connections

  /** A connections section `createConnections` accepts: every entry is an array of details. */
  ghost predicate ConnectionsShaped(section: Array<Value>) {
    Wf(section) && forall alias :: alias in section.items ==> section.items[alias].Arr? && Wf(section.items[alias].a)
  }

  /** One turn of `createConnections`: the details the connection is built with, or the exception of `createConnection`. */
  function ConnectionStep(alias: string, details: Array<Value>): Result<Array<Value>, Error>
    requires Wf(details)
  {
    match Connection.EffectiveDetails(alias, details)
    case Ok(effective) => Ok(effective)
    case Err(message) => Err(InvalidArgument(message))
  }

  /** The turns of `createConnections` over the first `n` aliases. */
  ghost function ConnectionSteps(section: Array<Value>, n: nat): (steps: seq<Result<Array<Value>, Error>>)
    requires ConnectionsShaped(section) && n <= |section.keys|
    ensures |steps| == n
    decreases n
  {
    if n == 0 then []
    else
      var alias := section.keys[n - 1];
      ConnectionSteps(section, n - 1) + [ConnectionStep(alias, section.items[alias].a)]
  }

  /** Turn `i` of `createConnections` is `createConnection` on the `i`-th alias. */
  lemma {:induction false} ConnectionStepAt(section: Array<Value>, n: nat, i: nat)
    requires ConnectionsShaped(section) && i < n <= |section.keys|
    ensures ConnectionSteps(section, n)[i] == ConnectionStep(section.keys[i], section.items[section.keys[i]].a)
    decreases n
  {
    if i < n - 1 {
      ConnectionStepAt(section, n - 1, i);
    }
  }

  /** What `createConnections` returns: the details of each connection, keyed by its alias. */
  ghost function Connections(section: Array<Value>): Result<Array<Array<Value>>, Error>
    requires ConnectionsShaped(section)
  {
    Collect(section.keys, ConnectionSteps(section, |section.keys|), |section.keys|)
  }

  /** One turn of `createConnections`: `createConnection` for the next alias, then `put`. */
  method CreateNextConnection(section: Array<Value>, done: nat, connections: Array<Array<Value>>)
    returns (r: Result<Array<Array<Value>>, Error>)
    requires ConnectionsShaped(section) && done < |section.keys|
    requires Collect(section.keys, ConnectionSteps(section, |section.keys|), done) == Ok(connections)
    ensures r == Collect(section.keys, ConnectionSteps(section, |section.keys|), done + 1)
  {
    var alias := section.keys[done];
    var effective := Connection.EffectiveDetails(alias, section.items[alias].a);
    ConnectionStepAt(section, |section.keys|, done);
    if effective.Err? {
      return Err(InvalidArgument(effective.error));
    }
    return Ok(Set(connections, alias, effective.value));
  }

  /**
   * `createConnections`: one connection per alias, in order. The model keeps
   * the details each connection holds; building the connection object
   * itself is Connection.CreateConnection.
   */
  method CreateConnections(section: Array<Value>) returns (r: Result<Array<Array<Value>>, Error>)
    requires ConnectionsShaped(section)
    ensures r == Connections(section)
  {
    var connections := Empty();
    ghost var steps := ConnectionSteps(section, |section.keys|);
    for i := 0 to |section.keys|
      invariant Collect(section.keys, steps, i) == Ok(connections)
    {
      var next := CreateNextConnection(section, i, connections);
      if next.Err? {
        CollectErrorStays(section.keys, steps, i + 1, |section.keys|);
        return next;
      }
      connections := next.value;
    }
    return Ok(connections);
  }

  /** Every detail key of every connection is one of DEFAULTS. */
  ghost predicate DetailsKnown(section: Array<Value>)
    requires ConnectionsShaped(section)
  {
    forall alias, k :: alias in section.items && k in section.items[alias].a.items ==> k in Connection.DefaultKeys
  }

  /** The turn of an alias succeeds iff its details are all known. */
  lemma ConnectionStepOk(section: Array<Value>, i: nat)
    requires ConnectionsShaped(section) && i < |section.keys|
    ensures ConnectionSteps(section, |section.keys|)[i].Ok? <==>
              forall k :: k in section.items[section.keys[i]].a.items ==> k in Connection.DefaultKeys
  {
    ConnectionStepAt(section, |section.keys|, i);
    Connection.DetailsValidated(section.keys[i], section.items[section.keys[i]].a);
  }

  /** The connections are built iff no connection has an unknown detail key. */
  lemma ConnectionsOkIff(section: Array<Value>)
    requires ConnectionsShaped(section)
    ensures Connections(section).Ok? <==> DetailsKnown(section)
  {
    var steps := ConnectionSteps(section, |section.keys|);
    if DetailsKnown(section) {
      forall j | 0 <= j < |section.keys|
        ensures steps[j].Ok?
      {
        ConnectionStepOk(section, j);
      }
      CollectAllOk(section.keys, steps, |section.keys|);
    } else {
      var alias, k :| alias in section.items && k in section.items[alias].a.items && k !in Connection.DefaultKeys;
      var i := KeyIndex(section, alias);
      ConnectionStepOk(section, i);
      CollectFailsAt(section.keys, steps, |section.keys|, i);
    }
  }

  /** Built connections come one per alias, in the section's order. */
  lemma ConnectionsInOrder(section: Array<Value>)
    requires ConnectionsShaped(section) && Connections(section).Ok?
    ensures Wf(Connections(section).value) && Connections(section).value.keys == section.keys
  {
    CollectKeys(section.keys, ConnectionSteps(section, |section.keys|), |section.keys|);
    assert section.keys[..|section.keys|] == section.keys;
  }

  /** A built connection holds DEFAULTS overridden by the details of its entry. */
  lemma ConnectionDetails(section: Array<Value>, alias: string)
    requires ConnectionsShaped(section) && Connections(section).Ok? && alias in section.items
    ensures alias in Connections(section).value.items
    ensures Connections(section).value.items[alias].items == Connection.Defaults.items + section.items[alias].a.items
  {
    var i := KeyIndex(section, alias);
    CollectAt(section.keys, ConnectionSteps(section, |section.keys|), |section.keys|, i);
    ConnectionStepAt(section, |section.keys|, i);
  }

  // ---------------------------------------------------------------- exchanges and queues

  /** An exchange or queue entry the loops accept: an array whose `attributes` is an array (`array_merge` takes arrays). */
  predicate EntityEntryShaped(entry: Value) {
    entry.Arr? && IsSet(entry.a, "attributes") && entry.a.items["attributes"].Arr?
  }

  ghost predicate EntitySectionShaped(section: Array<Value>) {
    Wf(section) && forall alias :: alias in section.items ==> EntityEntryShaped(section.items[alias])
  }

  /**
   * What the exchange or queue factory is given: the connection (by the
   * alias it was built under; none when the entry names no connection), the
   * alias and the attributes.
   */
  datatype Blueprint = Blueprint(kind: Entities.Kind, alias: string, connection: Option<string>, attributes: Array<Value>)

  /**
   * `array_merge($details['attributes'], ['name' => $details['name']])`:
   * merging a one-entry array with a string key writes that one entry.
   */
  function EntityAttributes(entry: Array<Value>): Array<Value>
    requires IsSet(entry, "attributes") && entry.items["attributes"].Arr?
  {
    Set(entry.items["attributes"].a, "name", Get(entry, "name"))
  }

  /**
   * The entry's top-level `name` (null when missing) overrides any attribute
   * `name`, which keeps its place, and is appended otherwise; every other
   * attribute is kept as it is: this is `array_merge` of the attributes with
   * the one-entry array of the name.
   */
  lemma EntityAttributesName(entry: Array<Value>)
    requires IsSet(entry, "attributes") && entry.items["attributes"].Arr? && Wf(entry.items["attributes"].a)
    ensures var attributes := entry.items["attributes"].a;
            var r := EntityAttributes(entry);
            && Wf(r)
            && r == Merge(attributes, Array(["name"], map["name" := Get(entry, "name")]))
            && "name" in r.items && r.items["name"] == Get(entry, "name")
            && (forall k :: k != "name" ==> (k in r.items <==> k in attributes.items))
            && (forall k :: k != "name" && k in attributes.items ==> r.items[k] == attributes.items[k])
            && r.keys == if "name" in attributes.items then attributes.keys else attributes.keys + ["name"]
  {
    var attributes := entry.items["attributes"].a;
    var name := Array(["name"], map["name" := Get(entry, "name")]);
    assert Wf(name);
    assert name.keys[1..] == [];
    assert Merge(attributes, name) == MergeEntries(attributes, name.keys, name.items);
  }

  /** Whether the `connection` an entry names, if it names one (`array_key_exists`), is among the connections. */
  predicate ConnectionKnown<V>(entry: Array<Value>, connections: Array<V>) {
    "connection" in entry.items ==> Has(connections, entry.items["connection"])
  }

  /**
   * The message of the RuntimeException for an unknown connection. Both
   * loops use this text, so a queue is reported as an exchange.
   */
  function UnknownConnectionMessage(alias: string, connection: Value): string {
    "Could not create exchange " + alias + ": connection name " + ToString(connection) + " is not defined!"
  }

  /** One turn of `createExchanges` or `createQueues`. */
  function EntityStep(kind: Entities.Kind, connections: Array<Array<Value>>, alias: string, entry: Array<Value>): Result<Blueprint, Error>
    requires IsSet(entry, "attributes") && entry.items["attributes"].Arr?
  {
    if !ConnectionKnown(entry, connections) then
      Err(Runtime(UnknownConnectionMessage(alias, entry.items["connection"])))
    else
      var connection := Get(entry, "connection");
      Ok(Blueprint(kind, alias, if Has(connections, connection) then Some(connection.s) else None, EntityAttributes(entry)))
  }

  /** The turns of `createExchanges` or `createQueues` over the first `n` aliases. */
  ghost function EntitySteps(kind: Entities.Kind, connections: Array<Array<Value>>, section: Array<Value>, n: nat)
    : (steps: seq<Result<Blueprint, Error>>)
    requires EntitySectionShaped(section) && n <= |section.keys|
    ensures |steps| == n
    decreases n
  {
    if n == 0 then []
    else
      var alias := section.keys[n - 1];
      EntitySteps(kind, connections, section, n - 1) + [EntityStep(kind, connections, alias, section.items[alias].a)]
  }

  /** Turn `i` of the loop is made from the entry under the `i`-th alias. */
  lemma {:induction false} EntityStepAt(kind: Entities.Kind, connections: Array<Array<Value>>, section: Array<Value>, n: nat, i: nat)
    requires EntitySectionShaped(section) && i < n <= |section.keys|
    ensures EntitySteps(kind, connections, section, n)[i] == EntityStep(kind, connections, section.keys[i], section.items[section.keys[i]].a)
    decreases n
  {
    if i < n - 1 {
      EntityStepAt(kind, connections, section, n - 1, i);
    }
  }

  /** What `createExchanges` (kind Exchange) or `createQueues` (kind Queue) returns. */
  ghost function BuiltEntities(kind: Entities.Kind, connections: Array<Array<Value>>, section: Array<Value>): Result<Array<Blueprint>, Error>
    requires EntitySectionShaped(section)
  {
    Collect(section.keys, EntitySteps(kind, connections, section, |section.keys|), |section.keys|)
  }

  /**
   * One turn of `createExchanges` or `createQueues`: check the connection,
   * then call the factory and `put` what it makes.
   */
  method CreateNextEntity(kind: Entities.Kind, section: Array<Value>, connections: Array<Array<Value>>, done: nat, entities: Array<Blueprint>)
    returns (r: Result<Array<Blueprint>, Error>)
    requires EntitySectionShaped(section) && done < |section.keys|
    requires Collect(section.keys, EntitySteps(kind, connections, section, |section.keys|), done) == Ok(entities)
    ensures r == Collect(section.keys, EntitySteps(kind, connections, section, |section.keys|), done + 1)
    ensures r.Err? ==> r == BuiltEntities(kind, connections, section)
  {
    var alias := section.keys[done];
    var details := section.items[alias].a;
    EntityStepAt(kind, connections, section, |section.keys|, done);
    if "connection" in details.items && !Has(connections, details.items["connection"]) {
      r := Err(Runtime(UnknownConnectionMessage(alias, details.items["connection"])));
      CollectErrorStays(section.keys, EntitySteps(kind, connections, section, |section.keys|), done + 1, |section.keys|);
      return;
    }
    var connection := Get(details, "connection");
    var attributes := EntityAttributes(details);
    return Ok(Set(entities, alias, Blueprint(kind, alias, if Has(connections, connection) then Some(connection.s) else None, attributes)));
  }

  /** The loop shared by `createExchanges` and `createQueues`. */
  method CreateEntities(kind: Entities.Kind, section: Array<Value>, connections: Array<Array<Value>>)
    returns (r: Result<Array<Blueprint>, Error>)
    requires EntitySectionShaped(section)
    ensures r == BuiltEntities(kind, connections, section)
  {
    var entities := Empty();
    ghost var steps := EntitySteps(kind, connections, section, |section.keys|);
    for i := 0 to |section.keys|
      invariant Collect(section.keys, steps, i) == Ok(entities)
    {
      var next := CreateNextEntity(kind, section, connections, i, entities);
      if next.Err? {
        return next;
      }
      entities := next.value;
    }
    return Ok(entities);
  }

  /** `createExchanges`. */
  method CreateExchanges(section: Array<Value>, connections: Array<Array<Value>>) returns (r: Result<Array<Blueprint>, Error>)
    requires EntitySectionShaped(section)
    ensures r == BuiltEntities(Entities.Exchange, connections, section)
  {
    r := CreateEntities(Entities.Exchange, section, connections);
  }

  /** `createQueues`. */
  method CreateQueues(section: Array<Value>, connections: Array<Array<Value>>) returns (r: Result<Array<Blueprint>, Error>)
    requires EntitySectionShaped(section)
    ensures r == BuiltEntities(Entities.Queue, connections, section)
  {
    r := CreateEntities(Entities.Queue, section, connections);
  }

  /** Every entry that names a connection names a built one. */
  ghost predicate ConnectionsKnown<V>(section: Array<Value>, connections: Array<V>)
    requires EntitySectionShaped(section)
  {
    forall alias :: alias in section.items ==> ConnectionKnown(section.items[alias].a, connections)
  }

  /** The entities are built iff every entry that names a connection names a built one. */
  lemma EntitiesOkIff(kind: Entities.Kind, connections: Array<Array<Value>>, section: Array<Value>)
    requires EntitySectionShaped(section)
    ensures BuiltEntities(kind, connections, section).Ok? <==> ConnectionsKnown(section, connections)
  {
    var steps := EntitySteps(kind, connections, section, |section.keys|);
    if ConnectionsKnown(section, connections) {
      forall j | 0 <= j < |section.keys|
        ensures steps[j].Ok?
      {
        EntityStepAt(kind, connections, section, |section.keys|, j);
        assert section.keys[j] in section.items;
      }
      CollectAllOk(section.keys, steps, |section.keys|);
    } else {
      var alias :| alias in section.items && !ConnectionKnown(section.items[alias].a, connections);
      var i := KeyIndex(section, alias);
      EntityStepAt(kind, connections, section, |section.keys|, i);
      CollectFailsAt(section.keys, steps, |section.keys|, i);
    }
  }

  /** Built entities come one per alias, in the section's order. */
  lemma EntitiesInOrder(kind: Entities.Kind, connections: Array<Array<Value>>, section: Array<Value>)
    requires EntitySectionShaped(section) && BuiltEntities(kind, connections, section).Ok?
    ensures var built := BuiltEntities(kind, connections, section).value;
            Wf(built) && built.keys == section.keys
  {
    CollectKeys(section.keys, EntitySteps(kind, connections, section, |section.keys|), |section.keys|);
    assert section.keys[..|section.keys|] == section.keys;
  }

  /**
   * A built entity is of the loop's kind, under its alias, on the connection
   * its entry names (none when it names none) and with the entry's
   * attributes and top-level name.
   */
  lemma EntityBuilt(kind: Entities.Kind, connections: Array<Array<Value>>, section: Array<Value>, alias: string)
    requires EntitySectionShaped(section) && BuiltEntities(kind, connections, section).Ok? && alias in section.items
    ensures alias in BuiltEntities(kind, connections, section).value.items
    ensures var entity := BuiltEntities(kind, connections, section).value.items[alias];
            var entry := section.items[alias].a;
            && entity.kind == kind && entity.alias == alias
            && ("connection" in entry.items ==> Has(connections, entry.items["connection"]) && entity.connection == Some(entry.items["connection"].s))
            && ("connection" !in entry.items ==> entity.connection == None)
            && entity.attributes == EntityAttributes(entry)
  {
    var i := KeyIndex(section, alias);
    CollectAt(section.keys, EntitySteps(kind, connections, section, |section.keys|), |section.keys|, i);
    EntityStepAt(kind, connections, section, |section.keys|, i);
  }

  // ---------------------------------------------------------------- publishers and consumers

  /** What the container registers: the exchange or queue built under an alias. */
  datatype EntityRef = EntityRef(kind: Entities.Kind, alias: string)

  /** The message of the RuntimeException for a publisher bound to nothing. */
  function UnknownPublisherTargetMessage(alias: string, target: Value): string {
    "Cannot create publisher " + alias + ": no exchange or queue named " + ToString(target) + " defined!"
  }

  /** The message of the RuntimeException for a consumer whose queue does not exist. */
  function UnknownConsumerQueueMessage(alias: string, queue: Value): string {
    "Cannot create consumer " + alias + ": no queue named " + ToString(queue) + " defined!"
  }

  /** One turn of the publishers loop: the exchange of that alias if there is one, else the queue. */
  function PublisherStep(exchanges: Array<Blueprint>, queues: Array<Blueprint>, alias: string, target: Value): Result<EntityRef, Error> {
    if Has(exchanges, target) then Ok(EntityRef(Entities.Exchange, target.s))
    else if Has(queues, target) then Ok(EntityRef(Entities.Queue, target.s))
    else Err(Runtime(UnknownPublisherTargetMessage(alias, target)))
  }

  /** The turns of the publishers loop over the first `n` aliases. */
  ghost function PublisherSteps(exchanges: Array<Blueprint>, queues: Array<Blueprint>, section: Array<Value>, n: nat)
    : (steps: seq<Result<EntityRef, Error>>)
    requires Wf(section) && n <= |section.keys|
    ensures |steps| == n
    decreases n
  {
    if n == 0 then []
    else
      var alias := section.keys[n - 1];
      PublisherSteps(exchanges, queues, section, n - 1) + [PublisherStep(exchanges, queues, alias, section.items[alias])]
  }

  lemma {:induction false} PublisherStepAt(exchanges: Array<Blueprint>, queues: Array<Blueprint>, section: Array<Value>, n: nat, i: nat)
    requires Wf(section) && i < n <= |section.keys|
    ensures PublisherSteps(exchanges, queues, section, n)[i] == PublisherStep(exchanges, queues, section.keys[i], section.items[section.keys[i]])
    decreases n
  {
    if i < n - 1 {
      PublisherStepAt(exchanges, queues, section, n - 1, i);
    }
  }

  /** What the publishers loop registers. */
  ghost function Publishers(exchanges: Array<Blueprint>, queues: Array<Blueprint>, section: Array<Value>): Result<Array<EntityRef>, Error>
    requires Wf(section)
  {
    Collect(section.keys, PublisherSteps(exchanges, queues, section, |section.keys|), |section.keys|)
  }

  /** `$consumerDetails['queue']` resolved against the queues. */
  function ConsumerStep(queues: Array<Blueprint>, alias: string, details: Value): Result<EntityRef, Error> {
    var queue := Field(details, "queue");
    if Has(queues, queue) then Ok(EntityRef(Entities.Queue, queue.s))
    else Err(Runtime(UnknownConsumerQueueMessage(alias, queue)))
  }

  /** The turns of the consumers loop over the first `n` aliases. */
  ghost function ConsumerSteps(queues: Array<Blueprint>, section: Array<Value>, n: nat): (steps: seq<Result<EntityRef, Error>>)
    requires Wf(section) && n <= |section.keys|
    ensures |steps| == n
    decreases n
  {
    if n == 0 then []
    else
      var alias := section.keys[n - 1];
      ConsumerSteps(queues, section, n - 1) + [ConsumerStep(queues, alias, section.items[alias])]
  }

  lemma {:induction false} ConsumerStepAt(queues: Array<Blueprint>, section: Array<Value>, n: nat, i: nat)
    requires Wf(section) && i < n <= |section.keys|
    ensures ConsumerSteps(queues, section, n)[i] == ConsumerStep(queues, section.keys[i], section.items[section.keys[i]])
    decreases n
  {
    if i < n - 1 {
      ConsumerStepAt(queues, section, n - 1, i);
    }
  }

  /** What the consumers loop registers. */
  ghost function Consumers(queues: Array<Blueprint>, section: Array<Value>): Result<Array<EntityRef>, Error>
    requires Wf(section)
  {
    Collect(section.keys, ConsumerSteps(queues, section, |section.keys|), |section.keys|)
  }

  /** What a consumer sets on its queue entity: `setPrefetchCount` and `setMessageProcessor`. */
  datatype QueueSettings = QueueSettings(prefetchCount: Value, messageProcessor: Value)

  function ConsumerSettings(details: Value): QueueSettings {
    QueueSettings(Field(details, "prefetch_count"), Field(details, "message_processor"))
  }

  /**
   * The settings of each queue after the first `n` consumers: every
   * consumer overwrites the settings of the (shared) queue entity it names.
   */
  ghost function SettingsUpTo(queues: Array<Blueprint>, section: Array<Value>, n: nat): map<string, QueueSettings>
    requires Wf(section) && n <= |section.keys|
    decreases n
  {
    if n == 0 then map[]
    else
      var details := section.items[section.keys[n - 1]];
      var queue := Field(details, "queue");
      var before := SettingsUpTo(queues, section, n - 1);
      if Has(queues, queue) then before[queue.s := ConsumerSettings(details)] else before
  }

  /** One turn of the publishers loop: resolve the alias it is bound to, then `addPublisher`. */
  method RegisterNextPublisher(container: Container<EntityRef>, section: Array<Value>, exchanges: Array<Blueprint>, queues: Array<Blueprint>, done: nat)
    returns (failure: Option<Error>)
    requires container.Valid() && Wf(section) && done < |section.keys|
    requires Collect(section.keys, PublisherSteps(exchanges, queues, section, |section.keys|), done) == Ok(container.publishers)
    modifies container
    ensures container.Valid() && container.consumers == old(container.consumers)
    ensures failure.None? ==> Collect(section.keys, PublisherSteps(exchanges, queues, section, |section.keys|), done + 1) == Ok(container.publishers)
    ensures failure.Some? ==> Collect(section.keys, PublisherSteps(exchanges, queues, section, |section.keys|), done + 1) == Err(failure.value)
  {
    var alias := section.keys[done];
    var target := section.items[alias];
    PublisherStepAt(exchanges, queues, section, |section.keys|, done);
    var entity;
    if Has(exchanges, target) {
      entity := EntityRef(Entities.Exchange, target.s);
    } else if Has(queues, target) {
      entity := EntityRef(Entities.Queue, target.s);
    } else {
      return Some(Runtime(UnknownPublisherTargetMessage(alias, target)));
    }
    container.AddPublisher(alias, entity);
    return None;
  }

  /** The publishers loop, registering into `container` as it goes. */
  method RegisterPublishers(container: Container<EntityRef>, section: Array<Value>, exchanges: Array<Blueprint>, queues: Array<Blueprint>)
    returns (failure: Option<Error>)
    requires container.Valid() && container.publishers == Empty() && Wf(section)
    modifies container
    ensures container.Valid() && container.consumers == old(container.consumers)
    ensures failure.None? <==> Publishers(exchanges, queues, section).Ok?
    ensures failure.Some? ==> Publishers(exchanges, queues, section) == Err(failure.value)
    ensures failure.None? ==> container.publishers == Publishers(exchanges, queues, section).value
  {
    ghost var steps := PublisherSteps(exchanges, queues, section, |section.keys|);
    for i := 0 to |section.keys|
      invariant container.Valid() && container.consumers == old(container.consumers)
      invariant Collect(section.keys, steps, i) == Ok(container.publishers)
    {
      failure := RegisterNextPublisher(container, section, exchanges, queues, i);
      if failure.Some? {
        CollectErrorStays(section.keys, steps, i + 1, |section.keys|);
        return;
      }
    }
    return None;
  }

  /** One turn of the consumers loop: resolve its queue, set prefetch count and processor on it, then `addConsumer`. */
  method RegisterNextConsumer(container: Container<EntityRef>, section: Array<Value>, queues: Array<Blueprint>, done: nat,
                              settings: map<string, QueueSettings>)
    returns (failure: Option<Error>, settings': map<string, QueueSettings>)
    requires container.Valid() && Wf(section) && done < |section.keys|
    requires Collect(section.keys, ConsumerSteps(queues, section, |section.keys|), done) == Ok(container.consumers)
    requires settings == SettingsUpTo(queues, section, done)
    modifies container
    ensures container.Valid() && container.publishers == old(container.publishers)
    ensures failure.None? ==> Collect(section.keys, ConsumerSteps(queues, section, |section.keys|), done + 1) == Ok(container.consumers)
    ensures failure.None? ==> settings' == SettingsUpTo(queues, section, done + 1)
    ensures failure.Some? ==> Collect(section.keys, ConsumerSteps(queues, section, |section.keys|), done + 1) == Err(failure.value)
  {
    var alias := section.keys[done];
    var details := section.items[alias];
    var queue := Field(details, "queue");
    ConsumerStepAt(queues, section, |section.keys|, done);
    if !Has(queues, queue) {
      return Some(Runtime(UnknownConsumerQueueMessage(alias, queue))), settings;
    }
    settings' := settings[queue.s := ConsumerSettings(details)];
    container.AddConsumer(alias, EntityRef(Entities.Queue, queue.s));
    failure := None;
  }

  /**
   * The consumers loop, registering into `container` as it goes and setting
   * prefetch count and message processor on the queue of each consumer.
   */
  method RegisterConsumers(container: Container<EntityRef>, section: Array<Value>, queues: Array<Blueprint>)
    returns (failure: Option<Error>, settings: map<string, QueueSettings>)
    requires container.Valid() && container.consumers == Empty() && Wf(section)
    modifies container
    ensures container.Valid() && container.publishers == old(container.publishers)
    ensures failure.None? <==> Consumers(queues, section).Ok?
    ensures failure.Some? ==> Consumers(queues, section) == Err(failure.value)
    ensures failure.None? ==> container.consumers == Consumers(queues, section).value
    ensures failure.None? ==> settings == SettingsUpTo(queues, section, |section.keys|)
  {
    settings := map[];
    ghost var steps := ConsumerSteps(queues, section, |section.keys|);
    for i := 0 to |section.keys|
      invariant container.Valid() && container.publishers == old(container.publishers)
      invariant Collect(section.keys, steps, i) == Ok(container.consumers)
      invariant settings == SettingsUpTo(queues, section, i)
    {
      failure, settings := RegisterNextConsumer(container, section, queues, i, settings);
      if failure.Some? {
        CollectErrorStays(section.keys, steps, i + 1, |section.keys|);
        return;
      }
    }
    failure := None;
  }

  /** The publishers are registered iff every publisher is bound to an exchange or a queue alias. */
  lemma PublishersOkIff(exchanges: Array<Blueprint>, queues: Array<Blueprint>, section: Array<Value>)
    requires Wf(section)
    ensures Publishers(exchanges, queues, section).Ok? <==>
              forall alias :: alias in section.items ==> Has(exchanges, section.items[alias]) || Has(queues, section.items[alias])
  {
    var steps := PublisherSteps(exchanges, queues, section, |section.keys|);
    if forall alias :: alias in section.items ==> Has(exchanges, section.items[alias]) || Has(queues, section.items[alias]) {
      forall j | 0 <= j < |section.keys|
        ensures steps[j].Ok?
      {
        PublisherStepAt(exchanges, queues, section, |section.keys|, j);
        assert section.keys[j] in section.items;
      }
      CollectAllOk(section.keys, steps, |section.keys|);
    } else {
      var alias :| alias in section.items && !(Has(exchanges, section.items[alias]) || Has(queues, section.items[alias]));
      var i := KeyIndex(section, alias);
      PublisherStepAt(exchanges, queues, section, |section.keys|, i);
      CollectFailsAt(section.keys, steps, |section.keys|, i);
    }
  }

  /**
   * Registered publishers come one per alias, in the section's order, each
   * the exchange of the alias it is bound to when there is one, else the
   * queue of that alias.
   */
  lemma PublisherBound(exchanges: Array<Blueprint>, queues: Array<Blueprint>, section: Array<Value>, alias: string)
    requires Wf(section) && Publishers(exchanges, queues, section).Ok? && alias in section.items
    ensures var registered := Publishers(exchanges, queues, section).value;
            var target := section.items[alias];
            && Wf(registered) && registered.keys == section.keys
            && alias in registered.items
            && (Has(exchanges, target) ==> registered.items[alias] == EntityRef(Entities.Exchange, target.s))
            && (!Has(exchanges, target) ==> Has(queues, target) && registered.items[alias] == EntityRef(Entities.Queue, target.s))
  {
    var steps := PublisherSteps(exchanges, queues, section, |section.keys|);
    CollectKeys(section.keys, steps, |section.keys|);
    assert section.keys[..|section.keys|] == section.keys;
    var i := KeyIndex(section, alias);
    CollectAt(section.keys, steps, |section.keys|, i);
    PublisherStepAt(exchanges, queues, section, |section.keys|, i);
  }

  /** The consumers are registered iff every consumer names a queue alias. */
  lemma ConsumersOkIff(queues: Array<Blueprint>, section: Array<Value>)
    requires Wf(section)
    ensures Consumers(queues, section).Ok? <==> forall alias :: alias in section.items ==> Has(queues, Field(section.items[alias], "queue"))
  {
    var steps := ConsumerSteps(queues, section, |section.keys|);
    if forall alias :: alias in section.items ==> Has(queues, Field(section.items[alias], "queue")) {
      forall j | 0 <= j < |section.keys|
        ensures steps[j].Ok?
      {
        ConsumerStepAt(queues, section, |section.keys|, j);
        assert section.keys[j] in section.items;
      }
      CollectAllOk(section.keys, steps, |section.keys|);
    } else {
      var alias :| alias in section.items && !Has(queues, Field(section.items[alias], "queue"));
      var i := KeyIndex(section, alias);
      ConsumerStepAt(queues, section, |section.keys|, i);
      CollectFailsAt(section.keys, steps, |section.keys|, i);
    }
  }

  /** Registered consumers come one per alias, in the section's order, each the queue its entry names. */
  lemma ConsumerBound(queues: Array<Blueprint>, section: Array<Value>, alias: string)
    requires Wf(section) && Consumers(queues, section).Ok? && alias in section.items
    ensures var registered := Consumers(queues, section).value;
            var queue := Field(section.items[alias], "queue");
            && Wf(registered) && registered.keys == section.keys
            && alias in registered.items && Has(queues, queue)
            && registered.items[alias] == EntityRef(Entities.Queue, queue.s)
  {
    var steps := ConsumerSteps(queues, section, |section.keys|);
    CollectKeys(section.keys, steps, |section.keys|);
    assert section.keys[..|section.keys|] == section.keys;
    var i := KeyIndex(section, alias);
    CollectAt(section.keys, steps, |section.keys|, i);
    ConsumerStepAt(queues, section, |section.keys|, i);
  }

  /**
   * Consumers share the queue entity they name, so a queue ends with the
   * prefetch count and message processor of the last consumer naming it.
   */
  lemma {:induction false} SettingsLastWins(queues: Array<Blueprint>, section: Array<Value>, n: nat, i: nat)
    requires Wf(section) && i < n <= |section.keys|
    requires Has(queues, Field(section.items[section.keys[i]], "queue"))
    requires forall j :: i < j < n ==> Field(section.items[section.keys[j]], "queue") != Field(section.items[section.keys[i]], "queue")
    ensures var queue := Field(section.items[section.keys[i]], "queue");
            && queue.s in SettingsUpTo(queues, section, n)
            && SettingsUpTo(queues, section, n)[queue.s] == ConsumerSettings(section.items[section.keys[i]])
    decreases n
  {
    if i < n - 1 {
      SettingsLastWins(queues, section, n - 1, i);
    }
  }

  /** Only queues that some consumer names get settings. */
  lemma {:induction false} SettingsOnlyNamed(queues: Array<Blueprint>, section: Array<Value>, n: nat, name: string)
    requires Wf(section) && n <= |section.keys|
    requires name in SettingsUpTo(queues, section, n)
    ensures name in queues.items
    ensures exists i :: 0 <= i < n && Field(section.items[section.keys[i]], "queue") == Str(name)
    decreases n
  {
    var queue := Field(section.items[section.keys[n - 1]], "queue");
    if !(Has(queues, queue) && queue.s == name) {
      SettingsOnlyNamed(queues, section, n - 1, name);
    }
  }

  // ---------------------------------------------------------------- the container

  /**
   * A configuration `createContainer` accepts: `connections`, `exchanges`
   * and `queues` are arrays of the shape their loops take (the private
   * methods declare `array` parameters); `publishers` and `consumers` may be
   * missing or not arrays, in which case `foreach` skips them.
   */
  ghost predicate Buildable(config: Array<Value>) {
    && "connections" in config.items && config.items["connections"].Arr? && ConnectionsShaped(config.items["connections"].a)
    && "exchanges" in config.items && config.items["exchanges"].Arr? && EntitySectionShaped(config.items["exchanges"].a)
    && "queues" in config.items && config.items["queues"].Arr? && EntitySectionShaped(config.items["queues"].a)
    && Wf(Section(config, "publishers")) && Wf(Section(config, "consumers"))
  }

  /** The objects `createContainer` builds besides the container: connections, exchanges, queues and the queues' consumer settings. */
  datatype Built = Built(connections: Array<Array<Value>>, exchanges: Array<Blueprint>, queues: Array<Blueprint>,
                         settings: map<string, QueueSettings>)

  /** The outcome of `createContainer`: what it builds and registers, or the first exception. */
  datatype Plan = Plan(built: Built, publishers: Array<EntityRef>, consumers: Array<EntityRef>)

  ghost function PlanFor(config: Array<Value>): Result<Plan, Error>
    requires Buildable(config)
  {
    match Connections(config.items["connections"].a)
    case Err(e) => Err(e)
    case Ok(connections) =>
      match BuiltEntities(Entities.Exchange, connections, config.items["exchanges"].a)
      case Err(e) => Err(e)
      case Ok(exchanges) =>
        match BuiltEntities(Entities.Queue, connections, config.items["queues"].a)
        case Err(e) => Err(e)
        case Ok(queues) =>
          match Publishers(exchanges, queues, Section(config, "publishers"))
          case Err(e) => Err(e)
          case Ok(publishers) =>
            match Consumers(queues, Section(config, "consumers"))
            case Err(e) => Err(e)
            case Ok(consumers) =>
              var settings := SettingsUpTo(queues, Section(config, "consumers"), |Section(config, "consumers").keys|);
              Ok(Plan(Built(connections, exchanges, queues, settings), publishers, consumers))
  }

  /**
   * `createContainer`: connections, exchanges and queues first, then a new
   * container receives the publishers and then the consumers. On the first
   * exception no container is returned.
   */
  method CreateContainer(config: Array<Value>) returns (r: Result<Container<EntityRef>, Error>, built: Built)
    requires Buildable(config)
    ensures r.Ok? <==> PlanFor(config).Ok?
    ensures r.Err? ==> PlanFor(config) == Err(r.error)
    ensures r.Ok? ==> && fresh(r.value) && r.value.Valid()
                      && r.value.publishers == PlanFor(config).value.publishers
                      && r.value.consumers == PlanFor(config).value.consumers
                      && built == PlanFor(config).value.built
  {
    built := Built(Empty(), Empty(), Empty(), map[]);
    var connections := CreateConnections(config.items["connections"].a);
    if connections.Err? {
      return Err(connections.error), built;
    }
    var exchanges := CreateExchanges(config.items["exchanges"].a, connections.value);
    if exchanges.Err? {
      return Err(exchanges.error), built;
    }
    var queues := CreateQueues(config.items["queues"].a, connections.value);
    if queues.Err? {
      return Err(queues.error), built;
    }
    var container := new Container<EntityRef>();
    var failure := RegisterPublishers(container, Section(config, "publishers"), exchanges.value, queues.value);
    if failure.Some? {
      return Err(failure.value), built;
    }
    var settings;
    failure, settings := RegisterConsumers(container, Section(config, "consumers"), queues.value);
    if failure.Some? {
      return Err(failure.value), built;
    }
    built := Built(connections.value, exchanges.value, queues.value, settings);
    return Ok(container), built;
  }

  /**
   * Every reference in the configuration resolves: connection details are
   * known, every exchange and queue names a connection alias (or none),
   * every publisher an exchange or queue alias and every consumer a queue
   * alias.
   */
  ghost predicate Resolvable(config: Array<Value>)
    requires Buildable(config)
  {
    var connections := config.items["connections"].a;
    var exchanges := config.items["exchanges"].a;
    var queues := config.items["queues"].a;
    var publishers := Section(config, "publishers");
    var consumers := Section(config, "consumers");
    && DetailsKnown(connections)
    && ConnectionsKnown(exchanges, connections)
    && ConnectionsKnown(queues, connections)
    && (forall alias :: alias in publishers.items ==> Has(exchanges, publishers.items[alias]) || Has(queues, publishers.items[alias]))
    && (forall alias :: alias in consumers.items ==> Has(queues, Field(consumers.items[alias], "queue")))
  }

  /** The built exchanges and queues are keyed like their sections. */
  lemma EntitiesKeyed(connections: Array<Array<Value>>, config: Array<Value>)
    requires Buildable(config)
    requires BuiltEntities(Entities.Exchange, connections, config.items["exchanges"].a).Ok?
    requires BuiltEntities(Entities.Queue, connections, config.items["queues"].a).Ok?
    ensures forall v :: Has(BuiltEntities(Entities.Exchange, connections, config.items["exchanges"].a).value, v) <==> Has(config.items["exchanges"].a, v)
    ensures forall v :: Has(BuiltEntities(Entities.Queue, connections, config.items["queues"].a).value, v) <==> Has(config.items["queues"].a, v)
  {
    EntitiesInOrder(Entities.Exchange, connections, config.items["exchanges"].a);
    EntitiesInOrder(Entities.Queue, connections, config.items["queues"].a);
    SameKeys(BuiltEntities(Entities.Exchange, connections, config.items["exchanges"].a).value, config.items["exchanges"].a);
    SameKeys(BuiltEntities(Entities.Queue, connections, config.items["queues"].a).value, config.items["queues"].a);
  }

  /** Exchanges and queues are built iff every one names a connection alias or none. */
  lemma EntitiesPhaseOk(config: Array<Value>)
    requires Buildable(config) && Connections(config.items["connections"].a).Ok?
    ensures var connections := Connections(config.items["connections"].a).value;
            && (BuiltEntities(Entities.Exchange, connections, config.items["exchanges"].a).Ok? <==>
                  ConnectionsKnown(config.items["exchanges"].a, config.items["connections"].a))
            && (BuiltEntities(Entities.Queue, connections, config.items["queues"].a).Ok? <==>
                  ConnectionsKnown(config.items["queues"].a, config.items["connections"].a))
  {
    var connections := Connections(config.items["connections"].a).value;
    ConnectionsInOrder(config.items["connections"].a);
    SameKeys(connections, config.items["connections"].a);
    EntitiesOkIff(Entities.Exchange, connections, config.items["exchanges"].a);
    EntitiesOkIff(Entities.Queue, connections, config.items["queues"].a);
  }

  /** `createContainer` returns a container iff every reference in the configuration resolves. */
  lemma PlanOkIff(config: Array<Value>)
    requires Buildable(config)
    ensures PlanFor(config).Ok? <==> Resolvable(config)
  {
    ConnectionsOkIff(config.items["connections"].a);
    var connections := Connections(config.items["connections"].a);
    if connections.Ok? {
      EntitiesPhaseOk(config);
      var exchanges := BuiltEntities(Entities.Exchange, connections.value, config.items["exchanges"].a);
      var queues := BuiltEntities(Entities.Queue, connections.value, config.items["queues"].a);
      if exchanges.Ok? && queues.Ok? {
        EntitiesKeyed(connections.value, config);
        PublishersOkIff(exchanges.value, queues.value, Section(config, "publishers"));
        ConsumersOkIff(queues.value, Section(config, "consumers"));
      }
    }
  }

  /** A built container comes out of every phase succeeding, each on the results of the earlier ones. */
  lemma PlanPhases(config: Array<Value>)
    requires Buildable(config) && PlanFor(config).Ok?
    ensures var plan := PlanFor(config).value;
            && Connections(config.items["connections"].a) == Ok(plan.built.connections)
            && BuiltEntities(Entities.Exchange, plan.built.connections, config.items["exchanges"].a) == Ok(plan.built.exchanges)
            && BuiltEntities(Entities.Queue, plan.built.connections, config.items["queues"].a) == Ok(plan.built.queues)
            && Publishers(plan.built.exchanges, plan.built.queues, Section(config, "publishers")) == Ok(plan.publishers)
            && Consumers(plan.built.queues, Section(config, "consumers")) == Ok(plan.consumers)
            && plan.built.settings == SettingsUpTo(plan.built.queues, Section(config, "consumers"), |Section(config, "consumers").keys|)
  {
    var connections := Connections(config.items["connections"].a);
    assert connections.Ok?;
    var exchanges := BuiltEntities(Entities.Exchange, connections.value, config.items["exchanges"].a);
    assert exchanges.Ok?;
    var queues := BuiltEntities(Entities.Queue, connections.value, config.items["queues"].a);
    assert queues.Ok?;
    assert Publishers(exchanges.value, queues.value, Section(config, "publishers")).Ok?;
  }

  /**
   * The phases of `createContainer` before any alias is resolved: the
   * connections, then the exchanges and the queues built over them.
   */
  ghost function BuildPhase(config: Array<Value>): Result<(Array<Array<Value>>, Array<Blueprint>, Array<Blueprint>), Error>
    requires Buildable(config)
  {
    match Connections(config.items["connections"].a)
    case Err(e) => Err(e)
    case Ok(connections) =>
      match BuiltEntities(Entities.Exchange, connections, config.items["exchanges"].a)
      case Err(e) => Err(e)
      case Ok(exchanges) =>
        match BuiltEntities(Entities.Queue, connections, config.items["queues"].a)
        case Err(e) => Err(e)
        case Ok(queues) => Ok((connections, exchanges, queues))
  }

  /**
   * Connections, exchanges and queues are built before any alias is
   * resolved: two configurations with the same `connections`, `exchanges`
   * and `queues` build the same objects, and when building fails both end
   * with that same exception, whatever their publishers and consumers say.
   * A returned container was built from exactly those objects.
   */
  lemma BuildBeforeResolve(config1: Array<Value>, config2: Array<Value>)
    requires Buildable(config1) && Buildable(config2)
    requires config1.items["connections"] == config2.items["connections"]
    requires config1.items["exchanges"] == config2.items["exchanges"]
    requires config1.items["queues"] == config2.items["queues"]
    ensures BuildPhase(config1) == BuildPhase(config2)
    ensures BuildPhase(config1).Err? ==>
              PlanFor(config1) == PlanFor(config2) == Err(BuildPhase(config1).error)
    ensures PlanFor(config1).Ok? ==>
              && BuildPhase(config1).Ok?
              && BuildPhase(config1).value
                 == (PlanFor(config1).value.built.connections, PlanFor(config1).value.built.exchanges,
                     PlanFor(config1).value.built.queues)
  {
  }

  /**
   * In a built container every publisher alias of the configuration is
   * registered, in order, with the exchange of the alias it is bound to, or
   * with the queue of that alias when no exchange has it.
   */
  lemma PlanPublisher(config: Array<Value>, alias: string)
    requires Buildable(config) && PlanFor(config).Ok? && alias in Section(config, "publishers").items
    ensures var plan := PlanFor(config).value;
            var target := Section(config, "publishers").items[alias];
            && plan.publishers.keys == Section(config, "publishers").keys
            && alias in plan.publishers.items
            && (Has(config.items["exchanges"].a, target) ==> plan.publishers.items[alias] == EntityRef(Entities.Exchange, target.s))
            && (!Has(config.items["exchanges"].a, target) ==>
                  Has(config.items["queues"].a, target) && plan.publishers.items[alias] == EntityRef(Entities.Queue, target.s))
  {
    var plan := PlanFor(config).value;
    PlanPhases(config);
    EntitiesKeyed(plan.built.connections, config);
    PublisherBound(plan.built.exchanges, plan.built.queues, Section(config, "publishers"), alias);
  }

  /** In a built container every consumer alias is registered, in order, with the queue its entry names. */
  lemma PlanConsumer(config: Array<Value>, alias: string)
    requires Buildable(config) && PlanFor(config).Ok? && alias in Section(config, "consumers").items
    ensures var plan := PlanFor(config).value;
            var queue := Field(Section(config, "consumers").items[alias], "queue");
            && plan.consumers.keys == Section(config, "consumers").keys
            && alias in plan.consumers.items
            && Has(config.items["queues"].a, queue) && plan.consumers.items[alias] == EntityRef(Entities.Queue, queue.s)
  {
    var plan := PlanFor(config).value;
    PlanPhases(config);
    EntitiesKeyed(plan.built.connections, config);
    ConsumerBound(plan.built.queues, Section(config, "consumers"), alias);
  }
}
