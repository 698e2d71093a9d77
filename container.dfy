/**
 * The registry of src/Container.php: two independent alias-keyed arrays,
 * one of publishers and one of consumers. Adding an alias that is already
 * registered overwrites it in place.
 */
module Registry {
  import opened Php

  class Container<T(==)> {
    var publishers: Array<T>
    var consumers: Array<T>

    ghost predicate Valid()
      reads this
    {
      Wf(publishers) && Wf(consumers)
    }

    constructor ()
      ensures Valid() && publishers == Empty() && consumers == Empty()
      ensures forall alias :: !HasPublisher(alias) && !HasConsumer(alias)
    {
      publishers := Empty();
      consumers := Empty();
    }

    method AddPublisher(alias: string, entity: T)
      requires Valid()
      modifies this
      ensures Valid() && consumers == old(consumers)
      ensures HasPublisher(alias) && GetPublisher(alias) == Some(entity)
      ensures publishers == Set(old(publishers), alias, entity)
      ensures forall other :: other != alias ==>
                (HasPublisher(other) <==> old(HasPublisher(other))) && GetPublisher(other) == old(GetPublisher(other))
      ensures old(HasPublisher(alias)) ==> publishers.keys == old(publishers.keys) && |publishers.items| == |old(publishers.items)|
      ensures !old(HasPublisher(alias)) ==> publishers.keys == old(publishers.keys) + [alias]
    {
      publishers := Set(publishers, alias, entity);
    }

    /** The entity registered under the alias; none when an unknown alias reads as null, which the declared return type turns into a TypeError. */
    function GetPublisher(alias: string): (entity: Option<T>)
      reads this
      ensures entity.Some? <==> HasPublisher(alias)
      ensures entity.Some? ==> entity.value in publishers.items.Values && publishers.items[alias] == entity.value
    {
      if alias in publishers.items then Some(publishers.items[alias]) else None
    }

    /** The publishers in registration order. */
    function GetPublishers(): Array<T>
      reads this
    {
      publishers
    }

    predicate HasPublisher(alias: string)
      reads this
    {
      alias in publishers.items
    }

    method AddConsumer(alias: string, entity: T)
      requires Valid()
      modifies this
      ensures Valid() && publishers == old(publishers)
      ensures HasConsumer(alias) && GetConsumer(alias) == Some(entity)
      ensures consumers == Set(old(consumers), alias, entity)
      ensures forall other :: other != alias ==>
                (HasConsumer(other) <==> old(HasConsumer(other))) && GetConsumer(other) == old(GetConsumer(other))
      ensures old(HasConsumer(alias)) ==> consumers.keys == old(consumers.keys) && |consumers.items| == |old(consumers.items)|
      ensures !old(HasConsumer(alias)) ==> consumers.keys == old(consumers.keys) + [alias]
    {
      consumers := Set(consumers, alias, entity);
    }

    /** The entity registered under the alias; none when an unknown alias reads as null. */
    function GetConsumer(alias: string): (entity: Option<T>)
      reads this
      ensures entity.Some? <==> HasConsumer(alias)
      ensures entity.Some? ==> entity.value in consumers.items.Values && consumers.items[alias] == entity.value
    {
      if alias in consumers.items then Some(consumers.items[alias]) else None
    }

    /** The consumers in registration order. */
    function GetConsumers(): Array<T>
      reads this
    {
      consumers
    }

    predicate HasConsumer(alias: string)
      reads this
    {
      alias in consumers.items
    }
  }

  /** Registering under one alias twice keeps one entry, holding the last entity. */
  lemma LastRegistrationWins<T>(a: Array<T>, alias: string, first: T, second: T)
    requires Wf(a)
    ensures Set(Set(a, alias, first), alias, second) == Set(a, alias, second)
  {
  }
}
