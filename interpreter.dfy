/** src/Interpreter/EntityArgumentsInterpreter.php. */
module Interpreter {
  import opened Php

  /** An entity's `arguments`: already an AMQPTable, or a plain array still to be wrapped in one. */
  datatype Arguments = Table(entries: Array<Value>) | Plain(entries: Array<Value>)

  /** `interpretArguments`: always a table; a table is returned as it is. */
  function InterpretArguments(arguments: Arguments): (r: Arguments)
    ensures r.Table?
    ensures arguments.Table? ==> r == arguments
    ensures r.entries == arguments.entries
  {
    match arguments
    case Table(_) => arguments
    case Plain(entries) => Table(entries)
  }

  /** The entity is durable exactly when its `durable` attribute is set and identical to true. */
  predicate Durable(attributes: Array<Value>) {
    IsSet(attributes, "durable") && attributes.items["durable"] == Bool(true)
  }

  /**
   * `interpretProperties`: persistent delivery (delivery_mode 2) for a
   * durable entity; otherwise the properties unchanged.
   */
  function InterpretProperties(attributes: Array<Value>, properties: Array<Value>): (r: Array<Value>)
    ensures Wf(properties) ==> Wf(r)
    ensures Durable(attributes) ==> "delivery_mode" in r.items && r.items["delivery_mode"] == Int(2)
    ensures !Durable(attributes) ==> r == properties
    ensures forall k :: k != "delivery_mode" ==>
              (k in r.items <==> k in properties.items)
              && (k in properties.items ==> r.items[k] == properties.items[k])
  {
    if Durable(attributes) then Set(properties, "delivery_mode", Int(2)) else properties
  }

  /** Interpreting twice gives what interpreting once gives. */
  lemma InterpretPropertiesIdempotent(attributes: Array<Value>, properties: Array<Value>)
    requires Wf(properties)
    ensures InterpretProperties(attributes, InterpretProperties(attributes, properties))
            == InterpretProperties(attributes, properties)
  {
    if Durable(attributes) {
      var once := Set(properties, "delivery_mode", Int(2));
      assert once.items[ "delivery_mode" := Int(2)] == once.items;
    }
  }

  /** The key order is that of the input, with delivery_mode appended when it was new. */
  lemma InterpretPropertiesKeyOrder(attributes: Array<Value>, properties: Array<Value>)
    requires Wf(properties)
    ensures var r := InterpretProperties(attributes, properties);
            r.keys == properties.keys
            || (Durable(attributes) && "delivery_mode" !in properties.items
                && r.keys == properties.keys + ["delivery_mode"])
  {
  }
}
