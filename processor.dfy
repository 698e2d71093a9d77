/**
 * src/Processor/AbstractMessageProcessor.php: counts every delivery, then
 * acks it when processing returned true and nacks it otherwise. The user's
 * `processMessage` is an input: what it returned or how it failed.
 */
module Processor {
  import opened Broker
  import opened Php

  /** A delivery: its body, the channel it came on and its delivery tag. */
  datatype Message = Message(body: string, channel: nat, deliveryTag: Value)

  /** How `processMessage` ended: it answered, or it threw an \Exception (or else a PHP \Error). */
  datatype Verdict = Answer(accepted: bool) | Raised(isException: bool)

  /** The verbs `consume` sends and the status with which it ends. */
  datatype Outcome = Outcome(sent: seq<Op>, escaped: Status)

  function Ack(message: Message): Op {
    BasicAck(message.channel, message.deliveryTag)
  }

  function Nack(message: Message): Op {
    BasicNack(message.channel, message.deliveryTag)
  }

  /**
   * Whether an \Exception reaches the catch block of `consume`: a rejected
   * message, an \Exception from `processMessage`, or one from the ack.
   */
  predicate Caught(verdict: Verdict, ackAnswer: Status) {
    verdict == Answer(false) || verdict == Raised(true) || (verdict == Answer(true) && IsException(ackAnswer))
  }

  /**
   * What `consume` does, the broker answering the verb sent at log position
   * `at + i` with `answer(at + i)`: a message is acked once exactly when it
   * was accepted, nacked once exactly when an \Exception reached the catch
   * block, and the ack comes first when both are sent. `consume` ends as the
   * last verb it sent ended, so the only exception that escapes is the
   * nack's own; a \Error from `processMessage` escapes with nothing sent.
   */
  function Reaction(message: Message, verdict: Verdict, answer: nat -> Status, at: nat): (o: Outcome)
    ensures multiset(o.sent)[Ack(message)] == (if verdict == Answer(true) then 1 else 0)
    ensures multiset(o.sent)[Nack(message)] == (if Caught(verdict, answer(at)) then 1 else 0)
    ensures forall op :: op in o.sent ==> op == Ack(message) || op == Nack(message)
    ensures Ack(message) in o.sent && Nack(message) in o.sent ==> o.sent == [Ack(message), Nack(message)]
    ensures o.sent == [] <==> verdict == Raised(false)
    ensures o.sent == [] ==> o.escaped == EngineError
    ensures o.sent != [] ==> o.escaped == answer(at + |o.sent| - 1)
    ensures IsException(o.escaped) ==> o.sent[|o.sent| - 1] == Nack(message)
  {
    match verdict
    case Raised(isException) =>
      if isException then Outcome([Nack(message)], answer(at)) else Outcome([], EngineError)
    case Answer(accepted) =>
      if !accepted then Outcome([Nack(message)], answer(at))
      else if answer(at) == Returned then Outcome([Ack(message)], Returned)
      else if IsException(answer(at)) then Outcome([Ack(message), Nack(message)], answer(at + 1))
      else Outcome([Ack(message)], answer(at))
  }

  class MessageProcessor {
    var messageCount: nat

    constructor ()
      ensures messageCount == 0
    {
      messageCount := 0;
    }

    function GetProcessedMessages(): (n: nat)
      reads this
      ensures n == messageCount
    {
      messageCount
    }

    /**
     * `consume`: the count rises by one before anything else, whatever the
     * outcome; then the verbs of `Reaction` are sent.
     */
    method Consume(message: Message, verdict: Verdict, wire: Wire) returns (escaped: Status)
      modifies this, wire
      ensures messageCount == old(messageCount) + 1
      ensures var o := Reaction(message, verdict, wire.respond, |old(wire.log)|);
              wire.log == old(wire.log) + o.sent && escaped == o.escaped
    {
      messageCount := messageCount + 1;
      // whether an \Exception reached the catch block
      var caught := false;
      match verdict {
        case Raised(isException) =>
          if !isException {
            return EngineError;
          }
          caught := true;
        case Answer(accepted) =>
          if accepted {
            var acked := wire.Invoke(Ack(message));
            if acked == EngineError {
              return EngineError;
            }
            caught := IsException(acked);
          } else {
            // the RuntimeException('Dummy') thrown for a rejected message
            caught := true;
          }
      }
      escaped := Returned;
      if caught {
        escaped := wire.Invoke(Nack(message));
      }
    }
  }
}
