/**
 * The message broker of broker.py: a table from agent id to callback and
 * an append-only log of every message sent.
 *
 * `H` is the type of the callbacks. Calling a callback is left to the
 * caller-supplied `invoke`, so that sending returns `invoke(h, m)` for the
 * callback `h` registered under the receiver: the model says which callback
 * answers and that its answer is returned, not what the callback does.
 */
module Broker {
  import opened Wrappers
  import opened AgentMessages

  class MessageBroker<H> {
    var messageLog: seq<Message>
    var subscribers: map<string, H>

    /** Nothing is ever taken out of the log or the subscriber table. */
    twostate predicate OnlyGrows()
      reads this
    {
      && old(messageLog) <= messageLog
      && old(subscribers).Keys <= subscribers.Keys
    }

    constructor()
      ensures messageLog == [] && subscribers == map[]
    {
      messageLog := [];
      subscribers := map[];
    }

    /** Registers `callback` under `agentId`; a later registration replaces an earlier one. */
    method Subscribe(agentId: string, callback: H)
      modifies this
      ensures subscribers == old(subscribers)[agentId := callback]
      ensures messageLog == old(messageLog)
      ensures OnlyGrows()
    {
      subscribers := subscribers[agentId := callback];
    }

    /**
     * Logs the message first, then hands it to the receiver's callback and
     * returns that callback's result, or `None` when nobody is subscribed.
     */
    method SendMessage<R>(message: Message, invoke: (H, Message) -> R) returns (r: Option<R>)
      modifies this
      ensures messageLog == old(messageLog) + [message]
      ensures subscribers == old(subscribers)
      ensures message.receiver in subscribers ==> r == Some(invoke(subscribers[message.receiver], message))
      ensures message.receiver !in subscribers ==> r == None
      ensures OnlyGrows()
    {
      messageLog := messageLog + [message];
      if message.receiver in subscribers {
        r := Some(invoke(subscribers[message.receiver], message));
      } else {
        r := None;
      }
    }
  }
}
