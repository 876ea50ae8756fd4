/**
 * The message record the agents exchange (the dataclass of
 * agents/base_agent.py), with its defaulting rules and `to_dict`.
 * The clock is a parameter `now`: the ISO-8601 text the code would read
 * from `datetime.now()` at construction.
 */
module AgentMessages {
  import opened Wrappers
  import opened PyValues

  datatype Message = Message(
    messageId: string,
    sender: string,
    receiver: string,
    messageType: string,
    content: Value,
    metadata: Value,
    timestamp: string)

  /** Python's `x or d` for an optional string: `None` and `""` are falsy. */
  function OrElse(x: Option<string>, d: string): string {
    if x.Some? && x.value != "" then x.value else d
  }

  /**
   * Construction followed by `__post_init__`: a missing or empty timestamp
   * becomes the clock reading, a missing or empty id becomes
   * `sender + "-" + timestamp` built from the timestamp just settled.
   * `metadata` is stored as given (its default is `None`).
   */
  function NewMessage(sender: string, receiver: string, messageType: string, content: Value,
                      metadata: Value, timestamp: Option<string>, messageId: Option<string>,
                      now: string): (m: Message)
    ensures m.sender == sender && m.receiver == receiver && m.messageType == messageType
    ensures m.content == content && m.metadata == metadata
    ensures timestamp.Some? && timestamp.value != "" ==> m.timestamp == timestamp.value
    ensures timestamp.None? || timestamp.value == "" ==> m.timestamp == now
    ensures messageId.Some? && messageId.value != "" ==> m.messageId == messageId.value
    ensures messageId.None? || messageId.value == "" ==> m.messageId == sender + "-" + m.timestamp
  {
    var ts := OrElse(timestamp, now);
    Message(OrElse(messageId, sender + "-" + ts), sender, receiver, messageType, content, metadata, ts)
  }

  /** A defaulted id starts with the sender and a dash and ends with the timestamp. */
  lemma DefaultIdNamesSender(sender: string, receiver: string, messageType: string, content: Value,
                             metadata: Value, timestamp: Option<string>, now: string)
    ensures var m := NewMessage(sender, receiver, messageType, content, metadata, timestamp, None, now);
      && |m.messageId| == |sender| + 1 + |m.timestamp|
      && m.messageId[..|sender| + 1] == sender + "-"
      && m.messageId[|sender| + 1..] == m.timestamp
  {
  }

  /**
   * `__post_init__` is idempotent: rebuilding a message from its own fields
   * keeps it, whatever the clock says the second time, as long as the first
   * clock reading was not empty.
   */
  lemma PostInitIdempotent(sender: string, receiver: string, messageType: string, content: Value,
                           metadata: Value, timestamp: Option<string>, messageId: Option<string>,
                           now: string, later: string)
    requires now != ""
    ensures var m := NewMessage(sender, receiver, messageType, content, metadata, timestamp, messageId, now);
      NewMessage(m.sender, m.receiver, m.messageType, m.content, m.metadata,
                 Some(m.timestamp), Some(m.messageId), later) == m
  {
    var m := NewMessage(sender, receiver, messageType, content, metadata, timestamp, messageId, now);
    assert m.timestamp != "";
    assert m.messageId != "" by {
      if messageId.None? || messageId.value == "" {
        assert |m.messageId| == |sender| + 1 + |m.timestamp|;
      }
    }
  }

  const ToDictKeys: set<string> :=
    {"message_id", "sender", "receiver", "message_type", "content", "metadata", "timestamp"}

  /** `to_dict`: the seven attributes under their Python names. */
  function ToDict(m: Message): (d: map<string, Value>)
    ensures d.Keys == ToDictKeys
    ensures d["message_id"] == Str(m.messageId) && d["sender"] == Str(m.sender)
    ensures d["receiver"] == Str(m.receiver) && d["message_type"] == Str(m.messageType)
    ensures d["content"] == m.content && d["metadata"] == m.metadata
    ensures d["timestamp"] == Str(m.timestamp)
  {
    map["message_id" := Str(m.messageId), "sender" := Str(m.sender), "receiver" := Str(m.receiver),
        "message_type" := Str(m.messageType), "content" := m.content, "metadata" := m.metadata,
        "timestamp" := Str(m.timestamp)]
  }

  /** Reads a message back from a dictionary shaped like `to_dict`'s result. */
  function FromDict(d: map<string, Value>): Option<Message> {
    if ToDictKeys <= d.Keys
       && d["message_id"].Str? && d["sender"].Str? && d["receiver"].Str?
       && d["message_type"].Str? && d["timestamp"].Str?
    then Some(Message(d["message_id"].s, d["sender"].s, d["receiver"].s, d["message_type"].s,
                      d["content"], d["metadata"], d["timestamp"].s))
    else None
  }

  /** `to_dict` keeps every attribute: the message can be read back from it. */
  lemma ToDictRoundTrip(m: Message)
    ensures FromDict(ToDict(m)) == Some(m)
  {
  }

  /** Subscripting a message record (`message["content"]`): the dataclass
      defines no `__getitem__`, so this always raises. */
  function SubscriptRecord(m: Message, key: string): (r: Result<Value>)
    ensures r == Raised(TypeError)
  {
    Raised(TypeError)
  }
}

/**
 * The agent base class: subscription at construction, `create_message`,
 * and the abstract `receive_message`.
 */
module BaseAgents {
  import opened Wrappers
  import opened PyValues
  import opened AgentMessages
  import opened Broker

  /**
   * `create_message(receiver, content)` of the agent `agentId`: a
   * "response" without metadata, stamped by the clock.
   */
  function CreateMessage(agentId: string, receiver: string, content: Value, now: string): (m: Message)
    ensures m.sender == agentId && m.receiver == receiver && m.messageType == "response"
    ensures m.content == content && m.metadata == Null
    ensures m.timestamp == now && m.messageId == agentId + "-" + now
  {
    NewMessage(agentId, receiver, "response", content, Null, None, None, now)
  }

  /**
   * An agent with no behaviour of its own. The broker stores the agent
   * object itself as the handler standing for its bound `receive_message`.
   */
  class BaseAgent {
    const agentId: string
    const broker: MessageBroker<object>

    constructor(broker: MessageBroker<object>, agentId: string)
      modifies broker
      ensures this.broker == broker && this.agentId == agentId
      ensures broker.subscribers == old(broker.subscribers)[agentId := this]
      ensures broker.messageLog == old(broker.messageLog)
    {
      this.broker := broker;
      this.agentId := agentId;
      new;
      broker.Subscribe(agentId, this);
    }

    /** The base class's `receive_message` always raises. */
    function ReceiveMessage(message: Message): (r: Result<Value>)
      ensures r == Raised(NotImplementedError)
    {
      Raised(NotImplementedError)
    }
  }
}
