/**
 * The simpler message record of models/message.py: no id, metadata never
 * `None`, and a timestamp always taken from the clock (`now`).
 */
module ModelMessages {
  import opened Wrappers
  import opened PyValues

  datatype Message = Message(
    sender: string,
    receiver: string,
    messageType: string,
    content: Value,
    metadata: Value,
    timestamp: string)

  /** `Message(sender, receiver, message_type, content, metadata=None)`. */
  function NewMessage(sender: string, receiver: string, messageType: string, content: Value,
                      metadata: Value, now: string): (m: Message)
    ensures m.sender == sender && m.receiver == receiver
    ensures m.messageType == messageType && m.content == content
    ensures m.timestamp == now
    ensures Truthy(metadata) ==> m.metadata == metadata
    ensures !Truthy(metadata) ==> m.metadata == Dict(map[])
  {
    Message(sender, receiver, messageType, content, if Truthy(metadata) then metadata else Dict(map[]), now)
  }

  /**
   * The stored metadata is never `None`: it is either the caller's truthy
   * value or an empty dictionary (also when the caller passed `0`, `""`,
   * `[]` or `False`).
   */
  lemma MetadataNeverNone(sender: string, receiver: string, messageType: string, content: Value,
                          metadata: Value, now: string)
    ensures var m := NewMessage(sender, receiver, messageType, content, metadata, now);
      m.metadata != Null && (Truthy(m.metadata) || m.metadata == Dict(map[]))
  {
  }

  /** Only the clock decides the timestamp: two constructions from the same
      arguments differ at most in it. */
  lemma TimestampOnlyFromClock(sender: string, receiver: string, messageType: string, content: Value,
                               metadata: Value, now: string, later: string)
    ensures var m := NewMessage(sender, receiver, messageType, content, metadata, now);
      NewMessage(sender, receiver, messageType, content, metadata, later) == m.(timestamp := later)
  {
  }

  const ToDictKeys: set<string> := {"sender", "receiver", "message_type", "content", "metadata", "timestamp"}

  /** `to_dict`: six keys, no `message_id`. */
  function ToDict(m: Message): (d: map<string, Value>)
    ensures d.Keys == ToDictKeys && "message_id" !in d
    ensures d["sender"] == Str(m.sender) && d["receiver"] == Str(m.receiver)
    ensures d["message_type"] == Str(m.messageType) && d["content"] == m.content
    ensures d["metadata"] == m.metadata && d["timestamp"] == Str(m.timestamp)
  {
    map["sender" := Str(m.sender), "receiver" := Str(m.receiver), "message_type" := Str(m.messageType),
        "content" := m.content, "metadata" := m.metadata, "timestamp" := Str(m.timestamp)]
  }

  /** Reads a message back from a dictionary shaped like `to_dict`'s result. */
  function FromDict(d: map<string, Value>): Option<Message> {
    if ToDictKeys <= d.Keys && d["sender"].Str? && d["receiver"].Str?
       && d["message_type"].Str? && d["timestamp"].Str?
    then Some(Message(d["sender"].s, d["receiver"].s, d["message_type"].s, d["content"],
                      d["metadata"], d["timestamp"].s))
    else None
  }

  /** Every attribute survives `to_dict`. */
  lemma ToDictRoundTrip(m: Message)
    ensures FromDict(ToDict(m)) == Some(m)
  {
  }
}
