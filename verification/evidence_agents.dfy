/**
 * The two evidence agents (agents/for_agent.py, agents/against_agent.py).
 * Each fills its prompt template with the claim, searches with the result
 * and returns, without sending it, a "response" message to "judge_agent"
 * whose content is the projected search results.
 */
module EvidenceAgents {
  import opened PyValues
  import opened AgentMessages
  import opened BaseAgents
  import opened Broker
  import opened Search

  /** A prompt template: the text before and after its single `{query}` field. */
  datatype Template = Template(head: string, tail: string) {

    /** The template as written, placeholder included. */
    function Text(): string {
      head + "{query}" + tail
    }
  }

  /** The opening both prompts share. */
  const ExpertOpening: string := "\nYou are an expert at finding information "

  const ForPrompt: Template := Template(
    ExpertOpening + "to support a statement."
      + " Your task is to retrieve sources and evidence that provide strong arguments or data in favor of the given claim.\nStatement: \"",
    "\"\nRespond with the most relevant supporting sources.\n")

  const AgainstPrompt: Template := Template(
    ExpertOpening + "that challenges or opposes a statement."
      + " Your task is to retrieve sources and evidence that provide strong counterarguments or data against the given claim.\nStatement: \"",
    "\"\nRespond with the most relevant opposing sources.\n")

  /** `template.format(query=claim)`: the claim replaces the placeholder verbatim. */
  function Format(t: Template, claim: string): (q: string)
    ensures |q| == |t.head| + |claim| + |t.tail|
    ensures q[..|t.head|] == t.head
    ensures q[|t.head|..|t.head| + |claim|] == claim
    ensures q[|t.head| + |claim|..] == t.tail
  {
    t.head + claim + t.tail
  }

  /** The text between a template's head and tail. */
  function ClaimOf(t: Template, q: string): string
    requires |q| >= |t.head| + |t.tail|
  {
    q[|t.head|..|q| - |t.tail|]
  }

  /** Formatting keeps the claim whole: it can be cut back out of the query. */
  lemma FormatRoundTrip(t: Template, claim: string)
    ensures ClaimOf(t, Format(t, claim)) == claim
  {
  }

  /** Formatting with the placeholder itself gives back the template as written. */
  lemma FormatPlaceholder(t: Template)
    ensures Format(t, "{query}") == t.Text()
  {
  }

  /** Whatever the two claims, the FOR and AGAINST agents never send the same query. */
  lemma StancesQueryDifferently(forClaim: string, againstClaim: string)
    ensures Format(ForPrompt, forClaim) != Format(AgainstPrompt, againstClaim)
  {
    var q1, q2 := Format(ForPrompt, forClaim), Format(AgainstPrompt, againstClaim);
    var k := |ExpertOpening| + 1;
    assert q1[k] == ForPrompt.head[k] == 'o';
    assert q2[k] == AgainstPrompt.head[k] == 'h';
  }

  /** What `receive_message` is handed: the broker delivers a message record;
      a caller may also pass a plain dictionary. */
  datatype Argument = MessageRecord(record: Message) | PlainValue(value: Value)

  /** `message["content"]`. */
  function ArgumentContent(a: Argument): (r: Result<Value>)
    ensures a.MessageRecord? ==> r == Raised(TypeError)
    ensures a.PlainValue? ==> r == Subscript(a.value, "content")
  {
    match a
    case MessageRecord(m) => SubscriptRecord(m, "content")
    case PlainValue(v) => Subscript(v, "content")
  }

  /** `str(v)` as `format` applies it: a string is itself; any other value is
      printed by `render`, which stands for Python's own `str`. */
  function PyStr(v: Value, render: Value -> string): string {
    if v.Str? then v.s else render(v)
  }

  /**
   * The shared body of both agents' `receive_message`: reading the claim
   * can raise, and so can the search; otherwise the response to the judge.
   */
  function Respond(agentId: string, prompt: Template, message: Argument,
                   tavily: string -> Result<seq<Value>>, render: Value -> string,
                   now: string): (r: Result<Message>)
    ensures ArgumentContent(message).Raised? ==> r == Raised(ArgumentContent(message).exc)
    ensures ArgumentContent(message).Ok? ==>
      var items := PerformSearch(Format(prompt, PyStr(ArgumentContent(message).value, render)), tavily);
      && (items.Raised? ==> r == Raised(items.exc))
      && (items.Ok? ==> && r.Ok?
                        && r.value.sender == agentId
                        && r.value.receiver == "judge_agent"
                        && r.value.messageType == "response"
                        && r.value.metadata == Null
                        && r.value.content == DictList(items.value))
  {
    var claim :- ArgumentContent(message);
    var items :- PerformSearch(Format(prompt, PyStr(claim, render)), tavily);
    Ok(CreateMessage(agentId, "judge_agent", DictList(items), now))
  }

  class ForAgent {
    const agentId: string := "for_agent"
    const prompt: Template := ForPrompt
    const broker: MessageBroker<object>

    constructor(broker: MessageBroker<object>)
      modifies broker
      ensures this.broker == broker
      ensures broker.subscribers == old(broker.subscribers)["for_agent" := this]
      ensures broker.messageLog == old(broker.messageLog)
    {
      this.broker := broker;
      new;
      broker.Subscribe(agentId, this);
    }

    /**
     * A dictionary argument with a "content" claim yields the message from
     * "for_agent" to "judge_agent" carrying the search results for the
     * supporting query, unless the search raises. Any other argument
     * raises, in particular every message record the broker delivers.
     */
    function ReceiveMessage(message: Argument, tavily: string -> Result<seq<Value>>,
                            render: Value -> string, now: string): (r: Result<Message>)
      ensures message.MessageRecord? ==> r == Raised(TypeError)
      ensures message.PlainValue? && !message.value.Dict? ==> r == Raised(TypeError)
      ensures message.PlainValue? && message.value.Dict? && "content" !in message.value.fields ==>
        r == Raised(KeyError("content"))
      ensures message.PlainValue? && message.value.Dict? && "content" in message.value.fields ==>
        var items := PerformSearch(Format(ForPrompt, PyStr(message.value.fields["content"], render)), tavily);
        && (items.Raised? ==> r == Raised(items.exc))
        && (items.Ok? ==> r == Ok(CreateMessage("for_agent", "judge_agent", DictList(items.value), now)))
    {
      Respond(agentId, prompt, message, tavily, render, now)
    }
  }

  class AgainstAgent {
    const agentId: string := "against_agent"
    const prompt: Template := AgainstPrompt
    const broker: MessageBroker<object>

    constructor(broker: MessageBroker<object>)
      modifies broker
      ensures this.broker == broker
      ensures broker.subscribers == old(broker.subscribers)["against_agent" := this]
      ensures broker.messageLog == old(broker.messageLog)
    {
      this.broker := broker;
      new;
      broker.Subscribe(agentId, this);
    }

    /** As `ForAgent.ReceiveMessage`, from "against_agent" with the opposing query. */
    function ReceiveMessage(message: Argument, tavily: string -> Result<seq<Value>>,
                            render: Value -> string, now: string): (r: Result<Message>)
      ensures message.MessageRecord? ==> r == Raised(TypeError)
      ensures message.PlainValue? && !message.value.Dict? ==> r == Raised(TypeError)
      ensures message.PlainValue? && message.value.Dict? && "content" !in message.value.fields ==>
        r == Raised(KeyError("content"))
      ensures message.PlainValue? && message.value.Dict? && "content" in message.value.fields ==>
        var items := PerformSearch(Format(AgainstPrompt, PyStr(message.value.fields["content"], render)), tavily);
        && (items.Raised? ==> r == Raised(items.exc))
        && (items.Ok? ==> r == Ok(CreateMessage("against_agent", "judge_agent", DictList(items.value), now)))
    {
      Respond(agentId, prompt, message, tavily, render, now)
    }
  }
}
