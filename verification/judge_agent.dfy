/**
 * The judge of agents/judge_agent.py: a `results` dictionary keyed "for" and
 * "against" that is filled by "response" messages and never cleared; from
 * the moment both keys are present, every "response" message makes the
 * judge send one combined message to "app" through the broker.
 */
module JudgeAgents {
  import opened Wrappers
  import opened PyValues
  import opened AgentMessages
  import opened BaseAgents
  import opened Broker

  /**
   * `content` checked with `in` for "for" first, then "against"; only one
   * stance is stored per message, so "for" wins when both are present.
   */
  function Ingest(results: map<string, Value>, content: Value): (r: Result<map<string, Value>>)
    ensures content.Dict? && "for" in content.fields ==>
      r == Ok(results["for" := content.fields["for"]])
    ensures content.Dict? && "for" !in content.fields && "against" in content.fields ==>
      r == Ok(results["against" := content.fields["against"]])
    ensures content.Dict? && "for" !in content.fields && "against" !in content.fields ==>
      r == Ok(results)
    ensures !content.Dict? ==> r.Raised? || r == Ok(results)
  {
    var hasFor :- Contains(content, "for");
    if hasFor then
      var stance :- Subscript(content, "for");
      Ok(results["for" := stance])
    // The first `in` succeeded, so the second cannot raise.
    else if Contains(content, "against") == Ok(true) then
      var stance :- Subscript(content, "against");
      Ok(results["against" := stance])
    else
      Ok(results)
  }

  /** The text `generate_summary` formats from the two counts. */
  function SummaryText(forCount: nat, againstCount: nat): string {
    "FOR: " + (NatToString(forCount) + AgainstPart(againstCount))
  }

  /** The summary after the FOR count. */
  function AgainstPart(againstCount: nat): string {
    " sources, AGAINST: " + (NatToString(againstCount) + " sources.")
  }

  /** `generate_summary(for_sources, against_sources)`: `len` of each, which raises on a value without a length. */
  function GenerateSummary(forSources: Value, againstSources: Value): (r: Result<string>)
    ensures forSources.List? && againstSources.List? ==>
      r == Ok(SummaryText(|forSources.items|, |againstSources.items|))
    ensures r.Ok? <==> Len(forSources).Ok? && Len(againstSources).Ok?
  {
    var forCount :- Len(forSources);
    var againstCount :- Len(againstSources);
    Ok(SummaryText(forCount, againstCount))
  }

  /** A stored stance whose "sources" entry is a list. */
  predicate HasSourceList(stance: Value) {
    stance.Dict? && "sources" in stance.fields && stance.fields["sources"].List?
  }

  function SourcesOf(stance: Value): seq<Value>
    requires HasSourceList(stance)
  {
    stance.fields["sources"].items
  }

  /** The message the judge sends to "app" for two well-formed stances. */
  function VerdictMessage(judgeId: string, forStance: Value, againstStance: Value, now: string): Message
    requires HasSourceList(forStance) && HasSourceList(againstStance)
  {
    var fs, ags := SourcesOf(forStance), SourcesOf(againstStance);
    CreateMessage(judgeId, "app",
      Dict(map["summary" := Str(SummaryText(|fs|, |ags|)), "sources" := List(fs + ags)]), now)
  }

  /**
   * The combination step (lines 22-36): the FOR sources followed by the
   * AGAINST sources, and the summary of their lengths, in a "response" to
   * "app". Evaluated in the code's order, so the first failing
   * subscript, `+` or `len` decides the exception.
   */
  function Combine(forStance: Value, againstStance: Value, judgeId: string, now: string): (r: Result<Message>)
    ensures HasSourceList(forStance) && HasSourceList(againstStance) ==>
      r == Ok(VerdictMessage(judgeId, forStance, againstStance, now))
    ensures r.Ok? ==> r.value.sender == judgeId && r.value.receiver == "app" && r.value.messageType == "response"
    ensures !(forStance.Dict? && againstStance.Dict?) ==> r.Raised?
  {
    var forSources :- Subscript(forStance, "sources");
    var againstSources :- Subscript(againstStance, "sources");
    var combined :- Add(forSources, againstSources);
    var summary :- GenerateSummary(forSources, againstSources);
    Ok(CreateMessage(judgeId, "app", Dict(map["summary" := Str(summary), "sources" := combined]), now))
  }

  /** The judge reads `self.logger`, an attribute no agent class defines. */
  const NoLogger: Exc := AttributeError("logger")

  /** The effect of one `receive_message` call: new results, the message sent (if any), and what the call returned or raised. */
  datatype Step = Step(results: map<string, Value>, sent: Option<Message>, returned: Result<Value>)

  /**
   * One `receive_message`. A non-"response" message reaches the
   * `self.logger` line and raises. A "response" updates `results` first;
   * an exception after that keeps the update.
   */
  function JudgeStep(results: map<string, Value>, message: Message, judgeId: string, now: string): (step: Step)
    ensures message.messageType != "response" ==> step == Step(results, None, Raised(NoLogger))
    ensures results.Keys <= step.results.Keys <= results.Keys + {"for", "against"}
    ensures forall k :: k in results && k != "for" && k != "against" ==> step.results[k] == results[k]
    ensures step.sent.Some? <==> step.returned.Ok? && "for" in step.results && "against" in step.results
    ensures step.sent.Some? ==> && step.sent.value.sender == judgeId
                                && step.sent.value.receiver == "app"
                                && step.sent.value.messageType == "response"
                                && step.sent.value.timestamp == now
    ensures message.messageType == "response" && Ingest(results, message.content).Raised? ==>
      step == Step(results, None, Raised(Ingest(results, message.content).exc))
    ensures message.messageType == "response" && Ingest(results, message.content).Ok? ==>
      step.results == Ingest(results, message.content).value
    ensures step.sent.Some? ==>
      Combine(step.results["for"], step.results["against"], judgeId, now) == Ok(step.sent.value)
    ensures message.messageType == "response" && Ingest(results, message.content).Ok?
            && !("for" in step.results && "against" in step.results) ==>
      step == Step(Ingest(results, message.content).value, None, Ok(Null))
    ensures message.messageType == "response" && Ingest(results, message.content).Ok?
            && "for" in step.results && "against" in step.results ==>
      var final := Combine(step.results["for"], step.results["against"], judgeId, now);
      && (final.Ok? ==> step.sent == Some(final.value) && step.returned == Ok(Null))
      && (final.Raised? ==> step.sent == None && step.returned == Raised(final.exc))
  {
    if message.messageType != "response" then Step(results, None, Raised(NoLogger))
    else
      match Ingest(results, message.content)
      case Raised(e) => Step(results, None, Raised(e))
      case Ok(updated) =>
        if "for" in updated && "against" in updated then
          match Combine(updated["for"], updated["against"], judgeId, now)
          case Raised(e) => Step(updated, None, Raised(e))
          case Ok(final) => Step(updated, Some(final), Ok(Null))
        else Step(updated, None, Ok(Null))
  }

  function Sent(sent: Option<Message>): seq<Message> {
    if sent.Some? then [sent.value] else []
  }

  class JudgeAgent {
    const agentId: string
    const broker: MessageBroker<object>
    var results: map<string, Value>

    constructor(broker: MessageBroker<object>, agentId: string)
      modifies broker
      ensures this.broker == broker && this.agentId == agentId && results == map[]
      ensures broker.subscribers == old(broker.subscribers)[agentId := this]
      ensures broker.messageLog == old(broker.messageLog)
    {
      this.broker := broker;
      this.agentId := agentId;
      results := map[];
      new;
      broker.Subscribe(agentId, this);
    }

    /**
     * `receive_message`: updates `results` and sends through the broker
     * exactly as `JudgeStep` says; `invoke` answers for whatever callback
     * "app" has, and its answer is discarded.
     */
    method ReceiveMessage<R>(message: Message, now: string, invoke: (object, Message) -> R)
      returns (outcome: Result<Value>)
      modifies this, broker
      ensures var step := JudgeStep(old(results), message, agentId, now);
        && results == step.results
        && outcome == step.returned
        && broker.messageLog == old(broker.messageLog) + Sent(step.sent)
        && broker.subscribers == old(broker.subscribers)
    {
      if message.messageType == "response" {
        var updated := Ingest(results, message.content);
        if updated.Raised? {
          return Raised(updated.exc);
        }
        results := updated.value;
        if "for" in results && "against" in results {
          var final := Combine(results["for"], results["against"], agentId, now);
          if final.Raised? {
            return Raised(final.exc);
          }
          var ignored := broker.SendMessage(final.value, invoke);
        }
        outcome := Ok(Null);
      } else {
        outcome := Raised(NoLogger);
      }
    }
  }

  /** The length of the run of digits a string starts with. */
  function DigitRun(s: string): nat {
    if s == [] || !IsDigit(s[0]) then 0 else 1 + DigitRun(s[1..])
  }

  lemma {:induction false} DigitRunOf(x: string, rest: string)
    requires forall i :: 0 <= i < |x| ==> IsDigit(x[i])
    requires rest != [] && !IsDigit(rest[0])
    ensures DigitRun(x + rest) == |x|
  {
    if x != [] {
      assert (x + rest)[1..] == x[1..] + rest;
      DigitRunOf(x[1..], rest);
    } else {
      assert x + rest == rest;
    }
  }

  /** A run of digits followed by a non-digit is read off unambiguously. */
  lemma DigitRunSplit(x: string, restX: string, y: string, restY: string)
    requires forall i :: 0 <= i < |x| ==> IsDigit(x[i])
    requires forall i :: 0 <= i < |y| ==> IsDigit(y[i])
    requires restX != [] && !IsDigit(restX[0])
    requires restY != [] && !IsDigit(restY[0])
    requires x + restX == y + restY
    ensures x == y && restX == restY
  {
    DigitRunOf(x, restX);
    DigitRunOf(y, restY);
    assert x == (x + restX)[..|x|];
    assert y == (y + restY)[..|y|];
    assert restX == (x + restX)[|x|..];
    assert restY == (y + restY)[|y|..];
  }

  /** The summary text loses neither count: equal summaries come from equal counts. */
  lemma SummaryDetermined(n: nat, m: nat, n': nat, m': nat)
    requires SummaryText(n, m) == SummaryText(n', m')
    ensures n == n' && m == m'
  {
    var r, r' := AgainstPart(m), AgainstPart(m');
    assert NatToString(n) + r == SummaryText(n, m)[5..];
    assert NatToString(n') + r' == SummaryText(n', m')[5..];
    DigitRunSplit(NatToString(n), r, NatToString(n'), r');
    NatToStringInjective(n, n');
    assert NatToString(m) + " sources." == r[19..];
    assert NatToString(m') + " sources." == r'[19..];
    DigitRunSplit(NatToString(m), " sources.", NatToString(m'), " sources.");
    NatToStringInjective(m, m');
  }

  /**
   * A sequence of `receive_message` calls from a given `results`, the i-th
   * at clock reading `clock[i]`: the final `results` and every message sent,
   * in order.
   */
  function Run(results: map<string, Value>, messages: seq<Message>, judgeId: string, clock: seq<string>)
    : (map<string, Value>, seq<Message>)
    requires |clock| == |messages|
    decreases |messages|
  {
    if messages == [] then (results, [])
    else
      var step := JudgeStep(results, messages[0], judgeId, clock[0]);
      var rest := Run(step.results, messages[1..], judgeId, clock[1..]);
      (rest.0, Sent(step.sent) + rest.1)
  }

  /** A "response" whose content stores the FOR stance. */
  predicate ForMessage(m: Message) {
    m.messageType == "response" && m.content.Dict? && "for" in m.content.fields
  }

  /** A "response" whose content stores the AGAINST stance (and has no "for" key, which would win). */
  predicate AgainstMessage(m: Message) {
    && m.messageType == "response" && m.content.Dict?
    && "for" !in m.content.fields && "against" in m.content.fields
  }

  /**
   * A fresh judge that receives one FOR and one AGAINST message, in either
   * order, sends exactly one message, on the second call: FOR sources
   * first, then AGAINST sources, whatever the arrival order.
   */
  lemma {:induction false} BothStancesSendOnce(forMsg: Message, againstMsg: Message, judgeId: string,
                                               t1: string, t2: string)
    requires ForMessage(forMsg) && AgainstMessage(againstMsg)
    requires HasSourceList(forMsg.content.fields["for"])
    requires HasSourceList(againstMsg.content.fields["against"])
    ensures var verdict := VerdictMessage(judgeId, forMsg.content.fields["for"],
                                          againstMsg.content.fields["against"], t2);
      && Run(map[], [forMsg, againstMsg], judgeId, [t1, t2]).1 == [verdict]
      && Run(map[], [againstMsg, forMsg], judgeId, [t1, t2]).1 == [verdict]
  {
    var f, a := forMsg.content.fields["for"], againstMsg.content.fields["against"];
    var s1 := JudgeStep(map[], forMsg, judgeId, t1);
    assert s1.results == map["for" := f] && s1.sent == None;
    var s2 := JudgeStep(s1.results, againstMsg, judgeId, t2);
    assert s2.results == map["for" := f, "against" := a];
    assert s2.sent == Some(VerdictMessage(judgeId, f, a, t2));
    assert Run(map[], [forMsg, againstMsg], judgeId, [t1, t2]).1
        == Sent(s1.sent) + Run(s1.results, [againstMsg], judgeId, [t2]).1;
    assert Run(s1.results, [againstMsg], judgeId, [t2]).1 == Sent(s2.sent) + Run(s2.results, [], judgeId, []).1;

    var u1 := JudgeStep(map[], againstMsg, judgeId, t1);
    assert u1.results == map["against" := a] && u1.sent == None;
    var u2 := JudgeStep(u1.results, forMsg, judgeId, t2);
    assert u2.results == map["against" := a, "for" := f];
    assert u2.sent == Some(VerdictMessage(judgeId, f, a, t2));
    assert Run(map[], [againstMsg, forMsg], judgeId, [t1, t2]).1
        == Sent(u1.sent) + Run(u1.results, [forMsg], judgeId, [t2]).1;
    assert Run(u1.results, [forMsg], judgeId, [t2]).1 == Sent(u2.sent) + Run(u2.results, [], judgeId, []).1;
  }

  /**
   * A second FOR response before the AGAINST one replaces the first: the
   * only message sent, on the AGAINST call, carries the latest FOR stance.
   */
  lemma {:induction false} LatestForWins(for1: Message, for2: Message, againstMsg: Message, judgeId: string,
                                         t1: string, t2: string, t3: string)
    requires ForMessage(for1) && ForMessage(for2) && AgainstMessage(againstMsg)
    requires HasSourceList(for2.content.fields["for"])
    requires HasSourceList(againstMsg.content.fields["against"])
    ensures Run(map[], [for1, for2, againstMsg], judgeId, [t1, t2, t3]).1
         == [VerdictMessage(judgeId, for2.content.fields["for"], againstMsg.content.fields["against"], t3)]
  {
    var f1, f2, a := for1.content.fields["for"], for2.content.fields["for"], againstMsg.content.fields["against"];
    var s1 := JudgeStep(map[], for1, judgeId, t1);
    assert s1.results == map["for" := f1] && s1.sent == None;
    var s2 := JudgeStep(s1.results, for2, judgeId, t2);
    assert s2.results == map["for" := f2] && s2.sent == None;
    var s3 := JudgeStep(s2.results, againstMsg, judgeId, t3);
    assert s3.results == map["for" := f2, "against" := a];
    assert s3.sent == Some(VerdictMessage(judgeId, f2, a, t3));
    assert Run(map[], [for1, for2, againstMsg], judgeId, [t1, t2, t3]).1
        == Sent(s1.sent) + Run(s1.results, [for2, againstMsg], judgeId, [t2, t3]).1;
    assert [for1, for2, againstMsg][1..] == [for2, againstMsg];
    assert Run(s1.results, [for2, againstMsg], judgeId, [t2, t3]).1
        == Sent(s2.sent) + Run(s2.results, [againstMsg], judgeId, [t3]).1;
    assert Run(s2.results, [againstMsg], judgeId, [t3]).1 == Sent(s3.sent) + Run(s3.results, [], judgeId, []).1;
  }

  /**
   * `results` is never cleared: once both stances are stored, every later
   * "response" with dictionary content sends again, and a stance it carries
   * replaces the stored one.
   */
  lemma ResolvedKeepsSending(results: map<string, Value>, message: Message, judgeId: string, now: string)
    requires "for" in results && "against" in results
    requires HasSourceList(results["for"]) && HasSourceList(results["against"])
    requires message.messageType == "response" && message.content.Dict?
    requires var fields := message.content.fields;
      if "for" in fields then HasSourceList(fields["for"])
      else "against" in fields ==> HasSourceList(fields["against"])
    ensures var fields := message.content.fields;
      var forStance := if "for" in fields then fields["for"] else results["for"];
      var againstStance := if "for" !in fields && "against" in fields then fields["against"] else results["against"];
      JudgeStep(results, message, judgeId, now).sent == Some(VerdictMessage(judgeId, forStance, againstStance, now))
  {
  }

  /** Every message a run sends goes to "app" from the judge. */
  lemma {:induction false} RunSendsOnlyVerdicts(results: map<string, Value>, messages: seq<Message>,
                                                judgeId: string, clock: seq<string>)
    requires |clock| == |messages|
    ensures forall m :: m in Run(results, messages, judgeId, clock).1 ==>
      m.sender == judgeId && m.receiver == "app" && m.messageType == "response"
    ensures results.Keys <= Run(results, messages, judgeId, clock).0.Keys
    decreases |messages|
  {
    if messages != [] {
      var step := JudgeStep(results, messages[0], judgeId, clock[0]);
      RunSendsOnlyVerdicts(step.results, messages[1..], judgeId, clock[1..]);
    }
  }
}
