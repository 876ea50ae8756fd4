/**
 * The result shaping of agent.py: the fail-closed factuality analysis of
 * a model reply, the parsing of a search agent's reply with its citation
 * sources, and the overall assessment from the two confidences.
 *
 * The model call, JSON parsing and pydantic's validation of the scalar
 * fields are outside the model: `llm` says what the model call produced
 * (the parsed JSON, or nothing when it was not JSON), `validate` what
 * pydantic makes of the dictionary it is given, and `detail` is the text
 * of whatever exception was caught.
 */
module FactCheck {
  import opened Wrappers
  import opened PyValues
  import opened Search

  /** One validated source, a `Dict[str, str]`. */
  type Source = map<string, string>

  datatype FactCheckResult = FactCheckResult(isFactual: bool, confidence: real, reasoning: string, sources: seq<Source>)

  /** The scalar fields pydantic produces from a dictionary it accepts. */
  datatype Scalars = Scalars(isFactual: bool, confidence: real, reasoning: string)

  const AnalyzeError: string := "Error analyzing response: "
  const ParseError: string := "Error parsing response: "

  /** The fail-closed result after a caught exception. */
  function Fallback(prefix: string, detail: string): FactCheckResult {
    FactCheckResult(false, 0.0, prefix + detail, [])
  }

  /** Not factual, zero confidence, no sources, reasoning starting with `prefix`. */
  predicate IsFallback(r: FactCheckResult, prefix: string) {
    && !r.isFactual && r.confidence == 0.0 && r.sources == []
    && |prefix| <= |r.reasoning| && r.reasoning[..|prefix|] == prefix
  }

  /** One entry of a reply's `sources` list, normalised. */
  function NormaliseEntry(entry: Value): (d: map<string, Value>)
    ensures d.Keys == {"url", "content"}
    ensures entry.Dict? ==> d == Project(entry.fields)
    ensures !entry.Dict? ==> d["url"] == entry && d["content"] == Str("No content")
  {
    if entry.Dict? then Project(entry.fields) else map["url" := entry, "content" := Str("No content")]
  }

  /** The `sources` field as `analyze_factuality` rewrites it: `[]` when absent or not a list. */
  function NormaliseSources(analysis: map<string, Value>): (sources: seq<map<string, Value>>)
    ensures !("sources" in analysis && analysis["sources"].List?) ==> sources == []
    ensures "sources" in analysis && analysis["sources"].List? ==>
      && |sources| == |analysis["sources"].items|
      && forall i :: 0 <= i < |sources| ==> sources[i] == NormaliseEntry(analysis["sources"].items[i])
  {
    if "sources" in analysis && analysis["sources"].List? then
      var entries := analysis["sources"].items;
      seq(|entries|, i requires 0 <= i < |entries| => NormaliseEntry(entries[i]))
    else []
  }

  /** pydantic's check of `List[Dict[str, str]]`: accepted exactly when every value is a string. */
  function AsStringDicts(ds: seq<map<string, Value>>): (r: Option<seq<Source>>)
    ensures r.Some? <==> forall i, k :: 0 <= i < |ds| && k in ds[i] ==> ds[i][k].Str?
    ensures r.Some? ==> |r.value| == |ds|
    ensures r.Some? ==> forall i :: 0 <= i < |ds| ==>
      r.value[i].Keys == ds[i].Keys && forall k :: k in ds[i] ==> Str(r.value[i][k]) == ds[i][k]
  {
    if forall i, k :: 0 <= i < |ds| && k in ds[i] ==> ds[i][k].Str? then
      Some(seq(|ds|, i requires 0 <= i < |ds| => map k | k in ds[i] :: ds[i][k].s))
    else None
  }

  /** The reply with its `sources` rewritten, as handed to `FactCheckResult(**analysis)`. */
  function Analysis(fields: map<string, Value>): (analysis: map<string, Value>)
    ensures analysis.Keys == fields.Keys + {"sources"}
    ensures forall k :: k in fields && k != "sources" ==> analysis[k] == fields[k]
    ensures analysis["sources"] == DictList(NormaliseSources(fields))
  {
    fields["sources" := DictList(NormaliseSources(fields))]
  }

  /**
   * `analyze_factuality` after the model call: `reply` is `json.loads` of
   * the model's answer. Anything but a dictionary fails (`in` or item
   * assignment raises on it); a dictionary gets its `sources` normalised and
   * is handed to pydantic. Every failure gives the fallback.
   */
  function AnalyzeFactuality(reply: Option<Value>, validate: map<string, Value> -> Option<Scalars>,
                             detail: string): (r: FactCheckResult)
    ensures reply.None? || !reply.value.Dict? ==> r == Fallback(AnalyzeError, detail)
    ensures reply.Some? && reply.value.Dict? ==>
      var fields := reply.value.fields;
      var scalars, sources := validate(Analysis(fields)), AsStringDicts(NormaliseSources(fields));
      && (scalars.None? || sources.None? ==> r == Fallback(AnalyzeError, detail))
      && (scalars.Some? && sources.Some? ==>
            r == FactCheckResult(scalars.value.isFactual, scalars.value.confidence,
                                 scalars.value.reasoning, sources.value))
  {
    if reply.None? || !reply.value.Dict? then Fallback(AnalyzeError, detail)
    else
      var sources := NormaliseSources(reply.value.fields);
      match (validate(Analysis(reply.value.fields)), AsStringDicts(sources))
      case (Some(scalars), Some(validated)) =>
        FactCheckResult(scalars.isFactual, scalars.confidence, scalars.reasoning, validated)
      case _ => Fallback(AnalyzeError, detail)
  }

  /** The analysis fails closed: it is the fallback, or pydantic accepted the reply. */
  lemma AnalyzeFailsClosed(reply: Option<Value>, validate: map<string, Value> -> Option<Scalars>, detail: string)
    ensures var r := AnalyzeFactuality(reply, validate, detail);
      || (IsFallback(r, AnalyzeError) && r.reasoning == AnalyzeError + detail)
      || (reply.Some? && reply.value.Dict?
          && validate(Analysis(reply.value.fields)) == Some(Scalars(r.isFactual, r.confidence, r.reasoning)))
  {
  }

  /** A reply without a `sources` key, or with one that is not a list, has no sources. */
  lemma MissingSourcesAreEmpty(fields: map<string, Value>, validate: map<string, Value> -> Option<Scalars>,
                               detail: string)
    requires !("sources" in fields && fields["sources"].List?)
    ensures AnalyzeFactuality(Some(Dict(fields)), validate, detail).sources == []
  {
  }

  /** What the search agent's executor returned: `output` and `citations`, each possibly absent. */
  datatype AgentResponse = AgentResponse(output: Option<string>, citations: Option<seq<Citation>>)

  /** A citation object; its documents should be dictionaries. */
  datatype Citation = Citation(documents: seq<Value>)

  /** The model call inside `analyze_factuality`: it raised, or it answered with text that parsed to JSON or not. */
  datatype LlmReply = Replied(json: Option<Value>) | InvokeFailed

  /** All documents of all citations, in order. */
  function Documents(citations: seq<Citation>): seq<Value> {
    if citations == [] then []
    else Documents(citations[..|citations| - 1]) + citations[|citations| - 1].documents
  }

  /** The `url`/`content` projection of each document, in order: the search projection again. */
  function ProjectDocuments(documents: seq<Value>): (ds: seq<map<string, Value>>)
    requires AllDicts(documents)
    ensures |ds| == |documents|
    ensures forall i :: 0 <= i < |ds| ==> ds[i] == Project(documents[i].fields)
  {
    ProjectAll(Fields(documents))
  }

  /** The sources the citation loop builds, or `None` when a document is not a dictionary (`.get` raises). */
  function CitationSources(citations: seq<Citation>): Option<seq<map<string, Value>>> {
    var documents := Documents(citations);
    if AllDicts(documents) then Some(ProjectDocuments(documents)) else None
  }

  /** `response.get("output", "")`. */
  function OutputOf(response: AgentResponse): string {
    if response.output.Some? then response.output.value else ""
  }

  /** `response.get("citations", [])`. */
  function CitationsOf(response: AgentResponse): seq<Citation> {
    if response.citations.Some? then response.citations.value else []
  }

  /**
   * What `parse_agent_response` returns, stated on values: the fallback
   * when the model call raises, when a document has no `.get`, or when the
   * sources are not `Dict[str, str]`.
   */
  function ParsedResult(response: AgentResponse, llm: string -> LlmReply,
                        validate: map<string, Value> -> Option<Scalars>, detail: string): (r: FactCheckResult)
    ensures llm(OutputOf(response)).InvokeFailed? ==> r == Fallback(ParseError, detail)
    ensures CitationSources(CitationsOf(response)).None? ==> r == Fallback(ParseError, detail)
    ensures CitationSources(CitationsOf(response)).Some? ==>
      AsStringDicts(CitationSources(CitationsOf(response)).value).None? ==> r == Fallback(ParseError, detail)
  {
    match llm(OutputOf(response))
    case InvokeFailed => Fallback(ParseError, detail)
    case Replied(json) =>
      var factuality := AnalyzeFactuality(json, validate, detail);
      match CitationSources(CitationsOf(response))
      case None => Fallback(ParseError, detail)
      case Some(ds) =>
        match AsStringDicts(ds)
        case None => Fallback(ParseError, detail)
        case Some(sources) => FactCheckResult(factuality.isFactual, factuality.confidence, factuality.reasoning, sources)
  }

  lemma {:induction false} DocumentsAppend(xs: seq<Citation>, ys: seq<Citation>)
    ensures Documents(xs + ys) == Documents(xs) + Documents(ys)
    decreases |ys|
  {
    if ys == [] {
      assert xs + ys == xs;
    } else {
      var init := ys[..|ys| - 1];
      assert (xs + ys)[..|xs + ys| - 1] == xs + init;
      DocumentsAppend(xs, init);
    }
  }

  lemma DocumentsStep(citations: seq<Citation>, i: nat)
    requires i < |citations|
    ensures Documents(citations[..i + 1]) == Documents(citations[..i]) + citations[i].documents
  {
    assert citations[..i + 1][..i] == citations[..i];
  }

  /** A document that is not a dictionary anywhere in the citations makes the loop raise. */
  lemma BadDocument(citations: seq<Citation>, i: nat, j: nat)
    requires i < |citations| && j < |citations[i].documents|
    requires !citations[i].documents[j].Dict?
    ensures !AllDicts(Documents(citations))
  {
    assert citations == citations[..i + 1] + citations[i + 1..];
    DocumentsAppend(citations[..i + 1], citations[i + 1..]);
    DocumentsStep(citations, i);
    assert Documents(citations)[|Documents(citations[..i])| + j] == citations[i].documents[j];
  }

  lemma ProjectDocumentsSnoc(documents: seq<Value>, document: Value)
    requires AllDicts(documents) && document.Dict?
    ensures AllDicts(documents + [document])
    ensures ProjectDocuments(documents + [document]) == ProjectDocuments(documents) + [Project(document.fields)]
  {
  }

  /**
   * `parse_agent_response`: the analyser's verdict on `output` (missing:
   * `""`), with its sources replaced by the documents of every citation
   * (missing: `[]`) in order, each projected to `url` and `content`.
   */
  method ParseAgentResponse(response: AgentResponse, llm: string -> LlmReply,
                            validate: map<string, Value> -> Option<Scalars>, detail: string)
    returns (r: FactCheckResult)
    ensures r == ParsedResult(response, llm, validate, detail)
  {
    var citations := CitationsOf(response);
    var reply := llm(OutputOf(response));
    if reply.InvokeFailed? {
      return Fallback(ParseError, detail);
    }
    var factuality := AnalyzeFactuality(reply.json, validate, detail);
    var sources: seq<map<string, Value>> := [];
    ghost var seen: seq<Value> := [];
    var i := 0;
    while i < |citations|
      invariant 0 <= i <= |citations|
      invariant seen == Documents(citations[..i])
      invariant AllDicts(seen) && sources == ProjectDocuments(seen)
    {
      var documents := citations[i].documents;
      var j := 0;
      while j < |documents|
        invariant 0 <= j <= |documents|
        invariant seen == Documents(citations[..i]) + documents[..j]
        invariant AllDicts(seen) && sources == ProjectDocuments(seen)
      {
        var document := documents[j];
        if !document.Dict? {
          BadDocument(citations, i, j);
          return Fallback(ParseError, detail);
        }
        ProjectDocumentsSnoc(seen, document);
        assert documents[..j + 1] == documents[..j] + [document];
        sources := sources + [Project(document.fields)];
        seen := seen + [document];
        j := j + 1;
      }
      assert documents[..j] == documents;
      DocumentsStep(citations, i);
      i := i + 1;
    }
    assert citations[..i] == citations;
    var validated := AsStringDicts(sources);
    if validated.None? {
      return Fallback(ParseError, detail);
    }
    r := FactCheckResult(factuality.isFactual, factuality.confidence, factuality.reasoning, validated.value);
  }

  /**
   * When nothing fails, the parsed result has the analyser's verdict,
   * confidence and reasoning, and as sources exactly the citation
   * documents, in order, whatever sources the analyser found. In every
   * case it is that or the fallback.
   */
  lemma ParsedSourcesFromCitations(response: AgentResponse, llm: string -> LlmReply,
                                   validate: map<string, Value> -> Option<Scalars>, detail: string)
    ensures var r := ParsedResult(response, llm, validate, detail);
      var citations := CitationsOf(response);
      || (IsFallback(r, ParseError) && r.reasoning == ParseError + detail)
      || (CitationSources(citations).Some? && AsStringDicts(CitationSources(citations).value) == Some(r.sources))
    ensures var citations := CitationsOf(response);
      llm(OutputOf(response)).Replied? && CitationSources(citations).Some?
      && AsStringDicts(CitationSources(citations).value).Some? ==>
        var a := AnalyzeFactuality(llm(OutputOf(response)).json, validate, detail);
        ParsedResult(response, llm, validate, detail)
          == FactCheckResult(a.isFactual, a.confidence, a.reasoning, AsStringDicts(CitationSources(citations).value).value)
  {
  }

  /** Splitting the citations splits the sources: they are concatenated in citation order. */
  lemma CitationSourcesAppend(xs: seq<Citation>, ys: seq<Citation>)
    requires CitationSources(xs).Some? && CitationSources(ys).Some?
    ensures CitationSources(xs + ys) == Some(CitationSources(xs).value + CitationSources(ys).value)
  {
    var dx: seq<Value>, dy: seq<Value> := Documents(xs), Documents(ys);
    DocumentsAppend(xs, ys);
    forall i | 0 <= i < |dx + dy|
      ensures (dx + dy)[i].Dict?
    {
      if i < |dx| {
        assert (dx + dy)[i] == dx[i];
      } else {
        assert (dx + dy)[i] == dy[i - |dx|];
      }
    }
    assert ProjectDocuments(dx + dy) == ProjectDocuments(dx) + ProjectDocuments(dy);
  }

  /** The recommendation of `overall_assessment`. */
  datatype Recommendation = Supported | Contradicted | NeedsFurtherInvestigation {

    /** The string the response carries. */
    function Name(): string {
      match this
      case Supported => "supported"
      case Contradicted => "contradicted"
      case NeedsFurtherInvestigation => "needs_further_investigation"
    }
  }

  datatype Assessment = Assessment(conflictingEvidence: bool, confidenceDifferential: real,
                                   recommendation: Recommendation)

  function Abs(x: real): real {
    if x < 0.0 then -x else x
  }

  /** The `overall_assessment` block, from the supporting and opposing confidences. */
  function OverallAssessment(supporting: real, opposing: real): (a: Assessment)
    ensures a.conflictingEvidence <==> supporting > 0.5 && opposing > 0.5
    ensures a.confidenceDifferential >= 0.0
    ensures a.confidenceDifferential == supporting - opposing || a.confidenceDifferential == opposing - supporting
    ensures a.recommendation == NeedsFurtherInvestigation <==> a.conflictingEvidence
    ensures a.recommendation == Supported <==> !a.conflictingEvidence && supporting > opposing
    ensures a.recommendation == Contradicted <==> !a.conflictingEvidence && supporting <= opposing
  {
    var conflicting := supporting > 0.5 && opposing > 0.5;
    Assessment(conflicting, Abs(supporting - opposing),
               if conflicting then NeedsFurtherInvestigation
               else if supporting > opposing then Supported
               else Contradicted)
  }

  /** Swapping the two confidences keeps the differential and the conflict flag. */
  lemma AssessmentSymmetric(supporting: real, opposing: real)
    ensures OverallAssessment(supporting, opposing).confidenceDifferential
         == OverallAssessment(opposing, supporting).confidenceDifferential
    ensures OverallAssessment(supporting, opposing).conflictingEvidence
        == OverallAssessment(opposing, supporting).conflictingEvidence
  {
  }

  /** Without conflict, a strict difference flips the verdict when the sides are swapped; a tie is "contradicted" both ways. */
  lemma SwapFlipsVerdict(supporting: real, opposing: real)
    requires !(supporting > 0.5 && opposing > 0.5)
    ensures supporting != opposing ==>
      (OverallAssessment(supporting, opposing).recommendation == Supported
       <==> OverallAssessment(opposing, supporting).recommendation == Contradicted)
    ensures supporting == opposing ==>
      OverallAssessment(supporting, opposing).recommendation == Contradicted
  {
  }

  /** Two fallback results (both failed) assess as "contradicted", by the tie rule. */
  lemma FailuresAssessContradicted(p1: string, d1: string, p2: string, d2: string)
    ensures var a := OverallAssessment(Fallback(p1, d1).confidence, Fallback(p2, d2).confidence);
      a == Assessment(false, 0.0, Contradicted) && a.recommendation.Name() == "contradicted"
  {
  }
}
