# OpenSesame fact-checking core, modelled in Dafny

OpenSesame checks a spoken or typed claim against the web. It has two
pipelines, and this project models the logic at the heart of both.

The first is a small message-passing system. A `MessageBroker` logs every
message and hands it to the callback subscribed under the receiver's id. A
FOR agent and an AGAINST agent each wrap the claim in a stance prompt and run
a web search. They answer with a "response" message for the judge. The judge
stores each stance under `"for"` or `"against"`. Once it holds both, it sends
`"app"` a summary (`FOR: n sources, AGAINST: m sources.`) together with the
concatenated source lists.

The second is the HTTP fact checker in `agent.py`, which works in four steps:

- An LLM's JSON reply is turned into a `FactCheckResult`, with its sources
  normalised to `url`/`content` pairs.
- Every failure falls back to a fixed "not factual, confidence 0" result.
- Citation documents become the sources of the result.
- The supporting and opposing confidences give an overall recommendation.

Around these sit three smaller pieces: the search projection, the transcript
combiner (which drops `[Music]`/`[Applause]` markers), and the demo page's
YouTube video-id extraction.

The modules follow the source files:

| module | file | form |
|---|---|---|
| `PyValues` | the Python value operations the core relies on | functions |
| `AgentMessages`, `BaseAgents` | agents/base_agent.py | functions, a class |
| `ModelMessages` | models/message.py | functions |
| `Broker` | broker.py | class `MessageBroker` with `messageLog`/`subscribers` fields |
| `Search` | services/search.py | functions |
| `EvidenceAgents` | agents/for_agent.py, agents/against_agent.py | classes, functions |
| `JudgeAgents` | agents/judge_agent.py | class `JudgeAgent` with a `results` field, and its step function |
| `FactCheck` | agent.py | functions, and a method with loops for `parse_agent_response` |
| `Transcript` | youtube.py | functions |
| `VideoIds` | landing_page/src/page/DemoPage.tsx | functions, a class for the page state |

Python's dynamic values are the datatype `PyValues.Value`. Operations that
raise are written out with a `Result` whose failure names the exception:
`in`, subscripting, `+` and `len`.

The model keeps three behaviours of the code as written:

- `JudgeAgent.receive_message` on a message that is not a "response" reaches
  `self.logger.error(...)`. No agent class defines `logger`, so that call
  raises `AttributeError`.
- The FOR and AGAINST agents subscript their argument with
  `message["content"]`. The dataclass `Message` the broker delivers has no
  `__getitem__`, so that raises `TypeError`. Only a plain dictionary argument
  gets through.
- The broker returns whatever the receiver's callback returns, and `None`
  when nobody is subscribed.

External inputs become parameters:

- the clock: the ISO-8601 text `now`;
- the search service: `tavily`, from query to the raw result list, or the exception its call raised;
- the LLM: `llm`, from prompt to its JSON reply or a failure;
- pydantic's scalar-field validation: `validate`;
- Python's `str()` of a non-string claim: `render`;
- the text of a caught exception: `detail`.

## Model

| member | source | states |
|---|---|---|
| PyValues.Contains | agents/judge_agent.py:15-21 | `key in x` is dictionary membership on a dict; it succeeds on a dict, list or string and raises TypeError on anything else |
| PyValues.Subscript | agents/judge_agent.py:16-18 | `x[key]` succeeds exactly when `x` is a dict holding `key`, and then yields the stored value |
| PyValues.Add | agents/judge_agent.py:22-25 | `a + b` on two lists is their concatenation; it succeeds only on two lists, two strings or two numbers |
| PyValues.Len | agents/judge_agent.py:43 | `len(v)` is the item count of a list; it succeeds only on a list, string or dict |
| PyValues.NatToString | agents/judge_agent.py:43 | `str(n)` is a non-empty run of decimal digits |
| PyValues.ParseNatToString | agents/judge_agent.py:43 | printing a count loses nothing: reading the digits back gives the count |
| PyValues.NatToStringInjective | agents/judge_agent.py:43 | two different counts never print the same |
| AgentMessages.NewMessage | agents/base_agent.py:5-17 | fields are stored as given; a missing or empty timestamp becomes the clock reading; a missing or empty id becomes `sender-timestamp`, using the settled timestamp |
| AgentMessages.DefaultIdNamesSender | agents/base_agent.py:17 | a defaulted id is the sender, a dash, then the timestamp |
| AgentMessages.PostInitIdempotent | agents/base_agent.py:15-17 | rebuilding a message from its own fields gives the same message under any later clock, provided the first clock reading was not empty |
| AgentMessages.ToDict | agents/base_agent.py:19-28 | exactly the seven keys, each holding the matching attribute |
| AgentMessages.ToDictRoundTrip | agents/base_agent.py:19-28 | the message can be read back from `to_dict` unchanged |
| BaseAgents.CreateMessage | agents/base_agent.py:36-42 | a "response" from the agent to the receiver, carrying the content, with metadata `None`, the clock's timestamp and id `agent-timestamp` |
| BaseAgents.BaseAgent.constructor | agents/base_agent.py:31-34 | the agent subscribes itself under its id; the broker's log is untouched |
| BaseAgents.BaseAgent.ReceiveMessage | agents/base_agent.py:44-45 | the base handler always raises NotImplementedError |
| ModelMessages.NewMessage | models/message.py:5-11 | fields as given; falsy metadata becomes `{}`; the timestamp is always the clock's |
| ModelMessages.MetadataNeverNone | models/message.py:10 | stored metadata is never `None`: it is either truthy or `{}` |
| ModelMessages.TimestampOnlyFromClock | models/message.py:11 | two constructions from the same arguments differ only in the timestamp |
| ModelMessages.ToDict | models/message.py:13-21 | exactly six keys and no `message_id`, each holding the matching attribute |
| ModelMessages.ToDictRoundTrip | models/message.py:13-21 | every attribute survives `to_dict` |
| Broker.MessageBroker.constructor | broker.py:6-8 | the log and the subscriber table start empty |
| Broker.MessageBroker.Subscribe | broker.py:11-13 | the id now maps to the callback, replacing any earlier one; the log is unchanged |
| Broker.MessageBroker.SendMessage | broker.py:15-22 | the message is appended to the log whether or not anyone is subscribed; the result is the subscribed callback's result, or `None` when there is none; the subscriber table is unchanged |
| Search.Project | services/search.py:10-13 | exactly `url` and `content`, each copied from the raw result or defaulted to "No URL" / "No content" |
| Search.ProjectIdempotent | services/search.py:10-13 | projecting a projected item changes nothing |
| Search.ProjectAll | services/search.py:9-15 | one item per raw result, in order, each its projection |
| Search.ProjectAllAppend | services/search.py:9-15 | the projection distributes over concatenated result lists |
| Search.PerformSearch | services/search.py:3-15 | an exception of the search call passes through; a raw result that is not a dictionary raises AttributeError (`.get`); otherwise as many items as the service returned, each with exactly the two keys and projected from the raw result at the same index; no results give `[]` |
| EvidenceAgents.Format | agents/for_agent.py:16 | the formatted query is the prompt head, then the claim, then the prompt tail |
| EvidenceAgents.FormatRoundTrip | agents/for_agent.py:7-16 | the claim can be recovered from the formatted query |
| EvidenceAgents.FormatPlaceholder | agents/for_agent.py:7-11 | formatting with the literal `{query}` gives back the prompt text |
| EvidenceAgents.StancesQueryDifferently | agents/against_agent.py:7-11 | the FOR and AGAINST queries differ for every pair of claims |
| EvidenceAgents.ArgumentContent | agents/for_agent.py:14 | `message["content"]` raises TypeError on a message record; on a plain value it is the dict subscript |
| AgentMessages.SubscriptRecord | agents/for_agent.py:14 | subscripting a message record always raises TypeError: the dataclass has no `__getitem__` |
| EvidenceAgents.Respond | agents/for_agent.py:13-18 | an exception from reading the content or from the search passes through; otherwise a "response" from the agent to `judge_agent`, metadata `None`, carrying the projected search items |
| EvidenceAgents.ForAgent.constructor | agents/for_agent.py:5-11 | subscribes under `for_agent`; the log is untouched |
| EvidenceAgents.ForAgent.ReceiveMessage | agents/for_agent.py:13-18 | a record or a non-dict argument raises TypeError and a dict without `content` raises KeyError; otherwise the search's exception passes through, or the reply is the message from `for_agent` to `judge_agent` carrying the projected search results for the FOR prompt formatted with `str(content)` |
| EvidenceAgents.AgainstAgent.constructor | agents/against_agent.py:5-11 | subscribes under `against_agent`; the log is untouched |
| EvidenceAgents.AgainstAgent.ReceiveMessage | agents/against_agent.py:13-18 | as for FOR, with the AGAINST prompt and sender `against_agent` |
| JudgeAgents.Ingest | agents/judge_agent.py:14-18 | a `for` key stores the FOR stance and wins over `against`; otherwise `against` stores the AGAINST stance; otherwise nothing changes; content that is not a dict raises or changes nothing |
| JudgeAgents.GenerateSummary | agents/judge_agent.py:41-43 | on two lists, `FOR: n sources, AGAINST: m sources.` with their lengths; it succeeds exactly when both lengths exist |
| JudgeAgents.SummaryDetermined | agents/judge_agent.py:43 | the summary text determines both counts |
| JudgeAgents.Combine | agents/judge_agent.py:21-36 | with both stances holding source lists, the verdict message; any message is a "response" from the judge to `app`; a stance that is not a dict raises |
| JudgeAgents.JudgeStep | agents/judge_agent.py:10-39 | a non-"response" raises AttributeError and changes nothing; otherwise `results` becomes what `Ingest` stores, or stays when `Ingest` raises; `results` only gains `for`/`against` and keeps every other key; with both stances stored, the sent message is exactly the `Combine` verdict of the stored stances (summary and FOR-then-AGAINST sources), or the call raises what `Combine` raised; a message is sent exactly when the call succeeds and both stances are stored, from the judge to `app` |
| JudgeAgents.JudgeAgent.constructor | agents/judge_agent.py:6-8 | subscribes under its id and starts with empty `results` |
| JudgeAgents.JudgeAgent.ReceiveMessage | agents/judge_agent.py:10-39 | the new `results`, the outcome and the broker log (old log plus the sent verdict, if any) are those of `JudgeStep`; subscribers unchanged |
| JudgeAgents.DigitRunSplit | agents/judge_agent.py:43 | a string of digits followed by a non-digit splits in only one way |
| JudgeAgents.BothStancesSendOnce | agents/judge_agent.py:10-37 | a fresh judge given one FOR and one AGAINST response, in either order, sends exactly one verdict, on the second call, with FOR sources first |
| JudgeAgents.LatestForWins | agents/judge_agent.py:15-37 | FOR, FOR again, then AGAINST: one verdict is sent, on the AGAINST call, carrying the second FOR stance |
| JudgeAgents.ResolvedKeepsSending | agents/judge_agent.py:8-37 | `results` is never cleared: once both stances are stored, every further dict "response" sends again, using the newly carried stance |
| JudgeAgents.RunSendsOnlyVerdicts | agents/judge_agent.py:21-37 | over any sequence of calls, every sent message goes from the judge to `app`, and stored keys are never lost |
| FactCheck.NormaliseEntry | agent.py:72-75 | a dict source becomes its `url`/`content` projection; any other value becomes `{"url": value, "content": "No content"}` |
| FactCheck.NormaliseSources | agent.py:67-79 | a missing or non-list `sources` becomes `[]`; a list is normalised entry by entry |
| FactCheck.Analysis | agent.py:67-81 | the dictionary handed to `FactCheckResult(**analysis)` has the reply's keys plus `sources`, every other key unchanged |
| FactCheck.AsStringDicts | agent.py:29-81 | the `Dict[str, str]` check passes exactly when every value is a string, and keeps the entries |
| FactCheck.AnalyzeFactuality | agent.py:63-89 | a reply that is not a dict gives the `Error analyzing response: ` fallback; a dict whose normalised analysis validation accepts and whose normalised sources are all strings gives exactly the validated verdict, confidence and reasoning with those sources; any other dict gives the fallback |
| FactCheck.AnalyzeFailsClosed | agent.py:81-89 | the analysis is the fallback with reasoning `Error analyzing response: <detail>`, or its scalars are what validation accepted |
| FactCheck.MissingSourcesAreEmpty | agent.py:67-79 | a reply without a `sources` list yields no sources |
| FactCheck.ProjectDocuments | agent.py:163-168 | one source per document, in order, each the `url`/`content` projection of that document |
| FactCheck.ParsedResult | agent.py:145-183 | the `Error parsing response: ` fallback when the model call raises, when a citation document has no `.get`, or when the sources are not all strings |
| FactCheck.ParseAgentResponse | agent.py:145-183 | the loops over citations and documents compute exactly `ParsedResult`: the parse fallback, or the analyser's scalars with the sources projected from all citation documents |
| FactCheck.ParsedSourcesFromCitations | agent.py:156-175 | the parsed result is the fallback or carries the citation sources; when nothing fails it is exactly the analyser's verdict, confidence and reasoning with the projected citation documents as sources, whatever sources the analyser found |
| FactCheck.CitationSourcesAppend | agent.py:161-168 | the sources of concatenated citation lists are the concatenated sources |
| FactCheck.DocumentsAppend | agent.py:161-163 | the documents of concatenated citation lists are concatenated in order |
| FactCheck.OverallAssessment | agent.py:219-223 | evidence conflicts exactly when both confidences exceed 0.5; the differential is their non-negative distance; the recommendation is `needs_further_investigation` on conflict, otherwise `supported` exactly when supporting > opposing, else `contradicted` |
| FactCheck.AssessmentSymmetric | agent.py:220-221 | swapping the confidences keeps the conflict flag and the differential |
| FactCheck.SwapFlipsVerdict | agent.py:222 | without conflict, swapping distinct confidences flips supported and contradicted; equal ones are contradicted both ways |
| FactCheck.FailuresAssessContradicted | agent.py:84-223 | two fallback analyses are assessed as contradicted, without conflict, with differential 0 |
| Transcript.Kept | youtube.py:5-8 | at most as many texts as entries, and none of them a marker |
| Transcript.KeptAppend | youtube.py:6-7 | the filter works entry by entry, in order |
| Transcript.KeptMembership | youtube.py:6-7 | a text survives exactly when some entry carries it and it is not exactly `[Music]` or `[Applause]` |
| Transcript.Join | youtube.py:5 | joining nothing gives `""`; k texts give their total length plus k − 1, starting with the first text |
| Transcript.CombineTranscript | youtube.py:3-9 | nothing kept gives `""`; otherwise the length is the kept texts' total length plus one separator between each pair |
| Transcript.JoinAppend | youtube.py:5 | joining puts exactly one space between neighbours and none at either end |
| Transcript.CombineAppend | youtube.py:3-9 | combining two parts adds a space only when both keep something |
| Transcript.MarkersOnlyEmpty | youtube.py:3-9 | an empty or fully filtered transcript gives the empty string |
| Transcript.ContainedMarkerKept | youtube.py:7 | only exact markers are dropped: `[Music] hi` survives |
| VideoIds.RunEnd | landing_page/src/page/DemoPage.tsx:11 | `.+` extends to the first line terminator or the end |
| VideoIds.Backtrack | landing_page/src/page/DemoPage.tsx:11 | greedy `.+&v=` picks the rightmost reachable `&v=` followed by an id, and finds none only when there is none |
| VideoIds.MatchAt | landing_page/src/page/DemoPage.tsx:11 | a match at a position is 11 allowed characters that immediately follow one of the five prefixes starting there |
| VideoIds.MatchAtComplete | landing_page/src/page/DemoPage.tsx:11 | wherever a prefix is followed by an id, the match attempt there succeeds |
| VideoIds.Search | landing_page/src/page/DemoPage.tsx:10-12 | the result is the match at the leftmost position where one exists, and none when no position matches |
| VideoIds.Extract | landing_page/src/page/DemoPage.tsx:10-14 | an extracted id has exactly 11 characters, none of them `"`, `&`, `?`, `/` or white space |
| VideoIds.ExtractComplete | landing_page/src/page/DemoPage.tsx:10-13 | a URL containing a prefix followed by an id always yields an id |
| VideoIds.ExtractLeftmost | landing_page/src/page/DemoPage.tsx:10-12 | the id follows a prefix and is taken from the leftmost matching position |
| VideoIds.ExtractNoneWhenNoPrefix | landing_page/src/page/DemoPage.tsx:10-13 | without any prefix followed by an id, nothing is extracted |
| VideoIds.ShortLinkId | landing_page/src/page/DemoPage.tsx:11 | after `youtu.be/`, the eleven id characters are the id, whatever follows |
| VideoIds.TruncatesLongId | landing_page/src/page/DemoPage.tsx:11 | a longer run of id characters is cut to its first eleven |
| VideoIds.WatchLinkId | landing_page/src/page/DemoPage.tsx:11 | after `youtube.com/watch?v=`, the direct alternative wins over any later `&v=` |
| VideoIds.DemoPage.constructor | landing_page/src/page/DemoPage.tsx:5-6 | both state strings start empty |
| VideoIds.DemoPage.SetYoutubeUrl | landing_page/src/page/DemoPage.tsx:48 | the change handler replaces the URL and keeps the id |
| VideoIds.DemoPage.HandleYoutubeSubmit | landing_page/src/page/DemoPage.tsx:8-16 | on a match the video id becomes the extracted id; with no match it is unchanged; the URL is unchanged |

## Left out

- The Tavily search, the Cohere LLM call and `datetime.now()` are parameters (`tavily`, `llm`, `now`).
- `os.environ` is not modelled. A missing `COHERE_API_KEY` raises KeyError inside the `try` at agent.py:155; the model can express that only as `llm` returning `InvokeFailed`, which gives the same parse fallback.
- The module-level `youtube_transcript_api` fetch and print at youtube.py:11-13 are not modelled: `CombineTranscript` takes the transcript as its input.
- The `print` calls in `parse_agent_response` are not modelled.
- Logging calls (`logger.warning`, `logger.error`) are not modelled; they have no effect on results.
- `json.loads` is not modelled: the LLM reply arrives already parsed, or as "not JSON" (`None`).
- FactCheck.AnalyzeFactuality: pydantic's validation of `is_factual`, `confidence` and `reasoning` is the parameter `validate`, so coercions such as `"true"` to `True` are not spelt out. Only the `Dict[str, str]` check on sources is concrete.
- Confidences are `real`, so floating-point rounding is not modelled.
- PyValues.Add: `bool` arithmetic (`True + 1`) is not modelled. `Bool` values never add.
- Broker.MessageBroker.SendMessage: re-entrant dispatch is not reproduced. The judge's own `send_message` call happens inside its handler; in the model the callback is a function `invoke` of the handler and the message. An exception raised by a callback is not propagated through `SendMessage`; the judge's outcome carries its own exceptions.
- JudgeAgents.Ingest: for content that is not a dict, the contract only says the call raises or changes nothing. Python's `in` on a string or list, followed by a subscript, is still modelled exactly in the body.
- EvidenceAgents.PyStr: `str()` of a non-string claim is the parameter `render`.
- Search.PerformSearch: the search tool's return value is taken to be a list. A return of another type, iterated by the comprehension, is not modelled.
- FactCheck.ParsedResult: a `citations` entry that is present but `None`, or a citation without a `documents` attribute, is not modelled. In the source either raises inside the `try` and gives the parse fallback.
- `extract_tavily_sources` (agent.py:31-41) is not modelled. Nothing calls it, and its loop appends each item to itself.
- `create_search_agent` and the Flask route `invoke_dual_agents` (agent.py:91-143, 185-230) are not modelled. They are LangChain/Flask wiring; only the `overall_assessment` computation is modelled, as FactCheck.OverallAssessment.
- app.py, liveAudio.py, audio.py, chrome/background.js, chrome/modal.js, landing_page/src/page/LandingPage.tsx, landing_page/src/App.tsx and landing_page/src/service/apiService.ts are not part of this model. They are server wiring, audio threads and devices, browser-extension APIs and UI.
- Transcript entries are modelled as records with a text. An entry without a `text` key would raise `KeyError`; that case is not modelled.
- VideoIds: JavaScript strings are UTF-16 code units; the model works on Unicode characters, so astral-plane characters count as one character rather than two.
- The JSX rendering of DemoPage.tsx (lines 18-85) is not modelled, except the input's `onChange` handler at line 48, which is `VideoIds.DemoPage.SetYoutubeUrl`.
