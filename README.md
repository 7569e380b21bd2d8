# Content pipeline: tool lookups and termination policy

This project models the deterministic decision logic of a multi-agent content
pipeline. In that pipeline, a Planner, a Researcher, a Writer and a Critic take
turns in an AutoGen group chat under an Admin proxy agent. The logic modelled
here is the part the repository itself owns:

- `search_knowledge_base` (`knowledge_tools.dfy`, module `KnowledgeTools`).
  It normalises the topic: lower-case, then spaces and hyphens become `_`.
  Then it tries an exact key of the ordered knowledge base. Otherwise it takes
  the first key, in table order, where either string contains the other.
  Otherwise it returns a failure record that lists every key. The table is an
  ordered `seq<(string, Entry)>`, as a Python dict keeps insertion order.
- `get_writing_guidelines` (same module). It is an exact, case-sensitive lookup
  over four content types, with a failure record that lists them.
- `TOOL_SCHEMAS` (same module). These are the advertised schemas of the two
  tools. They are proved consistent with the handlers in names, required
  fields and an `enum` that matches the guideline keys. An argument map is
  bound to the guideline handler as Python keyword arguments. The schema and
  the handler agree on every map that binds and carries `content_type`. They
  disagree on two kinds of map. The schema rejects a map without
  `content_type`, which the handler's default accepts. The schema admits a
  map with an extra key, on which the binding raises `TypeError`.
- `is_termination_message` (`pipeline.dfy`, module `Pipeline`). It upper-cases
  the message content and tests whether it contains one of three completion
  signals.
- The topic menu (same module). It maps the typed choice to one of five topics,
  or keeps the default.

`text.dfy` (module `Text`) holds the Python string operations these rely on,
restricted to ASCII: `lower`, `upper`, one-character `replace`, and `in` on two
strings. `in` is defined as "occurs at some position". `wrappers.dfy` holds
`Option`.

Every member is a pure function or a lemma. The source code in these parts only
composes string transforms and dict lookups. Its one loop is a read-only
first-match search with an early return. That loop is modelled as the recursive
function `FirstPartialMatch` over the ordered table.

The orchestration (turn-taking, "auto" speaker selection, round limits and
function dispatch) runs inside AutoGen's `GroupChat`, `GroupChatManager` and
`UserProxyAgent`. That code is not part of this repository, so it is not part of
this model.

## Model

| member | source | states |
|---|---|---|
| `KnowledgeTools.Keys` | demo1_content_pipeline/tools/knowledge_tools.py:146 | the key list has one key per table entry, in table order |
| `KnowledgeTools.FindKey` | demo1_content_pipeline/tools/knowledge_tools.py:133-137 | dict membership and lookup: a found position holds the key; nothing is found iff the key is not among the keys |
| `KnowledgeTools.FindKeyUnique` | demo1_content_pipeline/tools/knowledge_tools.py:133-137 | with distinct keys, the lookup returns exactly the position that holds the key |
| `KnowledgeTools.Normalize` | demo1_content_pipeline/tools/knowledge_tools.py:130 | the three passes act as one per-character map: length kept, spaces and hyphens become `_`, letters lower-cased; no upper-case letter, space or hyphen remains |
| `KnowledgeTools.NormalizeConcat` | demo1_content_pipeline/tools/knowledge_tools.py:130 | normalising a concatenation is concatenating the normal forms |
| `KnowledgeTools.NormalizeIdempotent` | demo1_content_pipeline/tools/knowledge_tools.py:130 | normalising twice equals normalising once |
| `KnowledgeTools.PartialMatch` | demo1_content_pipeline/tools/knowledge_tools.py:142 | the loop's test: the normalised query is contained in the key, or the key in the query |
| `KnowledgeTools.FirstPartialMatch` | demo1_content_pipeline/tools/knowledge_tools.py:141-143 | the loop returns the first position whose key contains, or is contained in, the query; no earlier key does; if nothing is returned, no key matches |
| `KnowledgeTools.SearchIn` | demo1_content_pipeline/tools/knowledge_tools.py:117-153 | every result, success or failure, echoes the caller's original un-normalised topic |
| `KnowledgeTools.SearchReturnsChosen` | demo1_content_pipeline/tools/knowledge_tools.py:130-143 | an exact key match returns that key's entry without consulting the loop; otherwise the first partially matching key's entry is returned |
| `KnowledgeTools.SearchFoundIsChosen` | demo1_content_pipeline/tools/knowledge_tools.py:130-143 | every success carries the entry of the exact key or of the first partially matching key, and of no other |
| `KnowledgeTools.SearchNotFoundIff` | demo1_content_pipeline/tools/knowledge_tools.py:141-152 | failure iff no key matches exactly or partially; a failure has the fixed error text, every key in table order, and the suggestion |
| `KnowledgeTools.SearchDependsOnlyOnNormalized` | demo1_content_pipeline/tools/knowledge_tools.py:130-143 | queries with equal normal forms give the same success flag and data (and topic list); the echoed topic and the error text follow the raw query |
| `KnowledgeTools.SearchNormalizedQuery` | demo1_content_pipeline/tools/knowledge_tools.py:130-143 | searching with the normalised query gives the same success flag and data (and topic list) as the raw query; the echoed topic and the error text follow the raw query |
| `KnowledgeTools.KnowledgeBaseWellFormed` | demo1_content_pipeline/tools/knowledge_tools.py:10-114 | the five keys are distinct, in the order python_asyncio, autogen_agents, machine_learning, api_design, docker_basics |
| `KnowledgeTools.SearchKnowledgeBase` | demo1_content_pipeline/tools/knowledge_tools.py:117-153 | the topic is echoed, and a failure lists exactly the five keys in table order |
| `KnowledgeTools.SearchEmptyTopic` | demo1_content_pipeline/tools/knowledge_tools.py:141-143 | the empty topic is contained in every key and returns the python_asyncio entry |
| `KnowledgeTools.SearchPythonAsyncio` | demo1_content_pipeline/tools/knowledge_tools.py:12-138 | "python asyncio" succeeds with the entry titled "Python Asyncio Basics" |
| `KnowledgeTools.UnknownTopicContainsNoKey` | demo1_content_pipeline/tools/knowledge_tools.py:142 | no key is contained in "quantum_kittens" |
| `KnowledgeTools.UnknownTopicInNoKey` | demo1_content_pipeline/tools/knowledge_tools.py:142 | "quantum_kittens" is contained in no key |
| `KnowledgeTools.SearchUnknownTopic` | demo1_content_pipeline/tools/knowledge_tools.py:141-152 | "quantum kittens" fails with its error text, the five keys and the suggestion |
| `KnowledgeTools.GuidelineTableWellFormed` | demo1_content_pipeline/tools/knowledge_tools.py:168-259 | the guideline keys are distinct, in the order technical_blog, tutorial, documentation, email |
| `KnowledgeTools.GetWritingGuidelines` | demo1_content_pipeline/tools/knowledge_tools.py:261-272 | success iff the content type is exactly one of the four keys, with that key's body and the type echoed; failure has the error text and the four keys in order |
| `KnowledgeTools.DefaultGuidelines` | demo1_content_pipeline/tools/knowledge_tools.py:156 | the default argument succeeds with the technical-blog guidelines |
| `KnowledgeTools.GuidelinesNotNormalized` | demo1_content_pipeline/tools/knowledge_tools.py:261 | "Tutorial", "technical blog" and "technical-blog" fail: no case folding or separator normalisation |
| `KnowledgeTools.ToolSchemasConsistent` | demo1_content_pipeline/tools/knowledge_tools.py:276-305 | two schemas named after the handlers, each with one required string parameter (`topic`, `content_type`); the `enum` equals the guideline key list |
| `KnowledgeTools.CallWritingGuidelines` | demo1_content_pipeline/tools/knowledge_tools.py:156-272 | keyword binding fails (`TypeError`) iff some argument is not `content_type`; otherwise a call without `content_type` takes the default and succeeds, and a call with it succeeds iff its value is one of the four types |
| `KnowledgeTools.GuidelineSchemaMatchesHandler` | demo1_content_pipeline/tools/knowledge_tools.py:291-305 | for argument maps that bind to the handler, every map the schema admits makes the call succeed; when `content_type` is also given, the schema admits exactly the maps on which the call succeeds |
| `KnowledgeTools.SchemaRejectsDefaultCall` | demo1_content_pipeline/tools/knowledge_tools.py:303 | the schema's `required` rejects the empty argument map, on which the call succeeds through the default of line 156 |
| `KnowledgeTools.SchemaAdmitsExtraArgument` | demo1_content_pipeline/tools/knowledge_tools.py:296-303 | the schema, which does not forbid further properties, admits `{"content_type": "tutorial", "extra": "x"}`, on which the call raises `TypeError` |
| `Text.Lower` | demo1_content_pipeline/tools/knowledge_tools.py:130 | `str.lower` on ASCII: each upper-case letter becomes its lower-case letter, every other character is kept |
| `Text.Upper` | demo1_content_pipeline/main.py:52 | `str.upper` on ASCII: each lower-case letter becomes its upper-case letter, every other character is kept |
| `Text.ReplaceChar` | demo1_content_pipeline/tools/knowledge_tools.py:130 | `str.replace` with one-character arguments: every occurrence of the target character is replaced |
| `Text.IsSubstring` | demo1_content_pipeline/main.py:58 | Python's `in` on two strings: the needle occurs at some position of the hay |
| `Text.LongerNotSubstring` | demo1_content_pipeline/main.py:58 | a string is never found in a shorter one |
| `Text.NotSubstringAt` | demo1_content_pipeline/tools/knowledge_tools.py:142 | a string is absent if one of its characters appears at none of the places an occurrence would put it |
| `Text.SubstringTransitive` | demo1_content_pipeline/main.py:58 | string containment is transitive |
| `Text.SubstringOfConcat` | demo1_content_pipeline/main.py:58 | a string occurs in any string that surrounds it |
| `Text.UpperKeepsSubstring` | demo1_content_pipeline/main.py:52-58 | upper-casing both strings keeps an occurrence |
| `Text.UpperOccursIff` | demo1_content_pipeline/main.py:52-58 | for a needle without lower-case letters, occurring in the upper-cased hay is exactly occurring in the hay up to letter case |
| `Text.UpperIgnoresCase` | demo1_content_pipeline/main.py:52 | strings that differ only in letter case have the same upper-case form |
| `Pipeline.Content` | demo1_content_pipeline/main.py:52 | `message.get("content", "")`: the content field, or the empty string when it is missing |
| `Pipeline.ContainsSignal` | demo1_content_pipeline/main.py:53-58 | `any(...)` over the three upper-case signals: some signal is `in` the text |
| `Pipeline.IsTerminationMessage` | demo1_content_pipeline/main.py:51-58 | the predicate handed to the controller: some signal is `in` the upper-cased content |
| `Pipeline.TerminationIff` | demo1_content_pipeline/main.py:51-58 | a message terminates iff one of the three signals occurs somewhere in its raw content with each letter in either case, with no upper-casing involved |
| `Pipeline.TerminationIgnoresCase` | demo1_content_pipeline/main.py:52 | contents differing only in letter case decide alike |
| `Pipeline.TerminationMonotone` | demo1_content_pipeline/main.py:58 | content containing terminating content also terminates |
| `Pipeline.TerminationAnyPosition` | demo1_content_pipeline/main.py:58 | terminating text still terminates with any text before and after it |
| `Pipeline.MissingContentDoesNotTerminate` | demo1_content_pipeline/main.py:52 | a message with no `content` key reads as "" and does not terminate |
| `Pipeline.SignalAnywhereTerminates` | demo1_content_pipeline/main.py:52-58 | text whose upper-case form is a signal terminates anywhere in the content |
| `Pipeline.CriticApprovalTerminates` | demo1_content_pipeline/config.py:110 | the Critic's instructed "APPROVED - Content meets quality standards" terminates anywhere in a reply |
| `Pipeline.PlannerCompletionTerminates` | demo1_content_pipeline/config.py:52 | the Planner's instructed "TASK_COMPLETE" terminates anywhere in a reply |
| `Pipeline.IsDigits` | demo1_content_pipeline/main.py:242 | `choice.isdigit()` on ASCII: non-empty and every character a decimal digit |
| `Pipeline.DecimalValue` | demo1_content_pipeline/main.py:242 | `int(choice)` for a digit string: the base-ten value, last digit least significant |
| `Pipeline.ChooseTopic` | demo1_content_pipeline/main.py:235-243 | the chosen topic is always one of the five menu topics |
| `Pipeline.ZeroValueIsZeros` | demo1_content_pipeline/main.py:242 | a digit string has value 0 iff it is all zeros |
| `Pipeline.SmallValueIsPadded` | demo1_content_pipeline/main.py:242 | a digit string with value below ten is zeros followed by the digit of its value |
| `Pipeline.PaddedValue` | demo1_content_pipeline/main.py:242 | leading zeros do not change the value of a digit |
| `Pipeline.ChooseTopicSpec` | demo1_content_pipeline/main.py:221-243 | zeros followed by a digit n in 1..5 select topic n; every other input, the empty one included, keeps the default "Python asyncio basics" |
| `Pipeline.ChooseTopicExamples` | demo1_content_pipeline/main.py:235-243 | "05" selects the Docker topic and "3" machine learning; "", "0", "6", "10" and "x" keep the default |

## Left out

- The group-chat turn loop, "auto" speaker selection, `max_round`, the per-agent `max_consecutive_auto_reply` caps and function-call dispatch (demo1_content_pipeline/main.py:122-130, 167-192). They run in AutoGen library code that is not part of this model, and speaker selection is decided by an LLM.
- `register_tools` (main.py:73-119). It only mutates AutoGen agent objects, and its inline schemas duplicate `TOOL_SCHEMAS`.
- `config.py` and the agent factories under `agents/`. They hold environment reading, credentials, prompt text and constructor calls, with no decision logic. Only the two signal phrases the prompts instruct are used, in `CriticApprovalTerminates` and `PlannerCompletionTerminates`.
- Console output, the `input()` prompts, `sys.exit`, the API-key check and the exception handler around `initiate_chat` (main.py:29-48, 133-220, 244-267). These are I/O. The menu choice is modelled as a function of the typed string.
- `test_setup.py`. It checks imports and the environment.
- The key points, examples and pitfalls of the knowledge-base entries, and the structure, style and checklist of the guidelines. These are static text. An entry keeps only its title, and a guideline body is one tag per content type.
- Text.Lower, Text.Upper, Pipeline.IsDigits: ASCII-only. Unicode case mapping is not modelled: `lower`/`upper` can change the length of some non-ASCII strings, and here non-ASCII characters are left unchanged. Non-ASCII digits are not modelled either: `isdigit` accepts some that `int` then rejects.
- A `content` value that is not a string, such as `None`, on which `.upper()` raises. Message fields are strings in this model.
