/**
  The two read-only research tools of the content pipeline: the knowledge-base
  search, the writing-guideline lookup, and the tool schemas advertised for them.
 */
module KnowledgeTools {
  import opened Wrappers
  import opened Text

  // ---------------------------------------------------------------------------
  // Ordered tables (a Python dict with its insertion order)
  // ---------------------------------------------------------------------------

  /** The keys of a table, in insertion order (`list(d.keys())`). */
  function Keys<V>(table: seq<(string, V)>): (keys: seq<string>)
    ensures |keys| == |table|
    ensures forall i :: 0 <= i < |table| ==> keys[i] == table[i].0
  {
    if table == [] then [] else [table[0].0] + Keys(table[1..])
  }

  /** A dict never holds the same key twice. */
  ghost predicate DistinctKeys<V>(table: seq<(string, V)>)
  {
    forall i, j :: 0 <= i < j < |table| ==> table[i].0 != table[j].0
  }

  /** Dict membership and lookup: the position of `key`, if the table holds it. */
  function FindKey<V>(table: seq<(string, V)>, key: string): (r: Option<nat>)
    ensures r.Some? ==> r.value < |table| && table[r.value].0 == key
    ensures r.None? <==> key !in Keys(table)
  {
    if table == [] then None
    else if table[0].0 == key then Some(0)
    else match FindKey(table[1..], key)
      case Some(i) => Some(i + 1)
      case None => None
  }

  /** With distinct keys, the only position holding `key` is the one found. */
  lemma FindKeyUnique<V>(table: seq<(string, V)>, key: string, i: int)
    requires DistinctKeys(table)
    requires 0 <= i < |table| && table[i].0 == key
    ensures FindKey(table, key) == Some(i)
  {
    assert key in Keys(table);
    var j := FindKey(table, key).value;
    assert table[j].0 == table[i].0;
  }

  // ---------------------------------------------------------------------------
  // search_knowledge_base
  // ---------------------------------------------------------------------------

  /**
    A knowledge-base entry. The key points, examples and common pitfalls are
    static text and are not part of this model; only the title is.
   */
  datatype Entry = Entry(title: string)

  /** The dict returned by `search_knowledge_base`, split by its `success` field. */
  datatype SearchResult =
    | Found(topic: string, data: Entry)
    | NotFound(topic: string, error: string, availableTopics: seq<string>, suggestion: string)
  {
    predicate Success() { Found? }
  }

  const NotFoundSuggestion: string := "Try one of the available topics or rephrase your query."

  function NotFoundError(topic: string): string
  {
    "Topic '" + topic + "' not found in knowledge base."
  }

  /** The normalisation of one character: spaces and hyphens become `_`, letters are lower-cased. */
  function NormalizeChar(c: char): char
  {
    if c == ' ' || c == '-' then '_' else LowerChar(c)
  }

  /** `topic.lower().replace(" ", "_").replace("-", "_")` */
  function Normalize(topic: string): (norm: string)
    ensures |norm| == |topic|
    ensures forall i :: 0 <= i < |topic| ==> norm[i] == NormalizeChar(topic[i])
    ensures forall i :: 0 <= i < |norm| ==> norm[i] != ' ' && norm[i] != '-' && !IsUpperLetter(norm[i])
  {
    ReplaceChar(ReplaceChar(Lower(topic), ' ', '_'), '-', '_')
  }

  /** Normalisation computed character by character. */
  lemma NormalizeEquals(topic: string, expected: string)
    requires |topic| == |expected|
    requires forall i :: 0 <= i < |topic| ==> NormalizeChar(topic[i]) == expected[i]
    ensures Normalize(topic) == expected
  {
  }

  /** Normalisation works character by character, so it distributes over concatenation. */
  lemma NormalizeConcat(a: string, b: string)
    ensures Normalize(a + b) == Normalize(a) + Normalize(b)
  {
    assert forall i :: 0 <= i < |a + b| ==> (a + b)[i] == if i < |a| then a[i] else b[i - |a|];
  }

  /** Normalising twice is normalising once. */
  lemma NormalizeIdempotent(topic: string)
    ensures Normalize(Normalize(topic)) == Normalize(topic)
  {
    var once := Normalize(topic);
    forall i | 0 <= i < |once|
      ensures Normalize(once)[i] == once[i]
    {
      assert NormalizeChar(NormalizeChar(topic[i])) == NormalizeChar(topic[i]);
    }
  }

  /** The partial-match test of the search loop: either string contains the other. */
  predicate PartialMatch(norm: string, key: string)
  {
    IsSubstring(norm, key) || IsSubstring(key, norm)
  }

  /** The partial-match loop: the first position, in table order, whose key partially matches. */
  function FirstPartialMatch<V>(table: seq<(string, V)>, norm: string): (r: Option<nat>)
    ensures r.Some? ==> r.value < |table| && PartialMatch(norm, table[r.value].0)
    ensures r.Some? ==> forall j :: 0 <= j < r.value ==> !PartialMatch(norm, table[j].0)
    ensures r.None? ==> forall j :: 0 <= j < |table| ==> !PartialMatch(norm, table[j].0)
  {
    if table == [] then None
    else if PartialMatch(norm, table[0].0) then Some(0)
    else match FirstPartialMatch(table[1..], norm)
      case Some(i) => Some(i + 1)
      case None => None
  }

  /** `search_knowledge_base(topic)` over an arbitrary ordered table. */
  function SearchIn(table: seq<(string, Entry)>, topic: string): (r: SearchResult)
    ensures r.topic == topic
  {
    var norm := Normalize(topic);
    match FindKey(table, norm)
    case Some(i) => Found(topic, table[i].1)
    case None =>
      match FirstPartialMatch(table, norm)
      case Some(i) => Found(topic, table[i].1)
      case None => NotFound(topic, NotFoundError(topic), Keys(table), NotFoundSuggestion)
  }

  /**
    The entry at position `i` is the one the search must return for `norm`:
    its key equals `norm`, or no key equals `norm` and `i` is the first
    position whose key partially matches.
   */
  ghost predicate Chosen(table: seq<(string, Entry)>, norm: string, i: int)
  {
    0 <= i < |table| &&
    (table[i].0 == norm ||
     ((forall j :: 0 <= j < |table| ==> table[j].0 != norm) &&
      PartialMatch(norm, table[i].0) &&
      (forall j :: 0 <= j < i ==> !PartialMatch(norm, table[j].0))))
  }

  /** The search returns the chosen entry, with the caller's own topic string. */
  lemma SearchReturnsChosen(table: seq<(string, Entry)>, topic: string, i: int)
    requires DistinctKeys(table)
    requires Chosen(table, Normalize(topic), i)
    ensures SearchIn(table, topic) == Found(topic, table[i].1)
  {
    var norm := Normalize(topic);
    if table[i].0 == norm {
      FindKeyUnique(table, norm, i);
    } else {
      assert norm !in Keys(table);
      var k := FirstPartialMatch(table, norm);
      assert k.Some?;
      assert k.value == i by {
        if k.value < i {
        } else if k.value > i {
        }
      }
    }
  }

  /** Every successful search returns a chosen entry. */
  lemma SearchFoundIsChosen(table: seq<(string, Entry)>, topic: string)
    requires SearchIn(table, topic).Success()
    ensures exists i :: Chosen(table, Normalize(topic), i) && SearchIn(table, topic).data == table[i].1
  {
    var norm := Normalize(topic);
    match FindKey(table, norm)
    case Some(i) =>
      assert Chosen(table, norm, i);
    case None =>
      var i := FirstPartialMatch(table, norm).value;
      assert Chosen(table, norm, i);
  }

  /**
    The search fails exactly when no key matches partially (an exact match is
    also a partial one), and a failure lists every key in table order.
   */
  lemma SearchNotFoundIff(table: seq<(string, Entry)>, topic: string)
    ensures SearchIn(table, topic).NotFound? <==>
            forall j :: 0 <= j < |table| ==> !PartialMatch(Normalize(topic), table[j].0)
    ensures SearchIn(table, topic).NotFound? ==>
            SearchIn(table, topic) == NotFound(topic, NotFoundError(topic), Keys(table), NotFoundSuggestion)
  {
    var norm := Normalize(topic);
    match FindKey(table, norm)
    case Some(i) =>
      assert OccursAt(norm, table[i].0, 0);
      assert PartialMatch(norm, table[i].0);
    case None =>
  }

  /**
    Queries with the same normalised form give the same success flag and data
    (and topic list); the echoed topic and the error text follow the raw query.
   */
  lemma SearchDependsOnlyOnNormalized(table: seq<(string, Entry)>, a: string, b: string)
    requires Normalize(a) == Normalize(b)
    ensures SearchIn(table, a).Success() == SearchIn(table, b).Success()
    ensures SearchIn(table, a).Success() ==> SearchIn(table, a).data == SearchIn(table, b).data
    ensures SearchIn(table, a).NotFound? ==>
            SearchIn(table, a).availableTopics == SearchIn(table, b).availableTopics
  {
  }

  /**
    Normalising a query before searching gives the same success flag and data
    (and topic list); the echoed topic and the error text follow the raw query.
   */
  lemma SearchNormalizedQuery(table: seq<(string, Entry)>, topic: string)
    ensures SearchIn(table, Normalize(topic)).Success() == SearchIn(table, topic).Success()
    ensures SearchIn(table, topic).Success() ==>
            SearchIn(table, Normalize(topic)).data == SearchIn(table, topic).data
    ensures !SearchIn(table, topic).Success() ==>
            SearchIn(table, Normalize(topic)).availableTopics == SearchIn(table, topic).availableTopics
  {
    NormalizeIdempotent(topic);
    SearchDependsOnlyOnNormalized(table, Normalize(topic), topic);
  }

  /** `KNOWLEDGE_BASE`, in its insertion order. */
  const KnowledgeBase: seq<(string, Entry)> := [
    ("python_asyncio", Entry("Python Asyncio Basics")),
    ("autogen_agents", Entry("AutoGen Multi-Agent Systems")),
    ("machine_learning", Entry("Machine Learning Fundamentals")),
    ("api_design", Entry("RESTful API Design Best Practices")),
    ("docker_basics", Entry("Docker Containerization Basics"))
  ]

  const KnowledgeBaseKeys: seq<string> :=
    ["python_asyncio", "autogen_agents", "machine_learning", "api_design", "docker_basics"]

  lemma KnowledgeBaseWellFormed()
    ensures DistinctKeys(KnowledgeBase)
    ensures Keys(KnowledgeBase) == KnowledgeBaseKeys
  {
  }

  /** `search_knowledge_base(topic)` */
  function SearchKnowledgeBase(topic: string): (r: SearchResult)
    ensures r.topic == topic
    ensures r.NotFound? ==> r.availableTopics == KnowledgeBaseKeys
  {
    KnowledgeBaseWellFormed();
    SearchIn(KnowledgeBase, topic)
  }

  /** An empty topic is contained in every key, so it returns the first entry. */
  lemma SearchEmptyTopic()
    ensures SearchKnowledgeBase("") == Found("", Entry("Python Asyncio Basics"))
  {
    KnowledgeBaseWellFormed();
    assert Normalize("") == "";
    assert OccursAt("", "python_asyncio", 0);
    assert Chosen(KnowledgeBase, Normalize(""), 0);
    SearchReturnsChosen(KnowledgeBase, "", 0);
  }

  /** The query that test_setup.py sends finds the asyncio entry by its exact key. */
  lemma SearchPythonAsyncio()
    ensures SearchKnowledgeBase("python asyncio") == Found("python asyncio", Entry("Python Asyncio Basics"))
  {
    KnowledgeBaseWellFormed();
    assert "python asyncio" == "python" + " " + "asyncio";
    NormalizeConcat("python", " ");
    NormalizeConcat("python ", "asyncio");
    NormalizeEquals("python", "python");
    NormalizeEquals(" ", "_");
    NormalizeEquals("asyncio", "asyncio");
    assert Normalize("python asyncio") == "python_asyncio";
    SearchReturnsChosen(KnowledgeBase, "python asyncio", 0);
  }

  // No key is contained in the normalised "quantum kittens": each lacks a
  // character where an occurrence would have to put it, or is longer.
  lemma UnknownTopicContainsNoKey()
    ensures !IsSubstring("python_asyncio", "quantum_kittens")
    ensures !IsSubstring("autogen_agents", "quantum_kittens")
    ensures !IsSubstring("machine_learning", "quantum_kittens")
    ensures !IsSubstring("api_design", "quantum_kittens")
    ensures !IsSubstring("docker_basics", "quantum_kittens")
  {
    NotSubstringAt("python_asyncio", "quantum_kittens", 0);
    NotSubstringAt("autogen_agents", "quantum_kittens", 2);
    LongerNotSubstring("machine_learning", "quantum_kittens");
    NotSubstringAt("api_design", "quantum_kittens", 1);
    NotSubstringAt("docker_basics", "quantum_kittens", 0);
  }

  // The normalised "quantum kittens" is contained in no key: it is longer
  // than all but one, and that one has no 'q'.
  lemma UnknownTopicInNoKey()
    ensures !IsSubstring("quantum_kittens", "python_asyncio")
    ensures !IsSubstring("quantum_kittens", "autogen_agents")
    ensures !IsSubstring("quantum_kittens", "machine_learning")
    ensures !IsSubstring("quantum_kittens", "api_design")
    ensures !IsSubstring("quantum_kittens", "docker_basics")
  {
    NotSubstringAt("quantum_kittens", "machine_learning", 0);
    var q := "quantum_kittens";
    LongerNotSubstring(q, "python_asyncio");
    LongerNotSubstring(q, "autogen_agents");
    LongerNotSubstring(q, "api_design");
    LongerNotSubstring(q, "docker_basics");
  }

  /** An unknown topic fails and lists the five keys. */
  lemma SearchUnknownTopic()
    ensures SearchKnowledgeBase("quantum kittens") ==
            NotFound("quantum kittens", NotFoundError("quantum kittens"), KnowledgeBaseKeys, NotFoundSuggestion)
  {
    KnowledgeBaseWellFormed();
    assert "quantum kittens" == "quantum" + " " + "kittens";
    NormalizeConcat("quantum", " ");
    NormalizeConcat("quantum ", "kittens");
    NormalizeEquals("quantum", "quantum");
    NormalizeEquals(" ", "_");
    NormalizeEquals("kittens", "kittens");
    assert Normalize("quantum kittens") == "quantum_kittens";
    UnknownTopicContainsNoKey();
    UnknownTopicInNoKey();
    assert forall j :: 0 <= j < |KnowledgeBase| ==> !PartialMatch("quantum_kittens", KnowledgeBase[j].0);
    SearchNotFoundIff(KnowledgeBase, "quantum kittens");
  }

  // ---------------------------------------------------------------------------
  // get_writing_guidelines
  // ---------------------------------------------------------------------------

  /**
    The guideline bodies (structure, style and checklist), one per content
    type. Their text is static and is not part of this model.
   */
  datatype Guidelines = TechnicalBlogGuidelines | TutorialGuidelines | DocumentationGuidelines | EmailGuidelines

  /** The dict returned by `get_writing_guidelines`, split by its `success` field. */
  datatype GuidelinesResult =
    | GuidelinesFound(contentType: string, guidelines: Guidelines)
    | GuidelinesNotFound(error: string, availableTypes: seq<string>)
  {
    predicate Success() { GuidelinesFound? }
  }

  /** The local `guidelines` dict, in its insertion order. */
  const GuidelineTable: seq<(string, Guidelines)> := [
    ("technical_blog", TechnicalBlogGuidelines),
    ("tutorial", TutorialGuidelines),
    ("documentation", DocumentationGuidelines),
    ("email", EmailGuidelines)
  ]

  const ContentTypes: seq<string> := ["technical_blog", "tutorial", "documentation", "email"]

  /** The default value of the `content_type` parameter. */
  const DefaultContentType: string := "technical_blog"

  function UnrecognizedTypeError(contentType: string): string
  {
    "Content type '" + contentType + "' not recognized."
  }

  lemma GuidelineTableWellFormed()
    ensures DistinctKeys(GuidelineTable)
    ensures Keys(GuidelineTable) == ContentTypes
  {
  }

  /**
    `get_writing_guidelines(content_type)`: an exact, case-sensitive lookup. It
    succeeds exactly for the four content types, with the body stored under
    that key, and otherwise lists the four types in table order.
   */
  function GetWritingGuidelines(contentType: string): (r: GuidelinesResult)
    ensures r.GuidelinesFound? <==> contentType in ContentTypes
    ensures r.GuidelinesFound? ==> r.contentType == contentType && (contentType, r.guidelines) in GuidelineTable
    ensures r.GuidelinesNotFound? ==>
            r.error == UnrecognizedTypeError(contentType) && r.availableTypes == ContentTypes
  {
    GuidelineTableWellFormed();
    match FindKey(GuidelineTable, contentType)
    case Some(i) => GuidelinesFound(contentType, GuidelineTable[i].1)
    case None => GuidelinesNotFound(UnrecognizedTypeError(contentType), Keys(GuidelineTable))
  }

  /** The default argument succeeds with the technical-blog guidelines. */
  lemma DefaultGuidelines()
    ensures GetWritingGuidelines(DefaultContentType) == GuidelinesFound("technical_blog", TechnicalBlogGuidelines)
  {
    GuidelineTableWellFormed();
    FindKeyUnique(GuidelineTable, DefaultContentType, 0);
  }

  /** Unlike the knowledge-base search, the lookup neither folds case nor normalises separators. */
  lemma GuidelinesNotNormalized()
    ensures !GetWritingGuidelines("Tutorial").Success()
    ensures !GetWritingGuidelines("technical blog").Success()
    ensures !GetWritingGuidelines("technical-blog").Success()
  {
  }

  // ---------------------------------------------------------------------------
  // TOOL_SCHEMAS
  // ---------------------------------------------------------------------------

  /** One entry of a JSON-schema `properties` object. */
  datatype PropertySchema = PropertySchema(typeName: string, enumValues: Option<seq<string>>, description: string)

  /** The `parameters` object of a tool schema. */
  datatype ParametersSchema = ParametersSchema(typeName: string, properties: seq<(string, PropertySchema)>, required: seq<string>)

  datatype ToolSchema = ToolSchema(name: string, description: string, parameters: ParametersSchema)

  /** `TOOL_SCHEMAS` */
  const ToolSchemas: seq<ToolSchema> := [
    ToolSchema(
      "search_knowledge_base",
      "Search the knowledge base for information on a topic. Returns key points, examples, and common pitfalls.",
      ParametersSchema(
        "object",
        [("topic", PropertySchema("string", None,
            "The topic to search (e.g., 'python asyncio', 'autogen agents', 'machine learning')"))],
        ["topic"])),
    ToolSchema(
      "get_writing_guidelines",
      "Get writing guidelines for specific content types including structure, style, and checklists.",
      ParametersSchema(
        "object",
        [("content_type", PropertySchema("string", Some(["technical_blog", "tutorial", "documentation", "email"]),
            "The type of content to get guidelines for"))],
        ["content_type"]))
  ]

  /**
    The arguments a parameters schema admits: every required field is present
    and every field with an `enum` holds one of its values.
   */
  ghost predicate Admits(params: ParametersSchema, args: map<string, string>)
  {
    (forall f :: f in params.required ==> f in args) &&
    (forall k :: 0 <= k < |params.properties| && params.properties[k].0 in args &&
                 params.properties[k].1.enumValues.Some? ==>
                 args[params.properties[k].0] in params.properties[k].1.enumValues.value)
  }

  /**
    The schemas advertise the two tools by the handlers' names, each with one
    required string parameter named like the handler's parameter, and the
    `enum` of `content_type` is exactly the guideline table's key list.
   */
  lemma ToolSchemasConsistent()
    ensures |ToolSchemas| == 2
    ensures ToolSchemas[0].name == "search_knowledge_base" && ToolSchemas[1].name == "get_writing_guidelines"
    ensures forall t :: t in ToolSchemas ==>
              t.parameters.typeName == "object" &&
              |t.parameters.properties| == 1 &&
              t.parameters.properties[0].1.typeName == "string" &&
              t.parameters.required == Keys(t.parameters.properties)
    ensures ToolSchemas[0].parameters.properties[0].0 == "topic"
    ensures ToolSchemas[0].parameters.properties[0].1.enumValues == None
    ensures ToolSchemas[1].parameters.properties[0].0 == "content_type"
    ensures ToolSchemas[1].parameters.properties[0].1.enumValues == Some(Keys(GuidelineTable))
  {
    GuidelineTableWellFormed();
  }

  /** The argument maps Python can bind to `get_writing_guidelines(content_type=...)`. */
  predicate BindsToGuidelines(args: map<string, string>)
  {
    args.Keys <= {"content_type"}
  }

  /**
    A call of `get_writing_guidelines` with the keyword arguments `args`. A key
    other than `content_type` makes the binding raise `TypeError`, modelled as
    `None`; a missing `content_type` takes the parameter's default.
   */
  function CallWritingGuidelines(args: map<string, string>): (r: Option<GuidelinesResult>)
    ensures r.None? <==> exists k :: k in args && k != "content_type"
    ensures r.Some? && "content_type" !in args ==> r.value.Success()
    ensures r.Some? && "content_type" in args ==> (r.value.Success() <==> args["content_type"] in ContentTypes)
  {
    if BindsToGuidelines(args)
    then Some(GetWritingGuidelines(if "content_type" in args then args["content_type"] else DefaultContentType))
    else None
  }

  /** The call succeeds: the arguments bind and the handler reports success. */
  predicate CallSucceeds(args: map<string, string>)
  {
    var r := CallWritingGuidelines(args);
    r.Some? && r.value.Success()
  }

  /**
    For arguments that bind to the handler's one parameter, every map the
    advertised schema admits makes the call succeed; when `content_type` is
    given, the schema admits exactly the arguments on which the call succeeds.
   */
  lemma GuidelineSchemaMatchesHandler(args: map<string, string>)
    ensures BindsToGuidelines(args) && Admits(ToolSchemas[1].parameters, args) ==> CallSucceeds(args)
    ensures BindsToGuidelines(args) && "content_type" in args ==>
            (Admits(ToolSchemas[1].parameters, args) <==> CallSucceeds(args))
  {
    var params := ToolSchemas[1].parameters;
    assert params.properties[0].0 == "content_type";
    assert params.required == ["content_type"];
    assert "content_type" in params.required;
  }

  /**
    A first disagreement: the schema marks `content_type` required and rejects
    a call without it, while the handler accepts that call through its default.
   */
  lemma SchemaRejectsDefaultCall()
    ensures !Admits(ToolSchemas[1].parameters, map[])
    ensures CallSucceeds(map[])
  {
    assert ToolSchemas[1].parameters.required == ["content_type"];
    assert "content_type" in ToolSchemas[1].parameters.required;
  }

  /**
    A second disagreement: the schema does not forbid further properties and
    admits an extra argument, while binding it to the handler raises `TypeError`.
   */
  lemma SchemaAdmitsExtraArgument()
    ensures Admits(ToolSchemas[1].parameters, map["content_type" := "tutorial", "extra" := "x"])
    ensures CallWritingGuidelines(map["content_type" := "tutorial", "extra" := "x"]).None?
  {
    var args := map["content_type" := "tutorial", "extra" := "x"];
    var params := ToolSchemas[1].parameters;
    assert params.required == ["content_type"];
    assert params.properties[0].1.enumValues == Some(["technical_blog", "tutorial", "documentation", "email"]);
    assert "tutorial" in ["technical_blog", "tutorial", "documentation", "email"];
    assert "extra" in args && "extra" != "content_type";
  }
}
