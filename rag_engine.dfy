/** The query side of the medical chatbot (`MedicalRAGEngine`): retrieval of
    context from the vector index, the grounded prompt, parsing of the
    completion, and the orchestration with its three fixed outcomes.

    The embedding model, the Pinecone index and the Together completion API
    are parameters (`Services`); each call returns `Err` when it would raise. */
module RagEngine {
  import opened Common
  import opened Text

  /** The engine's configuration, fixed once by its initialisers. */
  datatype Engine = Engine(indexName: string, namespace: string, modelName: string)

  /** A match returned by the index. `metadata == None` stands for a match
      dictionary without a "metadata" key. */
  datatype Match = Match(metadata: Option<map<string, string>>)

  /** The arguments of `index.query(...)`. */
  datatype SearchRequest = SearchRequest(index: string, vector: Vector, topK: nat,
                                         includeMetadata: bool, namespace: string)

  /** One entry of the completion's "choices"; `text == None` is a choice
      without a "text" key. */
  datatype Choice = Choice(text: Option<string>)

  /** The completion response; `choices == None` is a response without a
      "choices" key. */
  datatype Completion = Completion(choices: Option<seq<Choice>>)

  /** The arguments of `together.Complete.create(...)`. */
  datatype CompletionRequest = CompletionRequest(
    model: string, prompt: string, maxTokens: nat, temperature: real,
    topP: real, topK: nat, repetitionPenalty: real, stop: seq<string>)

  /** The external services the engine calls. */
  datatype Services = Services(
    embedQuery: string -> Result<Vector>,
    search: SearchRequest -> Result<seq<Match>>,
    complete: CompletionRequest -> Result<Completion>)

  /** What `generate_response` returns: normally a string, but on an empty
      completion the pair `(message, [])`. */
  datatype Response = Text(text: string) | TextAndSources(text: string, sources: seq<string>)

  /** What `query` returns: the response and the source list. */
  datatype QueryResult = QueryResult(response: Response, sources: seq<string>)

  /** The combined context and the de-duplicated source list of a retrieval. */
  datatype Retrieval = Retrieval(context: string, sources: seq<string>)

  const DefaultTopK: nat := 5
  const ContextSeparator := "\n\n"
  const UnknownSource := "Unknown"

  const NoInformationMessage := "I couldn't find specific information related to your query in my medical knowledge base. Please consult a healthcare professional for accurate medical advice."
  const ErrorMessage := "I encountered an error while processing your query. Please try again or rephrase your question."
  const FallbackMessage := "I couldn't generate a response at this time. Please try again later."

  // ---------------------------------------------------------------------------
  // Construction (`__init__`, `initialize_vector_store`, `initialize_llm`)

  function IndexNotFoundMessage(indexName: string): string
  {
    "Index '" + indexName + "' not found in Pinecone."
  }

  /** Building the engine: `existingIndexes` is the outcome of the steps
      before the index check, namely loading the embedding model
      (`HuggingFaceEmbeddings(...)`), connecting to Pinecone and listing the
      index names; it is an `Err` with the message when any of them raises.
      The engine is built exactly when its index is among the listed names;
      otherwise the ValueError's message names the missing index. A raising
      `self.pinecone.Index(...)` after the check is not modelled. */
  function NewEngine(indexName: string, namespace: string, modelName: string,
                     existingIndexes: Result<seq<string>>): (r: Result<Engine>)
    ensures existingIndexes.Err? ==> r == Err(existingIndexes.error)
    ensures existingIndexes.Ok? ==>
              (r.Ok? <==> indexName in existingIndexes.value)
              && (r.Err? ==> r.error == IndexNotFoundMessage(indexName))
    ensures r.Ok? ==> r.value == Engine(indexName, namespace, modelName)
  {
    match existingIndexes
    case Err(e) => Err(e)
    case Ok(names) =>
      if indexName !in names then Err(IndexNotFoundMessage(indexName))
      else Ok(Engine(indexName, namespace, modelName))
  }

  // ---------------------------------------------------------------------------
  // Retrieval (`retrieve_relevant_context`)

  /** `match.get("metadata", {})` */
  function MetadataOf(m: Match): map<string, string>
  {
    match m.metadata
    case None => map[]
    case Some(md) => md
  }

  /** `d.get(key, default)` */
  function Get(d: map<string, string>, key: string, default: string): string
  {
    if key in d then d[key] else default
  }

  /** `metadata.get("text", "")` */
  function MatchText(m: Match): string
  {
    Get(MetadataOf(m), "text", "")
  }

  /** `metadata.get("source", "Unknown")` */
  function MatchSource(m: Match): string
  {
    Get(MetadataOf(m), "source", UnknownSource)
  }

  /** The defaulted texts of the matches, one per match, in match order. */
  function MatchTexts(ms: seq<Match>): (r: seq<string>)
    ensures |r| == |ms|
    ensures forall i :: 0 <= i < |ms| ==> r[i] == MatchText(ms[i])
  {
    if ms == [] then [] else MatchTexts(ms[..|ms| - 1]) + [MatchText(ms[|ms| - 1])]
  }

  /** The defaulted sources of the matches, one per match, in match order. */
  function MatchSources(ms: seq<Match>): (r: seq<string>)
    ensures |r| == |ms|
    ensures forall i :: 0 <= i < |ms| ==> r[i] == MatchSource(ms[i])
  {
    if ms == [] then [] else MatchSources(ms[..|ms| - 1]) + [MatchSource(ms[|ms| - 1])]
  }

  /** The combined context: the match texts joined by a blank line. */
  function CombinedContext(ms: seq<Match>): string
  {
    Join(ContextSeparator, MatchTexts(ms))
  }

  /** The set of the matches' defaulted sources. */
  function SourceSet(ms: seq<Match>): set<string>
  {
    set i | 0 <= i < |ms| :: MatchSource(ms[i])
  }

  /** Embedding the query and searching the engine's index: the matches, or
      the failure of either call. */
  function Search(e: Engine, query: string, svc: Services, k: nat): Result<seq<Match>>
  {
    match svc.embedQuery(query)
    case Err(msg) => Err(msg)
    case Ok(v) => svc.search(SearchRequest(e.indexName, v, k, true, e.namespace))
  }

  /** `list(set(xs))`: some listing of the set without duplicates; the order
      is whatever the set's iteration order is. */
  method ListOfSet(xs: set<string>) returns (r: seq<string>)
    ensures NoDuplicates(r)
    ensures Elements(r) == xs
  {
    r := [];
    var rest := xs;
    while rest != {}
      invariant NoDuplicates(r)
      invariant Elements(r) !! rest
      invariant Elements(r) + rest == xs
      decreases |rest|
    {
      var x :| x in rest;
      r := r + [x];
      rest := rest - {x};
    }
  }

  /** `retrieve_relevant_context(query, k)`. */
  method RetrieveRelevantContext(e: Engine, query: string, svc: Services, k: nat)
    returns (r: Result<Retrieval>)
    ensures Search(e, query, svc, k).Err? ==> r == Err(Search(e, query, svc, k).error)
    ensures Search(e, query, svc, k).Ok? ==>
              var ms := Search(e, query, svc, k).value;
              && r.Ok?
              && r.value.context == CombinedContext(ms)
              && NoDuplicates(r.value.sources)
              && Elements(r.value.sources) == SourceSet(ms)
  {
    var results := Search(e, query, svc, k);
    if results.Err? {
      return Err(results.error);
    }
    var matches := results.value;
    var contextTexts: seq<string> := [];
    var sources: seq<string> := [];
    var i := 0;
    while i < |matches|
      invariant 0 <= i <= |matches|
      invariant contextTexts == MatchTexts(matches[..i])
      invariant sources == MatchSources(matches[..i])
    {
      assert matches[..i + 1][..i] == matches[..i];
      var metadata := MetadataOf(matches[i]);
      var text := Get(metadata, "text", "");
      var source := Get(metadata, "source", UnknownSource);
      contextTexts := contextTexts + [text];
      sources := sources + [source];
      i := i + 1;
    }
    assert matches[..i] == matches;
    var combined := Join(ContextSeparator, contextTexts);
    assert Elements(sources) == SourceSet(matches) by {
      forall s | s in SourceSet(matches) ensures s in Elements(sources) {
        var j :| 0 <= j < |matches| && s == MatchSource(matches[j]);
        assert sources[j] == s;
      }
    }
    var distinct := ListOfSet(Elements(sources));
    r := Ok(Retrieval(combined, distinct));
  }

  /** The combined context is whitespace only exactly when every match's text
      is; with zero matches it is the empty string. */
  lemma BlankContextIffBlankTexts(ms: seq<Match>)
    ensures IsBlank(CombinedContext(ms)) <==> forall i :: 0 <= i < |ms| ==> IsBlank(MatchText(ms[i]))
    ensures ms == [] ==> CombinedContext(ms) == ""
  {
    JoinBlankIffPartsBlank(ContextSeparator, MatchTexts(ms));
  }

  // ---------------------------------------------------------------------------
  // Prompt and completion (`generate_response`)

  /** The four lines of instructions that open the prompt, each with its line
      break (the first two keep their trailing space). */
  const PreambleLine1 := "You are a helpful medical assistant with access to medical literature. \n"
  const PreambleLine2 := "Answer the question based on the provided medical context. \n"
  const PreambleLine3 := "If you cannot find the answer in the context, say so clearly and provide general medical information if possible.\n"
  const PreambleLine4 := "Do not make up information or provide medical advice that's not supported by the context.\n"
  const Preamble := PreambleLine1 + PreambleLine2 + PreambleLine3 + PreambleLine4
  const ContextHeader := "\nCONTEXT:\n"
  const QuestionHeader := "\n\nQUESTION:\n"
  const AnswerHeader := "\n\nANSWER:\n"
  const StopSequences := ["QUESTION:", "CONTEXT:"]

  /** The prompt template filled with the context and the question. */
  function Prompt(context: string, query: string): string
  {
    Preamble + ContextHeader + context + QuestionHeader + query + AnswerHeader
  }

  /** Where the context starts in every prompt. */
  function ContextStart(): nat
  {
    |Preamble| + |ContextHeader|
  }

  /** Where the question starts, given the length of the context. */
  function QueryStart(contextLength: nat): nat
  {
    ContextStart() + contextLength + |QuestionHeader|
  }

  /** Six strings concatenated: each is read back from its own place. */
  lemma ConcatLayout(a: string, b: string, c: string, d: string, e: string, f: string)
    ensures var p := a + b + c + d + e + f;
            var i1, i2, i3 := |a|, |a| + |b|, |a| + |b| + |c|;
            var i4, i5 := i3 + |d|, i3 + |d| + |e|;
            && |p| == i5 + |f|
            && p[..i1] == a && p[i1..i2] == b && p[i2..i3] == c
            && p[i3..i4] == d && p[i4..i5] == e && p[i5..] == f
  {
    var ab := a + b;
    var abc := ab + c;
    var abcd := abc + d;
    var abcde := abcd + e;
    var p := abcde + f;
    assert p[..|abcde|] == abcde;
    assert p[..|abcd|] == abcde[..|abcd|] == abcd;
    assert p[..|abc|] == abcd[..|abc|] == abc;
    assert p[..|ab|] == abc[..|ab|] == ab;
    assert p[..|a|] == ab[..|a|];
    assert p[|a|..|ab|] == ab[|a|..];
    assert p[|ab|..|abc|] == abc[|ab|..];
    assert p[|abc|..|abcd|] == abcd[|abc|..];
    assert p[|abcd|..|abcde|] == abcde[|abcd|..];
  }

  /** The prompt is, in this order: the preamble, the "CONTEXT:" header and
      the context, the "QUESTION:" header and the question, then the
      "ANSWER:" header; knowing the length of the context, both are read back
      from their places. */
  lemma PromptLayout(context: string, query: string)
    ensures var p := Prompt(context, query);
            && |p| == QueryStart(|context|) + |query| + |AnswerHeader|
            && p[..|Preamble|] == Preamble
            && p[|Preamble|..ContextStart()] == ContextHeader
            && p[ContextStart()..ContextStart() + |context|] == context
            && p[ContextStart() + |context|..QueryStart(|context|)] == QuestionHeader
            && p[QueryStart(|context|)..|p| - |AnswerHeader|] == query
            && p[|p| - |AnswerHeader|..] == AnswerHeader
  {
    ConcatLayout(Preamble, ContextHeader, context, QuestionHeader, query, AnswerHeader);
  }

  /** The request `generate_response` sends: the engine's model, the prompt,
      the fixed decoding parameters and the two stop sequences. */
  function CompletionRequestFor(e: Engine, query: string, context: string): (r: CompletionRequest)
    ensures r.model == e.modelName && r.prompt == Prompt(context, query)
    ensures r.maxTokens == 1024 && r.temperature == 0.3 && r.topP == 0.9
    ensures r.topK == 50 && r.repetitionPenalty == 1.1
    ensures r.stop == ["QUESTION:", "CONTEXT:"]
  {
    CompletionRequest(e.modelName, Prompt(context, query), 1024, 0.3, 0.9, 50, 1.1, StopSequences)
  }

  /** `s` occurs in `p` starting at position `i`. */
  predicate OccursAt(p: string, s: string, i: int)
  {
    0 <= i <= |p| - |s| && p[i..i + |s|] == s
  }

  /** A piece of a string found inside a slice is found in the string. */
  lemma OccursWithin(p: string, start: nat, h: string, offset: nat, s: string)
    requires start + |h| <= |p| && p[start..start + |h|] == h
    requires OccursAt(h, s, offset)
    ensures OccursAt(p, s, start + offset)
  {
    assert forall k :: 0 <= k < |h| ==> h[k] == p[start + k];
    assert p[start + offset..start + offset + |s|] == h[offset..offset + |s|];
  }

  /** In six strings laid end to end, an occurrence inside the second or the
      fourth is an occurrence in the whole, shifted by what precedes it. */
  lemma OccursInLayout(a: string, b: string, c: string, d: string, e: string, f: string,
                       s: string, i: nat, t: string, j: nat)
    requires OccursAt(b, s, i) && OccursAt(d, t, j)
    ensures OccursAt(a + b + c + d + e + f, s, |a| + i)
    ensures OccursAt(a + b + c + d + e + f, t, |a| + |b| + |c| + j)
  {
    ConcatLayout(a, b, c, d, e, f);
    var p := a + b + c + d + e + f;
    OccursWithin(p, |a|, b, i, s);
    OccursWithin(p, |a| + |b| + |c|, d, j, t);
  }

  /** Where the stop sequences sit inside their headers. */
  lemma StopsInHeaders()
    ensures OccursAt(ContextHeader, "CONTEXT:", 1)
    ensures OccursAt(QuestionHeader, "QUESTION:", 2)
  {
    assert ContextHeader[1..9] == "CONTEXT:";
    assert QuestionHeader[2..11] == "QUESTION:";
  }

  /** Both stop sequences are section headers of the prompt itself, so a
      completion that starts a new turn is cut off: "CONTEXT:" occurs inside
      the context header, right after its line break, and "QUESTION:" inside
      the question header, right after its two line breaks. */
  lemma StopSequencesAreHeaders(e: Engine, query: string, context: string)
    ensures var r := CompletionRequestFor(e, query, context);
            && r.stop == ["QUESTION:", "CONTEXT:"]
            && OccursAt(r.prompt, "CONTEXT:", |Preamble| + 1)
            && OccursAt(r.prompt, "QUESTION:", ContextStart() + |context| + 2)
  {
    StopsAfterAnyPreamble(Preamble, context, query);
  }

  /** The headers' stop sequences sit at the same offsets whatever text
      precedes the "CONTEXT:" header. */
  lemma StopsAfterAnyPreamble(pre: string, context: string, query: string)
    ensures var p := pre + ContextHeader + context + QuestionHeader + query + AnswerHeader;
            && OccursAt(p, "CONTEXT:", |pre| + 1)
            && OccursAt(p, "QUESTION:", |pre| + |ContextHeader| + |context| + 2)
  {
    StopsInHeaders();
    OccursInLayout(pre, ContextHeader, context, QuestionHeader, query, AnswerHeader,
                   "CONTEXT:", 1, "QUESTION:", 2);
  }

  /** `response.get("choices")`, with a missing key read as an empty list. */
  function ChoicesOf(c: Completion): seq<Choice>
  {
    match c.choices
    case None => []
    case Some(cs) => cs
  }

  /** The answer, the fallback pair, or the KeyError when the first choice has
      no "text". */
  function ParseCompletion(c: Completion): (r: Result<Response>)
    ensures r.Err? <==> ChoicesOf(c) != [] && ChoicesOf(c)[0].text.None?
    ensures r == Ok(TextAndSources(FallbackMessage, [])) <==>
              ChoicesOf(c) == [] || (ChoicesOf(c)[0].text.Some? && IsBlank(ChoicesOf(c)[0].text.value))
    ensures r.Ok? && r.value.Text? ==>
              && ChoicesOf(c) != [] && ChoicesOf(c)[0].text.Some?
              && r.value.text == Strip(ChoicesOf(c)[0].text.value)
              && r.value.text != [] && !IsSpace(r.value.text[0])
              && !IsSpace(r.value.text[|r.value.text| - 1])
    ensures ChoicesOf(c) != [] && ChoicesOf(c)[0].text.Some? && !IsBlank(ChoicesOf(c)[0].text.value) ==>
              r == Ok(Text(Strip(ChoicesOf(c)[0].text.value)))
  {
    var cs := ChoicesOf(c);
    if cs == [] then Ok(TextAndSources(FallbackMessage, []))
    else match cs[0].text
      case None => Err("KeyError: 'text'")
      case Some(t) =>
        StripEmptyIffBlank(t);
        StripIsTrimmedSlice(t);
        var generated := Strip(t);
        if generated == [] then Ok(TextAndSources(FallbackMessage, []))
        else Ok(Text(generated))
  }

  /** `generate_response(query, context)`: `Err` when the completion call
      raises or its first choice has no "text". */
  function GenerateResponse(e: Engine, query: string, context: string, svc: Services): (r: Result<Response>)
    ensures var reply := svc.complete(CompletionRequestFor(e, query, context));
            r.Err? <==> reply.Err? || (ChoicesOf(reply.value) != [] && ChoicesOf(reply.value)[0].text.None?)
    ensures var reply := svc.complete(CompletionRequestFor(e, query, context));
            reply.Ok? && ChoicesOf(reply.value) == [] ==> r == Ok(TextAndSources(FallbackMessage, []))
    ensures var reply := svc.complete(CompletionRequestFor(e, query, context));
            reply.Ok? && ChoicesOf(reply.value) != [] && ChoicesOf(reply.value)[0].text.Some? ==>
              var t := ChoicesOf(reply.value)[0].text.value;
              r == if IsBlank(t) then Ok(TextAndSources(FallbackMessage, [])) else Ok(Text(Strip(t)))
  {
    match svc.complete(CompletionRequestFor(e, query, context))
    case Err(msg) => Err(msg)
    case Ok(c) => ParseCompletion(c)
  }

  // ---------------------------------------------------------------------------
  // Orchestration (`query`)

  /** The terminal states of one query. */
  datatype QueryState = Failed | NoContext | Answered(response: Response, sources: set<string>)

  /** The decision `query` makes, with the source list taken as a set. */
  function QueryOutcome(e: Engine, query: string, svc: Services): (r: QueryState)
    ensures Search(e, query, svc, DefaultTopK).Err? ==> r == Failed
    ensures Search(e, query, svc, DefaultTopK).Ok? ==>
              var ms := Search(e, query, svc, DefaultTopK).value;
              var generated := GenerateResponse(e, query, CombinedContext(ms), svc);
              && (r == NoContext <==> IsBlank(CombinedContext(ms)))
              && (r == Failed <==> !IsBlank(CombinedContext(ms)) && generated.Err?)
              && (r.Answered? ==> r.response == generated.value && r.sources == SourceSet(ms))
  {
    match Search(e, query, svc, DefaultTopK)
    case Err(_) => Failed
    case Ok(ms) =>
      var context := CombinedContext(ms);
      StripEmptyIffBlank(context);
      if Strip(context) == [] then NoContext
      else match GenerateResponse(e, query, context, svc)
        case Err(_) => Failed
        case Ok(resp) => Answered(resp, SourceSet(ms))
  }

  /** `query(user_query)`: never raises; a failure anywhere gives the error
      message, a blank context the no-information message (both with no
      sources), otherwise the generated response with the retrieved sources. */
  method Query(e: Engine, userQuery: string, svc: Services) returns (r: QueryResult)
    ensures QueryOutcome(e, userQuery, svc) == Failed ==> r == QueryResult(Text(ErrorMessage), [])
    ensures QueryOutcome(e, userQuery, svc) == NoContext ==> r == QueryResult(Text(NoInformationMessage), [])
    ensures QueryOutcome(e, userQuery, svc).Answered? ==>
              && r.response == QueryOutcome(e, userQuery, svc).response
              && NoDuplicates(r.sources)
              && Elements(r.sources) == QueryOutcome(e, userQuery, svc).sources
  {
    var retrieved := RetrieveRelevantContext(e, userQuery, svc, DefaultTopK);
    if retrieved.Err? {
      return QueryResult(Text(ErrorMessage), []);
    }
    var context := retrieved.value.context;
    if Strip(context) == [] {
      return QueryResult(Text(NoInformationMessage), []);
    }
    var response := GenerateResponse(e, userQuery, context, svc);
    if response.Err? {
      return QueryResult(Text(ErrorMessage), []);
    }
    r := QueryResult(response.value, retrieved.value.sources);
  }

  /** With matches in hand, the no-information outcome happens exactly when
      every match text is whitespace only (zero matches included). */
  lemma NoContextIffBlankTexts(e: Engine, query: string, svc: Services)
    requires Search(e, query, svc, DefaultTopK).Ok?
    ensures var ms := Search(e, query, svc, DefaultTopK).value;
            QueryOutcome(e, query, svc) == NoContext <==>
              forall i :: 0 <= i < |ms| ==> IsBlank(MatchText(ms[i]))
  {
    var ms := Search(e, query, svc, DefaultTopK).value;
    BlankContextIffBlankTexts(ms);
    StripEmptyIffBlank(CombinedContext(ms));
  }

  /** The failed and no-information outcomes do not depend on the completion
      service at all: generation is not consulted for them. */
  lemma ShortCircuitIgnoresGenerator(e: Engine, query: string, svc: Services,
                                     other: CompletionRequest -> Result<Completion>)
    requires Search(e, query, svc, DefaultTopK).Err?
             || QueryOutcome(e, query, svc) == NoContext
    ensures QueryOutcome(e, query, svc.(complete := other)) == QueryOutcome(e, query, svc)
  {
  }

  /** When the completion is empty the engine answers with the fallback PAIR
      as its response, next to the retrieved sources: the returned value is
      `((message, []), sources)`, not `(message, sources)`. */
  lemma EmptyCompletionNestsFallbackPair(e: Engine, query: string, svc: Services)
    requires Search(e, query, svc, DefaultTopK).Ok?
    requires !IsBlank(CombinedContext(Search(e, query, svc, DefaultTopK).value))
    requires svc.complete(CompletionRequestFor(e, query,
               CombinedContext(Search(e, query, svc, DefaultTopK).value))) == Ok(Completion(Some([])))
    ensures QueryOutcome(e, query, svc)
              == Answered(TextAndSources(FallbackMessage, []), SourceSet(Search(e, query, svc, DefaultTopK).value))
  {
    StripEmptyIffBlank(CombinedContext(Search(e, query, svc, DefaultTopK).value));
  }

  /** A generated answer is never blank: it is the stripped, non-empty first
      completion text. */
  lemma AnsweredTextNotBlank(e: Engine, query: string, svc: Services)
    requires QueryOutcome(e, query, svc).Answered?
    requires QueryOutcome(e, query, svc).response.Text?
    ensures !IsBlank(QueryOutcome(e, query, svc).response.text)
  {
  }

  /** A single retrieved chunk from one file yields that file as the only
      source. */
  lemma SingleMatchSingleSource(e: Engine, query: string, svc: Services, r: QueryResult)
    requires Search(e, query, svc, DefaultTopK).Ok?
    requires |Search(e, query, svc, DefaultTopK).value| == 1
    requires QueryOutcome(e, query, svc).Answered?
    requires NoDuplicates(r.sources) && Elements(r.sources) == QueryOutcome(e, query, svc).sources
    ensures r.sources == [MatchSource(Search(e, query, svc, DefaultTopK).value[0])]
  {
    var ms := Search(e, query, svc, DefaultTopK).value;
    assert SourceSet(ms) == {MatchSource(ms[0])};
    SingletonListing(r.sources, MatchSource(ms[0]));
  }
}
