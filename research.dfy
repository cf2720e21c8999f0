/** `generate_research_report`: one web search, then one chat completion on a composed prompt. */
module Research {
  import opened Wrappers

  /** The fixed instruction block that opens every report prompt. */
  const SystemPrompt: string :=
    "You are an expert research assistant. Your task is to:\n"
    + "1. Research the given topic thoroughly using web search\n"
    + "2. Gather comprehensive information from multiple sources\n"
    + "3. Analyze and synthesize the information\n"
    + "4. Create a well-structured research report with the following sections:\n"
    + "   - Executive Summary\n"
    + "   - Key Findings\n"
    + "   - Detailed Analysis\n"
    + "   - Current Trends\n"
    + "   - Future Outlook\n"
    + "   - Sources and References\n\n"
    + "Be thorough, accurate, and provide actionable insights. Use markdown formatting for better readability."

  const FindingsLead: string := "\n\nBased on the research findings: "
  const TopicLead: string := "\n\nGenerate a comprehensive research report on: "

  /** The model `get_groq_response` asks for when no other is given. */
  const DefaultModel: string := "llama3-70b-8192"

  /** The report prompt: the instructions, the findings lead, the search results, the topic lead
      and the topic, in that order. */
  function ComposePrompt(searchResults: string, topic: string): (prompt: string)
    ensures |topic| <= |prompt|
    ensures prompt[|prompt| - |topic|..] == topic
  {
    SystemPrompt + FindingsLead + searchResults + TopicLead + topic
  }

  /** The prompt opens with the instructions, holds the search results verbatim after the findings
      lead, and ends with the topic after the topic lead. */
  lemma ComposePromptShape(searchResults: string, topic: string)
    ensures var prompt := ComposePrompt(searchResults, topic);
      |prompt| == |SystemPrompt| + |FindingsLead| + |searchResults| + |TopicLead| + |topic| &&
      prompt[..|SystemPrompt|] == SystemPrompt &&
      prompt[|SystemPrompt|..|SystemPrompt| + |FindingsLead|] == FindingsLead &&
      prompt[|SystemPrompt| + |FindingsLead|..|prompt| - |TopicLead| - |topic|] == searchResults &&
      prompt[|prompt| - |TopicLead| - |topic|..|prompt| - |topic|] == TopicLead &&
      prompt[|prompt| - |topic|..] == topic
  {
  }

  /** Reads a prompt back into its search results and its topic (of the given length). */
  function SplitPrompt(prompt: string, topicLength: nat): Option<(string, string)>
  {
    var resultsStart := |SystemPrompt| + |FindingsLead|;
    var tail := |TopicLead| + topicLength;
    if resultsStart + tail <= |prompt| && prompt[..resultsStart] == SystemPrompt + FindingsLead
       && prompt[|prompt| - tail..|prompt| - topicLength] == TopicLead
    then Some((prompt[resultsStart..|prompt| - tail], prompt[|prompt| - topicLength..]))
    else None
  }

  /** The prompt loses nothing: the search results and the topic can be read back from it. */
  lemma ComposePromptRoundTrip(searchResults: string, topic: string)
    ensures SplitPrompt(ComposePrompt(searchResults, topic), |topic|) == Some((searchResults, topic))
  {
    ComposePromptShape(searchResults, topic);
    var p := ComposePrompt(searchResults, topic);
    assert p[..|SystemPrompt| + |FindingsLead|] == SystemPrompt + FindingsLead;
  }

  /** Every text that reads back as results and topic is the prompt composed from exactly those. */
  lemma SplitPromptSound(prompt: string, topicLength: nat)
    requires SplitPrompt(prompt, topicLength).Some?
    ensures |SplitPrompt(prompt, topicLength).value.1| == topicLength
    ensures ComposePrompt(SplitPrompt(prompt, topicLength).value.0, SplitPrompt(prompt, topicLength).value.1) == prompt
  {
    var head := SystemPrompt + FindingsLead;
    var b, c := |prompt| - |TopicLead| - topicLength, |prompt| - topicLength;
    var results, topic := prompt[|head|..b], prompt[c..];
    assert SplitPrompt(prompt, topicLength).value == (results, topic);
    Pieces(prompt, |head|, b, c);
    assert prompt == head + results + TopicLead + topic;
  }

  /** A sequence is the concatenation of its pieces at any three cut points. */
  lemma Pieces<T>(s: seq<T>, a: nat, b: nat, c: nat)
    requires a <= b <= c <= |s|
    ensures s == s[..a] + s[a..b] + s[b..c] + s[c..]
  {
  }

  /** One chat message. */
  datatype Message = Message(role: string, content: string)

  /** What `get_groq_response` sends: a model name and the ordered messages. */
  datatype ChatRequest = ChatRequest(model: string, messages: seq<Message>)

  /** `get_groq_response(prompt)`: the prompt as the one user message, the default model. */
  function CompletionRequest(prompt: string): (request: ChatRequest)
    ensures request.model == DefaultModel
    ensures |request.messages| == 1
    ensures request.messages[0].role == "user" && request.messages[0].content == prompt
  {
    ChatRequest(DefaultModel, [Message("user", prompt)])
  }

  /** An external call, in the order the page makes them. */
  datatype Call = SearchCall(query: string) | CompletionCall(request: ChatRequest)

  /** What `generate_research_report` returns, `(report, search_results)` or `(None, None)`,
      with the external calls it made. */
  datatype Generation = Generation(report: Option<string>, searchResults: Option<string>, calls: seq<Call>)

  /** True if some call in `calls` went to the completion endpoint. */
  predicate CallsCompletion(calls: seq<Call>) {
    exists i :: 0 <= i < |calls| && calls[i].CompletionCall?
  }

  /** The report pipeline. `search` and `complete` give the outcome the search tool and the
      completion endpoint would produce for a query and a request. The search is always made
      first, on the topic; the completion is made only when the search succeeded, and only on
      the composed prompt; a failure of either yields no report and no search results. */
  function GenerateReport(topic: string, search: string -> Result<string>,
                          complete: ChatRequest -> Result<string>): (g: Generation)
    ensures 1 <= |g.calls| <= 2 && g.calls[0] == SearchCall(topic)
    ensures search(topic).Failure? ==> g.calls == [SearchCall(topic)]
    ensures CallsCompletion(g.calls) <==> search(topic).Ok?
    ensures search(topic).Ok? ==>
      g.calls[|g.calls| - 1] == CompletionCall(CompletionRequest(ComposePrompt(search(topic).value, topic)))
    ensures g.report.Some? <==> g.searchResults.Some?
    ensures g.report.Some? <==>
      search(topic).Ok? && complete(CompletionRequest(ComposePrompt(search(topic).value, topic))).Ok?
    ensures g.report.Some? ==>
      g.searchResults == Some(search(topic).value) &&
      g.report == Some(complete(CompletionRequest(ComposePrompt(search(topic).value, topic))).value)
  {
    match search(topic)
    case Failure(_) => Generation(None, None, [SearchCall(topic)])
    case Ok(results) =>
      var request := CompletionRequest(ComposePrompt(results, topic));
      var calls := [SearchCall(topic), CompletionCall(request)];
      assert calls[1].CompletionCall?;
      match complete(request)
      case Failure(_) => Generation(None, None, calls)
      case Ok(report) => Generation(Some(report), Some(results), calls)
  }
}
