/**
  The Gemini client: it waits out a recorded rate limit, builds a prompt
  from the dict documents among the first three and the last two
  exchanges, and turns an empty reply, a rate-limit error or any other
  error into a reply with the matching status.
*/
module LlmInterface {
  import opened Common
  import opened Strings
  import opened PyValues
  import opened LlmCommon

  /** How much of each document's text and of each past question or answer goes into the prompt. */
  const TextCut: nat := 500
  const HistoryCut: nat := 200

  /** The longest sleep before a call, and how long a rate limit is assumed to last, in seconds. */
  const MaxWait: int := 30
  const RateLimitPause: int := 30

  const EmptyResponse: string := "Empty response from Gemini API"
  const RateLimitAnswer: string :=
    "\U{23F1}\U{FE0F} Rate limit reached. Please wait a moment and try again. You've used the free tier limit for this model."
  const NoContext: string := "No specific documents. Use your knowledge."
  const NoHistory: string := "First question"
  const PromptHead: string :=
    "Answer this question based on the provided context.\nKeep your answer concise and clear. Maximum 150 words.\n\nCONTEXT:\n"
  const PreviousLabel: string := "\n\nPREVIOUS:\n"
  const QuestionLabel: string := "\n\nQUESTION:\n"
  const AnswerLabel: string := "\n\nANSWER:"

  /** What one `generate_content` call does: return a text (empty for no response), or raise with a message. */
  datatype GeminiOutcome = Text(text: string) | Raised(error: string)

  datatype GeminiStatus = GeminiStatus(connected: bool, model: string, apiKeySet: bool, status: string)

  /** `_verify_connection` followed by the `if not self.connection_status`
      fix-up in `__init__`, as written: a successful ping leaves the reply's
      text, not `True`, in `connection_status`. */
  function ConnectionAsWritten(ping: GeminiOutcome): (v: Value)
    ensures Truthy(v) <==> ping.Text? && ping.text != []
  {
    if ping.Text? && ping.text != [] then Str(ping.text) else Bool(false)
  }

  /** The connection flag as a boolean, as the `-> bool` annotation promises. */
  function Connection(ping: GeminiOutcome): (b: bool)
    ensures b == Truthy(ConnectionAsWritten(ping))
  {
    ping.Text? && ping.text != []
  }

  /** A successful ping makes `get_status()["connected"]` the reply text "Hi" rather than `True`. */
  lemma ConnectedIsText()
    ensures ConnectionAsWritten(Text("Hi")) == Str("Hi")
    ensures ConnectionAsWritten(Text("Hi")) != Bool(Connection(Text("Hi")))
  {
  }

  /** How long `_wait_for_rate_limit` sleeps, given the reset time and the two clock readings. */
  function SleepFor(reset: int, now: int, later: int): (d: int)
    ensures 0 <= d <= MaxWait
    ensures d > 0 <==> now < reset && later < reset
    ensures d > 0 ==> d <= reset - later + 1
  {
    if now < reset && reset - later > 0 then
      if reset - later + 1 < MaxWait then reset - later + 1 else MaxWait
    else 0
  }

  /** The context block of the `i`-th (0-based) of the first three
      documents; a non-dict element contributes nothing but keeps its number. */
  function Block(i: nat, d: Document): string {
    if d.DictDoc? then Header(i) + Prefix(TextOf(d), TextCut) + "\n" else ""
  }

  function Header(i: nat): string {
    "\n[Document " + NatToString(i + 1) + "]\n"
  }

  function Source(d: Document): Option<Dict> {
    if d.DictDoc? then Some(SourceEntry(MetadataOf(d))) else None
  }

  function SourceEntry(meta: Dict): Dict {
    map[
      "document" := Get(meta, "source", Str("Unknown")),
      "pages" := Get(meta, "page", Str("N/A")),
      "subject" := Get(meta, "subject", Str("General")),
      "type" := Get(meta, "type", Str("General"))
    ]
  }

  function Context(documents: Option<seq<Document>>): string {
    Blocks(TopThree(documents), |TopThree(documents)|, Block)
  }

  function SourceList(documents: Option<seq<Document>>): seq<Dict> {
    Sources(TopThree(documents), |TopThree(documents)|, Source)
  }

  function Exchange(h: HistoryEntry): string {
    "\nQ: " + Prefix(UserOf(h), HistoryCut) + "\nA: " + Prefix(AssistantOf(h), HistoryCut) + "\n"
  }

  /** The history text built from the first `n` of the replayed exchanges. */
  function ChatHistory(h: seq<HistoryEntry>, n: nat): string
    requires n <= |h|
  {
    if n == 0 then "" else ChatHistory(h, n - 1) + Exchange(h[n - 1])
  }

  function Prompt(context: string, chat: string, query: string): string {
    PromptHead
    + OrElse(context, NoContext)
    + PreviousLabel
    + OrElse(chat, NoHistory)
    + QuestionLabel
    + query
    + AnswerLabel
  }

  /** `"429" in error_str or "quota" in error_str.lower()`. Only ASCII
      letters are folded, which decides the test the same way: no other
      character lower-cases to a letter of "quota". */
  predicate IsRateLimit(error: string) {
    Contains(error, "429") || Contains(Lower(error), "quota")
  }

  /** The message of the exception the call ends with, if any. */
  function ErrorOf(outcome: GeminiOutcome): Option<string> {
    match outcome
    case Text(t) => if t != [] then None else Some(EmptyResponse)
    case Raised(e) => Some(e)
  }

  /** The reply for a call outcome. */
  function Answer(model: string, sources: seq<Dict>, outcome: GeminiOutcome): (r: Reply)
    ensures r.model == model
    ensures r.status == "success" <==> outcome.Text? && outcome.text != []
    ensures r.status == "success" ==> r.answer == outcome.text && r.sources == sources
    ensures r.status == "rate_limited" <==> ErrorOf(outcome).Some? && IsRateLimit(ErrorOf(outcome).value)
    ensures r.status != "success" ==> r.sources == []
  {
    match ErrorOf(outcome)
    case None => Reply(outcome.text, sources, model, "success")
    case Some(e) =>
      if IsRateLimit(e) then Reply(RateLimitAnswer, [], model, "rate_limited")
      else Reply("Error generating answer: " + e, [], model, "error")
  }

  /** The context loop of `generate_answer`: a numbered block and a source
      per dict among the first three documents. */
  method BuildContext(documents: Option<seq<Document>>) returns (context: string, sources: seq<Dict>)
    ensures context == Context(documents) && sources == SourceList(documents)
  {
    context := "";
    sources := [];
    var top := TopThree(documents);
    for idx := 0 to |top|
      invariant context == Blocks(top, idx, Block)
      invariant sources == Sources(top, idx, Source)
    {
      var doc := top[idx];
      if doc.DictDoc? {
        context := context + Block(idx, doc);
        sources := sources + [SourceEntry(MetadataOf(doc))];
      }
    }
  }

  /** The history loop of `generate_answer`: the last two exchanges, each cut to 200 characters. */
  method BuildHistory(history: Option<seq<HistoryEntry>>) returns (chat: string)
    ensures chat == ChatHistory(LastTwo(history), |LastTwo(history)|)
  {
    chat := "";
    var recent := LastTwo(history);
    for j := 0 to |recent|
      invariant chat == ChatHistory(recent, j)
    {
      chat := chat + Exchange(recent[j]);
    }
  }

  class LLMInterface {
    var connectionStatus: bool
    var rateLimitResetTime: int
    /** `Config.LLM_MODEL`. */
    const llmModel: string
    /** `bool(Config.GOOGLE_API_KEY)`. */
    const apiKeySet: bool

    /** The part of `__init__` after the key check. */
    constructor (llmModel: string, ping: GeminiOutcome)
      ensures this.llmModel == llmModel && apiKeySet
      ensures connectionStatus == Connection(ping) && rateLimitResetTime == 0
    {
      this.llmModel := llmModel;
      apiKeySet := true;
      connectionStatus := Connection(ping);
      rateLimitResetTime := 0;
    }

    /** `__init__`: a missing API key is re-raised as a `RuntimeError`. */
    static method Create(apiKey: string, llmModel: string, ping: GeminiOutcome) returns (r: Option<LLMInterface>)
      ensures r.None? <==> apiKey == []
      ensures r.Some? ==>
        fresh(r.value) && r.value.llmModel == llmModel && r.value.apiKeySet
        && r.value.connectionStatus == Connection(ping) && r.value.rateLimitResetTime == 0
    {
      if apiKey == [] {
        return None;
      }
      var llm := new LLMInterface(llmModel, ping);
      return Some(llm);
    }

    /** `_wait_for_rate_limit`, with the clock read at `now` and again at `later`. */
    method WaitForRateLimit(now: int, later: int) returns (slept: int)
      modifies this
      ensures slept == SleepFor(old(rateLimitResetTime), now, later)
      ensures rateLimitResetTime == if slept > 0 then 0 else old(rateLimitResetTime)
      ensures connectionStatus == old(connectionStatus)
    {
      slept := 0;
      if now < rateLimitResetTime {
        var waitTime := rateLimitResetTime - later;
        if waitTime > 0 {
          slept := if waitTime + 1 < MaxWait then waitTime + 1 else MaxWait;
          rateLimitResetTime := 0;
        }
      }
    }

    /** `generate_answer`: the clock reads `now` and `later` before the call
        and `errorTime` when a rate-limit error is handled. */
    method GenerateAnswer(query: string, documents: Option<seq<Document>>, history: Option<seq<HistoryEntry>>,
                          now: int, later: int, errorTime: int, generate: string -> GeminiOutcome)
      returns (r: Reply)
      modifies this
      ensures var prompt := Prompt(Context(documents), ChatHistory(LastTwo(history), |LastTwo(history)|), query);
        && r == Answer(llmModel, SourceList(documents), generate(prompt))
        && rateLimitResetTime ==
             if r.status == "rate_limited" then errorTime + RateLimitPause
             else if SleepFor(old(rateLimitResetTime), now, later) > 0 then 0
             else old(rateLimitResetTime)
      ensures connectionStatus == old(connectionStatus)
    {
      var _ := WaitForRateLimit(now, later);

      var context, sources := BuildContext(documents);
      var chat := BuildHistory(history);

      var prompt := Prompt(context, chat, query);
      var outcome := generate(prompt);
      r := HandleOutcome(outcome, sources, errorTime);
    }

    /** The end of `generate_answer`: the reply to a generation outcome; a
        rate-limit error, handled at `errorTime`, pauses further calls. */
    method HandleOutcome(outcome: GeminiOutcome, sources: seq<Dict>, errorTime: int) returns (r: Reply)
      modifies this
      ensures r == Answer(llmModel, sources, outcome)
      ensures rateLimitResetTime ==
        if r.status == "rate_limited" then errorTime + RateLimitPause else old(rateLimitResetTime)
      ensures connectionStatus == old(connectionStatus)
    {
      if outcome.Text? && outcome.text != [] {
        return Reply(outcome.text, sources, llmModel, "success");
      }
      var errorStr := if outcome.Text? then EmptyResponse else outcome.error;
      if Contains(errorStr, "429") || Contains(Lower(errorStr), "quota") {
        rateLimitResetTime := errorTime + RateLimitPause;
        return Reply(RateLimitAnswer, [], llmModel, "rate_limited");
      }
      return Reply("Error generating answer: " + errorStr, [], llmModel, "error");
    }

    function GetStatus(): (s: GeminiStatus)
      reads this
      ensures s.connected == connectionStatus && s.model == llmModel && s.apiKeySet == apiKeySet
      ensures s.status == if connectionStatus then "\U{1F7E2} Connected" else "\U{26A0}\U{FE0F} Limited"
    {
      GeminiStatus(connectionStatus, llmModel, apiKeySet,
        if connectionStatus then "\U{1F7E2} Connected" else "\U{26A0}\U{FE0F} Limited")
    }
  }

  /** There is one source per dict among the first three documents. */
  lemma SourcesPerDict(documents: Option<seq<Document>>)
    ensures |SourceList(documents)| == DictCount(TopThree(documents), |TopThree(documents)|)
  {
    var top := TopThree(documents);
    SourcesCount(top, |top|, Source);
  }

  /** Each dict document's text, cut to 500 characters, is in the context
      under its position among the first three. */
  lemma ContextHoldsTexts(documents: Option<seq<Document>>, k: nat)
    requires k < |TopThree(documents)| && TopThree(documents)[k].DictDoc?
    ensures Contains(Context(documents), Header(k))
    ensures Contains(Context(documents), Prefix(TextOf(TopThree(documents)[k]), TextCut))
  {
    var top := TopThree(documents);
    var text := Prefix(TextOf(top[k]), TextCut);
    BlocksContain(top, |top|, Block, k);
    ContainsMiddle(Header(k), text, "\n");
    ContainsTransitive(Context(documents), Block(k, top[k]), text);
    ContainsFront(Header(k), text + "\n");
    assert Header(k) + (text + "\n") == Block(k, top[k]);
    ContainsTransitive(Context(documents), Block(k, top[k]), Header(k));
  }

  /** The history text is empty exactly when there is no exchange to replay. */
  lemma {:induction false} ChatHistoryEmpty(h: seq<HistoryEntry>, n: nat)
    requires n <= |h|
    ensures ChatHistory(h, n) == [] <==> n == 0
  {
    if n > 0 {
      assert Exchange(h[n - 1])[0] == '\n';
    }
  }

  /** `x if x else placeholder`. */
  function OrElse(s: string, placeholder: string): string {
    if s != [] then s else placeholder
  }

  /** The prompt carries the context, or its placeholder. */
  lemma PromptHasContext(context: string, chat: string, query: string)
    ensures Contains(Prompt(context, chat, query), OrElse(context, NoContext))
  {
    var c := OrElse(context, NoContext);
    var tail := PreviousLabel + OrElse(chat, NoHistory) + QuestionLabel + query + AnswerLabel;
    assert Prompt(context, chat, query) == PromptHead + c + tail;
    ContainsMiddle(PromptHead, c, tail);
  }

  /** The prompt carries the history, or its placeholder. */
  lemma PromptHasHistory(context: string, chat: string, query: string)
    ensures Contains(Prompt(context, chat, query), OrElse(chat, NoHistory))
  {
    var p := OrElse(chat, NoHistory);
    var front := PromptHead + OrElse(context, NoContext) + PreviousLabel;
    var tail := QuestionLabel + query + AnswerLabel;
    assert Prompt(context, chat, query) == front + p + tail;
    ContainsMiddle(front, p, tail);
  }

  /** The prompt carries the query. */
  lemma PromptHasQuery(context: string, chat: string, query: string)
    ensures Contains(Prompt(context, chat, query), query)
  {
    var front := PromptHead + OrElse(context, NoContext) + PreviousLabel + OrElse(chat, NoHistory) + QuestionLabel;
    assert Prompt(context, chat, query) == front + query + AnswerLabel;
    ContainsMiddle(front, query, AnswerLabel);
  }
}
