/**
  The Groq client: a chat-completion wrapper pinned to one model, which
  builds a context from the first three retrieved documents, replays the
  last two exchanges, and retries the completion once before giving up
  with an error reply.
*/
module LlmGroq {
  import opened Common
  import opened Strings
  import opened PyValues
  import opened LlmCommon

  /** The only model the client ever uses. */
  const ValidModel: string := "llama-3.1-8b-instant"

  const SystemPrompt: string :=
    "\nYou are an MCA Study Assistant.\n- Use provided context FIRST.\n"
    + "- If context does not contain the answer, say:\n  \"Not found in notes, here is general guidance:\"\n"
    + "- Keep answers under 250 words.\n- Use simple Indian-English explanations.\n"
    + "- For technical content, use examples.\n"

  const ContextAck: string := "Context received. I will use it to answer your question."

  const ErrorAnswer: string := "\U{26A0}\U{FE0F} LLM Error \U{2014} Try again later."

  /** How much of each document's text goes into the context. */
  const TextCut: nat := 600

  /** What one chat-completion call does: return a message, or raise. */
  datatype CallOutcome = Answered(content: string) | CallRaised

  datatype GroqStatus = GroqStatus(connected: bool, model: string, provider: string, status: string)

  /** `model or ui_model or env_model or VALID_MODEL`. */
  function FirstChoice(model: Option<string>, uiModel: Option<string>, envModel: string): (r: string)
    ensures r != []
  {
    if model.Some? && model.value != [] then model.value
    else if uiModel.Some? && uiModel.value != [] then uiModel.value
    else if envModel != [] then envModel
    else ValidModel
  }

  /** The context block of the `i`-th (0-based) of the first three documents. */
  function Block(i: nat, d: Document): string {
    if d.DictDoc? then "\n[Document " + NatToString(i + 1) + "]\n" + Prefix(TextOf(d), TextCut) + "\n" else ""
  }

  /** The source entry of a document. */
  function Source(d: Document): Option<Dict> {
    if d.DictDoc? then Some(SourceEntry(MetadataOf(d))) else None
  }

  function SourceEntry(meta: Dict): Dict {
    map[
      "document" := Get(meta, "source", Str("Unknown")),
      "subject" := Get(meta, "subject", Str("General")),
      "page" := Get(meta, "page", Str("N/A"))
    ]
  }

  /** Reading `text` of an element that is not a dict raises before any call is made. */
  predicate Raises(documents: Option<seq<Document>>) {
    NonDictBefore(TopThree(documents), |TopThree(documents)|)
  }

  /** One of the first `n` documents is not a dict. */
  predicate NonDictBefore(top: seq<Document>, n: nat)
    requires n <= |top|
  {
    exists k | 0 <= k < n :: top[k].NonDict?
  }

  function Context(documents: Option<seq<Document>>): string {
    Blocks(TopThree(documents), |TopThree(documents)|, Block)
  }

  function SourceList(documents: Option<seq<Document>>): seq<Dict> {
    Sources(TopThree(documents), |TopThree(documents)|, Source)
  }

  /** The replayed history: a user and an assistant message per exchange. */
  function HistoryMessages(h: seq<HistoryEntry>, n: nat): (r: seq<Message>)
    requires n <= |h|
    ensures |r| == 2 * n
  {
    if n == 0 then []
    else HistoryMessages(h, n - 1) + [Message("user", UserOf(h[n - 1])), Message("assistant", AssistantOf(h[n - 1]))]
  }

  function Messages(context: string, chat: seq<Message>, query: string): seq<Message> {
    [Message("system", SystemPrompt)]
    + (if context != [] then [Message("user", "Context:\n" + context), Message("assistant", ContextAck)] else [])
    + chat
    + [Message("user", query)]
  }

  /** The reply after at most two attempts with the same messages: it
      succeeds exactly when one of them answers, and then carries the first
      answer with the sources (the second attempt's when the first raises); otherwise it is the error reply with no sources. */
  function Retried(model: string, sources: seq<Dict>, messages: seq<Message>, call: (nat, seq<Message>) -> CallOutcome): (r: Reply)
    ensures r.model == model
    ensures r.status == "success" <==> call(0, messages).Answered? || call(1, messages).Answered?
    ensures call(0, messages).Answered? ==> r.answer == call(0, messages).content && r.sources == sources
    ensures call(0, messages).CallRaised? && call(1, messages).Answered? ==> r.answer == call(1, messages).content && r.sources == sources
    ensures r.status != "success" ==> r == Reply(ErrorAnswer, [], model, "error")
  {
    if call(0, messages).Answered? then Reply(call(0, messages).content, sources, model, "success")
    else if call(1, messages).Answered? then Reply(call(1, messages).content, sources, model, "success")
    else Reply(ErrorAnswer, [], model, "error")
  }

  /** The context loop of `generate_answer`: a block and a source per
      document, or `None` when reading a non-dict document raises. */
  method BuildContext(documents: Option<seq<Document>>) returns (r: Option<(string, seq<Dict>)>)
    ensures r.None? <==> Raises(documents)
    ensures r.Some? ==> r.value == (Context(documents), SourceList(documents))
  {
    var context := "";
    var sources := [];
    var top := TopThree(documents);
    for i := 0 to |top|
      invariant context == Blocks(top, i, Block)
      invariant sources == Sources(top, i, Source)
      invariant !NonDictBefore(top, i)
    {
      var doc := top[i];
      if doc.NonDict? {
        RaisesAt(documents, i);
        return None;
      }
      ContextStep(top, i);
      context := context + Block(i, doc);
      sources := sources + [SourceEntry(MetadataOf(doc))];
    }
    return Some((context, sources));
  }

  /** A non-dict document among the first three raises. */
  lemma RaisesAt(documents: Option<seq<Document>>, i: nat)
    requires i < |TopThree(documents)| && TopThree(documents)[i].NonDict?
    ensures Raises(documents)
  {
  }

  /** A dict document adds its block to the context and its entry to the sources. */
  lemma ContextStep(top: seq<Document>, i: nat)
    requires i < |top| && top[i].DictDoc? && !NonDictBefore(top, i)
    ensures !NonDictBefore(top, i + 1)
    ensures Blocks(top, i + 1, Block) == Blocks(top, i, Block) + Block(i, top[i])
    ensures Sources(top, i + 1, Source) == Sources(top, i, Source) + [SourceEntry(MetadataOf(top[i]))]
  {
  }

  /** The history loop of `generate_answer`. */
  method BuildHistory(history: Option<seq<HistoryEntry>>) returns (chat: seq<Message>)
    ensures chat == HistoryMessages(LastTwo(history), |LastTwo(history)|)
  {
    chat := [];
    var recent := LastTwo(history);
    for j := 0 to |recent|
      invariant chat == HistoryMessages(recent, j)
    {
      var h := recent[j];
      chat := chat + [Message("user", UserOf(h)), Message("assistant", AssistantOf(h))];
    }
  }

  /** The retry loop of `generate_answer`: two attempts with the same messages. */
  method Retry(model: string, sources: seq<Dict>, messages: seq<Message>, call: (nat, seq<Message>) -> CallOutcome)
    returns (r: Reply)
    ensures r == Retried(model, sources, messages, call)
  {
    for attempt := 0 to 2
      invariant forall a | 0 <= a < attempt :: call(a, messages).CallRaised?
    {
      var outcome := call(attempt, messages);
      if outcome.Answered? {
        return Reply(outcome.content, sources, model, "success");
      }
    }
    return Reply(ErrorAnswer, [], model, "error");
  }

  class GroqLLM {
    var model: string
    var connectionStatus: bool

    /** The part of `__init__` after the key check: the model is forced to
        the valid one, and the connection is whatever the ping gave. */
    constructor (model: Option<string>, uiModel: Option<string>, envModel: string, ping: CallOutcome)
      ensures this.model == ValidModel
      ensures connectionStatus == ping.Answered?
    {
      var chosen := FirstChoice(model, uiModel, envModel);
      if chosen != ValidModel {
        chosen := ValidModel;
      }
      this.model := chosen;
      connectionStatus := ping.Answered?;
    }

    /** `__init__`: a missing API key raises before any client exists. */
    static method Create(apiKey: string, model: Option<string>, uiModel: Option<string>, envModel: string, ping: CallOutcome)
      returns (r: Option<GroqLLM>)
      ensures r.None? <==> apiKey == []
      ensures r.Some? ==> fresh(r.value) && r.value.model == ValidModel && r.value.connectionStatus == ping.Answered?
    {
      if apiKey == [] {
        return None;
      }
      var llm := new GroqLLM(model, uiModel, envModel, ping);
      return Some(llm);
    }

    /** `generate_answer`; `None` stands for the exception a non-dict document raises. */
    method GenerateAnswer(query: string, documents: Option<seq<Document>>, history: Option<seq<HistoryEntry>>,
                          call: (nat, seq<Message>) -> CallOutcome)
      returns (r: Option<Reply>)
      ensures r.None? <==> Raises(documents)
      ensures r.Some? ==> r.value == Retried(model, SourceList(documents),
        Messages(Context(documents), HistoryMessages(LastTwo(history), |LastTwo(history)|), query), call)
    {
      var built := BuildContext(documents);
      if built.None? {
        return None;
      }
      var (context, sources) := built.value;
      var chat := BuildHistory(history);
      var messages := Messages(context, chat, query);
      var reply := Retry(model, sources, messages, call);
      return Some(reply);
    }

    function GetStatus(): (s: GroqStatus)
      reads this
      ensures s.connected == connectionStatus && s.model == model && s.provider == "Groq"
      ensures s.status == if connectionStatus then "\U{1F7E2} Connected" else "\U{1F534} Disconnected"
    {
      GroqStatus(connectionStatus, model, "Groq",
        if connectionStatus then "\U{1F7E2} Connected" else "\U{1F534} Disconnected")
    }
  }

  /** The messages open with the system prompt, carry the context pair only
      when there is a context, replay each exchange as a user/assistant pair
      in order, and end with the query. */
  lemma MessagesShape(context: string, h: seq<HistoryEntry>, query: string)
    ensures var m := Messages(context, HistoryMessages(h, |h|), query);
      var off := if context != [] then 3 else 1;
      && |m| == off + 2 * |h| + 1
      && m[0] == Message("system", SystemPrompt)
      && m[|m| - 1] == Message("user", query)
      && (context != [] ==> m[1] == Message("user", "Context:\n" + context) && m[2] == Message("assistant", ContextAck))
      && forall k | 0 <= k < |h| ::
           m[off + 2 * k] == Message("user", UserOf(h[k])) && m[off + 2 * k + 1] == Message("assistant", AssistantOf(h[k]))
  {
    HistoryMessagesSpec(h, |h|);
  }

  lemma {:induction false} HistoryMessagesSpec(h: seq<HistoryEntry>, n: nat)
    requires n <= |h|
    ensures forall k | 0 <= k < n ::
      HistoryMessages(h, n)[2 * k] == Message("user", UserOf(h[k]))
      && HistoryMessages(h, n)[2 * k + 1] == Message("assistant", AssistantOf(h[k]))
  {
    if n > 0 {
      HistoryMessagesSpec(h, n - 1);
    }
  }

  /** Without a non-dict document, there is a context exactly when there are documents. */
  lemma ContextIffDocuments(documents: Option<seq<Document>>)
    requires !Raises(documents)
    ensures Context(documents) != [] <==> documents.Some? && documents.value != []
  {
    var top := TopThree(documents);
    BlocksEmpty(top, |top|, Block);
    if |top| > 0 {
      assert Block(0, top[0]) != [];
    }
  }

  /** Each of the first three documents' text, cut to 600 characters, is in the context. */
  lemma ContextHoldsTexts(documents: Option<seq<Document>>, k: nat)
    requires k < |TopThree(documents)| && TopThree(documents)[k].DictDoc?
    ensures Contains(Context(documents), Prefix(TextOf(TopThree(documents)[k]), TextCut))
  {
    var top := TopThree(documents);
    var head := "\n[Document " + NatToString(k + 1) + "]\n";
    var text := Prefix(TextOf(top[k]), TextCut);
    BlocksContain(top, |top|, Block, k);
    ContainsMiddle(head, text, "\n");
    ContainsTransitive(Context(documents), Block(k, top[k]), text);
  }

  /** One source per document, in order, with the metadata defaults. */
  lemma SourcesSpec(documents: Option<seq<Document>>)
    requires !Raises(documents)
    ensures |SourceList(documents)| == |TopThree(documents)|
    ensures forall k | 0 <= k < |TopThree(documents)| ::
      SourceList(documents)[k] == SourceEntry(MetadataOf(TopThree(documents)[k]))
  {
    var top := TopThree(documents);
    SourcesAll(top, |top|, Source);
  }
}
