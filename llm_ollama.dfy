/**
  The Ollama client: a self-hosted model reached over HTTP, with an
  offline fallback that quotes the first document when the server is
  unreachable or answers with an error.
*/
module LlmOllama {
  import opened Common
  import opened Strings
  import opened PyValues
  import opened LlmCommon

  const TextCut: nat := 300
  const FallbackCut: nat := 400

  const PromptHead: string := "Answer the question based on context.\nKeep it under 200 words.\n\nContext:\n"
  const QuestionLabel: string := "\n\nQuestion: "
  const AnswerLabel: string := "\n\nAnswer:"
  const NoContext: string := "General knowledge"
  const NoResponse: string := "No response"
  const FromDocuments: string := "\U{1F4DA} From documents:\n\n"
  const Unavailable: string := "\U{26A0}\U{FE0F} LLM unavailable. Upload materials to search."

  /** What `POST /api/generate` does: raise (also for a body that is not
      JSON), or answer with a status code and the body's optional "response". */
  datatype PostOutcome = PostRaised | PostReply(statusCode: int, response: Option<string>)

  datatype OllamaStatus = OllamaStatus(connected: bool, model: string, status: string)

  /** `s.rstrip(c)` for one character. */
  function RStripChar(s: string, c: char): (r: string)
    ensures |r| <= |s|
    ensures r != [] ==> r[|r| - 1] != c
  {
    if s == [] || s[|s| - 1] != c then s else RStripChar(s[..|s| - 1], c)
  }

  /** `rstrip` removes exactly the trailing run of `c`. */
  lemma {:induction false} RStripCharSpec(s: string, c: char)
    ensures RStripChar(s, c) == s[..|RStripChar(s, c)|]
    ensures forall i | |RStripChar(s, c)| <= i < |s| :: s[i] == c
  {
    if s != [] && s[|s| - 1] == c {
      RStripCharSpec(s[..|s| - 1], c);
      assert s[..|s| - 1][..|RStripChar(s, c)|] == s[..|RStripChar(s, c)|];
    }
  }

  function Block(i: nat, d: Document): string {
    if d.DictDoc? then "\n[Ref " + NatToString(i + 1) + "] " + Prefix(TextOf(d), TextCut) else ""
  }

  function Source(d: Document): Option<Dict> {
    if d.DictDoc? then Some(SourceEntry(MetadataOf(d))) else None
  }

  function SourceEntry(meta: Dict): Dict {
    map["document" := Get(meta, "source", Str("Unknown")), "subject" := Get(meta, "subject", Str("General"))]
  }

  function Context(documents: Option<seq<Document>>): string {
    Blocks(TopThree(documents), |TopThree(documents)|, Block)
  }

  function SourceList(documents: Option<seq<Document>>): seq<Dict> {
    Sources(TopThree(documents), |TopThree(documents)|, Source)
  }

  function Prompt(context: string, query: string): string {
    PromptHead + (if context != [] then context else NoContext) + QuestionLabel + query + AnswerLabel
  }

  /** `_fallback_answer`: quote the first document, or say that nothing is
      available; `None` stands for the exception a non-dict first element raises. */
  function Fallback(documents: Option<seq<Document>>): (r: Option<Reply>)
    ensures r.None? <==> documents.Some? && documents.value != [] && documents.value[0].NonDict?
    ensures r.Some? ==> r.value.model == "Fallback" && r.value.status == "offline"
    ensures r.Some? && documents.Some? && documents.value != [] ==>
      r.value.answer == FromDocuments + Prefix(TextOf(documents.value[0]), FallbackCut) + "..."
      && r.value.sources == [map["document" := Str("Uploaded material")]]
    ensures (documents.None? || documents.value == []) ==> r == Some(Reply(Unavailable, [], "Fallback", "offline"))
  {
    if documents.Some? && documents.value != [] then
      var first := documents.value[0];
      if first.NonDict? then None
      else
        var text := Prefix(TextOf(first), FallbackCut);
        Some(Reply(FromDocuments + text + "...", [map["document" := Str("Uploaded material")]], "Fallback", "offline"))
    else
      Some(Reply(Unavailable, [], "Fallback", "offline"))
  }

  class OllamaLLM {
    var baseUrl: string
    var model: string
    var connectionStatus: bool

    /** `__init__`: the server is connected exactly when `GET /api/tags`
        answers 200 (`None` stands for an exception). */
    constructor (baseUrl: string, model: string, tags: string -> Option<int>)
      ensures this.baseUrl == RStripChar(baseUrl, '/') && this.model == model
      ensures connectionStatus == (tags(RStripChar(baseUrl, '/') + "/api/tags") == Some(200))
    {
      this.baseUrl := RStripChar(baseUrl, '/');
      this.model := model;
      var response := tags(RStripChar(baseUrl, '/') + "/api/tags");
      connectionStatus := response == Some(200);
    }

    /** `generate_answer`; `None` stands for the exception the fallback raises
        when the first document is not a dict. */
    method GenerateAnswer(query: string, documents: Option<seq<Document>>, post: (string, string, string) -> PostOutcome)
      returns (r: Option<Reply>)
      ensures var outcome := post(baseUrl + "/api/generate", model, Prompt(Context(documents), query));
        if connectionStatus && outcome.PostReply? && outcome.statusCode == 200 then
          r == Some(Reply(if outcome.response.Some? then outcome.response.value else NoResponse,
                          SourceList(documents), "Ollama/" + model, "success"))
        else r == Fallback(documents)
    {
      if !connectionStatus {
        return Fallback(documents);
      }
      var context := "";
      var sources := [];
      var top := TopThree(documents);
      for idx := 0 to |top|
        invariant context == Blocks(top, idx, Block)
        invariant sources == Sources(top, idx, Source)
      {
        var doc := top[idx];
        if doc.DictDoc? {
          var text := Prefix(TextOf(doc), TextCut);
          var metadata := MetadataOf(doc);
          context := context + ("\n[Ref " + NatToString(idx + 1) + "] " + text);
          sources := sources + [SourceEntry(metadata)];
        }
      }
      var prompt := Prompt(context, query);
      var response := post(baseUrl + "/api/generate", model, prompt);
      if response.PostRaised? {
        return Fallback(documents);
      }
      if response.statusCode == 200 {
        var answer := if response.response.Some? then response.response.value else NoResponse;
        return Some(Reply(answer, sources, "Ollama/" + model, "success"));
      }
      return Fallback(documents);
    }

    function GetStatus(): (s: OllamaStatus)
      reads this
      ensures s.connected == connectionStatus && s.model == model
      ensures s.status == if connectionStatus then "\U{1F7E2} Connected" else "\U{26A0}\U{FE0F} Offline"
    {
      OllamaStatus(connectionStatus, model, if connectionStatus then "\U{1F7E2} Connected" else "\U{26A0}\U{FE0F} Offline")
    }
  }

  /** Each dict document's text, cut to 300 characters, is in the context. */
  lemma ContextHoldsTexts(documents: Option<seq<Document>>, k: nat)
    requires k < |TopThree(documents)| && TopThree(documents)[k].DictDoc?
    ensures Contains(Context(documents), Prefix(TextOf(TopThree(documents)[k]), TextCut))
  {
    var top := TopThree(documents);
    var head := "\n[Ref " + NatToString(k + 1) + "] ";
    var text := Prefix(TextOf(top[k]), TextCut);
    BlocksContain(top, |top|, Block, k);
    ContainsMiddle(head, text, []);
    assert head + text + [] == Block(k, top[k]);
    ContainsTransitive(Context(documents), Block(k, top[k]), text);
  }

  /** There is one source per dict among the first three documents. */
  lemma SourcesPerDict(documents: Option<seq<Document>>)
    ensures |SourceList(documents)| == DictCount(TopThree(documents), |TopThree(documents)|)
  {
    var top := TopThree(documents);
    SourcesCount(top, |top|, Source);
  }
}
