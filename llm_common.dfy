/**
  What the three LLM clients share: the shape of the retrieved documents
  and of the chat history they are given, the chat messages and the reply
  they return, and the accumulation of a context string and of a source
  list over the first documents.
*/
module LlmCommon {
  import opened Common
  import opened Strings
  import opened PyValues

  /** A retrieved document: a dict with optional "text" and "metadata"
      entries, or a list element that is not a dict. */
  datatype Document = DictDoc(text: Option<string>, metadata: Option<Dict>) | NonDict

  /** `doc.get("text", "")`. */
  function TextOf(d: Document): string
    requires d.DictDoc?
  {
    if d.text.Some? then d.text.value else ""
  }

  /** `doc.get("metadata", {})`. */
  function MetadataOf(d: Document): Dict
    requires d.DictDoc?
  {
    if d.metadata.Some? then d.metadata.value else map[]
  }

  /** A past exchange `{"user": ..., "assistant": ...}`. */
  datatype HistoryEntry = HistoryEntry(user: Option<string>, assistant: Option<string>)

  function UserOf(h: HistoryEntry): string {
    if h.user.Some? then h.user.value else ""
  }

  function AssistantOf(h: HistoryEntry): string {
    if h.assistant.Some? then h.assistant.value else ""
  }

  datatype Message = Message(role: string, content: string)

  /** The dict every `generate_answer` returns. */
  datatype Reply = Reply(answer: string, sources: seq<Dict>, model: string, status: string)

  /** `documents[:3]` under `if documents:`; `None` and `[]` give nothing. */
  function TopThree(docs: Option<seq<Document>>): (r: seq<Document>)
    ensures |r| <= 3
    ensures docs.Some? ==> |r| == (if |docs.value| < 3 then |docs.value| else 3) && r == docs.value[..|r|]
    ensures docs.None? ==> r == []
  {
    if docs.None? then [] else Prefix3(docs.value)
  }

  function Prefix3(s: seq<Document>): seq<Document> {
    if |s| <= 3 then s else s[..3]
  }

  /** `history[-2:]` under `if history:`. */
  function LastTwo(history: Option<seq<HistoryEntry>>): (r: seq<HistoryEntry>)
    ensures |r| <= 2
    ensures history.Some? ==>
      |r| == (if |history.value| < 2 then |history.value| else 2) && r == history.value[|history.value| - |r|..]
    ensures history.None? ==> r == []
  {
    if history.None? then []
    else if |history.value| <= 2 then history.value
    else history.value[|history.value| - 2..]
  }

  /** The context built by a loop that appends `block(i, docs[i])` for each
      of the first `n` documents. */
  function Blocks(docs: seq<Document>, n: nat, block: (nat, Document) -> string): string
    requires n <= |docs|
  {
    if n == 0 then "" else Blocks(docs, n - 1, block) + block(n - 1, docs[n - 1])
  }

  /** Every block occurs in the context. */
  lemma {:induction false} BlocksContain(docs: seq<Document>, n: nat, block: (nat, Document) -> string, k: nat)
    requires k < n <= |docs|
    ensures Contains(Blocks(docs, n, block), block(k, docs[k]))
  {
    if k == n - 1 {
      ContainsMiddle(Blocks(docs, n - 1, block), block(k, docs[k]), "");
      assert Blocks(docs, n - 1, block) + block(k, docs[k]) + "" == Blocks(docs, n, block);
    } else {
      BlocksContain(docs, n - 1, block, k);
      ContainsAppend(Blocks(docs, n - 1, block), block(n - 1, docs[n - 1]), block(k, docs[k]));
    }
  }

  /** The context is empty exactly when every block is. */
  lemma {:induction false} BlocksEmpty(docs: seq<Document>, n: nat, block: (nat, Document) -> string)
    requires n <= |docs|
    ensures Blocks(docs, n, block) == "" <==> forall k | 0 <= k < n :: block(k, docs[k]) == ""
  {
    if n > 0 {
      BlocksEmpty(docs, n - 1, block);
    }
  }

  /** The source list built by a loop that appends `source(docs[i])` for
      each of the first `n` documents that gives one. */
  function Sources(docs: seq<Document>, n: nat, source: Document -> Option<Dict>): (r: seq<Dict>)
    requires n <= |docs|
    ensures |r| <= n
  {
    if n == 0 then []
    else
      Sources(docs, n - 1, source)
      + match source(docs[n - 1])
        case None => []
        case Some(s) => [s]
  }

  /** When every document gives a source, the sources are exactly theirs, in order. */
  lemma {:induction false} SourcesAll(docs: seq<Document>, n: nat, source: Document -> Option<Dict>)
    requires n <= |docs|
    requires forall k | 0 <= k < n :: source(docs[k]).Some?
    ensures |Sources(docs, n, source)| == n
    ensures forall k | 0 <= k < n :: Sources(docs, n, source)[k] == source(docs[k]).value
  {
    if n > 0 {
      SourcesAll(docs, n - 1, source);
    }
  }

  /** How many of the first `n` documents are dicts. */
  function DictCount(docs: seq<Document>, n: nat): (c: nat)
    requires n <= |docs|
    ensures c <= n
  {
    if n == 0 then 0 else DictCount(docs, n - 1) + if docs[n - 1].DictDoc? then 1 else 0
  }

  /** When exactly the dicts give a source, there is one source per dict. */
  lemma {:induction false} SourcesCount(docs: seq<Document>, n: nat, source: Document -> Option<Dict>)
    requires n <= |docs|
    requires forall k | 0 <= k < n :: source(docs[k]).Some? <==> docs[k].DictDoc?
    ensures |Sources(docs, n, source)| == DictCount(docs, n)
  {
    if n > 0 {
      SourcesCount(docs, n - 1, source);
    }
  }
}
