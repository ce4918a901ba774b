/**
  The chat page's logic: removing HTML tags from displayed source fields,
  choosing which sources to list under a reply, building the search
  filters from the two selections, and the messages and history entries
  one submitted input adds to the session.
*/
module Chat {
  import opened Common
  import opened Strings
  import opened PyValues
  import opened LlmCommon
  import LlmGroq

  // ---------------------------------------------------------------- tags

  /** The position of the first '>' at or after `i`. */
  function FirstClose(s: string, i: nat): (r: Option<nat>)
    ensures r.Some? ==> i <= r.value < |s| && s[r.value] == '>'
    ensures r.Some? ==> forall k | i <= k < r.value :: s[k] != '>'
    ensures r.None? ==> forall k | i <= k < |s| :: s[k] != '>'
    decreases |s| - i
  {
    if i >= |s| then None
    else if s[i] == '>' then Some(i)
    else FirstClose(s, i + 1)
  }

  /** `re.sub(r'<[^>]+>', '', s)`: from each '<', the text up to the first
      '>' after it is removed when at least one character lies between them. */
  function StripTags(s: string): (r: string)
    ensures |r| <= |s|
  {
    if s == [] then []
    else if s[0] == '<' && FirstClose(s, 1).Some? && FirstClose(s, 1).value >= 2 then
      StripTags(s[FirstClose(s, 1).value + 1..])
    else [s[0]] + StripTags(s[1..])
  }

  /** A tag: '<', then one or more characters other than '>', then '>'. */
  predicate TagAt(s: string, i: int, j: int) {
    0 <= i && i + 2 <= j < |s| && s[i] == '<' && s[j] == '>' && forall k | i < k < j :: s[k] != '>'
  }

  ghost predicate NoTag(s: string) {
    forall i, j :: !TagAt(s, i, j)
  }

  /** `strip_html_tags`: strings lose their tags; anything else comes back unchanged. */
  function StripHtmlTags(v: Value): (r: Value)
    ensures !v.Str? ==> r == v
    ensures v.Str? ==> r == Str(StripTags(v.s))
  {
    match v
    case Str(s) => Str(StripTags(s))
    case _ => v
  }

  lemma TagShift(c: char, t: string, i: int, j: int)
    requires i >= 1
    ensures TagAt([c] + t, i, j) <==> TagAt(t, i - 1, j - 1)
  {
    var s := [c] + t;
    if TagAt(s, i, j) {
      forall k | i - 1 < k < j - 1 ensures t[k] != '>' {
        assert t[k] == s[k + 1];
      }
    }
    if TagAt(t, i - 1, j - 1) {
      forall k | i < k < j ensures s[k] != '>' {
        assert s[k] == t[k - 1];
      }
    }
  }

  /** The result holds no tag. */
  lemma {:induction false} StripTagsNoTag(s: string)
    ensures NoTag(StripTags(s))
    decreases |s|
  {
    if s == [] {
    } else if s[0] == '<' && FirstClose(s, 1).Some? && FirstClose(s, 1).value >= 2 {
      StripTagsNoTag(s[FirstClose(s, 1).value + 1..]);
    } else {
      var t := StripTags(s[1..]);
      StripTagsNoTag(s[1..]);
      assert StripTags(s) == [s[0]] + t;
      forall i, j ensures !TagAt([s[0]] + t, i, j) {
        if i >= 1 {
          TagShift(s[0], t, i, j);
        } else if i == 0 && s[0] == '<' && 2 <= j < |t| + 1 {
          // A kept '<': the input has no '>' after it, or one right after it.
          if FirstClose(s, 1).None? {
            NoCloseKept(s[1..]);
            assert ([s[0]] + t)[j] == t[j - 1];
          } else {
            assert s[1..][0] == '>';
            assert t[0] == '>';
            assert ([s[0]] + t)[1] == '>';
          }
        }
      }
    }
  }

  /** Text without '>' keeps none. */
  lemma {:induction false} NoCloseKept(s: string)
    requires forall k | 0 <= k < |s| :: s[k] != '>'
    ensures forall k | 0 <= k < |StripTags(s)| :: StripTags(s)[k] != '>'
    decreases |s|
  {
    if s != [] {
      assert FirstClose(s, 1).None?;
      NoCloseKept(s[1..]);
    }
  }

  /** Text without tags is left as it is, so stripping twice is stripping once. */
  lemma {:induction false} StripTagsNoTagUnchanged(s: string)
    requires NoTag(s)
    ensures StripTags(s) == s
    decreases |s|
  {
    if s != [] {
      if s[0] == '<' && FirstClose(s, 1).Some? && FirstClose(s, 1).value >= 2 {
        assert TagAt(s, 0, FirstClose(s, 1).value);
      }
      var t := s[1..];
      assert s == [s[0]] + t;
      forall i, j ensures !TagAt(t, i, j) {
        if i >= 0 {
          TagShift(s[0], t, i + 1, j + 1);
        }
      }
      StripTagsNoTagUnchanged(t);
    }
  }

  lemma StripTagsIdempotent(s: string)
    ensures StripTags(StripTags(s)) == StripTags(s)
  {
    StripTagsNoTag(s);
    StripTagsNoTagUnchanged(StripTags(s));
  }

  // ------------------------------------------------------------- sources

  /** An element of a reply's source list: a dict, or anything else. */
  datatype SourceItem = DictSource(d: Dict) | OtherSource

  /** Shown at all: a dict with a truthy "content". */
  predicate Eligible(item: SourceItem) {
    item.DictSource? && "content" in item.d && Truthy(item.d["content"])
  }

  /** The displayed name: `strip_html_tags(str(source.get('source', 'Document')))`. */
  function NameOf(d: Dict): string {
    StripTags(Show(Get(d, "source", Str("Document"))))
  }

  function Field(d: Dict, key: string): Value {
    Str(StripTags(Show(Get(d, key, Str("N/A")))))
  }

  function Entry(d: Dict): Dict {
    map[
      "source" := Str(NameOf(d)),
      "subject" := Field(d, "subject"),
      "year" := Field(d, "year"),
      "type" := Field(d, "type"),
      "page" := Get(d, "page", Str("N/A"))
    ]
  }

  /** The names listed after looking at the first `n` items. */
  function SeenNames(items: seq<SourceItem>, n: nat): set<string>
    requires n <= |items|
  {
    if n == 0 then {}
    else SeenNames(items, n - 1) + if Eligible(items[n - 1]) then {NameOf(items[n - 1].d)} else {}
  }

  /** Whether the `n`-th item is listed: eligible, and no earlier item had its name. */
  predicate IsListed(items: seq<SourceItem>, n: nat)
    requires n < |items|
  {
    Eligible(items[n]) && NameOf(items[n].d) !in SeenNames(items, n)
  }

  /** The listed sources after the first `n` items. */
  function Listed(items: seq<SourceItem>, n: nat): seq<Dict>
    requires n <= |items|
  {
    if n == 0 then []
    else Listed(items, n - 1) + if IsListed(items, n - 1) then [Entry(items[n - 1].d)] else []
  }

  /** The positions of the listed items among the first `n`. */
  function ListedAt(items: seq<SourceItem>, n: nat): (r: seq<nat>)
    requires n <= |items|
    ensures forall m | 0 <= m < |r| :: r[m] < n && Eligible(items[r[m]])
  {
    if n == 0 then []
    else ListedAt(items, n - 1) + if IsListed(items, n - 1) then [n - 1] else []
  }

  /** The de-duplication loop of `render_message`. */
  method ValidSources(sources: Option<seq<SourceItem>>) returns (valid: seq<Dict>)
    ensures sources.None? ==> valid == []
    ensures sources.Some? ==> valid == Listed(sources.value, |sources.value|)
  {
    valid := [];
    if sources.None? || |sources.value| == 0 {
      return;
    }
    var items := sources.value;
    var seen: set<string> := {};
    for i := 0 to |items|
      invariant valid == Listed(items, i)
      invariant seen == SeenNames(items, i)
    {
      var source := items[i];
      ValidStep(items, i, valid, seen);
      if source.DictSource? && "content" in source.d && Truthy(source.d["content"]) {
        var sourceName := NameOf(source.d);
        if sourceName !in seen {
          seen := seen + {sourceName};
          valid := valid + [Entry(source.d)];
        }
      }
    }
  }

  /** One item of the de-duplication loop. */
  lemma ValidStep(items: seq<SourceItem>, i: nat, valid: seq<Dict>, seen: set<string>)
    requires i < |items| && valid == Listed(items, i) && seen == SeenNames(items, i)
    ensures !Eligible(items[i]) ==> Listed(items, i + 1) == valid && SeenNames(items, i + 1) == seen
    ensures Eligible(items[i]) && NameOf(items[i].d) in seen ==>
      Listed(items, i + 1) == valid && SeenNames(items, i + 1) == seen
    ensures Eligible(items[i]) && NameOf(items[i].d) !in seen ==>
      Listed(items, i + 1) == valid + [Entry(items[i].d)]
      && SeenNames(items, i + 1) == seen + {NameOf(items[i].d)}
  {
  }

  /** The listed sources are the entries of the listed items, in order. */
  lemma ListedEntries(items: seq<SourceItem>, n: nat)
    requires n <= |items|
    ensures |Listed(items, n)| == |ListedAt(items, n)|
    ensures forall m | 0 <= m < |ListedAt(items, n)| :: Listed(items, n)[m] == Entry(items[ListedAt(items, n)[m]].d)
  {
    ListedLength(items, n);
    forall m | 0 <= m < |ListedAt(items, n)| ensures Listed(items, n)[m] == Entry(items[ListedAt(items, n)[m]].d) {
      ListedEntry(items, n, m);
    }
  }

  lemma {:induction false} ListedLength(items: seq<SourceItem>, n: nat)
    requires n <= |items|
    ensures |Listed(items, n)| == |ListedAt(items, n)|
  {
    if n > 0 {
      ListedLength(items, n - 1);
    }
  }

  lemma {:induction false} ListedEntry(items: seq<SourceItem>, n: nat, m: nat)
    requires n <= |items| && m < |ListedAt(items, n)|
    ensures |Listed(items, n)| == |ListedAt(items, n)|
    ensures Listed(items, n)[m] == Entry(items[ListedAt(items, n)[m]].d)
  {
    ListedLength(items, n);
    ListedLength(items, n - 1);
    if m < |ListedAt(items, n - 1)| {
      ListedEntry(items, n - 1, m);
    }
  }

  /** The listed items keep the input order. */
  lemma {:induction false} ListedAtIncreasing(items: seq<SourceItem>, n: nat)
    requires n <= |items|
    ensures forall a, b | 0 <= a < b < |ListedAt(items, n)| :: ListedAt(items, n)[a] < ListedAt(items, n)[b]
    decreases n
  {
    if n > 0 {
      ListedAtIncreasing(items, n - 1);
    }
  }

  lemma {:induction false} SeenNamesHas(items: seq<SourceItem>, n: nat, e: nat)
    requires e < n <= |items| && Eligible(items[e])
    ensures NameOf(items[e].d) in SeenNames(items, n)
    decreases n
  {
    if e < n - 1 {
      SeenNamesHas(items, n - 1, e);
    }
  }

  /** A listed item is the first eligible item with its name. */
  lemma ListedAtFirst(items: seq<SourceItem>, n: nat, m: nat, e: nat)
    requires n <= |items| && m < |ListedAt(items, n)|
    requires e < ListedAt(items, n)[m] && Eligible(items[e])
    ensures NameOf(items[e].d) != NameOf(items[ListedAt(items, n)[m]].d)
  {
    var k := ListedAt(items, n)[m];
    ListedAtListed(items, n, m);
    SeenNamesHas(items, k, e);
  }

  lemma {:induction false} ListedAtListed(items: seq<SourceItem>, n: nat, m: nat)
    requires n <= |items| && m < |ListedAt(items, n)|
    ensures IsListed(items, ListedAt(items, n)[m])
    decreases n
  {
    if m < |ListedAt(items, n - 1)| {
      ListedAtListed(items, n - 1, m);
    }
  }

  /** No name is listed twice. */
  lemma ListedDistinct(items: seq<SourceItem>, n: nat, a: nat, b: nat)
    requires n <= |items| && a < b < |ListedAt(items, n)|
    ensures NameOf(items[ListedAt(items, n)[a]].d) != NameOf(items[ListedAt(items, n)[b]].d)
  {
    ListedAtIncreasing(items, n);
    ListedAtFirst(items, n, b, ListedAt(items, n)[a]);
  }

  /** Some listed item among the first `n` has the name `x`. */
  predicate NameListed(items: seq<SourceItem>, n: nat, x: string)
    requires n <= |items|
  {
    exists m | 0 <= m < |ListedAt(items, n)| :: NameOf(items[ListedAt(items, n)[m]].d) == x
  }

  /** Every eligible item has its name listed. */
  lemma ListedCovers(items: seq<SourceItem>, n: nat, k: nat)
    requires k < n <= |items| && Eligible(items[k])
    ensures NameListed(items, n, NameOf(items[k].d))
  {
    var e := FirstNamesake(items, k);
    var m := ListedIn(items, n, e);
    assert NameOf(items[ListedAt(items, n)[m]].d) == NameOf(items[k].d);
  }

  /** The first eligible item with a given name is listed. */
  lemma {:induction false} FirstNamesake(items: seq<SourceItem>, k: nat) returns (e: nat)
    requires k < |items| && Eligible(items[k])
    ensures e <= k && IsListed(items, e) && NameOf(items[e].d) == NameOf(items[k].d)
    decreases k
  {
    if IsListed(items, k) {
      e := k;
    } else {
      var f := EarlierNamesake(items, k);
      e := FirstNamesake(items, f);
    }
  }

  /** A listed item among the first `n` has its position in `ListedAt`. */
  lemma {:induction false} ListedIn(items: seq<SourceItem>, n: nat, e: nat) returns (m: nat)
    requires e < n <= |items| && IsListed(items, e)
    ensures m < |ListedAt(items, n)| && ListedAt(items, n)[m] == e
    decreases n
  {
    var prev := ListedAt(items, n - 1);
    if e == n - 1 {
      assert ListedAt(items, n) == prev + [n - 1];
      m := |prev|;
    } else {
      m := ListedIn(items, n - 1, e);
      ListedPrefix(items, n, m);
    }
  }

  /** Looking at one more item keeps the earlier positions. */
  lemma ListedPrefix(items: seq<SourceItem>, n: nat, m: nat)
    requires 0 < n <= |items| && m < |ListedAt(items, n - 1)|
    ensures m < |ListedAt(items, n)| && ListedAt(items, n)[m] == ListedAt(items, n - 1)[m]
  {
  }

  /** An eligible item left out has an earlier eligible item of the same name. */
  lemma EarlierNamesake(items: seq<SourceItem>, k: nat) returns (e: nat)
    requires k < |items| && Eligible(items[k]) && !IsListed(items, k)
    ensures e < k && Eligible(items[e]) && NameOf(items[e].d) == NameOf(items[k].d)
  {
    SeenNamesFrom(items, k, NameOf(items[k].d));
    e :| 0 <= e < k && Eligible(items[e]) && NameOf(items[e].d) == NameOf(items[k].d);
  }

  lemma {:induction false} SeenNamesFrom(items: seq<SourceItem>, n: nat, x: string)
    requires n <= |items| && x in SeenNames(items, n)
    ensures exists e | 0 <= e < n :: Eligible(items[e]) && NameOf(items[e].d) == x
    decreases n
  {
    if x !in SeenNames(items, n - 1) {
      assert Eligible(items[n - 1]) && NameOf(items[n - 1].d) == x;
    } else {
      SeenNamesFrom(items, n - 1, x);
    }
  }

  /** The chat page passes on the Groq client's sources, whose entries
      have no "content" key, so none of them is listed. */
  lemma GroqSourcesNeverListed(metas: seq<Dict>)
    ensures Listed(seq(|metas|, i requires 0 <= i < |metas| => DictSource(LlmGroq.SourceEntry(metas[i]))), |metas|) == []
  {
    var items := seq(|metas|, i requires 0 <= i < |metas| => DictSource(LlmGroq.SourceEntry(metas[i])));
    NoneListed(items, |items|);
  }

  lemma {:induction false} NoneListed(items: seq<SourceItem>, n: nat)
    requires n <= |items|
    requires forall k | 0 <= k < n :: items[k].DictSource? && "content" !in items[k].d
    ensures Listed(items, n) == []
  {
    if n > 0 {
      NoneListed(items, n - 1);
    }
  }

  // -------------------------------------------------------- chat turn

  /** Inputs answered with the canned greeting, compared after lower-casing.
      Lower-casing is ASCII here; no other character lower-cases to a
      string of these ASCII letters alone. */
  const Greetings: set<string> := {"hi", "hello", "hey", "hii", "hiya", "yo", "howdy", "greetings", "namaste"}

  const WelcomeText: string :=
    "\U{1F44B} Hello! I'm your MCA Study Assistant.\n\nI can help you with:\n- \U{1F4DA} Course materials and notes\n"
    + "- \U{1F4A1} Concept explanations\n- \U{1F4DD} Assignment guidance\n- \U{1F50D} Quick information lookup\n\n"
    + "Upload your materials and ask me anything!"
  const GreetingReply: string := "Hello! \U{1F44B} How can I assist you today?"
  const Assistant: string := "MCA Assistant"

  /** A message in the session: role, content, sources, sender name and the displayed time. */
  datatype ChatMessage = ChatMessage(role: string, content: string, sources: seq<Dict>, name: string, timestamp: string)

  /** What the LLM call did: a reply, or an exception with its message. */
  datatype Generated = Replied(reply: Reply) | Failed(error: string)

  /** The search filters for the two selections; `{}` is passed as `None`. */
  function SearchFilters(subject: string, year: string): (f: Option<Dict>)
    ensures f.None? <==> subject == "All" && year == "All"
    ensures f.Some? ==> ("subject" in f.value <==> subject != "All") && ("year" in f.value <==> year != "All")
    ensures f.Some? && subject != "All" ==> f.value["subject"] == Str(subject)
    ensures f.Some? && year != "All" ==> f.value["year"] == Str(year)
    ensures f.Some? ==> f.value.Keys <= {"subject", "year"}
  {
    var filters: Dict := map[];
    var filters := if subject != "All" then filters["subject" := Str(subject)] else filters;
    var filters := if year != "All" then filters["year" := Str(year)] else filters;
    assert subject != "All" || year != "All" ==> "subject" in filters || "year" in filters;
    if filters == map[] then None else Some(filters)
  }

  predicate IsGreeting(userText: string) {
    Lower(userText) in Greetings
  }

  /** The answer and sources shown for a question: a failed call shows its error. */
  function AnswerOf(outcome: Generated): (string, seq<Dict>) {
    match outcome
    case Replied(reply) => (reply.answer, reply.sources)
    case Failed(error) => ("\U{274C} Error: " + error, [])
  }

  /** The documents a question retrieves: a failed search retrieves none. */
  function Retrieved(found: Option<seq<Document>>): seq<Document> {
    if found.Some? then found.value else []
  }

  /** The messages and the history entries one submitted input adds. */
  datatype TurnEffect = TurnEffect(messages: seq<ChatMessage>, history: seq<HistoryEntry>)

  function Turn(input: Option<string>, subject: string, year: string, history: seq<HistoryEntry>,
                search: (string, Option<Dict>) -> Option<seq<Document>>,
                generate: (string, seq<Document>, seq<HistoryEntry>) -> Generated,
                time: string): (e: TurnEffect)
    ensures |e.messages| == 0 || |e.messages| == 2
    ensures |e.history| <= 1 && (|e.history| == 1 ==> |e.messages| == 2)
  {
    if input.None? || input.value == [] then TurnEffect([], [])
    else
      var userText := Strip(input.value);
      if userText == [] then TurnEffect([], [])
      else
        var userMsg := ChatMessage("user", userText, [], "You", time);
        if IsGreeting(userText) then
          TurnEffect([userMsg, ChatMessage("assistant", GreetingReply, [], Assistant, time)], [])
        else
          var docs := Retrieved(search(userText, SearchFilters(subject, year)));
          var (answer, sources) := AnswerOf(generate(userText, docs, history));
          TurnEffect([userMsg, ChatMessage("assistant", answer, sources, Assistant, time)],
                     [HistoryEntry(Some(userText), Some(answer))])
  }

  /** Input that is blank once stripped adds nothing. */
  lemma BlankAddsNothing(input: string, subject: string, year: string, history: seq<HistoryEntry>,
                         search: (string, Option<Dict>) -> Option<seq<Document>>,
                         generate: (string, seq<Document>, seq<HistoryEntry>) -> Generated, time: string)
    requires AllSpace(input)
    ensures Turn(Some(input), subject, year, history, search, generate, time) == TurnEffect([], [])
  {
    StripEmpty(input);
  }

  /** A greeting adds the user message and the canned reply, no history
      entry, and does not depend on the search or the LLM. */
  lemma GreetingSkipsSearch(input: string, subject: string, year: string, history: seq<HistoryEntry>,
                            search: (string, Option<Dict>) -> Option<seq<Document>>,
                            generate: (string, seq<Document>, seq<HistoryEntry>) -> Generated,
                            search': (string, Option<Dict>) -> Option<seq<Document>>,
                            generate': (string, seq<Document>, seq<HistoryEntry>) -> Generated, time: string)
    requires Strip(input) != [] && IsGreeting(Strip(input))
    ensures var e := Turn(Some(input), subject, year, history, search, generate, time);
      && e == Turn(Some(input), subject, year, history, search', generate', time)
      && e.messages == [ChatMessage("user", Strip(input), [], "You", time), ChatMessage("assistant", GreetingReply, [], Assistant, time)]
      && e.history == []
  {
  }

  /** A question adds the user message, the reply to it, and one history
      entry pairing the two, with the retrieval run on the stripped input
      under the selected filters. */
  lemma QuestionAddsExchange(input: string, subject: string, year: string, history: seq<HistoryEntry>,
                             search: (string, Option<Dict>) -> Option<seq<Document>>,
                             generate: (string, seq<Document>, seq<HistoryEntry>) -> Generated, time: string)
    requires Strip(input) != [] && !IsGreeting(Strip(input))
    ensures var e := Turn(Some(input), subject, year, history, search, generate, time);
      var answer := AnswerOf(generate(Strip(input), Retrieved(search(Strip(input), SearchFilters(subject, year))), history)).0;
      && |e.messages| == 2
      && e.messages[0].role == "user" && e.messages[0].content == Strip(input)
      && e.messages[1].role == "assistant" && e.messages[1].content == answer
      && e.history == [HistoryEntry(Some(Strip(input)), Some(answer))]
  {
  }

  /** The session's `messages` and `history`. */
  class ChatSession {
    var messages: seq<ChatMessage>
    var history: seq<HistoryEntry>

    constructor ()
      ensures messages == [] && history == []
    {
      messages := [];
      history := [];
    }

    /** One run of `chat_page` with the submitted input (if any): a failed
        start-up leaves the session as it was; otherwise an empty session
        first gets the welcome message, then the input's turn is added. */
    method ChatPage(input: Option<string>, subject: string, year: string, ready: bool,
                    search: (string, Option<Dict>) -> Option<seq<Document>>,
                    generate: (string, seq<Document>, seq<HistoryEntry>) -> Generated, time: string)
      modifies this
      ensures !ready ==> messages == old(messages) && history == old(history)
      ensures ready ==>
        var welcome := if old(messages) == [] then [ChatMessage("assistant", WelcomeText, [], Assistant, time)] else [];
        var e := Turn(input, subject, year, old(history), search, generate, time);
        messages == old(messages) + welcome + e.messages && history == old(history) + e.history
    {
      if !ready {
        return;
      }
      if |messages| == 0 {
        messages := messages + [ChatMessage("assistant", WelcomeText, [], Assistant, time)];
      }
      HandleInput(input, subject, year, search, generate, time);
    }

    /** The input part of `chat_page`: the submitted input's turn is added
        to the messages and the history. */
    method HandleInput(input: Option<string>, subject: string, year: string,
                       search: (string, Option<Dict>) -> Option<seq<Document>>,
                       generate: (string, seq<Document>, seq<HistoryEntry>) -> Generated, time: string)
      modifies this
      ensures var e := Turn(input, subject, year, old(history), search, generate, time);
        messages == old(messages) + e.messages && history == old(history) + e.history
    {
      if input.None? || input.value == [] {
        return;
      }
      var userText := Strip(input.value);
      if userText == [] {
        return;
      }
      messages := messages + [ChatMessage("user", userText, [], "You", time)];
      if Lower(userText) in Greetings {
        messages := messages + [ChatMessage("assistant", GreetingReply, [], Assistant, time)];
        return;
      }
      var filters := SearchFilters(subject, year);
      var found := search(userText, filters);
      var docs := if found.Some? then found.value else [];
      var answer, sources;
      match generate(userText, docs, history) {
        case Replied(reply) =>
          answer, sources := reply.answer, reply.sources;
        case Failed(error) =>
          answer, sources := "\U{274C} Error: " + error, [];
      }
      messages := messages + [ChatMessage("assistant", answer, sources, Assistant, time)];
      history := history + [HistoryEntry(Some(userText), Some(answer))];
    }

    /** The sidebar's Clear button. */
    method Clear()
      modifies this
      ensures messages == [] && history == []
    {
      messages := [];
      history := [];
    }
  }
}
