/**
  The LaTeX side of the math handling: detection of LaTeX math delimiters,
  extraction of the delimited formulas, a sentence-accumulating chunker and
  `[MATH]` tagging of formulas by string replacement.
*/
module MathProcessor {
  import opened Common
  import opened Strings

  // ------------------------------------------------------------------
  // Detection and extraction
  // ------------------------------------------------------------------

  /** A pattern of the form `open.*?close` (lazy, with DOTALL). */
  datatype Delimiters = Delimiters(open: string, close: string)

  predicate ValidDelimiters(d: Delimiters) {
    d.open != [] && d.close != []
  }

  /** `$$..$$`, `$..$`, `\begin{equation}..\end{equation}`,
      `\begin{align}..\end{align}` and `\[..\]`, in this order. */
  const LatexPatterns: seq<Delimiters> := [
    Delimiters("$$", "$$"),
    Delimiters("$", "$"),
    Delimiters("\\begin{equation}", "\\end{equation}"),
    Delimiters("\\begin{align}", "\\end{align}"),
    Delimiters("\\[", "\\]")
  ]

  lemma LatexPatternsValid()
    ensures forall k | 0 <= k < |LatexPatterns| :: ValidDelimiters(LatexPatterns[k])
  {
  }

  /** `re.search(open.*?close, s, re.DOTALL)` succeeds: an opening delimiter
      followed, without overlap, by a closing one. */
  predicate Matches(s: string, d: Delimiters) {
    exists i, j | 0 <= i <= |s| && i + |d.open| <= j <= |s| :: OccursAt(s, d.open, i) && OccursAt(s, d.close, j)
  }

  /** `detect_math_content`: some LaTeX pattern matches. */
  predicate DetectLatex(s: string) {
    exists k | 0 <= k < |LatexPatterns| :: Matches(s, LatexPatterns[k])
  }

  /** Moving the start of a string forwards shifts every occurrence after it. */
  lemma OccursAtShift(s: string, pat: string, m: nat, k: int)
    requires m <= |s| && k >= m
    ensures OccursAt(s, pat, k) <==> OccursAt(s[m..], pat, k - m)
  {
    if k + |pat| <= |s| {
      assert s[k..k + |pat|] == s[m..][k - m..k - m + |pat|];
    }
  }

  /** Any text with two dollar signs holds inline math. */
  lemma TwoDollarsDetected(s: string, i: nat, j: nat)
    requires i < j < |s| && s[i] == '$' && s[j] == '$'
    ensures DetectLatex(s)
  {
    assert s[i..i + 1] == "$" && s[j..j + 1] == "$";
    assert OccursAt(s, LatexPatterns[1].open, i) && OccursAt(s, LatexPatterns[1].close, j);
    assert Matches(s, LatexPatterns[1]);
  }

  /** Without a '$' or a backslash nothing is detected. */
  lemma NoDelimiterNoLatex(s: string)
    requires forall i | 0 <= i < |s| :: s[i] != '$' && s[i] != '\\'
    ensures !DetectLatex(s)
  {
    forall k, i | 0 <= k < |LatexPatterns| && 0 <= i <= |s|
      ensures !OccursAt(s, LatexPatterns[k].open, i)
    {
      var open := LatexPatterns[k].open;
      assert open[0] == '$' || open[0] == '\\';
      if i + |open| <= |s| {
        assert s[i..i + |open|][0] == s[i] != open[0];
      }
    }
  }

  /** `re.findall(open.*?close, s, re.DOTALL)`: leftmost, shortest,
      non-overlapping matches, scanning on after each one. */
  function FindAll(s: string, d: Delimiters): seq<string>
    requires ValidDelimiters(d)
    decreases |s|
  {
    match IndexOf(s, d.open)
    case None => []
    case Some(i) =>
      var rest := s[i + |d.open|..];
      match IndexOf(rest, d.close)
      case None => []
      case Some(j) =>
        var e := i + |d.open| + j + |d.close|;
        [s[i..e]] + FindAll(s[e..], d)
  }

  /** `findall` finds nothing exactly when `search` fails. */
  lemma FindAllEmpty(s: string, d: Delimiters)
    requires ValidDelimiters(d)
    ensures FindAll(s, d) == [] <==> !Matches(s, d)
  {
    match IndexOf(s, d.open)
    case None =>
    case Some(i) =>
      match IndexOf(s[i + |d.open|..], d.close)
      case None => NoCloseNoMatch(s, d, i, s[i + |d.open|..]);
      case Some(j) => MatchAt(s, d, i, j);
  }

  /** No closing delimiter after the first opening one: no match at all. */
  lemma NoCloseNoMatch(s: string, d: Delimiters, i: nat, rest: string)
    requires forall k | 0 <= k < i :: !OccursAt(s, d.open, k)
    requires i + |d.open| <= |s| && rest == s[i + |d.open|..]
    requires forall k :: !OccursAt(rest, d.close, k)
    ensures !Matches(s, d)
  {
    forall i', j | 0 <= i' <= |s| && i' + |d.open| <= j <= |s| && OccursAt(s, d.open, i')
      ensures !OccursAt(s, d.close, j)
    {
      OccursAtShift(s, d.close, i + |d.open|, j);
    }
  }

  /** An opening delimiter at `i` and a closing one `j` past it make a match. */
  lemma MatchAt(s: string, d: Delimiters, i: nat, j: nat)
    requires OccursAt(s, d.open, i) && OccursAt(s[i + |d.open|..], d.close, j)
    ensures Matches(s, d)
  {
    OccursAtShift(s, d.close, i + |d.open|, i + |d.open| + j);
  }

  /** `f` starts with the opening and ends with the closing delimiter. */
  predicate Delimited(f: string, d: Delimiters) {
    |d.open| + |d.close| <= |f| && f[..|d.open|] == d.open && f[|f| - |d.close|..] == d.close
  }

  /** Every match is a delimited substring of the text. */
  lemma {:induction false} FindAllSound(s: string, d: Delimiters)
    requires ValidDelimiters(d)
    ensures forall f | f in FindAll(s, d) :: Contains(s, f) && Delimited(f, d)
    decreases |s|
  {
    match IndexOf(s, d.open)
    case None =>
    case Some(i) =>
      var rest := s[i + |d.open|..];
      match IndexOf(rest, d.close)
      case None =>
      case Some(j) =>
        var e := i + |d.open| + j + |d.close|;
        FirstMatchDelimited(s, d, i, j);
        FindAllSound(s[e..], d);
        forall g | g in FindAll(s[e..], d) ensures Contains(s, g) {
          ContainedInSuffix(s, e, g);
        }
    }

  /** The text from an opening delimiter at `i` to the first closing one
      after it, at `j` past the opening, is a delimited substring. */
  lemma FirstMatchDelimited(s: string, d: Delimiters, i: nat, j: nat)
    requires OccursAt(s, d.open, i) && OccursAt(s[i + |d.open|..], d.close, j)
    ensures Contains(s, s[i..i + |d.open| + j + |d.close|])
    ensures Delimited(s[i..i + |d.open| + j + |d.close|], d)
  {
    var e := i + |d.open| + j + |d.close|;
    var f := s[i..e];
    assert OccursAt(s, f, i);
    assert f[..|d.open|] == s[i..i + |d.open|];
    assert f[|f| - |d.close|..] == s[i + |d.open|..][j..j + |d.close|];
  }

  /** What a suffix of the text contains, the text contains. */
  lemma ContainedInSuffix(s: string, e: nat, g: string)
    requires e <= |s| && Contains(s[e..], g)
    ensures Contains(s, g)
  {
    var k :| 0 <= k <= |s[e..]| && OccursAt(s[e..], g, k);
    OccursAtShift(s, g, e, k + e);
  }

  /** The formulas of the first `n` patterns, pattern by pattern. */
  function AllFormulas(text: string, n: nat): seq<string>
    requires n <= |LatexPatterns|
  {
    if n == 0 then [] else AllFormulas(text, n - 1) + FindAll(text, LatexPatterns[n - 1])
  }

  /** `extract_formulas`. */
  method ExtractFormulas(text: string) returns (formulas: seq<string>)
    ensures formulas == AllFormulas(text, |LatexPatterns|)
  {
    formulas := [];
    for k := 0 to |LatexPatterns|
      invariant formulas == AllFormulas(text, k)
    {
      var matches := FindAll(text, LatexPatterns[k]);
      formulas := formulas + matches;
    }
  }

  lemma {:induction false} AllFormulasEmpty(text: string, n: nat)
    requires n <= |LatexPatterns|
    ensures AllFormulas(text, n) == [] <==> forall k | 0 <= k < n :: !Matches(text, LatexPatterns[k])
  {
    if n > 0 {
      AllFormulasEmpty(text, n - 1);
      FindAllEmpty(text, LatexPatterns[n - 1]);
    }
  }

  /** `extract_formulas` returns nothing exactly when no math is detected. */
  lemma NoFormulasIffNoLatex(text: string)
    ensures AllFormulas(text, |LatexPatterns|) == [] <==> !DetectLatex(text)
  {
    AllFormulasEmpty(text, |LatexPatterns|);
  }

  lemma {:induction false} AllFormulasSound(text: string, n: nat)
    requires n <= |LatexPatterns|
    ensures forall f | f in AllFormulas(text, n) ::
      Contains(text, f) && exists k | 0 <= k < n :: Delimited(f, LatexPatterns[k])
  {
    if n > 0 {
      AllFormulasSound(text, n - 1);
      FindAllSound(text, LatexPatterns[n - 1]);
    }
  }

  /** Every extracted formula is a substring of the text, delimited by one
      of the patterns. */
  lemma FormulasAreSubstrings(text: string)
    ensures forall f | f in AllFormulas(text, |LatexPatterns|) ::
      Contains(text, f) && exists k | 0 <= k < |LatexPatterns| :: Delimited(f, LatexPatterns[k])
  {
    AllFormulasSound(text, |LatexPatterns|);
  }

  // ------------------------------------------------------------------
  // Sentence splitting: re.split(r'(?<=[.!?])\s+', text)
  // ------------------------------------------------------------------

  predicate IsTerminator(c: char) {
    c == '.' || c == '!' || c == '?'
  }

  /** The split pattern can start matching at `p`: whitespace right after
      a sentence terminator. */
  predicate BreakAt(s: string, p: int) {
    1 <= p < |s| && IsTerminator(s[p - 1]) && IsSpace(s[p])
  }

  /** The first break at or after `p`. */
  function FirstBreak(s: string, p: nat): (r: Option<nat>)
    ensures r.Some? ==> p <= r.value && BreakAt(s, r.value)
    ensures r.Some? ==> forall q | p <= q < r.value :: !BreakAt(s, q)
    ensures r.None? ==> forall q | p <= q :: !BreakAt(s, q)
    decreases |s| - p
  {
    if p >= |s| then None
    else if BreakAt(s, p) then Some(p)
    else FirstBreak(s, p + 1)
  }

  /** The end of the whitespace run starting at `p` (`\s+` is greedy). */
  function SpaceRunEnd(s: string, p: nat): (e: nat)
    requires p <= |s|
    ensures p <= e <= |s|
    ensures forall q | p <= q < e :: IsSpace(s[q])
    ensures e == |s| || !IsSpace(s[e])
    decreases |s| - p
  {
    if p < |s| && IsSpace(s[p]) then SpaceRunEnd(s, p + 1) else p
  }

  /** The sentences `re.split` produces. After a match the search resumes
      past the whitespace run, where the lookbehind sees whitespace and so
      cannot match at the first position. */
  function Sentences(s: string): (r: seq<string>)
    ensures |r| >= 1
    decreases |s|
  {
    match FirstBreak(s, 1)
    case None => [s]
    case Some(p) =>
      var e := SpaceRunEnd(s, p);
      [s[..p]] + Sentences(s[e..])
  }

  /** Every sentence but the last ends with a terminator, and no sentence
      contains a break. */
  lemma {:induction false} SentencesShape(s: string)
    ensures forall k | 0 <= k < |Sentences(s)| - 1 ::
      Sentences(s)[k] != [] && IsTerminator(Sentences(s)[k][|Sentences(s)[k]| - 1])
    ensures forall k, q | 0 <= k < |Sentences(s)| :: !BreakAt(Sentences(s)[k], q)
    decreases |s|
  {
    match FirstBreak(s, 1)
    case None =>
    case Some(p) =>
      var e := SpaceRunEnd(s, p);
      SentencesShape(s[e..]);
      forall q ensures !BreakAt(s[..p], q) {
        if BreakAt(s[..p], q) {
          assert BreakAt(s, q);
        }
      }
  }

  // ------------------------------------------------------------------
  // The sentence-accumulating chunker
  // ------------------------------------------------------------------

  /** The running chunk string: `" " + sentence` appended per sentence. */
  function Spaced(g: seq<string>): (r: string)
    ensures |r| >= |g|
  {
    if g == [] then "" else Spaced(g[..|g| - 1]) + " " + g[|g| - 1]
  }

  /** Sentences already emitted as chunk groups, and the current group. */
  datatype Packing = Packing(done: seq<seq<string>>, cur: seq<string>)

  /** The grouping after the first `n` sentences: a sentence that would push
      the running string past `size` starts a new group. */
  function Pack(sentences: seq<string>, n: nat, size: int): Packing
    requires n <= |sentences|
  {
    if n == 0 then Packing([], []) else Next(Pack(sentences, n - 1, size), sentences[n - 1], size)
  }

  /** One sentence more: it closes the current group when it would not fit. */
  function Next(p: Packing, s: string, size: int): Packing {
    if |Spaced(p.cur)| + |s| > size then
      Packing(if p.cur != [] then p.done + [p.cur] else p.done, [s])
    else Packing(p.done, p.cur + [s])
  }

  function Groups(sentences: seq<string>, size: int): seq<seq<string>> {
    var p := Pack(sentences, |sentences|, size);
    if p.cur != [] then p.done + [p.cur] else p.done
  }

  function StripJoins(gs: seq<seq<string>>): (r: seq<string>)
    ensures |r| == |gs|
  {
    seq(|gs|, i requires 0 <= i < |gs| => Strip(Join(gs[i], " ")))
  }

  /** What `chunk_with_math_preservation` returns. */
  function SentenceChunks(text: string, size: int): seq<string> {
    StripJoins(Groups(Sentences(text), size))
  }

  function Flatten(gs: seq<seq<string>>): seq<string> {
    if gs == [] then [] else Flatten(gs[..|gs| - 1]) + gs[|gs| - 1]
  }

  lemma {:induction false} SpacedJoin(g: seq<string>)
    requires g != []
    ensures Spaced(g) == " " + Join(g, " ")
  {
    if |g| > 1 {
      SpacedJoin(g[..|g| - 1]);
    }
  }

  /** Stripping the running string is stripping the sentences joined by
      single spaces. */
  lemma StripSpaced(g: seq<string>)
    requires g != []
    ensures Strip(Spaced(g)) == Strip(Join(g, " "))
    ensures |Strip(Spaced(g))| < |Spaced(g)|
  {
    SpacedJoin(g);
    StripLeadingSpace(Join(g, " "));
  }

  /** The groups hold the sentences in order, and every group is non-empty. */
  lemma {:induction false} PackCover(sentences: seq<string>, n: nat, size: int)
    requires n <= |sentences|
    ensures Flatten(Pack(sentences, n, size).done) + Pack(sentences, n, size).cur == sentences[..n]
    ensures n > 0 ==> Pack(sentences, n, size).cur != []
    ensures forall g | g in Pack(sentences, n, size).done :: g != []
  {
    if n > 0 {
      var p, s := Pack(sentences, n - 1, size), sentences[n - 1];
      PackCover(sentences, n - 1, size);
      NextCover(p, s, size, sentences[..n - 1]);
      TakeStep(sentences, n);
      assert Pack(sentences, n, size) == Next(p, s, size);
    }
  }

  lemma TakeStep(xs: seq<string>, n: nat)
    requires 0 < n <= |xs|
    ensures xs[..n] == xs[..n - 1] + [xs[n - 1]]
  {
  }

  lemma NextCover(p: Packing, s: string, size: int, prefix: seq<string>)
    requires Flatten(p.done) + p.cur == prefix && forall g | g in p.done :: g != []
    ensures Flatten(Next(p, s, size).done) + Next(p, s, size).cur == prefix + [s]
    ensures Next(p, s, size).cur != []
    ensures forall g | g in Next(p, s, size).done :: g != []
  {
    if |Spaced(p.cur)| + |s| > size && p.cur != [] {
      var done := p.done + [p.cur];
      assert done[..|done| - 1] == p.done;
    }
  }

  /** A group of two or more sentences keeps its running string within `size + 1`. */
  lemma {:induction false} PackBound(sentences: seq<string>, n: nat, size: int)
    requires n <= |sentences|
    ensures forall g | g in Pack(sentences, n, size).done :: |g| >= 2 ==> |Spaced(g)| <= size + 1
    ensures |Pack(sentences, n, size).cur| >= 2 ==> |Spaced(Pack(sentences, n, size).cur)| <= size + 1
  {
    if n > 0 {
      var p := Pack(sentences, n - 1, size);
      PackBound(sentences, n - 1, size);
      NextBound(p, sentences[n - 1], size);
      assert Pack(sentences, n, size) == Next(p, sentences[n - 1], size);
    }
  }

  lemma NextBound(p: Packing, s: string, size: int)
    requires forall g | g in p.done :: |g| >= 2 ==> |Spaced(g)| <= size + 1
    requires |p.cur| >= 2 ==> |Spaced(p.cur)| <= size + 1
    ensures forall g | g in Next(p, s, size).done :: |g| >= 2 ==> |Spaced(g)| <= size + 1
    ensures |Next(p, s, size).cur| >= 2 ==> |Spaced(Next(p, s, size).cur)| <= size + 1
  {
    if |Spaced(p.cur)| + |s| <= size {
      var c := p.cur + [s];
      assert c[..|c| - 1] == p.cur;
    }
  }

  /** A group is closed only when the next sentence would not fit. */
  predicate Closed(gs: seq<seq<string>>, size: int) {
    forall k | 0 <= k < |gs| - 1 :: gs[k + 1] != [] ==> |Spaced(gs[k])| + |gs[k + 1][0]| > size
  }

  lemma {:induction false} PackClosed(sentences: seq<string>, n: nat, size: int)
    requires n <= |sentences|
    ensures Closed(Pack(sentences, n, size).done + [Pack(sentences, n, size).cur], size)
  {
    if n > 0 {
      var p := Pack(sentences, n - 1, size);
      PackClosed(sentences, n - 1, size);
      PackCover(sentences, n - 1, size);
      NextClosed(p, sentences[n - 1], size);
      assert Pack(sentences, n, size) == Next(p, sentences[n - 1], size);
    }
  }

  lemma NextClosed(p: Packing, s: string, size: int)
    requires Closed(p.done + [p.cur], size) && (p.cur == [] ==> p.done == [])
    ensures Closed(Next(p, s, size).done + [Next(p, s, size).cur], size)
  {
    var before := p.done + [p.cur];
    if p.cur == [] {
    } else if |Spaced(p.cur)| + |s| > size {
      var after := before + [[s]];
      assert Next(p, s, size) == Packing(before, [s]);
      forall k | 0 <= k < |after| - 1 && after[k + 1] != []
        ensures |Spaced(after[k])| + |after[k + 1][0]| > size
      {
        if k + 1 < |before| {
          assert after[k] == before[k] && after[k + 1] == before[k + 1];
        }
      }
    } else {
      var c := p.cur + [s];
      var after := p.done + [c];
      forall k | 0 <= k < |after| - 1 && after[k + 1] != []
        ensures |Spaced(after[k])| + |after[k + 1][0]| > size
      {
        assert after[k] == before[k];
        if k + 1 < |p.done| {
          assert after[k + 1] == before[k + 1];
        } else {
          assert after[k + 1][0] == before[k + 1][0];
        }
      }
    }
  }

  /** Each chunk is the strip of consecutive sentences joined by single
      spaces; the groups cover the sentences in order; a chunk of two or
      more sentences fits in `size`. */
  lemma ChunksSpec(sentences: seq<string>, size: int)
    ensures Flatten(Groups(sentences, size)) == sentences
    ensures forall g | g in Groups(sentences, size) :: g != []
    ensures forall k | 0 <= k < |Groups(sentences, size)| ::
      |Groups(sentences, size)[k]| >= 2 ==> |StripJoins(Groups(sentences, size))[k]| <= size
  {
    PackCover(sentences, |sentences|, size);
    PackBound(sentences, |sentences|, size);
    var p := Pack(sentences, |sentences|, size);
    var gs := Groups(sentences, size);
    assert sentences[..|sentences|] == sentences;
    if p.cur != [] {
      assert gs[..|gs| - 1] == p.done;
    }
    forall k | 0 <= k < |gs| && |gs[k]| >= 2 ensures |StripJoins(gs)[k]| <= size {
      assert gs[k] in p.done || gs[k] == p.cur;
      StripSpaced(gs[k]);
    }
  }

  /** A chunk ends only where the next sentence would push the running
      string past `size`. */
  lemma GroupsClosed(sentences: seq<string>, size: int)
    ensures Closed(Groups(sentences, size), size)
  {
    PackClosed(sentences, |sentences|, size);
    var p := Pack(sentences, |sentences|, size);
    if p.cur == [] {
      var gs := p.done + [p.cur];
      forall k | 0 <= k < |p.done| - 1 && p.done[k + 1] != []
        ensures |Spaced(p.done[k])| + |p.done[k + 1][0]| > size
      {
        assert p.done[k] == gs[k] && p.done[k + 1] == gs[k + 1];
      }
    }
  }

  /** The empty text yields one empty chunk. */
  lemma EmptyTextOneEmptyChunk(size: int)
    ensures SentenceChunks("", size) == [""]
  {
    assert FirstBreak("", 1) == None;
    assert Pack([""], 1, size).cur == [""];
    assert Groups([""], size) == [[""]];
  }

  ghost predicate Progress(sentences: seq<string>, i: nat, size: int, chunks: seq<string>, current: string,
                           done: seq<seq<string>>, cur: seq<string>)
  {
    i <= |sentences| && Pack(sentences, i, size) == Packing(done, cur)
    && chunks == StripJoins(done) && current == Spaced(cur)
  }

  /** A sentence that does not fit closes the current group. */
  lemma FlushStep(sentences: seq<string>, i: nat, size: int, chunks: seq<string>, current: string,
                  done: seq<seq<string>>, cur: seq<string>)
    requires i < |sentences| && Progress(sentences, i, size, chunks, current, done, cur)
    requires |current| + |sentences[i]| > size
    ensures Progress(sentences, i + 1, size, if current != [] then chunks + [Strip(current)] else chunks,
                     " " + sentences[i], if cur != [] then done + [cur] else done, [sentences[i]])
  {
    if cur != [] {
      StripSpaced(cur);
      assert StripJoins(done + [cur]) == chunks + [Strip(current)];
    } else {
      assert current == [];
    }
    assert Spaced([sentences[i]]) == Spaced([]) + " " + sentences[i];
  }

  /** A sentence that fits joins the current group. */
  lemma AppendStep(sentences: seq<string>, i: nat, size: int, chunks: seq<string>, current: string,
                   done: seq<seq<string>>, cur: seq<string>)
    requires i < |sentences| && Progress(sentences, i, size, chunks, current, done, cur)
    requires |current| + |sentences[i]| <= size
    ensures Progress(sentences, i + 1, size, chunks, current + " " + sentences[i], done, cur + [sentences[i]])
  {
    assert (cur + [sentences[i]])[..|cur|] == cur;
  }

  /** After the last sentence, the open group becomes the last chunk. */
  lemma FinishStep(sentences: seq<string>, size: int, chunks: seq<string>, current: string,
                   done: seq<seq<string>>, cur: seq<string>)
    requires Progress(sentences, |sentences|, size, chunks, current, done, cur)
    ensures (if current != [] then chunks + [Strip(current)] else chunks) == StripJoins(Groups(sentences, size))
  {
    if cur != [] {
      StripSpaced(cur);
      assert StripJoins(done + [cur]) == chunks + [Strip(current)];
    }
  }

  /** `chunk_with_math_preservation`; both branches of the math test append
      the same text, so the result does not depend on it. */
  method ChunkWithMathPreservation(text: string, chunkSize: int) returns (chunks: seq<string>)
    ensures chunks == SentenceChunks(text, chunkSize)
  {
    var sentences := Sentences(text);
    chunks := [];
    var current := "";
    ghost var done: seq<seq<string>> := [];
    ghost var cur: seq<string> := [];
    for i := 0 to |sentences|
      invariant Progress(sentences, i, chunkSize, chunks, current, done, cur)
    {
      var sentence := sentences[i];
      if |current| + |sentence| > chunkSize {
        FlushStep(sentences, i, chunkSize, chunks, current, done, cur);
        if current != [] {
          chunks := chunks + [Strip(current)];
        }
        current := "";
        done := if cur != [] then done + [cur] else done;
        cur := [sentence];
      } else {
        AppendStep(sentences, i, chunkSize, chunks, current, done, cur);
        cur := cur + [sentence];
      }
      if DetectLatex(sentence) {
        current := current + " " + sentence;
      } else {
        current := current + " " + sentence;
      }
    }
    FinishStep(sentences, chunkSize, chunks, current, done, cur);
    if current != [] {
      chunks := chunks + [Strip(current)];
    }
  }

  // ------------------------------------------------------------------
  // Tagging formulas
  // ------------------------------------------------------------------

  /** Python's `s.replace("", rep)`: `rep` around every character. */
  function ReplaceEmpty(s: string, rep: string): (r: string)
    ensures |r| == |s| + (|s| + 1) * |rep|
  {
    if s == [] then rep else rep + [s[0]] + ReplaceEmpty(s[1..], rep)
  }

  /** Python's `s.replace(pat, rep)`: every non-overlapping occurrence,
      left to right. */
  function Replace(s: string, pat: string, rep: string): string
    decreases |s|
  {
    if pat == [] then ReplaceEmpty(s, rep)
    else
      match IndexOf(s, pat)
      case None => s
      case Some(i) => s[..i] + rep + Replace(s[i + |pat|..], pat, rep)
  }

  /** Replacing a non-empty pattern is cutting at its occurrences and
      gluing the pieces back with the replacement. */
  lemma {:induction false} ReplaceIsSplitJoin(s: string, pat: string, rep: string)
    requires pat != []
    ensures Replace(s, pat, rep) == Join(Split(s, pat), rep)
    decreases |s|
  {
    match IndexOf(s, pat)
    case None =>
    case Some(i) =>
      var rest := s[i + |pat|..];
      assert Split(s, pat) == [s[..i]] + Split(rest, pat);
      assert Replace(s, pat, rep) == s[..i] + rep + Replace(rest, pat, rep);
      ReplaceIsSplitJoin(rest, pat, rep);
      JoinCons(s[..i], Split(rest, pat), rep);
  }

  /** Replacing a pattern by itself changes nothing. */
  lemma ReplaceSelf(s: string, pat: string)
    requires pat != []
    ensures Replace(s, pat, pat) == s
  {
    ReplaceIsSplitJoin(s, pat, pat);
    SplitJoin(s, pat);
  }

  /** A pattern that does not occur changes nothing. */
  lemma ReplaceAbsent(s: string, pat: string, rep: string)
    requires pat != [] && !Contains(s, pat)
    ensures Replace(s, pat, rep) == s
  {
  }

  function Tag(f: string): string {
    "[MATH]" + f + "[/MATH]"
  }

  /** The text after tagging the first `n` formulas. */
  function Tagged(text: string, formulas: seq<string>, n: nat): string
    requires n <= |formulas|
  {
    if n == 0 then text
    else Replace(Tagged(text, formulas, n - 1), formulas[n - 1], Tag(formulas[n - 1]))
  }

  /** `add_math_context`. */
  method AddMathContext(text: string, formulas: seq<string>) returns (enhanced: string)
    ensures enhanced == Tagged(text, formulas, |formulas|)
  {
    enhanced := text;
    for k := 0 to |formulas|
      invariant enhanced == Tagged(text, formulas, k)
    {
      var formula := formulas[k];
      var tagged := Tag(formula);
      enhanced := Replace(enhanced, formula, tagged);
    }
  }

  /** Each step wraps every occurrence of its formula in a tag, and a step
      whose formula does not occur leaves the text as it was. */
  lemma TaggedStep(text: string, formulas: seq<string>, n: nat)
    requires n < |formulas| && formulas[n] != []
    ensures Tagged(text, formulas, n + 1)
      == Join(Split(Tagged(text, formulas, n), formulas[n]), Tag(formulas[n]))
    ensures !Contains(Tagged(text, formulas, n), formulas[n]) ==>
      Tagged(text, formulas, n + 1) == Tagged(text, formulas, n)
  {
    ReplaceIsSplitJoin(Tagged(text, formulas, n), formulas[n], Tag(formulas[n]));
  }

  /** Formulas none of which occur leave the text unchanged. */
  lemma {:induction false} TaggedAbsent(text: string, formulas: seq<string>, n: nat)
    requires n <= |formulas|
    requires forall f | f in formulas :: f != [] && !Contains(text, f)
    ensures Tagged(text, formulas, n) == text
  {
    if n > 0 {
      TaggedAbsent(text, formulas, n - 1);
      assert formulas[n - 1] in formulas;
      ReplaceAbsent(text, formulas[n - 1], Tag(formulas[n - 1]));
    }
  }
}
