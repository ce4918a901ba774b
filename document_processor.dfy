/**
  The document pipeline of `src/document_processor.py`: math detection on
  page text, the paragraph-preserving chunker, page selection over the text
  the PDF readers return, metadata tagging of chunks, single-file and batch
  processing, and chunk statistics.

  The PDF readers (pdfplumber and PyPDF2) and langchain's recursive splitter
  are foreign code: a file is described by what each reader returned page by
  page, and the splitter is a function supplied with the configuration that
  may raise (`None`).
*/
module DocumentProcessor {
  import opened Common
  import opened Strings
  import opened PyValues

  // ------------------------------------------------------------------
  // Math detection: seven regular expressions, searched with re.IGNORECASE

  predicate IsDigit(c: char) {
    '0' <= c <= '9'
  }

  /** `[a-zA-Z]` under re.IGNORECASE: the ASCII letters and the four
      non-ASCII letters that Python's case-insensitive matcher folds onto
      them (U+0130 and U+0131 onto i, U+017F onto s, U+212A onto k). */
  predicate IsLetter(c: char) {
    ('a' <= c <= 'z') || ('A' <= c <= 'Z')
    || c == '\U{130}' || c == '\U{131}' || c == '\U{17F}' || c == '\U{212A}'
  }

  predicate IsOperator(c: char) {
    c == '+' || c == '-' || c == '*' || c == '/' || c == '='
  }

  /** `c` matches the lower-case ASCII letter `x` case-insensitively. */
  predicate SameLetter(c: char, x: char) {
    c == x || ('a' <= x <= 'z' && c as int == x as int - 32)
    || (x == 'i' && (c == '\U{130}' || c == '\U{131}'))
    || (x == 's' && c == '\U{17F}') || (x == 'k' && c == '\U{212A}')
  }

  /** The lower-case word `w` occurs at `i`, ignoring case. */
  predicate WordAt(s: string, i: int, w: string) {
    0 <= i && i + |w| <= |s| && forall m | 0 <= m < |w| :: SameLetter(s[i + m], w[m])
  }

  /** One match of `\d+\s*OP\s*\d+` (when `digits`) or of
      `[a-zA-Z]\s*OP\s*[a-zA-Z]`, OP being the class of + - * / and =: the operand character next to the
      operator on the left at `i`, the operator at `j`, the operand character
      on the right at `k`, and only whitespace in between. */
  predicate BinaryAt(s: string, i: int, j: int, k: int, digits: bool) {
    0 <= i < j < k < |s| && IsOperator(s[j]) && AllSpace(s[i + 1..j]) && AllSpace(s[j + 1..k])
    && (if digits then IsDigit(s[i]) && IsDigit(s[k]) else IsLetter(s[i]) && IsLetter(s[k]))
  }

  /** Pattern 1: basic arithmetic such as `5 + 3`. */
  predicate ArithmeticExpression(s: string) {
    exists i, j, k | 0 <= i < |s| && 0 <= j < |s| && 0 <= k < |s| :: BinaryAt(s, i, j, k, true)
  }

  /** Pattern 2: single letters joined by an operator, such as `x + y` (and `e-mail`). */
  predicate VariableExpression(s: string) {
    exists i, j, k | 0 <= i < |s| && 0 <= j < |s| && 0 <= k < |s| :: BinaryAt(s, i, j, k, false)
  }

  const LatexCommands: seq<string> := ["frac", "sqrt", "sum", "int", "prod"]

  predicate LatexCommandAt(s: string, i: int) {
    0 <= i < |s| && s[i] == '\\' && exists w | w in LatexCommands :: WordAt(s, i + 1, w)
  }

  /** Pattern 3: `\\frac|\\sqrt|\\sum|\\int|\\prod`. */
  predicate LatexCommand(s: string) {
    exists i | 0 <= i < |s| :: LatexCommandAt(s, i)
  }

  /** Pattern 4: `\^|\^\{`, that is, any caret. */
  predicate Exponent(s: string) {
    exists i | 0 <= i < |s| :: s[i] == '^'
  }

  /** The symbols of pattern 5 and, under re.IGNORECASE, the other cases of
      its Greek letters (capital and symbol forms of pi, theta, alpha, beta,
      gamma; small delta). */
  predicate IsMathSymbol(c: char) {
    c == '\U{2211}' || c == '\U{222B}' || c == '\U{221A}' || c == '\U{2248}' || c == '\U{2260}'
    || c == '\U{2264}' || c == '\U{2265}'
    || c == '\U{3C0}' || c == '\U{3A0}' || c == '\U{3D6}'
    || c == '\U{3B8}' || c == '\U{398}' || c == '\U{3D1}' || c == '\U{3F4}'
    || c == '\U{3B1}' || c == '\U{391}'
    || c == '\U{3B2}' || c == '\U{392}' || c == '\U{3D0}'
    || c == '\U{3B3}' || c == '\U{393}'
    || c == '\U{394}' || c == '\U{3B4}'
  }

  /** Pattern 5: a math symbol. */
  predicate MathSymbol(s: string) {
    exists i | 0 <= i < |s| :: IsMathSymbol(s[i])
  }

  const Keywords: seq<string> := ["equation", "formula", "theorem", "proof", "lemma", "sin", "cos", "tan", "log"]

  /** `\w` for the purpose of `\b`: letters as above, digits and underscore. */
  predicate IsWordChar(c: char) {
    IsLetter(c) || IsDigit(c) || c == '_'
  }

  predicate KeywordAt(s: string, i: int, w: string) {
    WordAt(s, i, w)
    && (i == 0 || !IsWordChar(s[i - 1]))
    && (i + |w| == |s| || !IsWordChar(s[i + |w|]))
  }

  predicate KeywordStartsAt(s: string, i: int) {
    exists w | w in Keywords :: KeywordAt(s, i, w)
  }

  /** Pattern 6: `\b(equation|formula|theorem|proof|lemma|sin|cos|tan|log)\b`. */
  predicate MathKeyword(s: string) {
    exists i | 0 <= i < |s| :: KeywordStartsAt(s, i)
  }

  predicate InParenClass(c: char) {
    IsLetter(c) || IsDigit(c) || IsSpace(c) || IsOperator(c)
  }

  /** A match of `\([a-zA-Z0-9\s OP]+\)` from `i` to `j`. */
  predicate ParenGroupAt(s: string, i: int, j: int) {
    0 <= i && i + 1 < j < |s| && s[i] == '(' && s[j] == ')'
    && forall m | i < m < j :: InParenClass(s[m])
  }

  /** Pattern 7: a parenthesised expression. */
  predicate ParenthesizedExpression(s: string) {
    exists i, j | 0 <= i < |s| && 0 <= j < |s| :: ParenGroupAt(s, i, j)
  }

  /** `detect_math_content`: any one of the seven patterns matches. */
  predicate DetectMath(text: string) {
    ArithmeticExpression(text) || VariableExpression(text) || LatexCommand(text) || Exponent(text)
    || MathSymbol(text) || MathKeyword(text) || ParenthesizedExpression(text)
  }

  /** Without any of the characters the patterns hinge on, and without a
      keyword, nothing is detected; this is the converse of the patterns. */
  lemma NoTriggerNoMath(s: string)
    requires forall i | 0 <= i < |s| ::
      !IsDigit(s[i]) && !IsOperator(s[i]) && s[i] != '\\' && s[i] != '^' && !IsMathSymbol(s[i]) && s[i] != '('
    requires !MathKeyword(s)
    ensures !DetectMath(s)
  {
  }

  /** Any letter-hyphen-letter, as in a hyphenated word, counts as math. */
  lemma HyphenatedWordIsMath(s: string, i: nat)
    requires i + 2 < |s| && IsLetter(s[i]) && s[i + 1] == '-' && IsLetter(s[i + 2])
    ensures DetectMath(s)
  {
    assert BinaryAt(s, i, i + 1, i + 2, false);
  }

  /** Every keyword begins with one of e, f, t, p, l, s, c. */
  predicate IsKeywordInitial(c: char) {
    SameLetter(c, 'e') || SameLetter(c, 'f') || SameLetter(c, 't') || SameLetter(c, 'p')
    || SameLetter(c, 'l') || SameLetter(c, 's') || SameLetter(c, 'c')
  }

  lemma DetectMathExamples()
    ensures DetectMath("x^2 + y^2 = z^2")
    ensures DetectMath("5 + 3 = 8")
    ensures DetectMath("\\frac{1}{2}")
    ensures DetectMath("\U{222B} f(x) dx")
    ensures DetectMath("e-mail")
  {
    var a := "x^2 + y^2 = z^2";
    assert a[1] == '^';
    var b := "5 + 3 = 8";
    assert BinaryAt(b, 0, 2, 4, true);
    var c := "\\frac{1}{2}";
    assert LatexCommands[0] in LatexCommands && WordAt(c, 1, LatexCommands[0]);
    assert LatexCommandAt(c, 0);
    var d := "\U{222B} f(x) dx";
    assert IsMathSymbol(d[0]);
    HyphenatedWordIsMath("e-mail", 0);
  }

  const Fox: string := "The quick brown fox jumps."

  /** A keyword starts at a word start with one of the keyword initials. */
  lemma KeywordStart(s: string, i: int, w: string)
    requires w in Keywords
    ensures KeywordAt(s, i, w) ==> IsKeywordInitial(s[i]) && (i == 0 || !IsWordChar(s[i - 1]))
  {
    assert w[0] == 'e' || w[0] == 'f' || w[0] == 't' || w[0] == 'p' || w[0] == 'l' || w[0] == 's' || w[0] == 'c';
  }

  lemma FoxWordStarts()
    ensures forall i | 0 < i < |Fox| && i != 16 :: !IsKeywordInitial(Fox[i]) || IsWordChar(Fox[i - 1])
  {
  }

  lemma FoxFirstWords(i: int, w: string)
    requires (i == 0 || i == 16) && w in Keywords
    ensures !WordAt(Fox, i, w)
  {
    var f := Fox;
    assert !SameLetter(f[3], "theorem"[3]) && !SameLetter(f[1], "tan"[1]) && !SameLetter(f[18], "formula"[2]);
    assert w == "equation" || w == "formula" || w == "theorem" || w == "proof" || w == "lemma"
      || w == "sin" || w == "cos" || w == "tan" || w == "log";
    assert !SameLetter(f[i], w[0]) || w == "theorem" || w == "tan" || w == "formula";
  }

  lemma FoxHasNoKeyword()
    ensures !MathKeyword(Fox)
  {
    FoxWordStarts();
    forall i | 0 <= i < |Fox| ensures !KeywordStartsAt(Fox, i) {
      forall w | w in Keywords ensures !KeywordAt(Fox, i, w) {
        KeywordStart(Fox, i, w);
        if i == 0 || i == 16 {
          FoxFirstWords(i, w);
        }
      }
    }
  }

  lemma FoxHasNoTrigger()
    ensures forall i | 0 <= i < |Fox| ::
      !IsDigit(Fox[i]) && !IsOperator(Fox[i]) && Fox[i] != '\\' && Fox[i] != '^' && !IsMathSymbol(Fox[i]) && Fox[i] != '('
  {
  }

  /** An ordinary sentence is not math. */
  lemma PlainSentenceIsNotMath()
    ensures !DetectMath(Fox)
  {
    FoxHasNoKeyword();
    FoxHasNoTrigger();
    NoTriggerNoMath(Fox);
  }

  // ------------------------------------------------------------------
  // Paragraph-preserving chunking

  const ParagraphBreak: string := "\n\n"

  /** The paragraphs the chunker keeps from `pieces`: each stripped, the
      whitespace-only ones dropped, in order. */
  function Paragraphs(pieces: seq<string>): (ps: seq<string>)
    ensures |ps| <= |pieces|
    ensures forall p | p in ps :: p != [] && IsStripped(p)
  {
    if pieces == [] then []
    else (if Strip(pieces[0]) != [] then [Strip(pieces[0])] else []) + Paragraphs(pieces[1..])
  }

  /** Greedy packing of paragraphs `ps` into groups, `cur` being the group
      under construction: a group is closed when appending the next
      paragraph with its two-character break would exceed `size`. */
  function PackFrom(ps: seq<string>, cur: seq<string>, size: int): seq<seq<string>>
    decreases |ps|
  {
    if ps == [] then (if cur == [] then [] else [cur])
    else if cur != [] && |Join(cur, ParagraphBreak)| + |ps[0]| + 2 > size then
      [cur] + PackFrom(ps[1..], [ps[0]], size)
    else
      PackFrom(ps[1..], cur + [ps[0]], size)
  }

  /** The paragraph groups of `text` for a chunk size. */
  function Groups(text: string, size: int): seq<seq<string>> {
    PackFrom(Paragraphs(Split(text, ParagraphBreak)), [], size)
  }

  function JoinEach(groups: seq<seq<string>>): (r: seq<string>)
    ensures |r| == |groups|
  {
    seq(|groups|, k requires 0 <= k < |groups| => Join(groups[k], ParagraphBreak))
  }

  /** What `chunk_with_math_preservation` returns: each group rejoined with
      paragraph breaks. */
  function MathChunks(text: string, size: int): seq<string> {
    JoinEach(Groups(text, size))
  }

  function Flatten(groups: seq<seq<string>>): seq<string> {
    if groups == [] then [] else groups[0] + Flatten(groups[1..])
  }

  /** A group as the chunker holds it: non-empty stripped paragraphs. */
  predicate GoodParagraphs(g: seq<string>) {
    forall p | p in g :: p != [] && IsStripped(p)
  }

  /** A group fits unless it is a single paragraph that is itself too long. */
  predicate Fits(g: seq<string>, size: int) {
    g != [] && (|g| == 1 || |Join(g, ParagraphBreak)| <= size)
  }

  /** Packing loses, duplicates and reorders no paragraph. */
  lemma {:induction false} PackFlatten(ps: seq<string>, cur: seq<string>, size: int)
    ensures Flatten(PackFrom(ps, cur, size)) == cur + ps
    decreases |ps|
  {
    if ps == [] {
      if cur != [] {
        FlattenCons(cur, []);
      }
    } else if cur != [] && |Join(cur, ParagraphBreak)| + |ps[0]| + 2 > size {
      PackFlatten(ps[1..], [ps[0]], size);
      var rest := PackFrom(ps[1..], [ps[0]], size);
      assert PackFrom(ps, cur, size) == [cur] + rest;
      FlattenCons(cur, rest);
      assert [ps[0]] + ps[1..] == ps;
    } else {
      PackFlatten(ps[1..], cur + [ps[0]], size);
      assert PackFrom(ps, cur, size) == PackFrom(ps[1..], cur + [ps[0]], size);
      assert cur + [ps[0]] + ps[1..] == cur + ps;
    }
  }

  lemma FlattenCons(g: seq<string>, rest: seq<seq<string>>)
    ensures Flatten([g] + rest) == g + Flatten(rest)
  {
    assert ([g] + rest)[1..] == rest;
  }

  /** Every group is non-empty and within the size unless it holds one paragraph. */
  lemma {:induction false} PackFits(ps: seq<string>, cur: seq<string>, size: int)
    requires cur == [] || Fits(cur, size)
    ensures forall g | g in PackFrom(ps, cur, size) :: Fits(g, size)
    decreases |ps|
  {
    if ps == [] {
    } else if cur != [] && |Join(cur, ParagraphBreak)| + |ps[0]| + 2 > size {
      PackFits(ps[1..], [ps[0]], size);
    } else {
      if cur != [] {
        assert Join(cur + [ps[0]], ParagraphBreak) == Join(cur, ParagraphBreak) + ParagraphBreak + ps[0];
      }
      PackFits(ps[1..], cur + [ps[0]], size);
    }
  }

  /** Two consecutive groups could not have been merged: closing a group was forced. */
  lemma {:induction false} PackMaximal(ps: seq<string>, cur: seq<string>, size: int, k: nat)
    requires k + 1 < |PackFrom(ps, cur, size)|
    ensures var gs := PackFrom(ps, cur, size);
      gs[k + 1] != [] && |Join(gs[k], ParagraphBreak)| + |gs[k + 1][0]| + 2 > size
    decreases |ps|
  {
    var gs := PackFrom(ps, cur, size);
    if ps == [] {
    } else if cur != [] && |Join(cur, ParagraphBreak)| + |ps[0]| + 2 > size {
      var rest := PackFrom(ps[1..], [ps[0]], size);
      assert gs == [cur] + rest;
      if k == 0 {
        PackHead(ps[1..], [ps[0]], size);
      } else {
        PackMaximal(ps[1..], [ps[0]], size, k - 1);
      }
    } else {
      PackMaximal(ps[1..], cur + [ps[0]], size, k);
    }
  }

  /** The first group starts with the group under construction, or with the
      first paragraph when there is none. */
  lemma {:induction false} PackHead(ps: seq<string>, cur: seq<string>, size: int)
    requires cur != []
    ensures PackFrom(ps, cur, size) != []
    ensures PackFrom(ps, cur, size)[0] != [] && PackFrom(ps, cur, size)[0][0] == cur[0]
    decreases |ps|
  {
    if ps == [] {
    } else if |Join(cur, ParagraphBreak)| + |ps[0]| + 2 > size {
    } else {
      PackHead(ps[1..], cur + [ps[0]], size);
    }
  }

  lemma {:induction false} JoinGood(g: seq<string>)
    requires g != [] && GoodParagraphs(g)
    ensures Join(g, ParagraphBreak) != []
    ensures IsStripped(Join(g, ParagraphBreak))
    ensures g[0] != [] && Join(g, ParagraphBreak)[0] == g[0][0]
    decreases |g|
  {
    assert g[0] in g;
    if |g| >= 2 {
      var init := g[..|g| - 1];
      assert g[|g| - 1] in g;
      assert forall p | p in init :: p in g;
      JoinGood(init);
      assert init[0] == g[0];
    }
  }

  lemma JoinSnoc(g: seq<string>, p: string)
    requires g != []
    ensures Join(g + [p], ParagraphBreak) == Join(g, ParagraphBreak) + ParagraphBreak + p
  {
    assert (g + [p])[..|g|] == g;
  }

  lemma ParagraphsStep(pieces: seq<string>, i: nat)
    requires i < |pieces|
    ensures Paragraphs(pieces[i..])
      == (if Strip(pieces[i]) != [] then [Strip(pieces[i])] else []) + Paragraphs(pieces[i + 1..])
  {
    assert pieces[i..][1..] == pieces[i + 1..];
  }

  lemma PackStep(p: string, rest: seq<string>, cur: seq<string>, size: int)
    ensures PackFrom([p] + rest, cur, size)
      == if cur != [] && |Join(cur, ParagraphBreak)| + |p| + 2 > size
         then [cur] + PackFrom(rest, [p], size)
         else PackFrom(rest, cur + [p], size)
  {
    assert ([p] + rest)[1..] == rest;
  }

  lemma JoinEachSnoc(done: seq<seq<string>>, g: seq<string>)
    ensures JoinEach(done + [g]) == JoinEach(done) + [Join(g, ParagraphBreak)]
  {
  }

  /** The chunker's progress through `pieces` before index `i`: the closed
      groups `done` and the open group `cur` lead, with the remaining
      paragraphs, to the groups `all`. */
  ghost predicate Progress(pieces: seq<string>, i: nat, done: seq<seq<string>>, cur: seq<string>,
                           size: int, all: seq<seq<string>>)
  {
    i <= |pieces| && GoodParagraphs(cur) && done + PackFrom(Paragraphs(pieces[i..]), cur, size) == all
  }

  lemma ProgressStep(pieces: seq<string>, i: nat, done: seq<seq<string>>, cur: seq<string>,
                     size: int, all: seq<seq<string>>)
    requires i < |pieces| && Progress(pieces, i, done, cur, size, all)
    ensures var p := Strip(pieces[i]);
      if p == [] then Progress(pieces, i + 1, done, cur, size, all)
      else if cur != [] && |Join(cur, ParagraphBreak)| + |p| + 2 > size
      then Progress(pieces, i + 1, done + [cur], [p], size, all)
      else Progress(pieces, i + 1, done, cur + [p], size, all)
  {
    ParagraphsStep(pieces, i);
    var p := Strip(pieces[i]);
    var rest := Paragraphs(pieces[i + 1..]);
    if p == [] {
      assert [] + rest == rest;
    } else {
      PackStep(p, rest, cur, size);
      if cur != [] && |Join(cur, ParagraphBreak)| + |p| + 2 > size {
        assert (done + [cur]) + PackFrom(rest, [p], size) == done + ([cur] + PackFrom(rest, [p], size));
      }
    }
  }

  /** `chunk_with_math_preservation`: the running chunk is closed before a
      paragraph that would push it past `chunkSize` with its break. */
  method ChunkWithMathPreservation(text: string, chunkSize: int) returns (chunks: seq<string>)
    ensures chunks == MathChunks(text, chunkSize)
  {
    var paragraphs := Split(text, ParagraphBreak);
    chunks := [];
    var current := "";
    ghost var done: seq<seq<string>> := [];
    ghost var cur: seq<string> := [];
    for i := 0 to |paragraphs|
      invariant Progress(paragraphs, i, done, cur, chunkSize, Groups(text, chunkSize))
      invariant current == Join(cur, ParagraphBreak)
      invariant cur != [] ==> current != [] && IsStripped(current)
      invariant chunks == JoinEach(done)
    {
      ProgressStep(paragraphs, i, done, cur, chunkSize, Groups(text, chunkSize));
      var paragraph := Strip(paragraphs[i]);
      if paragraph != "" {
        ghost var flushed := false;
        if |current| + |paragraph| + 2 > chunkSize {
          if current != "" {
            flushed := true;
            StripOfStripped(current);
            JoinEachSnoc(done, cur);
            chunks := chunks + [Strip(current)];
            current := "";
            done := done + [cur];
            cur := [];
          }
        }
        if current != "" {
          JoinSnoc(cur, paragraph);
          current := current + "\n\n" + paragraph;
        } else {
          current := paragraph;
        }
        cur := if flushed then [paragraph] else cur + [paragraph];
        JoinGood(cur);
      }
    }
    if current != "" {
      StripOfStripped(current);
      JoinEachSnoc(done, cur);
      chunks := chunks + [Strip(current)];
    }
  }

  lemma {:induction false} InFlatten(groups: seq<seq<string>>, k: nat, p: string)
    requires k < |groups| && p in groups[k]
    ensures p in Flatten(groups)
    decreases k
  {
    if k > 0 {
      InFlatten(groups[1..], k - 1, p);
    }
  }

  lemma {:induction false} JoinFlatten(groups: seq<seq<string>>)
    requires forall g | g in groups :: g != []
    ensures Join(JoinEach(groups), ParagraphBreak) == Join(Flatten(groups), ParagraphBreak)
    decreases |groups|
  {
    if |groups| >= 2 {
      var rest := groups[1..];
      assert forall g | g in rest :: g in groups;
      assert groups[0] in groups && rest[0] in groups;
      JoinFlatten(rest);
      assert JoinEach(groups) == [Join(groups[0], ParagraphBreak)] + JoinEach(rest);
      JoinCons(Join(groups[0], ParagraphBreak), JoinEach(rest), ParagraphBreak);
      assert Flatten(rest) == rest[0] + Flatten(rest[1..]);
      JoinAppend(groups[0], Flatten(rest), ParagraphBreak);
    } else if |groups| == 1 {
      assert groups[1..] == [];
      assert Flatten(groups) == groups[0];
      assert JoinEach(groups) == [Join(groups[0], ParagraphBreak)];
    }
  }

  /** The groups of a text partition its paragraphs into groups that fit. */
  lemma GroupsPartition(text: string, size: int)
    ensures Flatten(Groups(text, size)) == Paragraphs(Split(text, ParagraphBreak))
    ensures forall g | g in Groups(text, size) :: Fits(g, size) && GoodParagraphs(g)
  {
    var ps := Paragraphs(Split(text, ParagraphBreak));
    var gs := Groups(text, size);
    PackFlatten(ps, [], size);
    PackFits(ps, [], size);
    forall g | g in gs ensures GoodParagraphs(g) {
      var k :| 0 <= k < |gs| && gs[k] == g;
      forall p | p in g ensures p != [] && IsStripped(p) {
        InFlatten(gs, k, p);
      }
    }
  }

  /** Each chunk is non-empty and stripped, and is either within the size or
      a single paragraph of the text that is on its own too long. */
  lemma MathChunksFit(text: string, size: int)
    ensures forall c | c in MathChunks(text, size) ::
      c != [] && IsStripped(c) && (|c| <= size || c in Paragraphs(Split(text, ParagraphBreak)))
  {
    var gs := Groups(text, size);
    GroupsPartition(text, size);
    forall c | c in MathChunks(text, size)
      ensures c != [] && IsStripped(c) && (|c| <= size || c in Paragraphs(Split(text, ParagraphBreak)))
    {
      var k :| 0 <= k < |gs| && c == Join(gs[k], ParagraphBreak);
      assert gs[k] in gs;
      JoinGood(gs[k]);
      if |gs[k]| == 1 {
        assert gs[k][0] in gs[k];
        InFlatten(gs, k, gs[k][0]);
      }
    }
  }

  /** Chunking keeps every paragraph, in order, with paragraph breaks between. */
  lemma MathChunksKeepText(text: string, size: int)
    ensures Join(MathChunks(text, size), ParagraphBreak) == Join(Paragraphs(Split(text, ParagraphBreak)), ParagraphBreak)
  {
    GroupsPartition(text, size);
    JoinFlatten(Groups(text, size));
  }

  /** No two neighbouring chunks would have fitted together as one chunk. */
  lemma MathChunksMaximal(text: string, size: int)
    ensures var cs := MathChunks(text, size);
      forall k | 0 <= k < |cs| - 1 :: |cs[k]| + |ParagraphBreak| + |cs[k + 1]| > size
  {
    var ps := Paragraphs(Split(text, ParagraphBreak));
    var gs := Groups(text, size);
    var cs := MathChunks(text, size);
    forall k | 0 <= k < |cs| - 1 ensures |cs[k]| + |ParagraphBreak| + |cs[k + 1]| > size {
      PackMaximal(ps, [], size, k);
      JoinLength(gs[k + 1], ParagraphBreak);
    }
  }

  lemma {:induction false} ParagraphsNone(pieces: seq<string>)
    ensures Paragraphs(pieces) == [] <==> forall p | p in pieces :: AllSpace(p)
    decreases |pieces|
  {
    if pieces != [] {
      ParagraphsNone(pieces[1..]);
      StripEmpty(pieces[0]);
      assert forall p | p in pieces :: p == pieces[0] || p in pieces[1..];
    }
  }

  lemma FlattenNone(groups: seq<seq<string>>)
    requires forall g | g in groups :: g != []
    ensures Flatten(groups) == [] <==> groups == []
  {
    if groups != [] {
      assert groups[0] in groups;
    }
  }

  lemma BreakIsSpace()
    ensures AllSpace(ParagraphBreak)
  {
    assert ParagraphBreak[0] == '\n' && ParagraphBreak[1] == '\n';
  }

  lemma {:induction false} ParagraphsOfSpace(text: string)
    ensures Paragraphs(Split(text, ParagraphBreak)) == [] <==> AllSpace(text)
  {
    var pieces := Split(text, ParagraphBreak);
    ParagraphsNone(pieces);
    if AllSpace(text) {
      SplitAllSpace(text, ParagraphBreak);
    } else if Paragraphs(pieces) == [] {
      assert forall p | p in pieces :: AllSpace(p);
      BreakIsSpace();
      SplitJoin(text, ParagraphBreak);
      JoinAllSpace(pieces, ParagraphBreak);
    }
  }

  /** There are no chunks exactly when the text is whitespace only. */
  lemma MathChunksNone(text: string, size: int)
    ensures MathChunks(text, size) == [] <==> AllSpace(text)
  {
    GroupsPartition(text, size);
    FlattenNone(Groups(text, size));
    ParagraphsOfSpace(text);
  }

  // ------------------------------------------------------------------
  // Page extraction

  /** One entry of `pages_content`. */
  datatype Page = Page(pageNumber: nat, text: string, hasMath: bool)

  /** What pdfplumber did with a file: `extract_text()` of each page it
      reached, in page order (`None` for a page without a text layer), and
      whether the pass ended with an exception. */
  datatype PlumberRun = PlumberRun(texts: seq<Option<string>>, raised: bool)

  /** A PDF file as the two readers see it. `pypdf` holds, for each page
      PyPDF2 reached before its pass ended (normally or by an exception),
      the page text, or `None` when there was none or its extraction raised. */
  datatype PdfFile = PdfFile(plumber: PlumberRun, pypdf: seq<Option<string>>)

  predicate HasText(t: Option<string>) {
    t.Some? && Strip(t.value) != []
  }

  /** The entry made from page `k` (0-based): its 1-based number, its
      stripped text and the detector's verdict on the unstripped text. */
  function KeptPage(texts: seq<Option<string>>, k: nat): Page
    requires k < |texts| && texts[k].Some?
  {
    Page(k + 1, Strip(texts[k].value), DetectMath(texts[k].value))
  }

  /** The pages among the first `n` of a reader's output that carry text,
      numbered from 1 by position. */
  function TextPages(texts: seq<Option<string>>, n: nat): seq<Page>
    requires n <= |texts|
  {
    if n == 0 then []
    else
      TextPages(texts, n - 1)
      + (if HasText(texts[n - 1]) then [KeptPage(texts, n - 1)] else [])
  }

  /** The pages `extract_text_with_layout` returns: pdfplumber's when its pass
      completed with at least one page; otherwise whatever it collected
      followed by PyPDF2's pages. */
  function ExtractedPages(f: PdfFile): seq<Page> {
    var first := TextPages(f.plumber.texts, |f.plumber.texts|);
    if first != [] && !f.plumber.raised then first
    else first + TextPages(f.pypdf, |f.pypdf|)
  }

  /** A kept page holds the stripped text of the page at its 1-based
      position, which is non-empty, and the detector's verdict on the
      unstripped text. */
  lemma {:induction false} TextPagesSound(texts: seq<Option<string>>, n: nat)
    requires n <= |texts|
    ensures forall p | p in TextPages(texts, n) ::
      1 <= p.pageNumber <= n && HasText(texts[p.pageNumber - 1])
      && p == KeptPage(texts, p.pageNumber - 1)
  {
    if n > 0 {
      TextPagesSound(texts, n - 1);
      var prev := TextPages(texts, n - 1);
      forall p | p in TextPages(texts, n)
        ensures 1 <= p.pageNumber <= n && HasText(texts[p.pageNumber - 1])
        ensures p == KeptPage(texts, p.pageNumber - 1)
      {
        if p !in prev {
          assert p.pageNumber == n;
        }
      }
    }
  }

  /** Every page whose text is non-empty after stripping is kept. */
  lemma {:induction false} TextPagesComplete(texts: seq<Option<string>>, n: nat)
    requires n <= |texts|
    ensures forall k | 0 <= k < n && HasText(texts[k]) ::
      KeptPage(texts, k) in TextPages(texts, n)
  {
    if n > 0 {
      TextPagesComplete(texts, n - 1);
      var prev := TextPages(texts, n - 1);
      var last := if HasText(texts[n - 1]) then [KeptPage(texts, n - 1)] else [];
      assert TextPages(texts, n) == prev + last;
      forall k | 0 <= k < n && HasText(texts[k])
        ensures KeptPage(texts, k) in prev + last
      {
        if k < n - 1 {
          assert KeptPage(texts, k) in prev;
        } else {
          assert KeptPage(texts, k) in last;
        }
      }
    }
  }

  lemma {:induction false} TextPagesNumbers(texts: seq<Option<string>>, n: nat)
    requires n <= |texts|
    ensures forall p | p in TextPages(texts, n) :: 1 <= p.pageNumber <= n
  {
    if n > 0 {
      TextPagesNumbers(texts, n - 1);
    }
  }

  predicate Increasing(pages: seq<Page>) {
    forall a, b | 0 <= a < b < |pages| :: pages[a].pageNumber < pages[b].pageNumber
  }

  /** Kept pages are in increasing page order. */
  lemma {:induction false} TextPagesOrdered(texts: seq<Option<string>>, n: nat)
    requires n <= |texts|
    ensures Increasing(TextPages(texts, n))
  {
    if n > 0 {
      TextPagesOrdered(texts, n - 1);
      TextPagesNumbers(texts, n - 1);
      var prev := TextPages(texts, n - 1);
      var r := TextPages(texts, n);
      forall a, b | 0 <= a < b < |r| ensures r[a].pageNumber < r[b].pageNumber {
        assert r[a] == prev[a] && prev[a] in prev;
        assert prev[a].pageNumber <= n - 1;
        if b < |prev| {
          assert r[b] == prev[b];
          assert prev[a].pageNumber < prev[b].pageNumber;
        } else {
          assert HasText(texts[n - 1]) && r == prev + [KeptPage(texts, n - 1)];
          assert r[b].pageNumber == n;
        }
      }
    }
  }

  /** One reader's page loop: keep the pages with text, numbered from 1. */
  method CollectPages(texts: seq<Option<string>>) returns (pages: seq<Page>)
    ensures pages == TextPages(texts, |texts|)
  {
    pages := [];
    for n := 0 to |texts|
      invariant pages == TextPages(texts, n)
    {
      var text := texts[n];
      if text.Some? && Strip(text.value) != "" {
        pages := pages + [Page(n + 1, Strip(text.value), DetectMath(text.value))];
      }
    }
  }

  /** `extract_text_with_layout` over the readers' outputs: the PyPDF2 loop
      appends to what the pdfplumber loop collected. */
  method ExtractTextWithLayout(f: PdfFile) returns (pages: seq<Page>)
    ensures pages == ExtractedPages(f)
  {
    pages := CollectPages(f.plumber.texts);
    if pages != [] && !f.plumber.raised {
      return;
    }
    var fallback := CollectPages(f.pypdf);
    pages := pages + fallback;
  }

  /** A completed primary pass with pages makes the fallback irrelevant. */
  lemma PrimaryPagesWin(f: PdfFile, g: PdfFile)
    requires f.plumber == g.plumber && !f.plumber.raised
    requires TextPages(f.plumber.texts, |f.plumber.texts|) != []
    ensures ExtractedPages(f) == ExtractedPages(g) == TextPages(f.plumber.texts, |f.plumber.texts|)
  {
  }

  // ------------------------------------------------------------------
  // Chunking a document

  /** The chunker configuration: `chunk_size` and langchain's recursive
      splitter, which is not part of this model and may raise (`None`). */
  datatype Processor = Processor(chunkSize: int, splitText: string -> Option<seq<string>>)

  /** The segments a page is cut into, or `None` when the splitter raised. */
  function PageSegments(page: Page, proc: Processor): Option<seq<string>> {
    if page.hasMath then Some(MathChunks(page.text, proc.chunkSize)) else proc.splitText(page.text)
  }

  /** `{**metadata, "page": ..., "chunk_id": ..., "total_chunks": ..., "has_math": ...}`. */
  function ChunkMetadata(metadata: Dict, page: Page, i: nat, total: nat): Dict {
    metadata["page" := Int(page.pageNumber)]["chunk_id" := Int(i)]["total_chunks" := Int(total)]["has_math" := Bool(page.hasMath)]
  }

  /** The record made from segment `i` of a page. */
  function Record(segments: seq<string>, i: nat, page: Page, metadata: Dict): Chunk
    requires i < |segments|
  {
    Chunk(Some(Strip(segments[i])), Some(ChunkMetadata(metadata, page, i, |segments|)))
  }

  /** The records made from segments `0..n` of a page. */
  function PageRecords(segments: seq<string>, n: nat, page: Page, metadata: Dict): seq<Chunk>
    requires n <= |segments|
  {
    if n == 0 then []
    else
      PageRecords(segments, n - 1, page, metadata)
      + (if Strip(segments[n - 1]) != [] then [Record(segments, n - 1, page, metadata)] else [])
  }

  /** The records of pages `0..n`, or `None` when the splitter raised on one of them. */
  function DocumentRecords(pages: seq<Page>, n: nat, metadata: Dict, proc: Processor): Option<seq<Chunk>>
    requires n <= |pages|
  {
    if n == 0 then Some([])
    else
      match DocumentRecords(pages, n - 1, metadata, proc)
      case None => None
      case Some(prev) =>
        match PageSegments(pages[n - 1], proc)
        case None => None
        case Some(segments) => Some(prev + PageRecords(segments, |segments|, pages[n - 1], metadata))
  }

  /** Record `c` is the one made from segment `i`. */
  predicate RecordOf(c: Chunk, segments: seq<string>, i: int, page: Page, metadata: Dict) {
    0 <= i < |segments| && Strip(segments[i]) != [] && c == Record(segments, i, page, metadata)
  }

  /** An integer field of a record's metadata, or -1 when it is absent. */
  function IntField(c: Chunk, key: string): int {
    var m := MetadataOf(c);
    if key in m && m[key].Int? then m[key].i else -1
  }

  /** The page, position and segment count a record carries. */
  lemma RecordFields(segments: seq<string>, i: nat, page: Page, metadata: Dict)
    requires i < |segments|
    ensures IntField(Record(segments, i, page, metadata), "page") == page.pageNumber
    ensures IntField(Record(segments, i, page, metadata), "chunk_id") == i
    ensures IntField(Record(segments, i, page, metadata), "total_chunks") == |segments|
    ensures PageFields(Record(segments, i, page, metadata), page, |segments|, i + 1)
  {
    ChunkMetadataSpec(metadata, page, i, |segments|);
  }

  /** Record `c` carries the page's number, its segment count, and a
      `chunk_id` below `n`. */
  predicate PageFields(c: Chunk, page: Page, total: nat, n: nat) {
    IntField(c, "page") == page.pageNumber && IntField(c, "total_chunks") == total
    && 0 <= IntField(c, "chunk_id") < n
  }

  /** The `chunk_id`s strictly increase along `recs`. */
  predicate IdsIncreasing(recs: seq<Chunk>) {
    forall a, b | 0 <= a < b < |recs| :: IntField(recs[a], "chunk_id") < IntField(recs[b], "chunk_id")
  }

  lemma IdsSnoc(prev: seq<Chunk>, c: Chunk)
    requires IdsIncreasing(prev)
    requires forall x | x in prev :: IntField(x, "chunk_id") < IntField(c, "chunk_id")
    ensures IdsIncreasing(prev + [c])
  {
    var recs := prev + [c];
    forall a, b | 0 <= a < b < |recs| ensures IntField(recs[a], "chunk_id") < IntField(recs[b], "chunk_id") {
      assert recs[a] == prev[a] && prev[a] in prev;
    }
  }

  /** The record of segment `n - 1` extends the records of the segments before it. */
  lemma PageFieldsSnoc(prev: seq<Chunk>, r: Chunk, page: Page, total: nat, n: nat)
    requires 0 < n
    requires forall c | c in prev :: PageFields(c, page, total, n - 1)
    requires IdsIncreasing(prev)
    requires PageFields(r, page, total, n) && IntField(r, "chunk_id") == n - 1
    ensures forall c | c in prev + [r] :: PageFields(c, page, total, n)
    ensures IdsIncreasing(prev + [r])
  {
    IdsSnoc(prev, r);
  }

  /** The record a non-blank segment `n - 1` appends, with its fields. */
  lemma PageRecordsLast(segments: seq<string>, n: nat, page: Page, metadata: Dict) returns (r: Chunk)
    requires 0 < n <= |segments| && Strip(segments[n - 1]) != []
    ensures PageRecords(segments, n, page, metadata) == PageRecords(segments, n - 1, page, metadata) + [r]
    ensures PageFields(r, page, |segments|, n) && IntField(r, "chunk_id") == n - 1
  {
    r := Record(segments, n - 1, page, metadata);
    RecordFields(segments, n - 1, page, metadata);
    PageRecordsSnoc(segments, n, page, metadata);
  }

  lemma PageRecordsSnoc(segments: seq<string>, n: nat, page: Page, metadata: Dict)
    requires 0 < n <= |segments| && Strip(segments[n - 1]) != []
    ensures PageRecords(segments, n, page, metadata)
      == PageRecords(segments, n - 1, page, metadata) + [Record(segments, n - 1, page, metadata)]
  {
  }

  lemma PageFieldsWiden(prev: seq<Chunk>, page: Page, total: nat, n: nat)
    requires 0 < n
    requires forall c | c in prev :: PageFields(c, page, total, n - 1)
    ensures forall c | c in prev :: PageFields(c, page, total, n)
  {
  }

  /** The records of a page all carry the page's number and its segment
      count, and their `chunk_id`s are segment positions that strictly
      increase along the list. */
  lemma {:induction false} PageRecordsOrdered(segments: seq<string>, n: nat, page: Page, metadata: Dict)
    requires n <= |segments|
    ensures forall c | c in PageRecords(segments, n, page, metadata) :: PageFields(c, page, |segments|, n)
    ensures IdsIncreasing(PageRecords(segments, n, page, metadata))
  {
    if n > 0 {
      PageRecordsOrdered(segments, n - 1, page, metadata);
      var prev := PageRecords(segments, n - 1, page, metadata);
      if Strip(segments[n - 1]) != [] {
        var r := PageRecordsLast(segments, n, page, metadata);
        PageFieldsSnoc(prev, r, page, |segments|, n);
      } else {
        PageFieldsWiden(prev, page, |segments|, n);
      }
    }
  }

  /** Each record of a page is made from one of its segments, and the
      segment positions of the records strictly increase along the list, so
      no segment gives more than one record. */
  lemma {:induction false} PageRecordsSound(segments: seq<string>, n: nat, page: Page, metadata: Dict)
    requires n <= |segments|
    ensures |PageRecords(segments, n, page, metadata)| <= n
    ensures forall c | c in PageRecords(segments, n, page, metadata) ::
      exists i | 0 <= i < n :: RecordOf(c, segments, i, page, metadata)
    ensures forall a, b, i, j | 0 <= a < b < |PageRecords(segments, n, page, metadata)|
      && RecordOf(PageRecords(segments, n, page, metadata)[a], segments, i, page, metadata)
      && RecordOf(PageRecords(segments, n, page, metadata)[b], segments, j, page, metadata) :: i < j
  {
    if n > 0 {
      PageRecordsSound(segments, n - 1, page, metadata);
      var prev := PageRecords(segments, n - 1, page, metadata);
      forall c | c in PageRecords(segments, n, page, metadata)
        ensures exists i | 0 <= i < n :: RecordOf(c, segments, i, page, metadata)
      {
        if c !in prev {
          assert RecordOf(c, segments, n - 1, page, metadata);
        }
      }
    }
    var recs := PageRecords(segments, n, page, metadata);
    PageRecordsOrdered(segments, n, page, metadata);
    forall a, b, i, j | 0 <= a < b < |recs|
      && RecordOf(recs[a], segments, i, page, metadata) && RecordOf(recs[b], segments, j, page, metadata)
      ensures i < j
    {
      RecordFields(segments, i, page, metadata);
      RecordFields(segments, j, page, metadata);
    }
  }

  /** Only whitespace-only segments are dropped. */
  lemma {:induction false} PageRecordsComplete(segments: seq<string>, n: nat, page: Page, metadata: Dict)
    requires n <= |segments|
    ensures forall i | 0 <= i < n && Strip(segments[i]) != [] ::
      Record(segments, i, page, metadata) in PageRecords(segments, n, page, metadata)
  {
    if n > 0 {
      PageRecordsComplete(segments, n - 1, page, metadata);
      var prev := PageRecords(segments, n - 1, page, metadata);
      var last := if Strip(segments[n - 1]) != [] then [Record(segments, n - 1, page, metadata)] else [];
      assert PageRecords(segments, n, page, metadata) == prev + last;
      forall i | 0 <= i < n && Strip(segments[i]) != []
        ensures Record(segments, i, page, metadata) in prev + last
      {
        if i < n - 1 {
          assert Record(segments, i, page, metadata) in prev;
        } else {
          assert Record(segments, i, page, metadata) in last;
        }
      }
    }
  }

  const PageKeys: set<string> := {"page", "chunk_id", "total_chunks", "has_math"}

  /** `m` holds every document-level key of `metadata` unchanged. */
  predicate KeepsMetadata(m: Dict, metadata: Dict) {
    forall k | k in metadata && k !in PageKeys :: k in m && m[k] == metadata[k]
  }

  /** The metadata of each record: the page fields override the document's,
      `0 <= chunk_id < total_chunks`, and every other key is the document's. */
  lemma ChunkMetadataSpec(metadata: Dict, page: Page, i: nat, total: nat)
    requires i < total
    ensures ChunkMetadata(metadata, page, i, total).Keys == metadata.Keys + PageKeys
    ensures ChunkMetadata(metadata, page, i, total)["page"] == Int(page.pageNumber)
    ensures ChunkMetadata(metadata, page, i, total)["has_math"] == Bool(page.hasMath)
    ensures ChunkMetadata(metadata, page, i, total)["chunk_id"] == Int(i)
    ensures ChunkMetadata(metadata, page, i, total)["total_chunks"] == Int(total)
    ensures 0 <= ChunkMetadata(metadata, page, i, total)["chunk_id"].i < ChunkMetadata(metadata, page, i, total)["total_chunks"].i
    ensures KeepsMetadata(ChunkMetadata(metadata, page, i, total), metadata)
  {
  }

  /** A page that the splitter gave up on makes the whole document fail. */
  lemma {:induction false} DocumentRecordsStuck(pages: seq<Page>, n: nat, m: nat, metadata: Dict, proc: Processor)
    requires n <= m <= |pages| && DocumentRecords(pages, n, metadata, proc).None?
    ensures DocumentRecords(pages, m, metadata, proc).None?
    decreases m - n
  {
    if n < m {
      DocumentRecordsStuck(pages, n, m - 1, metadata, proc);
    }
  }

  /** Records are ordered by page: those of the first `n` pages come first. */
  lemma {:induction false} DocumentRecordsPrefix(pages: seq<Page>, n: nat, m: nat, metadata: Dict, proc: Processor)
    requires n <= m <= |pages|
    requires DocumentRecords(pages, m, metadata, proc).Some?
    ensures DocumentRecords(pages, n, metadata, proc).Some?
    ensures DocumentRecords(pages, n, metadata, proc).value <= DocumentRecords(pages, m, metadata, proc).value
    decreases m - n
  {
    if n < m {
      DocumentRecordsPrefix(pages, n, m - 1, metadata, proc);
    }
  }

  /** Record `c` comes before record `d` in (page, chunk_id) order. */
  predicate PositionBefore(c: Chunk, d: Chunk) {
    IntField(c, "page") < IntField(d, "page")
    || (IntField(c, "page") == IntField(d, "page") && IntField(c, "chunk_id") < IntField(d, "chunk_id"))
  }

  /** The (page, chunk_id) positions strictly increase along `recs`. */
  predicate PositionsIncreasing(recs: seq<Chunk>) {
    forall a, b | 0 <= a < b < |recs| :: PositionBefore(recs[a], recs[b])
  }

  /** Record `c` carries the number of one of the first `n` pages. */
  predicate FromPage(c: Chunk, pages: seq<Page>, n: nat)
    requires n <= |pages|
  {
    exists k | 0 <= k < n :: IntField(c, "page") == pages[k].pageNumber
  }

  /** Appending the records of a later page keeps the order. */
  lemma PageAppend(prev: seq<Chunk>, last: seq<Chunk>, p: int)
    requires PositionsIncreasing(prev) && IdsIncreasing(last)
    requires forall c | c in prev :: IntField(c, "page") < p
    requires forall c | c in last :: IntField(c, "page") == p
    ensures PositionsIncreasing(prev + last)
  {
    var recs := prev + last;
    forall a, b | 0 <= a < b < |recs| ensures PositionBefore(recs[a], recs[b]) {
      if b < |prev| {
        assert recs[a] == prev[a] && recs[b] == prev[b];
      } else if a < |prev| {
        assert recs[a] == prev[a] && prev[a] in prev;
        assert recs[b] == last[b - |prev|] && last[b - |prev|] in last;
      } else {
        assert recs[a] == last[a - |prev|] && recs[b] == last[b - |prev|];
        assert last[a - |prev|] in last && last[b - |prev|] in last;
      }
    }
  }

  /** Records of earlier pages carry smaller page numbers. */
  lemma EarlierPages(pages: seq<Page>, n: nat, prev: seq<Chunk>)
    requires 0 < n <= |pages| && Increasing(pages)
    requires forall c | c in prev :: FromPage(c, pages, n - 1)
    ensures forall c | c in prev :: IntField(c, "page") < pages[n - 1].pageNumber
  {
    forall c | c in prev ensures IntField(c, "page") < pages[n - 1].pageNumber {
      var k :| 0 <= k < n - 1 && IntField(c, "page") == pages[k].pageNumber;
    }
  }

  /** Over pages in increasing page order, the records of a document carry
      `0 <= chunk_id < total_chunks` and the page number of one of the
      pages, and come in strictly increasing (page, chunk_id) order. */
  lemma {:induction false} DocumentRecordsOrdered(pages: seq<Page>, n: nat, metadata: Dict, proc: Processor)
    requires n <= |pages| && Increasing(pages)
    requires DocumentRecords(pages, n, metadata, proc).Some?
    ensures forall c | c in DocumentRecords(pages, n, metadata, proc).value ::
      0 <= IntField(c, "chunk_id") < IntField(c, "total_chunks") && FromPage(c, pages, n)
    ensures PositionsIncreasing(DocumentRecords(pages, n, metadata, proc).value)
  {
    if n > 0 {
      DocumentRecordsOrdered(pages, n - 1, metadata, proc);
      var prev := DocumentRecords(pages, n - 1, metadata, proc).value;
      var segments := PageSegments(pages[n - 1], proc).value;
      var last := PageRecords(segments, |segments|, pages[n - 1], metadata);
      assert DocumentRecords(pages, n, metadata, proc).value == prev + last;
      PageRecordsOrdered(segments, |segments|, pages[n - 1], metadata);
      EarlierPages(pages, n, prev);
      PageAppend(prev, last, pages[n - 1].pageNumber);
      forall c | c in prev + last
        ensures 0 <= IntField(c, "chunk_id") < IntField(c, "total_chunks") && FromPage(c, pages, n)
      {
        if c in last {
          assert PageFields(c, pages[n - 1], |segments|, |segments|);
          assert IntField(c, "page") == pages[n - 1].pageNumber;
        } else {
          assert FromPage(c, pages, n - 1);
          var k :| 0 <= k < n - 1 && IntField(c, "page") == pages[k].pageNumber;
          assert 0 <= k < n;
        }
      }
    }
  }

  /** The pages extracted from a file are in increasing page order unless
      pdfplumber raised after collecting some pages. */
  lemma ExtractedPagesIncreasing(f: PdfFile)
    requires !f.plumber.raised || TextPages(f.plumber.texts, |f.plumber.texts|) == []
    ensures Increasing(ExtractedPages(f))
  {
    TextPagesOrdered(f.plumber.texts, |f.plumber.texts|);
    TextPagesOrdered(f.pypdf, |f.pypdf|);
  }

  /** When pdfplumber raises after collecting a page, PyPDF2's pages are
      appended after it and numbered from 1 again, so a page number repeats. */
  lemma PartialPlumberRepeatsPage()
    ensures var f := PdfFile(PlumberRun([Some("x")], true), [Some("x")]);
      |ExtractedPages(f)| == 2 && ExtractedPages(f)[0].pageNumber == ExtractedPages(f)[1].pageNumber == 1
      && !Increasing(ExtractedPages(f))
  {
    var f := PdfFile(PlumberRun([Some("x")], true), [Some("x")]);
    StripEmpty("x");
    assert !IsSpace("x"[0]);
    assert HasText(Some("x"));
    assert TextPages([Some("x")], 1) == [Page(1, Strip("x"), DetectMath("x"))];
  }

  /** The inner loop of `chunk_document`: one record per non-blank segment. */
  method TagSegments(chunks: seq<string>, page: Page, metadata: Dict) returns (records: seq<Chunk>)
    ensures records == PageRecords(chunks, |chunks|, page, metadata)
  {
    records := [];
    for i := 0 to |chunks|
      invariant records == PageRecords(chunks, i, page, metadata)
    {
      var chunk := chunks[i];
      if Strip(chunk) != "" {
        records := records + [Chunk(Some(Strip(chunk)), Some(ChunkMetadata(metadata, page, i, |chunks|)))];
        assert records[|records| - 1] == Record(chunks, i, page, metadata);
      }
    }
  }

  /** The segments of one page: the math-aware chunker for a page with
      math, the configured splitter otherwise (`None` when it raised). */
  method SplitPage(page: Page, proc: Processor) returns (r: Option<seq<string>>)
    ensures r == PageSegments(page, proc)
  {
    if page.hasMath {
      var chunks := ChunkWithMathPreservation(page.text, proc.chunkSize);
      r := Some(chunks);
    } else {
      r := proc.splitText(page.text);
    }
  }

  /** `chunk_document`: `None` when the splitter raised. */
  method ChunkDocument(pages: seq<Page>, metadata: Dict, proc: Processor) returns (r: Option<seq<Chunk>>)
    ensures r == DocumentRecords(pages, |pages|, metadata, proc)
  {
    var allChunks: seq<Chunk> := [];
    for n := 0 to |pages|
      invariant DocumentRecords(pages, n, metadata, proc) == Some(allChunks)
    {
      var page := pages[n];
      var chunks := SplitPage(page, proc);
      if chunks.None? {
        DocumentRecordsFail(pages, n, metadata, proc);
        return None;
      }
      var records := TagSegments(chunks.value, page, metadata);
      DocumentRecordsStep(pages, n, metadata, proc, allChunks, chunks.value, records);
      allChunks := allChunks + records;
    }
    r := Some(allChunks);
  }

  /** A page that splits into `segments` appends its records. */
  lemma DocumentRecordsStep(pages: seq<Page>, n: nat, metadata: Dict, proc: Processor,
                            prev: seq<Chunk>, segments: seq<string>, records: seq<Chunk>)
    requires n < |pages| && DocumentRecords(pages, n, metadata, proc) == Some(prev)
    requires PageSegments(pages[n], proc) == Some(segments)
    requires records == PageRecords(segments, |segments|, pages[n], metadata)
    ensures DocumentRecords(pages, n + 1, metadata, proc) == Some(prev + records)
  {
  }

  /** A page the splitter raises on after `n` good pages fails the document. */
  lemma DocumentRecordsFail(pages: seq<Page>, n: nat, metadata: Dict, proc: Processor)
    requires n < |pages| && DocumentRecords(pages, n, metadata, proc).Some?
    requires PageSegments(pages[n], proc).None?
    ensures DocumentRecords(pages, |pages|, metadata, proc).None?
  {
    DocumentRecordsStuck(pages, n + 1, |pages|, metadata, proc);
  }

  // ------------------------------------------------------------------
  // Files

  /** `os.path.basename`: what follows the last '/'. */
  function Basename(path: string): (r: string)
    ensures |r| <= |path|
  {
    if path == [] || path[|path| - 1] == '/' then []
    else Basename(path[..|path| - 1]) + [path[|path| - 1]]
  }

  /** The basename is the longest suffix of the path without a '/'. */
  lemma {:induction false} BasenameSpec(path: string)
    ensures Basename(path) == path[|path| - |Basename(path)|..]
    ensures forall i | 0 <= i < |Basename(path)| :: Basename(path)[i] != '/'
    ensures |Basename(path)| < |path| ==> path[|path| - |Basename(path)| - 1] == '/'
  {
    if path != [] && path[|path| - 1] != '/' {
      var p := path[..|path| - 1];
      BasenameSpec(p);
      var b, c := Basename(p), path[|path| - 1];
      assert Basename(path) == b + [c];
      assert path == p + [c];
      assert path[|path| - |b + [c]|..] == p[|p| - |b|..] + [c];
    }
  }

  /** The file-level metadata `process_pdf` attaches. */
  function DocumentMetadata(path: string, docType: string, subject: string, year: string, pageCount: nat): Dict {
    map["source" := Str(Basename(path)), "type" := Str(docType), "subject" := Str(subject),
        "year" := Str(year), "file_path" := Str(path), "total_pages" := Int(pageCount)]
  }

  /** What `process_pdf` returns for `path` among the existing `files`:
      `Some([])` for a missing file or one without text, `None` when it raised. */
  function ProcessedChunks(files: map<string, PdfFile>, path: string, docType: string, subject: string,
                           year: string, proc: Processor): Option<seq<Chunk>>
  {
    if path !in files then Some([])
    else
      var pages := ExtractedPages(files[path]);
      if pages == [] then Some([])
      else DocumentRecords(pages, |pages|, DocumentMetadata(path, docType, subject, year, |pages|), proc)
  }

  /** `process_pdf`. */
  method ProcessPdf(files: map<string, PdfFile>, path: string, docType: string, subject: string,
                    year: string, proc: Processor) returns (r: Option<seq<Chunk>>)
    ensures r == ProcessedChunks(files, path, docType, subject, year, proc)
  {
    if path !in files {
      return Some([]);
    }
    var pages := ExtractTextWithLayout(files[path]);
    if pages == [] {
      return Some([]);
    }
    var metadata := DocumentMetadata(path, docType, subject, year, |pages|);
    r := ChunkDocument(pages, metadata, proc);
  }

  /** Every record of a document keeps the document-level metadata. */
  lemma {:induction false} DocumentRecordsKeep(pages: seq<Page>, n: nat, metadata: Dict, proc: Processor)
    requires n <= |pages| && DocumentRecords(pages, n, metadata, proc).Some?
    ensures forall c | c in DocumentRecords(pages, n, metadata, proc).value ::
      c.metadata.Some? && KeepsMetadata(c.metadata.value, metadata)
  {
    if n > 0 {
      DocumentRecordsKeep(pages, n - 1, metadata, proc);
      var prev := DocumentRecords(pages, n - 1, metadata, proc).value;
      var segments := PageSegments(pages[n - 1], proc).value;
      PageRecordsSound(segments, |segments|, pages[n - 1], metadata);
      forall c | c in DocumentRecords(pages, n, metadata, proc).value
        ensures c.metadata.Some? && KeepsMetadata(c.metadata.value, metadata)
      {
        if c !in prev {
          var i :| 0 <= i < |segments| && RecordOf(c, segments, i, pages[n - 1], metadata);
          ChunkMetadataSpec(metadata, pages[n - 1], i, |segments|);
        }
      }
    }
  }

  /** The document-level metadata `process_pdf` builds for a file. */
  lemma DocumentMetadataSpec(path: string, docType: string, subject: string, year: string, pageCount: nat)
    ensures DocumentMetadata(path, docType, subject, year, pageCount).Keys
      == {"source", "type", "subject", "year", "file_path", "total_pages"}
    ensures DocumentMetadata(path, docType, subject, year, pageCount)["source"] == Str(Basename(path))
    ensures DocumentMetadata(path, docType, subject, year, pageCount)["total_pages"] == Int(pageCount)
    ensures DocumentMetadata(path, docType, subject, year, pageCount)["file_path"] == Str(path)
  {
  }

  /** Every chunk of a processed document names the file's basename as its
      source and the number of extracted pages as `total_pages`. */
  lemma DocumentChunksSource(pages: seq<Page>, metadata: Dict, path: string, docType: string, subject: string,
                             year: string, proc: Processor)
    requires metadata == DocumentMetadata(path, docType, subject, year, |pages|)
    requires DocumentRecords(pages, |pages|, metadata, proc).Some?
    ensures forall c | c in DocumentRecords(pages, |pages|, metadata, proc).value ::
      c.metadata.Some? && "source" in c.metadata.value && "total_pages" in c.metadata.value
      && c.metadata.value["source"] == Str(Basename(path))
      && c.metadata.value["total_pages"] == Int(|pages|)
  {
    DocumentRecordsKeep(pages, |pages|, metadata, proc);
    DocumentMetadataSpec(path, docType, subject, year, |pages|);
    assert "source" in metadata && "source" !in PageKeys;
    assert "total_pages" in metadata && "total_pages" !in PageKeys;
  }

  /** `process_pdf` gives nothing for a missing file or one without text;
      otherwise its chunks are those of the extracted pages, tagged with the
      file's metadata. */
  lemma ProcessedChunksCases(files: map<string, PdfFile>, path: string, docType: string, subject: string,
                             year: string, proc: Processor)
    ensures path !in files ==> ProcessedChunks(files, path, docType, subject, year, proc) == Some([])
    ensures path in files && ExtractedPages(files[path]) == [] ==>
      ProcessedChunks(files, path, docType, subject, year, proc) == Some([])
    ensures path in files && ExtractedPages(files[path]) != [] ==>
      var pages := ExtractedPages(files[path]);
      ProcessedChunks(files, path, docType, subject, year, proc)
        == DocumentRecords(pages, |pages|, DocumentMetadata(path, docType, subject, year, |pages|), proc)
  {
  }

  /** The concatenation of `process`'s results for `paths[..n]`, in order,
      skipping the files for which it raised. */
  function BatchChunks(process: string -> Option<seq<Chunk>>, paths: seq<string>, n: nat): seq<Chunk>
    requires n <= |paths|
  {
    if n == 0 then []
    else
      BatchChunks(process, paths, n - 1)
      + match process(paths[n - 1])
        case None => []
        case Some(cs) => cs
  }

  /** What `process_pdf` does to one path, as a function of the path. */
  function ProcessFile(files: map<string, PdfFile>, docType: string, subject: string, year: string,
                       proc: Processor): string -> Option<seq<Chunk>>
  {
    path => ProcessedChunks(files, path, docType, subject, year, proc)
  }

  /** The results for the first `n` paths depend on those paths only. */
  lemma {:induction false} BatchChunksPrefix(process: string -> Option<seq<Chunk>>, a: seq<string>, b: seq<string>, n: nat)
    requires n <= |a| && n <= |b| && a[..n] == b[..n]
    ensures BatchChunks(process, a, n) == BatchChunks(process, b, n)
  {
    if n > 0 {
      assert a[..n - 1] == b[..n - 1];
      assert a[n - 1] == a[..n][n - 1] == b[..n][n - 1] == b[n - 1];
      BatchChunksPrefix(process, a, b, n - 1);
    }
  }

  /** The results of a slice of paths follow those of the paths before it:
      cutting the input into batches changes nothing. */
  lemma {:induction false} BatchChunksSlice(process: string -> Option<seq<Chunk>>, paths: seq<string>, i: nat, j: nat)
    requires i <= j <= |paths|
    ensures BatchChunks(process, paths, j) == BatchChunks(process, paths, i) + BatchChunks(process, paths[i..j], j - i)
    decreases j - i
  {
    if i < j {
      BatchChunksSlice(process, paths, i, j - 1);
      assert paths[i..j][..j - 1 - i] == paths[i..j - 1][..j - 1 - i];
      BatchChunksPrefix(process, paths[i..j], paths[i..j - 1], j - 1 - i);
      assert paths[i..j][j - 1 - i] == paths[j - 1];
    }
  }

  /** The inner loop of `batch_process`: every file of one batch, those that
      raise skipped. */
  method ProcessBatch(files: map<string, PdfFile>, batch: seq<string>, docType: string, subject: string,
                      year: string, proc: Processor) returns (chunks: seq<Chunk>)
    ensures chunks == BatchChunks(ProcessFile(files, docType, subject, year, proc), batch, |batch|)
  {
    ghost var process := ProcessFile(files, docType, subject, year, proc);
    chunks := [];
    for j := 0 to |batch|
      invariant chunks == BatchChunks(process, batch, j)
    {
      var result := ProcessPdf(files, batch[j], docType, subject, year, proc);
      BatchChunksStep(process, batch, j, result);
      if result.Some? {
        chunks := chunks + result.value;
      }
    }
  }

  /** One more path adds its chunks, or nothing when it raised. */
  lemma BatchChunksStep(process: string -> Option<seq<Chunk>>, paths: seq<string>, j: nat, result: Option<seq<Chunk>>)
    requires j < |paths| && result == process(paths[j])
    ensures result.None? ==> BatchChunks(process, paths, j + 1) == BatchChunks(process, paths, j)
    ensures result.Some? ==> BatchChunks(process, paths, j + 1) == BatchChunks(process, paths, j) + result.value
  {
  }

  /** `batch_process`: `None` when `range` refuses a zero step; a negative
      step gives an empty range. */
  method BatchProcess(files: map<string, PdfFile>, paths: seq<string>, docType: string, subject: string,
                      year: string, batchSize: int, proc: Processor) returns (r: Option<seq<Chunk>>)
    ensures batchSize == 0 ==> r == None
    ensures batchSize < 0 ==> r == Some([])
    ensures batchSize > 0 ==> r == Some(BatchChunks(ProcessFile(files, docType, subject, year, proc), paths, |paths|))
  {
    if batchSize == 0 {
      return None;
    }
    var allChunks: seq<Chunk> := [];
    if batchSize > 0 {
      var i := 0;
      while i < |paths|
        invariant 0 <= i <= |paths|
        invariant allChunks == BatchChunks(ProcessFile(files, docType, subject, year, proc), paths, i)
      {
        var end := if i + batchSize < |paths| then i + batchSize else |paths|;
        var batch := paths[i..end];
        var chunks := ProcessBatch(files, batch, docType, subject, year, proc);
        BatchChunksSlice(ProcessFile(files, docType, subject, year, proc), paths, i, end);
        allChunks := allChunks + chunks;
        i := end;
      }
    }
    r := Some(allChunks);
  }

  /** Every chunk of the batch result comes from one of the files, and
      every file that did not raise contributes all its chunks. */
  lemma {:induction false} BatchChunksComplete(process: string -> Option<seq<Chunk>>, paths: seq<string>, n: nat)
    requires n <= |paths|
    ensures forall k | 0 <= k < n && process(paths[k]).Some? ::
      forall c | c in process(paths[k]).value :: c in BatchChunks(process, paths, n)
    ensures forall c | c in BatchChunks(process, paths, n) ::
      exists k | 0 <= k < n :: process(paths[k]).Some? && c in process(paths[k]).value
  {
    if n > 0 {
      BatchChunksComplete(process, paths, n - 1);
    }
  }

  // ------------------------------------------------------------------
  // Statistics

  /** The dictionary `get_stats` returns; `sources` is absent (`None`) for
      an empty chunk list. `pagesProcessed` is the numeric value of the
      largest `total_pages` (a boolean counts as 0 or 1). */
  datatype ChunkStats = ChunkStats(totalChunks: nat, uniqueSources: nat, avgChunkSize: nat,
                                   mathChunks: nat, pagesProcessed: int, sources: Option<set<Value>>)

  function MetadataOf(c: Chunk): Dict {
    if c.metadata.Some? then c.metadata.value else map[]
  }

  function ContentLength(c: Chunk): nat {
    if c.content.Some? then |c.content.value| else 0
  }

  function SourcesOf(chunks: seq<Chunk>, n: nat): set<Value>
    requires n <= |chunks|
  {
    if n == 0 then {} else SourcesOf(chunks, n - 1) + {Get(MetadataOf(chunks[n - 1]), "source", Str("Unknown"))}
  }

  function TotalLength(chunks: seq<Chunk>, n: nat): nat
    requires n <= |chunks|
  {
    if n == 0 then 0 else TotalLength(chunks, n - 1) + ContentLength(chunks[n - 1])
  }

  function MathCount(chunks: seq<Chunk>, n: nat): nat
    requires n <= |chunks|
  {
    if n == 0 then 0
    else MathCount(chunks, n - 1) + (if Truthy(Get(MetadataOf(chunks[n - 1]), "has_math", Bool(false))) then 1 else 0)
  }

  function NumericValue(v: Value): int
    requires !v.Str?
  {
    match v
    case Int(i) => i
    case Bool(b) => if b then 1 else 0
  }

  /** The largest `total_pages` among the first `n` chunks, starting from 0,
      or `None` when one is a string, which makes `max` raise. */
  function MaxPages(chunks: seq<Chunk>, n: nat): Option<int>
    requires n <= |chunks|
  {
    if n == 0 then Some(0)
    else
      match MaxPages(chunks, n - 1)
      case None => None
      case Some(m) =>
        var meta := MetadataOf(chunks[n - 1]);
        if "total_pages" !in meta then Some(m)
        else if meta["total_pages"].Str? then None
        else Some(if NumericValue(meta["total_pages"]) > m then NumericValue(meta["total_pages"]) else m)
  }

  /** What `get_stats` returns, or `None` when it raised. */
  function StatsOf(chunks: seq<Chunk>): Option<ChunkStats> {
    if chunks == [] then Some(ChunkStats(0, 0, 0, 0, 0, None))
    else
      match MaxPages(chunks, |chunks|)
      case None => None
      case Some(pages) =>
        var sources := SourcesOf(chunks, |chunks|);
        Some(ChunkStats(|chunks|, |sources|, TotalLength(chunks, |chunks|) / |chunks|,
                        MathCount(chunks, |chunks|), pages, Some(sources)))
  }

  /** `get_stats`. */
  method GetStats(chunks: seq<Chunk>) returns (r: Option<ChunkStats>)
    ensures r == StatsOf(chunks)
  {
    if chunks == [] {
      return Some(ChunkStats(0, 0, 0, 0, 0, None));
    }
    var uniqueSources: set<Value> := {};
    var totalLength := 0;
    var mathChunks := 0;
    var totalPages := 0;
    for n := 0 to |chunks|
      invariant uniqueSources == SourcesOf(chunks, n)
      invariant totalLength == TotalLength(chunks, n)
      invariant mathChunks == MathCount(chunks, n)
      invariant MaxPages(chunks, n) == Some(totalPages)
    {
      var metadata := MetadataOf(chunks[n]);
      uniqueSources := uniqueSources + {Get(metadata, "source", Str("Unknown"))};
      totalLength := totalLength + ContentLength(chunks[n]);
      if Truthy(Get(metadata, "has_math", Bool(false))) {
        mathChunks := mathChunks + 1;
      }
      if "total_pages" in metadata {
        if metadata["total_pages"].Str? {
          MaxPagesNone(chunks, |chunks|);
          return None;
        }
        var pages := NumericValue(metadata["total_pages"]);
        totalPages := if pages > totalPages then pages else totalPages;
      }
    }
    r := Some(ChunkStats(|chunks|, |uniqueSources|, totalLength / |chunks|, mathChunks, totalPages, Some(uniqueSources)));
  }

  lemma {:induction false} CountsBounded(chunks: seq<Chunk>, n: nat)
    requires n <= |chunks|
    ensures MathCount(chunks, n) <= n
    ensures |SourcesOf(chunks, n)| <= n
    ensures n > 0 ==> |SourcesOf(chunks, n)| >= 1
  {
    if n > 0 {
      CountsBounded(chunks, n - 1);
      var v := Get(MetadataOf(chunks[n - 1]), "source", Str("Unknown"));
      assert v in SourcesOf(chunks, n);
    }
  }

  lemma {:induction false} MaxPagesBound(chunks: seq<Chunk>, n: nat)
    requires n <= |chunks| && MaxPages(chunks, n).Some?
    ensures MaxPages(chunks, n).value >= 0
    ensures forall k | 0 <= k < n && "total_pages" in MetadataOf(chunks[k]) ::
      !MetadataOf(chunks[k])["total_pages"].Str?
      && NumericValue(MetadataOf(chunks[k])["total_pages"]) <= MaxPages(chunks, n).value
    ensures MaxPages(chunks, n).value == 0
      || exists k | 0 <= k < n :: "total_pages" in MetadataOf(chunks[k])
           && !MetadataOf(chunks[k])["total_pages"].Str?
           && NumericValue(MetadataOf(chunks[k])["total_pages"]) == MaxPages(chunks, n).value
  {
    if n > 0 {
      MaxPagesBound(chunks, n - 1);
    }
  }

  /** The statistics: all zero for no chunks; otherwise the math count and
      the distinct sources are bounded by the chunk count, the average is
      the total content length divided by the count, and `pages_processed`
      is the largest `total_pages` seen (0 when there is none). */
  lemma StatsSpec(chunks: seq<Chunk>)
    ensures chunks == [] ==> StatsOf(chunks) == Some(ChunkStats(0, 0, 0, 0, 0, None))
    ensures chunks != [] && StatsOf(chunks).Some? ==>
      var st := StatsOf(chunks).value;
      st.totalChunks == |chunks|
      && st.mathChunks <= st.totalChunks
      && 1 <= st.uniqueSources <= st.totalChunks
      && st.avgChunkSize == TotalLength(chunks, |chunks|) / |chunks|
      && st.pagesProcessed >= 0
      && (forall k | 0 <= k < |chunks| && "total_pages" in MetadataOf(chunks[k]) ::
            !MetadataOf(chunks[k])["total_pages"].Str? && NumericValue(MetadataOf(chunks[k])["total_pages"]) <= st.pagesProcessed)
    ensures StatsOf(chunks).None? <==>
      exists k | 0 <= k < |chunks| :: "total_pages" in MetadataOf(chunks[k]) && MetadataOf(chunks[k])["total_pages"].Str?
  {
    if chunks != [] {
      CountsBounded(chunks, |chunks|);
      MaxPagesNone(chunks, |chunks|);
      if StatsOf(chunks).Some? {
        MaxPagesBound(chunks, |chunks|);
      }
    }
  }

  lemma {:induction false} MaxPagesNone(chunks: seq<Chunk>, n: nat)
    requires n <= |chunks|
    ensures MaxPages(chunks, n).None? <==>
      exists k | 0 <= k < n :: "total_pages" in MetadataOf(chunks[k]) && MetadataOf(chunks[k])["total_pages"].Str?
  {
    if n > 0 {
      MaxPagesNone(chunks, n - 1);
    }
  }
}
