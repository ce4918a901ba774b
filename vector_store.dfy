/**
  The vector store: the logic the application wraps around its Qdrant
  collection. The collection is an in-memory map from point id to payload;
  embeddings, similarity ranking and md5 are abstract inputs, and every
  call to the server that can raise takes a flag saying whether it does.
*/
module VectorStore {
  import opened Common
  import opened Strings
  import opened PyValues

  // ------------------------------------------------------------------
  // Points
  // ------------------------------------------------------------------

  /** Point ids are taken modulo `2**63 - 1`. */
  const IdModulus: nat := 0x7FFF_FFFF_FFFF_FFFF

  /** The id of a chunk's point: the first 16 hex digits of
      `md5(content + str(metadata))`, read as a number by `digest`, modulo
      `2**63 - 1`. */
  function PointId(digest: (string, Dict) -> nat, content: string, metadata: Dict): (id: nat)
    ensures id < IdModulus
  {
    digest(content, metadata) % IdModulus
  }

  /** The payload stored for a chunk: the text, five defaulted fields, and
      then every metadata entry, which overrides a field of the same name. */
  function Payload(content: string, metadata: Dict): Dict {
    map["text" := Str(content),
        "source" := Get(metadata, "source", Str("Unknown")),
        "type" := Get(metadata, "type", Str("general")),
        "subject" := Get(metadata, "subject", Str("General")),
        "year" := Get(metadata, "year", Str("N/A")),
        "page" := Get(metadata, "page", Str("N/A"))]
    + metadata
  }

  const PayloadFields: set<string> := {"text", "source", "type", "subject", "year", "page"}

  /** The payload has the metadata's keys and the six fields; metadata wins
      over the defaults, and the text is the content unless the metadata
      itself has a "text" entry. */
  lemma PayloadSpec(content: string, metadata: Dict)
    ensures Payload(content, metadata).Keys == metadata.Keys + PayloadFields
    ensures forall k | k in metadata :: Payload(content, metadata)[k] == metadata[k]
    ensures "text" !in metadata ==> Payload(content, metadata)["text"] == Str(content)
    ensures "source" !in metadata ==> Payload(content, metadata)["source"] == Str("Unknown")
    ensures "type" !in metadata ==> Payload(content, metadata)["type"] == Str("general")
    ensures "subject" !in metadata ==> Payload(content, metadata)["subject"] == Str("General")
    ensures "year" !in metadata ==> Payload(content, metadata)["year"] == Str("N/A")
    ensures "page" !in metadata ==> Payload(content, metadata)["page"] == Str("N/A")
  {
  }

  datatype Point = Point(id: nat, payload: Dict)

  /** A chunk has both the "content" and the "metadata" key. */
  predicate IsValid(c: Chunk) {
    c.content.Some? && c.metadata.Some?
  }

  function PointOf(digest: (string, Dict) -> nat, c: Chunk): Point
    requires IsValid(c)
  {
    Point(PointId(digest, c.content.value, c.metadata.value), Payload(c.content.value, c.metadata.value))
  }

  /** The points built for a list of chunks, invalid chunks skipped. */
  function PointsOf(digest: (string, Dict) -> nat, cs: seq<Chunk>): seq<Point> {
    if cs == [] then []
    else
      PointsOf(digest, cs[..|cs| - 1])
      + if IsValid(cs[|cs| - 1]) then [PointOf(digest, cs[|cs| - 1])] else []
  }

  function ValidCount(cs: seq<Chunk>): nat {
    if cs == [] then 0 else ValidCount(cs[..|cs| - 1]) + if IsValid(cs[|cs| - 1]) then 1 else 0
  }

  lemma {:induction false} PointsOfAppend(digest: (string, Dict) -> nat, a: seq<Chunk>, b: seq<Chunk>)
    ensures PointsOf(digest, a + b) == PointsOf(digest, a) + PointsOf(digest, b)
    ensures ValidCount(a + b) == ValidCount(a) + ValidCount(b)
    decreases |b|
  {
    if b != [] {
      var ab := a + b;
      assert ab[..|ab| - 1] == a + b[..|b| - 1];
      PointsOfAppend(digest, a, b[..|b| - 1]);
    } else {
      assert a + b == a;
    }
  }

  /** One point per valid chunk. */
  lemma {:induction false} PointsOfCount(digest: (string, Dict) -> nat, cs: seq<Chunk>)
    ensures |PointsOf(digest, cs)| == ValidCount(cs) <= |cs|
    decreases |cs|
  {
    if cs != [] {
      PointsOfCount(digest, cs[..|cs| - 1]);
    }
  }

  /** Qdrant's upsert: each point written in order, a later one with the
      same id overwriting an earlier one. */
  function Apply(points: map<nat, Dict>, ps: seq<Point>): map<nat, Dict> {
    if ps == [] then points
    else Apply(points, ps[..|ps| - 1])[ps[|ps| - 1].id := ps[|ps| - 1].payload]
  }

  lemma {:induction false} ApplyAppend(points: map<nat, Dict>, a: seq<Point>, b: seq<Point>)
    ensures Apply(points, a + b) == Apply(Apply(points, a), b)
    decreases |b|
  {
    if b != [] {
      var ab := a + b;
      assert ab[..|ab| - 1] == a + b[..|b| - 1];
      ApplyAppend(points, a, b[..|b| - 1]);
    } else {
      assert a + b == a;
    }
  }

  /** The state after adding `cs` to `points`. */
  function Upserted(points: map<nat, Dict>, digest: (string, Dict) -> nat, cs: seq<Chunk>): map<nat, Dict> {
    Apply(points, PointsOf(digest, cs))
  }

  /** Writes touch only the ids written; each id holds the payload of the
      last point written to it. */
  lemma {:induction false} ApplySpec(points: map<nat, Dict>, ps: seq<Point>)
    ensures forall k | 0 <= k < |ps| :: ps[k].id in Apply(points, ps)
    ensures forall k | 0 <= k < |ps| && (forall l | k < l < |ps| :: ps[l].id != ps[k].id) ::
      Apply(points, ps)[ps[k].id] == ps[k].payload
    ensures forall id | (forall k | 0 <= k < |ps| :: ps[k].id != id) ::
      (id in Apply(points, ps) <==> id in points) && (id in points ==> Apply(points, ps)[id] == points[id])
  {
    ApplyWritten(points, ps);
    ApplyLast(points, ps);
    ApplyUntouched(points, ps);
  }

  lemma {:induction false} ApplyWritten(points: map<nat, Dict>, ps: seq<Point>)
    ensures forall k | 0 <= k < |ps| :: ps[k].id in Apply(points, ps)
    decreases |ps|
  {
    if ps != [] {
      var init := ps[..|ps| - 1];
      ApplyWritten(points, init);
      forall k | 0 <= k < |ps| ensures ps[k].id in Apply(points, ps) {
        if k < |init| {
          assert ps[k] == init[k];
        }
      }
    }
  }

  lemma {:induction false} ApplyLast(points: map<nat, Dict>, ps: seq<Point>)
    ensures forall k | 0 <= k < |ps| && (forall l | k < l < |ps| :: ps[l].id != ps[k].id) ::
      ps[k].id in Apply(points, ps) && Apply(points, ps)[ps[k].id] == ps[k].payload
    decreases |ps|
  {
    if ps != [] {
      var init := ps[..|ps| - 1];
      ApplyLast(points, init);
      ApplyWritten(points, init);
      forall k | 0 <= k < |ps| && (forall l | k < l < |ps| :: ps[l].id != ps[k].id)
        ensures ps[k].id in Apply(points, ps) && Apply(points, ps)[ps[k].id] == ps[k].payload
      {
        if k < |init| {
          assert ps[k] == init[k];
          assert ps[|ps| - 1].id != ps[k].id;
          forall l | k < l < |init| ensures init[l].id != init[k].id {
            assert init[l] == ps[l];
          }
        }
      }
    }
  }

  lemma {:induction false} ApplyUntouched(points: map<nat, Dict>, ps: seq<Point>)
    ensures forall id | (forall k | 0 <= k < |ps| :: ps[k].id != id) ::
      (id in Apply(points, ps) <==> id in points) && (id in points ==> Apply(points, ps)[id] == points[id])
    decreases |ps|
  {
    if ps != [] {
      var init := ps[..|ps| - 1];
      ApplyUntouched(points, init);
      forall id | (forall k | 0 <= k < |ps| :: ps[k].id != id)
        ensures (id in Apply(points, ps) <==> id in points) && (id in points ==> Apply(points, ps)[id] == points[id])
      {
        forall k | 0 <= k < |init| ensures init[k].id != id {
          assert init[k] == ps[k];
        }
        assert ps[|ps| - 1].id != id;
      }
    }
  }

  /** Writing the same points a second time changes nothing: re-adding a
      chunk overwrites its point instead of duplicating it. */
  lemma {:induction false} ApplyIdempotent(points: map<nat, Dict>, ps: seq<Point>)
    ensures Apply(Apply(points, ps), ps) == Apply(points, ps)
  {
    var once := Apply(points, ps);
    var twice := Apply(once, ps);
    ApplySpec(points, ps);
    ApplySpec(once, ps);
    forall id | id in once || id in twice
      ensures id in once && id in twice && twice[id] == once[id]
    {
      if k :| 0 <= k < |ps| && ps[k].id == id {
        var last := LastWrite(ps, k);
        assert ps[last].id == id;
      }
    }
  }

  /** The last position at or after `k` that writes the same id. */
  ghost function LastWrite(ps: seq<Point>, k: nat): (last: nat)
    requires k < |ps|
    ensures k <= last < |ps| && ps[last].id == ps[k].id
    ensures forall l | last < l < |ps| :: ps[l].id != ps[k].id
    decreases |ps| - k
  {
    if exists l | k < l < |ps| :: ps[l].id == ps[k].id then
      var l :| k < l < |ps| && ps[l].id == ps[k].id;
      LastWrite(ps, l)
    else k
  }

  /** Adding the same chunks twice leaves the collection as adding them once. */
  lemma UpsertedIdempotent(points: map<nat, Dict>, digest: (string, Dict) -> nat, cs: seq<Chunk>)
    ensures Upserted(Upserted(points, digest, cs), digest, cs) == Upserted(points, digest, cs)
  {
    ApplyIdempotent(points, PointsOf(digest, cs));
  }

  /** Where `add_documents` stops: at the start of the batch that raises,
      or at the end. */
  function Stop(n: nat, batchSize: nat, failingBatch: Option<nat>): nat
    requires batchSize > 0
  {
    if failingBatch.Some? && failingBatch.value * batchSize < n then failingBatch.value * batchSize else n
  }

  /** Writing the chunks up to `end` is writing those up to `i`, then the
      batch between. */
  lemma AddBatchStep(points: map<nat, Dict>, digest: (string, Dict) -> nat, chunks: seq<Chunk>, i: nat, end: nat)
    requires i <= end <= |chunks|
    ensures Upserted(points, digest, chunks[..end])
      == Apply(Upserted(points, digest, chunks[..i]), PointsOf(digest, chunks[i..end]))
    ensures ValidCount(chunks[..end]) == ValidCount(chunks[..i]) + |PointsOf(digest, chunks[i..end])|
  {
    assert chunks[..end] == chunks[..i] + chunks[i..end];
    PointsOfAppend(digest, chunks[..i], chunks[i..end]);
    PointsOfCount(digest, chunks[i..end]);
    ApplyAppend(points, PointsOf(digest, chunks[..i]), PointsOf(digest, chunks[i..end]));
  }

  lemma MulMonotonic(a: nat, b: nat, c: nat)
    requires a <= b
    ensures a * c <= b * c
  {
  }

  lemma MulStep(b: nat, size: nat)
    ensures (b + 1) * size == b * size + size
  {
  }

  /** The batch that raises starts where the writing stops. */
  lemma StopAtFailing(n: nat, batchSize: nat, b: nat, i: nat)
    requires batchSize > 0 && i == b * batchSize && i < n
    ensures Stop(n, batchSize, Some(b)) == i
  {
  }

  /** When every batch up to the end went through, the writing stops at the end. */
  lemma StopAtEnd(n: nat, batchSize: nat, failingBatch: Option<nat>, b: nat)
    requires batchSize > 0 && n <= b * batchSize
    requires failingBatch.Some? ==> failingBatch.value >= b
    ensures Stop(n, batchSize, failingBatch) == n
  {
    if failingBatch.Some? {
      MulMonotonic(b, failingBatch.value, batchSize);
    }
  }

  datatype AddFailure = NoChunks | Raised
  datatype AddResult = AddError(failure: AddFailure) | AddSuccess(documentsAdded: nat)

  // ------------------------------------------------------------------
  // Search
  // ------------------------------------------------------------------

  /** The filter `search` sends: one exact-match condition per entry whose
      value is truthy and not "All"; no filter when there is none. */
  function SearchFilter(filters: Option<Dict>): Option<Dict> {
    if filters.None? || filters.value == map[] then None
    else
      var conditions := map k | k in filters.value && Truthy(filters.value[k]) && filters.value[k] != Str("All")
                          :: filters.value[k];
      if conditions == map[] then None else Some(conditions)
  }

  predicate Kept(filters: Dict, k: string) {
    k in filters && Truthy(filters[k]) && filters[k] != Str("All")
  }

  /** The filter holds exactly the kept entries, and is absent exactly when
      nothing is kept. */
  lemma SearchFilterSpec(filters: Option<Dict>)
    ensures SearchFilter(filters).None? <==> (filters.None? || forall k | k in filters.value :: !Kept(filters.value, k))
    ensures SearchFilter(filters).Some? ==>
      (forall k :: k in SearchFilter(filters).value <==> Kept(filters.value, k))
      && forall k | k in SearchFilter(filters).value :: SearchFilter(filters).value[k] == filters.value[k]
  {
    if filters.Some? && filters.value != map[] {
      var conditions := map k | k in filters.value && Truthy(filters.value[k]) && filters.value[k] != Str("All")
                          :: filters.value[k];
      if conditions == map[] {
        forall k | k in filters.value ensures !Kept(filters.value, k) {
          assert (k in conditions) == Kept(filters.value, k);
        }
      }
    } else if filters.Some? {
      assert forall k :: k !in filters.value;
    }
  }

  /** A payload meets every condition of a filter. */
  predicate Satisfies(payload: Dict, filter: Option<Dict>) {
    filter.None? || forall k | k in filter.value :: k in payload && payload[k] == filter.value[k]
  }

  /** A similarity hit: the server's ranking of points for the query's
      embedding, above the score threshold. */
  datatype Scored = Scored(id: nat, score: real)

  /** The hits of the ranking the server keeps: stored points meeting the filter. */
  function Eligible(points: map<nat, Dict>, ranking: seq<Scored>, filter: Option<Dict>): (r: seq<Scored>)
    ensures |r| <= |ranking|
    ensures forall h | h in r :: h in ranking && h.id in points && Satisfies(points[h.id], filter)
  {
    if ranking == [] then []
    else
      var h := ranking[|ranking| - 1];
      Eligible(points, ranking[..|ranking| - 1], filter)
      + if h.id in points && Satisfies(points[h.id], filter) then [h] else []
  }

  datatype SearchResult = SearchResult(text: Value, metadata: Dict, score: real)

  const ResultFields: set<string> := {"source", "type", "subject", "year", "page"}

  /** What `search` reports for one hit: the text and five defaulted fields. */
  function ResultOf(payload: Dict, score: real): SearchResult {
    SearchResult(
      Get(payload, "text", Str("")),
      map["source" := Get(payload, "source", Str("Unknown")),
          "type" := Get(payload, "type", Str("general")),
          "subject" := Get(payload, "subject", Str("General")),
          "year" := Get(payload, "year", Str("N/A")),
          "page" := Get(payload, "page", Str("N/A"))],
      score)
  }

  /** Every reported document carries exactly the five result fields. */
  lemma ResultOfFields(payload: Dict, score: real)
    ensures ResultOf(payload, score).metadata.Keys == ResultFields
  {
  }

  /** The documents `search` returns for `hits`, in order. */
  function Results(points: map<nat, Dict>, hits: seq<Scored>): (r: seq<SearchResult>)
    requires forall h | h in hits :: h.id in points
    ensures |r| == |hits|
  {
    if hits == [] then []
    else
      var h := hits[|hits| - 1];
      Results(points, hits[..|hits| - 1]) + [ResultOf(points[h.id], h.score)]
  }

  /** The server's answer: the first `topK` eligible hits. */
  function Hits(points: map<nat, Dict>, ranking: seq<Scored>, filter: Option<Dict>, topK: nat): (r: seq<Scored>)
    ensures forall h | h in r :: h in ranking && h.id in points && Satisfies(points[h.id], filter)
  {
    var e := Eligible(points, ranking, filter);
    if |e| <= topK then e else e[..topK]
  }

  lemma {:induction false} ResultsSpec(points: map<nat, Dict>, hits: seq<Scored>)
    requires forall h | h in hits :: h.id in points
    ensures forall k | 0 <= k < |hits| :: Results(points, hits)[k] == ResultOf(points[hits[k].id], hits[k].score)
    decreases |hits|
  {
    if hits != [] {
      ResultsSpec(points, hits[..|hits| - 1]);
    }
  }

  /** `search` returns at most `top_k` documents, each the text and the five
      defaulted fields of a stored point that meets every filter condition. */
  lemma SearchSpec(points: map<nat, Dict>, ranking: seq<Scored>, filters: Option<Dict>, topK: nat)
    ensures var hits := Hits(points, ranking, SearchFilter(filters), topK);
      |Results(points, hits)| <= topK
      && forall k | 0 <= k < |hits| ::
        hits[k].id in points && Satisfies(points[hits[k].id], SearchFilter(filters))
        && Results(points, hits)[k].metadata.Keys == ResultFields
        && Results(points, hits)[k].text == Get(points[hits[k].id], "text", Str(""))
  {
    var hits := Hits(points, ranking, SearchFilter(filters), topK);
    ResultsSpec(points, hits);
    forall k | 0 <= k < |hits|
      ensures hits[k] in hits && Results(points, hits)[k].metadata.Keys == ResultFields
    {
      ResultOfFields(points[hits[k].id], hits[k].score);
    }
  }

  // ------------------------------------------------------------------
  // Scrolling, listing and counting
  // ------------------------------------------------------------------

  /** `m` is the least element of `s`. */
  predicate IsLeast(s: set<nat>, m: nat) {
    m in s && forall x | x in s :: m <= x
  }

  lemma {:induction false} MinExists(s: set<nat>)
    requires s != {}
    ensures exists m :: IsLeast(s, m)
    decreases |s|
  {
    var y :| y in s;
    var rest := s - {y};
    if rest == {} {
      MinOfAdd(rest, y, y);
    } else {
      MinExists(rest);
      var m :| IsLeast(rest, m);
      MinOfAdd(rest, y, m);
    }
    assert s == rest + {y};
  }

  /** Adding `y` to a set whose least element is `m` (or to the empty set,
      with `m == y`) gives a set with a least element. */
  lemma MinOfAdd(rest: set<nat>, y: nat, m: nat)
    requires m in rest + {y}
    requires forall x | x in rest :: m <= x
    ensures exists m' :: IsLeast(rest + {y}, m')
  {
    if y < m {
      assert IsLeast(rest + {y}, y);
    } else {
      assert IsLeast(rest + {y}, m);
    }
  }

  /** The ids in ascending order, the order in which `scroll` pages. */
  function SortedIds(s: set<nat>): (r: seq<nat>)
    ensures |r| == |s|
    ensures forall i | 0 <= i < |r| :: r[i] in s
    decreases |s|
  {
    if s == {} then []
    else
      MinExists(s);
      var m :| IsLeast(s, m);
      var rest := s - {m};
      assert |rest| == |s| - 1;
      [m] + SortedIds(rest)
  }

  /** Every id appears, in strictly ascending order. */
  lemma {:induction false} SortedIdsSpec(s: set<nat>)
    ensures forall i, j | 0 <= i < j < |SortedIds(s)| :: SortedIds(s)[i] < SortedIds(s)[j]
    ensures forall x | x in s :: x in SortedIds(s)
    decreases |s|
  {
    if s != {} {
      var r := SortedIds(s);
      var m := r[0];
      var rest := SortedIds(s - {m});
      assert r == [m] + rest;
      SortedIdsSpec(s - {m});
      forall x | x in s ensures x in r {
        if x != m {
          assert x in rest;
        }
      }
    }
  }

  /** `scroll(limit)`: the payloads of the first `limit` points in id order. */
  function Scroll(points: map<nat, Dict>, limit: nat): (page: seq<Dict>)
    ensures |page| <= limit && |page| <= |points|
  {
    var ids := SortedIds(points.Keys);
    var n := if |ids| <= limit then |ids| else limit;
    seq(n, i requires 0 <= i < n => points[ids[i]])
  }

  /** The distinct-document key `(source, subject, year, type)`. */
  datatype DocKey = DocKey(source: Value, subject: Value, year: Value, docType: Value)

  datatype UploadedDoc = UploadedDoc(source: Value, subject: Value, year: Value, docType: Value,
                                     page: Option<Value>, uploaded: bool)

  function KeyOf(p: Dict): DocKey {
    DocKey(Get(p, "source", Str("")), Get(p, "subject", Str("")), Get(p, "year", Str("")), Get(p, "type", Str("")))
  }

  function DocOf(p: Dict): UploadedDoc {
    UploadedDoc(Get(p, "source", Str("")), Get(p, "subject", Str("")), Get(p, "year", Str("")),
                Get(p, "type", Str("")), if "page" in p then Some(p["page"]) else None, true)
  }

  function DocKeyOf(d: UploadedDoc): DocKey {
    DocKey(d.source, d.subject, d.year, d.docType)
  }

  /** The keys of the first `n` payloads. */
  function SeenKeys(page: seq<Dict>, n: nat): set<DocKey>
    requires n <= |page|
  {
    set i | 0 <= i < n :: KeyOf(page[i])
  }

  lemma SeenKeysStep(page: seq<Dict>, i: nat)
    requires i < |page|
    ensures SeenKeys(page, i + 1) == SeenKeys(page, i) + {KeyOf(page[i])}
  {
  }

  /** One document per key, from the key's first payload, in page order. */
  function FirstDocs(page: seq<Dict>, n: nat): seq<UploadedDoc>
    requires n <= |page|
  {
    if n == 0 then []
    else if KeyOf(page[n - 1]) in SeenKeys(page, n - 1) then FirstDocs(page, n - 1)
    else FirstDocs(page, n - 1) + [DocOf(page[n - 1])]
  }

  /** A payload that is the first with its key. */
  predicate FirstWithKey(page: seq<Dict>, i: nat) {
    i < |page| && KeyOf(page[i]) !in SeenKeys(page, i)
  }

  /** The documents have distinct keys, cover every key seen, and each is
      built from the first payload with its key. */
  lemma FirstDocsSpec(page: seq<Dict>, n: nat)
    requires n <= |page|
    ensures forall i, j | 0 <= i < j < |FirstDocs(page, n)| ::
      DocKeyOf(FirstDocs(page, n)[i]) != DocKeyOf(FirstDocs(page, n)[j])
    ensures forall key :: key in SeenKeys(page, n) <==> exists d | d in FirstDocs(page, n) :: DocKeyOf(d) == key
    ensures forall d | d in FirstDocs(page, n) :: exists i | 0 <= i < n :: FirstWithKey(page, i) && d == DocOf(page[i])
  {
    FirstDocsDistinct(page, n);
    FirstDocsKeys(page, n);
    FirstDocsOrigin(page, n);
  }

  lemma {:induction false} FirstDocsKeys(page: seq<Dict>, n: nat)
    requires n <= |page|
    ensures forall key :: key in SeenKeys(page, n) <==> exists d | d in FirstDocs(page, n) :: DocKeyOf(d) == key
  {
    if n > 0 {
      FirstDocsKeys(page, n - 1);
      var prev, before, p := FirstDocs(page, n - 1), SeenKeys(page, n - 1), page[n - 1];
      SeenKeysStep(page, n - 1);
      if KeyOf(p) !in before {
        var x := DocOf(p);
        assert DocKeyOf(x) == KeyOf(p);
        assert FirstDocs(page, n) == prev + [x];
        AddKeys(prev, x, before);
      } else {
        assert FirstDocs(page, n) == prev && SeenKeys(page, n) == before;
      }
    }
  }

  lemma {:induction false} FirstDocsDistinct(page: seq<Dict>, n: nat)
    requires n <= |page|
    ensures forall i, j | 0 <= i < j < |FirstDocs(page, n)| ::
      DocKeyOf(FirstDocs(page, n)[i]) != DocKeyOf(FirstDocs(page, n)[j])
  {
    if n > 0 {
      FirstDocsDistinct(page, n - 1);
      FirstDocsKeys(page, n - 1);
      var prev, p := FirstDocs(page, n - 1), page[n - 1];
      if KeyOf(p) !in SeenKeys(page, n - 1) {
        var x := DocOf(p);
        assert DocKeyOf(x) == KeyOf(p);
        assert FirstDocs(page, n) == prev + [x];
        AddDistinct(prev, x);
      }
    }
  }

  lemma {:induction false} FirstDocsOrigin(page: seq<Dict>, n: nat)
    requires n <= |page|
    ensures forall d | d in FirstDocs(page, n) :: exists i | 0 <= i < n :: FirstWithKey(page, i) && d == DocOf(page[i])
  {
    if n > 0 {
      FirstDocsOrigin(page, n - 1);
      var prev := FirstDocs(page, n - 1);
      OriginsGrow(page, n - 1, prev);
      if FirstWithKey(page, n - 1) {
        assert FirstDocs(page, n) == prev + [DocOf(page[n - 1])];
        AddOrigin(page, n - 1, prev);
      } else {
        assert FirstDocs(page, n) == prev;
      }
    }
  }

  /** A document whose key is new keeps the keys distinct. */
  lemma AddDistinct(prev: seq<UploadedDoc>, x: UploadedDoc)
    requires forall i, j | 0 <= i < j < |prev| :: DocKeyOf(prev[i]) != DocKeyOf(prev[j])
    requires forall d | d in prev :: DocKeyOf(d) != DocKeyOf(x)
    ensures forall i, j | 0 <= i < j < |prev + [x]| :: DocKeyOf((prev + [x])[i]) != DocKeyOf((prev + [x])[j])
  {
    var r := prev + [x];
    forall i, j | 0 <= i < j < |r| ensures DocKeyOf(r[i]) != DocKeyOf(r[j]) {
      if j == |r| - 1 {
        assert r[i] in prev;
      } else {
        assert r[i] == prev[i] && r[j] == prev[j];
      }
    }
  }

  /** Appending a document adds its key to the keys the documents cover. */
  lemma AddKeys(prev: seq<UploadedDoc>, x: UploadedDoc, before: set<DocKey>)
    requires forall key :: key in before <==> exists d | d in prev :: DocKeyOf(d) == key
    ensures forall key :: key in before + {DocKeyOf(x)} <==> exists d | d in prev + [x] :: DocKeyOf(d) == key
  {
    var r := prev + [x];
    forall key ensures key in before + {DocKeyOf(x)} <==> exists d | d in r :: DocKeyOf(d) == key {
      if key in before {
        var d :| d in prev && DocKeyOf(d) == key;
        assert d in r;
      }
      if key == DocKeyOf(x) {
        assert x in r;
      }
      if exists d | d in r :: DocKeyOf(d) == key {
        var d :| d in r && DocKeyOf(d) == key;
        if d != x {
          assert d in prev;
        }
      }
    }
  }

  /** Documents built from first payloads among the first `m` are built from
      first payloads among the first `m + 1`. */
  lemma OriginsGrow(page: seq<Dict>, m: nat, prev: seq<UploadedDoc>)
    requires m < |page|
    requires forall d | d in prev :: exists i | 0 <= i < m :: FirstWithKey(page, i) && d == DocOf(page[i])
    ensures forall d | d in prev :: exists i | 0 <= i < m + 1 :: FirstWithKey(page, i) && d == DocOf(page[i])
  {
    forall d | d in prev ensures exists i | 0 <= i < m + 1 :: FirstWithKey(page, i) && d == DocOf(page[i]) {
      var i :| 0 <= i < m && FirstWithKey(page, i) && d == DocOf(page[i]);
    }
  }

  /** Appending the document of first payload `m` keeps every document
      built from a first payload. */
  lemma AddOrigin(page: seq<Dict>, m: nat, prev: seq<UploadedDoc>)
    requires m < |page| && FirstWithKey(page, m)
    requires forall d | d in prev :: exists i | 0 <= i < m + 1 :: FirstWithKey(page, i) && d == DocOf(page[i])
    ensures forall d | d in prev + [DocOf(page[m])] ::
      exists i | 0 <= i < m + 1 :: FirstWithKey(page, i) && d == DocOf(page[i])
  {
    forall d | d in prev + [DocOf(page[m])]
      ensures exists i | 0 <= i < m + 1 :: FirstWithKey(page, i) && d == DocOf(page[i])
    {
      if d !in prev {
        assert d == DocOf(page[m]);
      }
    }
  }

  /** The sort key `(subject, year, type, source)`. */
  function SortKey(d: UploadedDoc): seq<Value> {
    [d.subject, d.year, d.docType, d.source]
  }

  /** Insert after every document whose key is not greater: a stable insertion. */
  function Insert(d: UploadedDoc, sorted: seq<UploadedDoc>): (r: seq<UploadedDoc>)
    ensures multiset(r) == multiset(sorted) + multiset{d}
  {
    if sorted == [] then [d]
    else if LexLess(SortKey(d), SortKey(sorted[0])) then [d] + sorted
    else
      assert sorted == [sorted[0]] + sorted[1..];
      [sorted[0]] + Insert(d, sorted[1..])
  }

  /** `sorted(docs, key=...)`. */
  function SortDocs(docs: seq<UploadedDoc>): (r: seq<UploadedDoc>)
    ensures multiset(r) == multiset(docs)
  {
    if docs == [] then []
    else
      assert docs == docs[..|docs| - 1] + [docs[|docs| - 1]];
      Insert(docs[|docs| - 1], SortDocs(docs[..|docs| - 1]))
  }

  predicate SortedByKey(r: seq<UploadedDoc>) {
    forall i, j | 0 <= i < j < |r| :: !LexLess(SortKey(r[j]), SortKey(r[i]))
  }

  lemma {:induction false} InsertSorted(d: UploadedDoc, sorted: seq<UploadedDoc>)
    requires SortedByKey(sorted)
    ensures SortedByKey(Insert(d, sorted))
    decreases |sorted|
  {
    if sorted != [] {
      if LexLess(SortKey(d), SortKey(sorted[0])) {
        PrependSmaller(d, sorted);
      } else {
        var tail := sorted[1..];
        assert sorted == [sorted[0]] + tail;
        InsertSorted(d, tail);
        LexLessTotal(SortKey(d), SortKey(sorted[0]));
        PrependHead(sorted[0], d, tail, Insert(d, tail));
      }
    }
  }

  /** A document strictly before the head of a sorted listing may go first. */
  lemma PrependSmaller(d: UploadedDoc, sorted: seq<UploadedDoc>)
    requires SortedByKey(sorted) && sorted != []
    requires LexLess(SortKey(d), SortKey(sorted[0]))
    ensures SortedByKey([d] + sorted)
  {
    var r := [d] + sorted;
    forall i, j | 0 <= i < j < |r| ensures !LexLess(SortKey(r[j]), SortKey(r[i])) {
      if i == 0 {
        var e := sorted[j - 1];
        assert r[j] == e;
        if LexLess(SortKey(e), SortKey(d)) {
          LexLessTransitive(SortKey(e), SortKey(d), SortKey(sorted[0]));
          if j - 1 == 0 {
            LexLessIrreflexive(SortKey(e));
          }
        }
      } else {
        assert r[i] == sorted[i - 1] && r[j] == sorted[j - 1];
      }
    }
  }

  /** The head of a sorted listing stays first when `d`, not before it, is
      inserted into the rest. */
  lemma PrependHead(head: UploadedDoc, d: UploadedDoc, tail: seq<UploadedDoc>, rest: seq<UploadedDoc>)
    requires SortedByKey([head] + tail) && SortedByKey(rest)
    requires multiset(rest) == multiset(tail) + multiset{d}
    requires LexLess(SortKey(head), SortKey(d)) || SortKey(head) == SortKey(d)
    ensures SortedByKey([head] + rest)
  {
    var r := [head] + rest;
    forall i, j | 0 <= i < j < |r| ensures !LexLess(SortKey(r[j]), SortKey(r[i])) {
      if i == 0 {
        var e := rest[j - 1];
        assert r[j] == e;
        assert e in multiset(rest);
        if e == d {
          if SortKey(d) == SortKey(head) {
            LexLessIrreflexive(SortKey(d));
          } else if LexLess(SortKey(e), SortKey(head)) {
            LexLessTransitive(SortKey(head), SortKey(e), SortKey(head));
            LexLessIrreflexive(SortKey(head));
          }
        } else {
          assert e in tail;
          var k :| 0 <= k < |tail| && tail[k] == e;
          var h := [head] + tail;
          assert h[0] == head && h[k + 1] == e;
          assert !LexLess(SortKey(h[k + 1]), SortKey(h[0]));
        }
      } else {
        assert r[i] == rest[i - 1] && r[j] == rest[j - 1];
      }
    }
  }

  /** The listing is sorted by `(subject, year, type, source)`. */
  lemma {:induction false} SortDocsSorted(docs: seq<UploadedDoc>)
    ensures SortedByKey(SortDocs(docs))
    decreases |docs|
  {
    if docs != [] {
      SortDocsSorted(docs[..|docs| - 1]);
      InsertSorted(docs[|docs| - 1], SortDocs(docs[..|docs| - 1]));
    }
  }

  /** The document listing of a scrolled page. */
  function Listing(page: seq<Dict>): seq<UploadedDoc> {
    SortDocs(FirstDocs(page, |page|))
  }

  /** `get_uploaded_documents` lists each key of the page once, built from
      its first payload, sorted, and nothing else. */
  lemma ListingSpec(page: seq<Dict>)
    ensures SortedByKey(Listing(page))
    ensures multiset(Listing(page)) == multiset(FirstDocs(page, |page|))
    ensures forall key :: key in SeenKeys(page, |page|) <==> exists d | d in Listing(page) :: DocKeyOf(d) == key
    ensures forall d | d in Listing(page) :: exists i | 0 <= i < |page| :: FirstWithKey(page, i) && d == DocOf(page[i])
  {
    SortDocsSorted(FirstDocs(page, |page|));
    FirstDocsSpec(page, |page|);
    var docs := FirstDocs(page, |page|);
    forall d ensures d in Listing(page) <==> d in docs {
      assert d in Listing(page) <==> d in multiset(Listing(page));
      assert d in docs <==> d in multiset(docs);
    }
  }

  const DocTypes: seq<string> := ["notes", "assignments", "question_papers", "textbooks", "syllabus"]

  const TypeScrollLimit: nat := 10000

  /** The points whose "type" is exactly `t`. */
  function OfType(points: map<nat, Dict>, t: string): (r: map<nat, Dict>)
    ensures r.Keys <= points.Keys
  {
    map id | id in points && "type" in points[id] && points[id]["type"] == Str(t) :: points[id]
  }

  /** The truthy "source" values of the first `n` payloads. */
  function SourcesIn(page: seq<Dict>, n: nat): set<Value>
    requires n <= |page|
  {
    set i | 0 <= i < n && Truthy(Get(page[i], "source", Str(""))) :: Get(page[i], "source", Str(""))
  }

  /** The number of distinct sources among (the first 10000) points of type `t`. */
  function TypeCount(points: map<nat, Dict>, t: string): nat {
    var page := Scroll(OfType(points, t), TypeScrollLimit);
    |SourcesIn(page, |page|)|
  }

  lemma {:induction false} SourcesInBound(page: seq<Dict>, n: nat)
    requires n <= |page|
    ensures |SourcesIn(page, n)| <= n
  {
    if n > 0 {
      SourcesInBound(page, n - 1);
      SourcesInStep(page, n - 1);
    }
  }

  lemma SourcesInStep(page: seq<Dict>, m: nat)
    requires m < |page|
    ensures var v := Get(page[m], "source", Str(""));
      SourcesIn(page, m + 1) == if Truthy(v) then SourcesIn(page, m) + {v} else SourcesIn(page, m)
  {
    var v := Get(page[m], "source", Str(""));
    if Truthy(v) {
      assert SourcesIn(page, m + 1) == SourcesIn(page, m) + {v};
    } else {
      assert SourcesIn(page, m + 1) == SourcesIn(page, m);
    }
  }

  /** A type's count never exceeds its number of points, nor the scroll limit. */
  lemma TypeCountBound(points: map<nat, Dict>, t: string)
    ensures TypeCount(points, t) <= |OfType(points, t)|
    ensures TypeCount(points, t) <= TypeScrollLimit
  {
    var page := Scroll(OfType(points, t), TypeScrollLimit);
    SourcesInBound(page, |page|);
  }

  /** The counts `get_stats` reports. */
  datatype StoreStats = StoreStats(documentCount: nat, chunkCount: nat, embeddingCount: nat,
                                   status: string, provider: string)

  datatype OpResult = OpResult(success: bool, message: string)

  // ------------------------------------------------------------------
  // The store
  // ------------------------------------------------------------------

  class VectorStore {
    /** The Qdrant collection: point id to payload. */
    var points: map<nat, Dict>
    /** The md5 prefix of `content + str(metadata)`, read as a number. */
    const digest: (string, Dict) -> nat

    /** Connecting to a collection that may already hold points. */
    constructor (existing: map<nat, Dict>, digest: (string, Dict) -> nat)
      ensures points == existing && this.digest == digest
    {
      points := existing;
      this.digest := digest;
    }

    /** The points of one batch, invalid chunks skipped. */
    method PreparePoints(batch: seq<Chunk>) returns (ps: seq<Point>)
      ensures ps == PointsOf(digest, batch)
    {
      ps := [];
      for j := 0 to |batch|
        invariant ps == PointsOf(digest, batch[..j])
      {
        assert batch[..j + 1][..j] == batch[..j];
        var chunk := batch[j];
        if !IsValid(chunk) {
          continue;
        }
        var id := PointId(digest, chunk.content.value, chunk.metadata.value);
        ps := ps + [Point(id, Payload(chunk.content.value, chunk.metadata.value))];
      }
      assert batch[..|batch|] == batch;
    }

    /** `add_documents`: an empty list is an error; `range` refuses a zero
        batch size; a negative one gives no batch. Batches are written one by
        one, so a batch that raises leaves the earlier ones written. */
    method AddDocuments(chunks: seq<Chunk>, batchSize: int, failingBatch: Option<nat>) returns (r: AddResult)
      modifies this
      ensures chunks == [] ==> r == AddError(NoChunks) && points == old(points)
      ensures chunks != [] && batchSize == 0 ==> r == AddError(Raised) && points == old(points)
      ensures chunks != [] && batchSize < 0 ==> r == AddSuccess(0) && points == old(points)
      ensures chunks != [] && batchSize > 0 ==>
        var stop := Stop(|chunks|, batchSize, failingBatch);
        points == Upserted(old(points), digest, chunks[..stop])
        && r == if stop < |chunks| then AddError(Raised) else AddSuccess(ValidCount(chunks))
    {
      if chunks == [] {
        return AddError(NoChunks);
      }
      if batchSize == 0 {
        return AddError(Raised);
      }
      var totalAdded := 0;
      if batchSize > 0 {
        var i := 0;
        var b := 0;
        while i < |chunks|
          invariant 0 <= i <= |chunks| && i <= b * batchSize
          invariant i < |chunks| ==> i == b * batchSize
          invariant failingBatch.Some? ==> failingBatch.value >= b
          invariant points == Upserted(old(points), digest, chunks[..i])
          invariant totalAdded == ValidCount(chunks[..i])
        {
          var end := if i + batchSize < |chunks| then i + batchSize else |chunks|;
          var batch := chunks[i..end];
          if failingBatch == Some(b) {
            StopAtFailing(|chunks|, batchSize, b, i);
            return AddError(Raised);
          }
          var ps := PreparePoints(batch);
          AddBatchStep(old(points), digest, chunks, i, end);
          if ps != [] {
            points := Apply(points, ps);
            totalAdded := totalAdded + |ps|;
          }
          MulStep(b, batchSize);
          i := end;
          b := b + 1;
        }
        StopAtEnd(|chunks|, batchSize, failingBatch, b);
        assert chunks[..i] == chunks;
      }
      return AddSuccess(totalAdded);
    }

    /** `search`: the first `top_k` hits of the ranking that are stored and
        meet the filter, or nothing when the request raises. */
    method Search(ranking: seq<Scored>, topK: nat, filters: Option<Dict>, fails: bool)
      returns (documents: seq<SearchResult>)
      ensures fails ==> documents == []
      ensures !fails ==> documents == Results(points, Hits(points, ranking, SearchFilter(filters), topK))
    {
      if fails {
        return [];
      }
      var filter := SearchFilter(filters);
      var results := Hits(points, ranking, filter, topK);
      documents := [];
      for k := 0 to |results|
        invariant documents == Results(points, results[..k])
      {
        var r := results[k];
        assert results[..k + 1][..k] == results[..k];
        documents := documents + [ResultOf(points[r.id], r.score)];
      }
      assert results[..|results|] == results;
    }

    /** `delete_document_by_metadata`: removes exactly the points whose
        source, subject, year and type all match; reports whether the
        request went through. */
    method DeleteDocumentByMetadata(source: Value, subject: Value, year: Value, docType: Value, fails: bool)
      returns (ok: bool)
      modifies this
      ensures ok == !fails
      ensures fails ==> points == old(points)
      ensures !fails ==> forall id :: id in points <==>
        id in old(points) && !Selected(old(points)[id], source, subject, year, docType)
      ensures forall id | id in points :: id in old(points) && points[id] == old(points)[id]
    {
      if fails {
        return false;
      }
      points := Unselected(points, source, subject, year, docType);
      return true;
    }

    /** `get_uploaded_documents`: the distinct documents of the first
        `limit` points, sorted; nothing when the scroll raises. */
    method GetUploadedDocuments(limit: nat, fails: bool) returns (docs: seq<UploadedDoc>)
      ensures fails ==> docs == []
      ensures !fails ==> docs == Listing(Scroll(points, limit))
    {
      if fails {
        return [];
      }
      var page := Scroll(points, limit);
      docs := DistinctDocuments(page);
      docs := SortDocs(docs);
    }

    /** The de-duplication loop of `get_uploaded_documents`. */
    method DistinctDocuments(page: seq<Dict>) returns (docs: seq<UploadedDoc>)
      ensures docs == FirstDocs(page, |page|)
    {
      var uniqueKeys: set<DocKey> := {};
      docs := [];
      for i := 0 to |page|
        invariant uniqueKeys == SeenKeys(page, i)
        invariant docs == FirstDocs(page, i)
      {
        var key := KeyOf(page[i]);
        SeenKeysStep(page, i);
        if key !in uniqueKeys {
          uniqueKeys := uniqueKeys + {key};
          docs := docs + [DocOf(page[i])];
        }
      }
    }

    /** The distinct truthy sources of a scrolled page. */
    method DistinctSources(page: seq<Dict>) returns (sources: set<Value>)
      ensures sources == SourcesIn(page, |page|)
    {
      sources := {};
      for i := 0 to |page|
        invariant sources == SourcesIn(page, i)
      {
        var source := Get(page[i], "source", Str(""));
        if Truthy(source) {
          sources := sources + {source};
        }
        assert SourcesIn(page, i + 1) == sources;
      }
    }

    /** `get_document_stats_by_type`: the five types, each counted on its
        own; a type whose scroll raises counts 0 and leaves the others alone. */
    method GetDocumentStatsByType(failing: set<string>) returns (stats: map<string, nat>)
      ensures stats.Keys == set t | t in DocTypes
      ensures forall t | t in stats :: stats[t] == if t in failing then 0 else TypeCount(points, t)
    {
      stats := map[];
      for k := 0 to |DocTypes|
        invariant stats.Keys == set t | t in DocTypes[..k]
        invariant forall t | t in stats :: stats[t] == if t in failing then 0 else TypeCount(points, t)
      {
        var docType := DocTypes[k];
        if docType in failing {
          stats := stats[docType := 0];
        } else {
          var page := Scroll(OfType(points, docType), TypeScrollLimit);
          var sources := DistinctSources(page);
          stats := stats[docType := |sources|];
        }
        assert DocTypes[..k + 1] == DocTypes[..k] + [docType];
      }
      assert DocTypes[..|DocTypes|] == DocTypes;
    }

    /** `get_stats`: the number of points, three times, or zeros and the
        error when the request raises. */
    method GetStats(fails: bool, error: string) returns (r: StoreStats)
      ensures !fails ==> r == StoreStats(|points|, |points|, |points|, "\U{2705} Qdrant Cloud", "Qdrant")
      ensures fails ==> r == StoreStats(0, 0, 0, "\U{274C} Error: " + error, "Error")
    {
      if fails {
        return StoreStats(0, 0, 0, "\U{274C} Error: " + error, "Error");
      }
      var count := |points|;
      r := StoreStats(count, count, count, "\U{2705} Qdrant Cloud", "Qdrant");
    }

    /** `delete_collection`: drop and recreate. Nothing changes when the drop
        raises; the collection stays empty when the re-creation raises. */
    method DeleteCollection(dropFails: bool, recreateFails: bool, error: string) returns (r: OpResult)
      modifies this
      ensures dropFails ==> points == old(points)
      ensures !dropFails ==> points == map[]
      ensures r.success == (!dropFails && !recreateFails)
      ensures r.success ==> r.message == "\U{2705} Collection cleared and recreated"
      ensures !r.success ==> r.message == "\U{274C} Failed to delete collection: " + error
    {
      if dropFails {
        return OpResult(false, "\U{274C} Failed to delete collection: " + error);
      }
      points := map[];
      if recreateFails {
        return OpResult(false, "\U{274C} Failed to delete collection: " + error);
      }
      r := OpResult(true, "\U{2705} Collection cleared and recreated");
    }
  }

  /** A payload matches all four fields of a deletion request. */
  predicate Selected(p: Dict, source: Value, subject: Value, year: Value, docType: Value) {
    "source" in p && p["source"] == source && "subject" in p && p["subject"] == subject
    && "year" in p && p["year"] == year && "type" in p && p["type"] == docType
  }

  /** The points a metadata delete keeps: those not selected, unchanged. */
  function Unselected(points: map<nat, Dict>, source: Value, subject: Value, year: Value, docType: Value)
    : (r: map<nat, Dict>)
    ensures forall id :: id in r <==> id in points && !Selected(points[id], source, subject, year, docType)
    ensures forall id | id in r :: r[id] == points[id]
  {
    map id | id in points && !Selected(points[id], source, subject, year, docType) :: points[id]
  }
}
