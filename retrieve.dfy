/** Post-processing in the chess document retriever: query expansion, the expansion
    fallback with sorting and de-duplication, and packing documents into a context under
    a character budget. The embedding call and the vector search are one input, `Search`. */
module Retrieve {
  import opened Wrappers
  import opened Text
  import opened Sorting

  // ---------------------------------------------------------------- query expansion

  /** Keyword and its three expansions, in the order the table is scanned. */
  const ChessTerms: seq<(string, seq<string>)> := [
    ("opening", ["chess opening", "opening theory", "opening moves"]),
    ("endgame", ["chess endgame", "endgame technique", "endgame theory"]),
    ("tactic", ["chess tactics", "tactical motifs", "chess combinations"]),
    ("strategy", ["chess strategy", "strategic concepts", "positional play"]),
    ("player", ["chess player", "grandmaster", "chess master"]),
    ("game", ["chess game", "chess match", "chess analysis"])
  ]

  const MaxQueries := 5

  /** The expansion groups of `terms` whose keyword occurs in `q`, in table order. */
  function Groups(terms: seq<(string, seq<string>)>, q: string): seq<string>
    decreases |terms|
  {
    if terms == [] then []
    else
      var last := terms[|terms| - 1];
      Groups(terms[..|terms| - 1], q) + (if Contains(q, last.0) then last.1 else [])
  }

  /** The queries `_expand_query` returns: the original query first, then the matched
      groups' expansions in table order, five queries at most. */
  function Expansions(query: string): (qs: seq<string>)
    ensures 1 <= |qs| <= MaxQueries && qs[0] == query
    ensures |qs| == Min(MaxQueries, 1 + |Groups(ChessTerms, Lower(query))|)
    ensures forall k :: 1 <= k < |qs| ==> qs[k] == Groups(ChessTerms, Lower(query))[k - 1]
  {
    PyTake([query] + Groups(ChessTerms, Lower(query)), MaxQueries)
  }

  /** `x` is an expansion listed for a keyword that occurs in `q`. */
  ghost predicate ExpandsKeyword(x: string, q: string) {
    exists j :: 0 <= j < |ChessTerms| && Occurs(ChessTerms[j].0, q) && x in ChessTerms[j].1
  }

  /** Every query after the first is an expansion of a keyword that occurs in the lowered
      query. */
  lemma ExpansionsFromTerms(query: string)
    ensures forall k :: 1 <= k < |Expansions(query)| ==> ExpandsKeyword(Expansions(query)[k], Lower(query))
  {
    var qs := Expansions(query);
    forall k | 1 <= k < |qs| ensures ExpandsKeyword(qs[k], Lower(query)) {
      assert qs[k] in Groups(ChessTerms, Lower(query));
      GroupsMembers(ChessTerms, Lower(query), qs[k]);
    }
  }

  /** A query appears among the groups exactly when it belongs to a group whose keyword
      occurs in `q`. */
  lemma {:induction false} GroupsMembers(terms: seq<(string, seq<string>)>, q: string, x: string)
    ensures x in Groups(terms, q) <==>
      exists j :: 0 <= j < |terms| && Occurs(terms[j].0, q) && x in terms[j].1
    decreases |terms|
  {
    if terms != [] {
      var init := terms[..|terms| - 1];
      GroupsMembers(init, q, x);
      if x in Groups(terms, q) && x !in Groups(init, q) {
        assert Occurs(terms[|terms| - 1].0, q) && x in terms[|terms| - 1].1;
      }
      if exists j :: 0 <= j < |terms| && Occurs(terms[j].0, q) && x in terms[j].1 {
        var j :| 0 <= j < |terms| && Occurs(terms[j].0, q) && x in terms[j].1;
        if j < |init| {
          assert init[j] == terms[j];
        }
      }
    }
  }

  /** Groups are appended in table order: scanning a table in two halves gives the first
      half's groups followed by the second half's. */
  lemma {:induction false} GroupsInOrder(a: seq<(string, seq<string>)>, b: seq<(string, seq<string>)>, q: string)
    ensures Groups(a + b, q) == Groups(a, q) + Groups(b, q)
    decreases |b|
  {
    if b == [] {
      assert a + b == a;
    } else {
      var b' := b[..|b| - 1];
      assert (a + b)[..|a + b| - 1] == a + b';
      GroupsInOrder(a, b', q);
    }
  }

  /** `_expand_query`. */
  method ExpandQuery(query: string) returns (queries: seq<string>)
    ensures queries == Expansions(query)
  {
    var base := [query];
    var lowered := Lower(query);
    for i := 0 to |ChessTerms|
      invariant base == [query] + Groups(ChessTerms[..i], lowered)
    {
      assert ChessTerms[..i + 1][..i] == ChessTerms[..i];
      if Contains(lowered, ChessTerms[i].0) {
        base := base + ChessTerms[i].1;
      }
    }
    assert ChessTerms[..|ChessTerms|] == ChessTerms;
    queries := base[..Min(MaxQueries, |base|)];
  }

  // ---------------------------------------------------------------- search and fallback

  /** A search hit; the payload keys may be missing. Scores are abstracted as integers. */
  datatype Hit = Hit(
    content: Option<string>, filename: Option<string>, chunkIndex: Option<int>,
    score: int, source: Option<string>, contentType: Option<string>)

  datatype Document = Document(
    content: string, filename: string, chunkIndex: int, score: int,
    source: string, contentType: string, searchQuery: Option<string>)

  function Score(d: Document): int { d.score }

  /** One call of the vector search: the query text, the result limit, and whether the
      lowered score threshold (`score_threshold * 0.8`) of the expansion fallback applies. */
  datatype SearchRequest = SearchRequest(query: string, limit: int, relaxed: bool)

  /** Embedding the query and searching the collection; either may raise. */
  type Search = SearchRequest -> Outcome<seq<Hit>>

  /** Formats one hit; `None` when its payload has no content (the lookup raises). */
  function FormatHit(h: Hit, searchQuery: Option<string>): Option<Document> {
    match h.content
    case None => None
    case Some(c) =>
      Some(Document(c, h.filename.GetOr("unknown"), h.chunkIndex.GetOr(0), h.score,
                    h.source.GetOr("unknown"), h.contentType.GetOr("unknown"), searchQuery))
  }

  function FormatHits(hits: seq<Hit>, searchQuery: Option<string>): (r: Option<seq<Document>>)
    ensures r.Some? ==> |r.value| == |hits|
    ensures r.Some? ==> forall k :: 0 <= k < |hits| ==> FormatHit(hits[k], searchQuery) == Some(r.value[k])
    decreases |hits|
  {
    if hits == [] then Some([])
    else
      match FormatHits(hits[..|hits| - 1], searchQuery)
      case None => None
      case Some(init) =>
        match FormatHit(hits[|hits| - 1], searchQuery)
        case None => None
        case Some(d) => Some(init + [d])
  }

  /** The expansion fallback: the requests made, the documents of the first expanded query
      that yields any, and whether every call went through. */
  datatype Fallback = Fallback(docs: seq<Document>, requests: seq<SearchRequest>, ok: bool)

  function Relaxed(q: string, limit: int): SearchRequest {
    SearchRequest(q, limit / 2, true)
  }

  /** Tries the expanded queries `qs` in order, each with half the limit and the lowered
      threshold, and stops after the first one that yields any hit. */
  function FirstHits(qs: seq<string>, limit: int, search: Search): (f: Fallback)
    ensures |f.requests| <= |qs|
    decreases |qs|
  {
    if qs == [] then Fallback([], [], true)
    else
      var req := Relaxed(qs[0], limit);
      match search(req)
      case Raised(_) => Fallback([], [req], false)
      case Done(hits) =>
        match FormatHits(hits, Some(qs[0]))
        case None => Fallback([], [req], false)
        case Some(docs) =>
          if docs != [] then Fallback(docs, [req], true)
          else
            var rest := FirstHits(qs[1..], limit, search);
            Fallback(rest.docs, [req] + rest.requests, rest.ok)
  }

  /** One step of the fallback. */
  lemma FirstHitsStep(qs: seq<string>, limit: int, search: Search, found: Outcome<seq<Hit>>, more: Option<seq<Document>>)
    requires qs != []
    requires found == search(Relaxed(qs[0], limit))
    requires found.Done? ==> more == FormatHits(found.value, Some(qs[0]))
    ensures found.Raised? || more.None? ==> FirstHits(qs, limit, search) == Fallback([], [Relaxed(qs[0], limit)], false)
    ensures found.Done? && more.Some? && more.value != [] ==>
      FirstHits(qs, limit, search) == Fallback(more.value, [Relaxed(qs[0], limit)], true)
    ensures found.Done? && more.Some? && more.value == [] ==>
      FirstHits(qs, limit, search) == Prepend([Relaxed(qs[0], limit)], FirstHits(qs[1..], limit, search))
  {
  }

  /** The fallback asks for the expanded queries in order, each with half the limit and the
      lowered threshold; every query before the last yielded nothing; it stops at the first
      query that yields hits and returns exactly those; and it tries all of them only when
      none yields any. */
  lemma {:induction false} FirstHitsSpec(qs: seq<string>, limit: int, search: Search)
    ensures var f := FirstHits(qs, limit, search);
      && (forall k :: 0 <= k < |f.requests| ==> f.requests[k] == Relaxed(qs[k], limit))
      && (forall k :: 0 <= k < |f.requests| - 1 ==> search(f.requests[k]) == Done([]))
      && (f.ok && f.docs == [] ==> |f.requests| == |qs|)
      && (f.docs != [] ==>
            && f.ok && f.requests != []
            && var last := f.requests[|f.requests| - 1];
               search(last).Done? && FormatHits(search(last).value, Some(last.query)) == Some(f.docs))
    decreases |qs|
  {
    if qs != [] {
      FirstHitsSpec(qs[1..], limit, search);
      var f := FirstHits(qs, limit, search);
      var req := Relaxed(qs[0], limit);
      if search(req).Done? && FormatHits(search(req).value, Some(qs[0])) == Some([]) {
        assert search(req).value == [];
        var rest := FirstHits(qs[1..], limit, search);
        assert f.requests == [req] + rest.requests;
        forall k | 1 <= k < |f.requests| ensures f.requests[k] == Relaxed(qs[k], limit) {
          assert f.requests[k] == rest.requests[k - 1];
        }
      }
    }
  }

  /** What identifies a duplicate: the first 100 characters of the content and the filename. */
  function KeyOf(d: Document): (string, string) {
    (PyTake(d.content, 100), d.filename)
  }

  function Keys(s: seq<Document>): set<(string, string)>
    decreases |s|
  {
    if s == [] then {} else Keys(s[..|s| - 1]) + {KeyOf(s[|s| - 1])}
  }

  /** Keeps the first document of each key, in order. */
  function Dedup(s: seq<Document>): seq<Document>
    decreases |s|
  {
    if s == [] then []
    else
      var init := s[..|s| - 1];
      if KeyOf(s[|s| - 1]) in Keys(init) then Dedup(init) else Dedup(init) + [s[|s| - 1]]
  }

  ghost predicate DistinctKeys(s: seq<Document>) {
    forall i, j :: 0 <= i < j < |s| ==> KeyOf(s[i]) != KeyOf(s[j])
  }

  lemma {:induction false} KeysMembers(s: seq<Document>)
    ensures forall d :: d in s ==> KeyOf(d) in Keys(s)
    ensures forall k :: k in Keys(s) ==> exists d :: d in s && KeyOf(d) == k
    decreases |s|
  {
    if s != [] {
      var init := s[..|s| - 1];
      KeysMembers(init);
      assert s == init + [s[|s| - 1]];
    }
  }

  /** `s[i]` is the first document of its key in `s`. */
  ghost predicate FirstOfKey(s: seq<Document>, i: int) {
    0 <= i < |s| && forall h :: 0 <= h < i ==> KeyOf(s[h]) != KeyOf(s[i])
  }

  /** `r` lists, at the strictly increasing input positions `idx`, documents that are each
      the first of their key in `s`. */
  ghost predicate KeepsFirsts(s: seq<Document>, r: seq<Document>, idx: seq<int>) {
    && |idx| == |r|
    && (forall k :: 0 <= k < |idx| ==> FirstOfKey(s, idx[k]) && s[idx[k]] == r[k])
    && (forall k, l :: 0 <= k < l < |idx| ==> idx[k] < idx[l])
  }

  /** The input positions of the documents `Dedup` keeps. */
  ghost function DedupIndices(s: seq<Document>): seq<int>
    decreases |s|
  {
    if s == [] then []
    else
      var init := s[..|s| - 1];
      if KeyOf(s[|s| - 1]) in Keys(init) then DedupIndices(init) else DedupIndices(init) + [|s| - 1]
  }

  /** De-duplication keeps documents of the input, every key of the input, one document
      per key, and of each key the first document, in input order. */
  lemma DedupSpec(s: seq<Document>)
    ensures forall d :: d in Dedup(s) ==> d in s
    ensures DistinctKeys(Dedup(s))
    ensures Keys(Dedup(s)) == Keys(s)
    ensures KeepsFirsts(s, Dedup(s), DedupIndices(s))
  {
    DedupWithin(s);
    DedupKeys(s);
    DedupDistinct(s);
    DedupFirsts(s);
  }

  lemma {:induction false} DedupFirsts(s: seq<Document>)
    ensures KeepsFirsts(s, Dedup(s), DedupIndices(s))
    decreases |s|
  {
    if s != [] {
      var init := s[..|s| - 1];
      var d := s[|s| - 1];
      DedupFirsts(init);
      KeepsFirstsGrow(init, d, Dedup(init), DedupIndices(init));
      assert s == init + [d];
      if KeyOf(d) !in Keys(init) {
        KeysMembers(init);
        forall h | 0 <= h < |init| ensures KeyOf(s[h]) != KeyOf(d) {
          assert init[h] in init;
        }
        KeepsFirstsSnoc(s, Dedup(init), DedupIndices(init));
      }
    }
  }

  /** Positions that keep firsts in `init` keep them in `init + [d]` too. */
  lemma KeepsFirstsGrow(init: seq<Document>, d: Document, r: seq<Document>, idx: seq<int>)
    requires KeepsFirsts(init, r, idx)
    ensures KeepsFirsts(init + [d], r, idx)
    ensures forall k :: 0 <= k < |idx| ==> idx[k] < |init|
  {
    var s := init + [d];
    forall k | 0 <= k < |idx| ensures FirstOfKey(s, idx[k]) && s[idx[k]] == r[k] {
      assert FirstOfKey(init, idx[k]);
    }
  }

  /** The last document, first of its key, extends the kept positions. */
  lemma KeepsFirstsSnoc(s: seq<Document>, r: seq<Document>, idx: seq<int>)
    requires s != [] && KeepsFirsts(s, r, idx)
    requires forall k :: 0 <= k < |idx| ==> idx[k] < |s| - 1
    requires forall h :: 0 <= h < |s| - 1 ==> KeyOf(s[h]) != KeyOf(s[|s| - 1])
    ensures KeepsFirsts(s, r + [s[|s| - 1]], idx + [|s| - 1])
  {
    assert FirstOfKey(s, |s| - 1);
  }

  lemma KeysSnoc(r: seq<Document>, d: Document)
    ensures Keys(r + [d]) == Keys(r) + {KeyOf(d)}
  {
    assert (r + [d])[..|r|] == r;
  }

  lemma {:induction false} DedupWithin(s: seq<Document>)
    ensures forall d :: d in Dedup(s) ==> d in s
    decreases |s|
  {
    if s != [] {
      var init := s[..|s| - 1];
      DedupWithin(init);
      assert s == init + [s[|s| - 1]];
    }
  }

  lemma {:induction false} DedupKeys(s: seq<Document>)
    ensures Keys(Dedup(s)) == Keys(s)
    decreases |s|
  {
    if s != [] {
      var init := s[..|s| - 1];
      var d := s[|s| - 1];
      DedupKeys(init);
      assert Keys(s) == Keys(init) + {KeyOf(d)};
      if KeyOf(d) !in Keys(init) {
        assert Dedup(s) == Dedup(init) + [d];
        KeysSnoc(Dedup(init), d);
      }
    }
  }

  lemma {:induction false} DedupDistinct(s: seq<Document>)
    ensures DistinctKeys(Dedup(s))
    decreases |s|
  {
    if s != [] {
      var init := s[..|s| - 1];
      var d := s[|s| - 1];
      DedupDistinct(init);
      var r := Dedup(init);
      if KeyOf(d) !in Keys(init) {
        DedupKeys(init);
        KeysMembers(r);
        assert Dedup(s) == r + [d];
        forall i | 0 <= i < |r| ensures KeyOf(r[i]) != KeyOf(d) {
          assert r[i] in r;
        }
      }
    }
  }

  /** De-duplication keeps the input's non-increasing score order. */
  lemma {:induction false} DedupSorted(s: seq<Document>)
    requires SortedDesc(s, Score)
    ensures SortedDesc(Dedup(s), Score)
    decreases |s|
  {
    if s != [] {
      var init := s[..|s| - 1];
      var d := s[|s| - 1];
      assert SortedDesc(init, Score);
      DedupSorted(init);
      DedupWithin(init);
      var r := Dedup(init);
      if KeyOf(d) !in Keys(init) {
        forall i | 0 <= i < |r| ensures Score(r[i]) >= Score(d) {
          assert r[i] in r;
          var k :| 0 <= k < |init| && init[k] == r[i];
          assert s[k] == init[k];
        }
      }
    }
  }

  lemma {:induction false} PrefixKeepsShape(s: seq<Document>, n: int)
    requires DistinctKeys(s) && SortedDesc(s, Score)
    ensures DistinctKeys(PyTake(s, n)) && SortedDesc(PyTake(s, n), Score)
    ensures n >= 0 ==> |PyTake(s, n)| <= n
  {
  }

  /** What `search_similar_documents` returns, and the searches it makes on the way. */
  function SearchResult(query: string, limit: int, useExpansion: bool, search: Search): (r: (seq<Document>, seq<SearchRequest>))
    ensures 1 <= |r.1| <= |Expansions(query)| && r.1[0] == SearchRequest(query, limit, false)
  {
    var first := SearchRequest(query, limit, false);
    match search(first)
    case Raised(_) => ([], [first])
    case Done(hits) =>
      match FormatHits(hits, None)
      case None => ([], [first])
      case Some(results) =>
        if results != [] || !useExpansion then (results, [first])
        else
          var fb := FirstHits(Expansions(query)[1..], limit, search);
          if !fb.ok then ([], [first] + fb.requests)
          else (PyTake(Dedup(SortDesc(fb.docs, Score)), limit), [first] + fb.requests)
  }

  /** Whenever the first search yields hits they are returned as they came; after the
      fallback the results are in non-increasing score order, with distinct keys, and at
      most `limit` of them. */
  lemma {:induction false} SearchResultShape(query: string, limit: int, useExpansion: bool, search: Search)
    ensures var requests := SearchResult(query, limit, useExpansion, search).1;
      forall k :: 1 <= k < |requests| ==> requests[k] == Relaxed(Expansions(query)[k], limit)
    ensures var first := SearchRequest(query, limit, false);
      search(first).Done? && FormatHits(search(first).value, None).Some? &&
      FormatHits(search(first).value, None).value != [] ==>
        SearchResult(query, limit, useExpansion, search) == (FormatHits(search(first).value, None).value, [first])
    ensures var (docs, requests) := SearchResult(query, limit, useExpansion, search);
      |requests| > 1 ==>
        && SortedDesc(docs, Score) && DistinctKeys(docs)
        && (limit >= 0 ==> |docs| <= limit)
  {
    var first := SearchRequest(query, limit, false);
    var fb := FirstHits(Expansions(query)[1..], limit, search);
    FirstHitsSpec(Expansions(query)[1..], limit, search);
    var sorted := SortDesc(fb.docs, Score);
    DedupSpec(sorted);
    DedupSorted(sorted);
    PrefixKeepsShape(Dedup(sorted), limit);
  }

  /** Formats hits in order; `None` as soon as one has no content. */
  method FormatAll(hits: seq<Hit>, searchQuery: Option<string>) returns (r: Option<seq<Document>>)
    ensures r == FormatHits(hits, searchQuery)
  {
    var results: seq<Document> := [];
    for i := 0 to |hits|
      invariant FormatHits(hits[..i], searchQuery) == Some(results)
    {
      assert hits[..i + 1][..i] == hits[..i];
      var d := FormatHit(hits[i], searchQuery);
      if d.None? {
        return None;
      }
      results := results + [d.value];
    }
    assert hits[..|hits|] == hits;
    r := Some(results);
  }

  function Prepend(log: seq<SearchRequest>, f: Fallback): Fallback {
    Fallback(f.docs, log + f.requests, f.ok)
  }

  /** The de-duplication pass: a set of keys seen so far and the documents kept. */
  method RemoveDuplicates(sorted: seq<Document>) returns (unique: seq<Document>)
    ensures unique == Dedup(sorted)
  {
    var seen: set<(string, string)> := {};
    unique := [];
    for k := 0 to |sorted|
      invariant seen == Keys(sorted[..k]) && unique == Dedup(sorted[..k])
    {
      assert sorted[..k + 1][..k] == sorted[..k];
      var key := KeyOf(sorted[k]);
      if key !in seen {
        seen := seen + {key};
        unique := unique + [sorted[k]];
      }
    }
    assert sorted[..|sorted|] == sorted;
  }

  /** The loop over the expanded queries: stops at the first that yields a hit, and
      gives up (the exception propagates) at the first call that fails. */
  /** One turn of the fallback loop, after `log` and with `whole` still to come from
      `qs[i..]`. */
  lemma ExpansionStep(whole: Fallback, log: seq<SearchRequest>, qs: seq<string>, i: nat, limit: int,
                      search: Search, found: Outcome<seq<Hit>>, more: Option<seq<Document>>)
    requires i < |qs| && whole == Prepend(log, FirstHits(qs[i..], limit, search))
    requires found == search(Relaxed(qs[i], limit))
    requires found.Done? ==> more == FormatHits(found.value, Some(qs[i]))
    ensures found.Raised? || more.None? ==> whole == Fallback([], log + [Relaxed(qs[i], limit)], false)
    ensures found.Done? && more.Some? && more.value != [] ==>
      whole == Fallback(more.value, log + [Relaxed(qs[i], limit)], true)
    ensures found.Done? && more.Some? && more.value == [] ==>
      whole == Prepend(log + [Relaxed(qs[i], limit)], FirstHits(qs[i + 1..], limit, search))
  {
    var req := Relaxed(qs[i], limit);
    assert qs[i..][0] == qs[i];
    FirstHitsStep(qs[i..], limit, search, found, more);
    assert qs[i..][1..] == qs[i + 1..];
    var rest := FirstHits(qs[i + 1..], limit, search);
    assert log + ([req] + rest.requests) == (log + [req]) + rest.requests;
  }

  method TryExpansions(qs: seq<string>, limit: int, search: Search) returns (f: Fallback)
    ensures f == FirstHits(qs, limit, search)
  {
    var results: seq<Document> := [];
    var log: seq<SearchRequest> := [];
    var i := 0;
    ghost var whole := FirstHits(qs, limit, search);
    while i < |qs| && results == []
      invariant 0 <= i <= |qs|
      invariant results == [] ==> whole == Prepend(log, FirstHits(qs[i..], limit, search))
      invariant results != [] ==> whole == Fallback(results, log, true)
    {
      var req := Relaxed(qs[i], limit);
      var found := search(req);
      var more: Option<seq<Document>> := None;
      if found.Done? {
        more := FormatAll(found.value, Some(qs[i]));
      }
      ExpansionStep(whole, log, qs, i, limit, search, found, more);
      log := log + [req];
      if found.Raised? || more.None? {
        return Fallback([], log, false);
      }
      results := more.value;
      i := i + 1;
    }
    if results == [] {
      assert qs[i..] == [];
      assert log + [] == log;
    }
    f := Fallback(results, log, true);
  }

  /** `search_similar_documents`: any exception yields no documents. */
  method SearchSimilarDocuments(query: string, limit: int, useExpansion: bool, search: Search)
    returns (docs: seq<Document>, requests: seq<SearchRequest>)
    ensures (docs, requests) == SearchResult(query, limit, useExpansion, search)
  {
    var first := SearchRequest(query, limit, false);
    requests := [first];
    var outcome := search(first);
    if outcome.Raised? {
      return [], requests;
    }
    var formatted := FormatAll(outcome.value, None);
    if formatted.None? {
      return [], requests;
    }
    docs := formatted.value;
    if docs == [] && useExpansion {
      var expanded := ExpandQuery(query);
      var fallback := TryExpansions(expanded[1..], limit, search);
      requests := requests + fallback.requests;
      if !fallback.ok {
        return [], requests;
      }
      var unique := RemoveDuplicates(SortDesc(fallback.docs, Score));
      docs := PyTake(unique, limit);
    }
  }

  // ---------------------------------------------------------------- context packing

  datatype SourceRef = SourceRef(filename: string, chunkIndex: int, score: int)

  function SourceOf(d: Document): SourceRef {
    SourceRef(d.filename, d.chunkIndex, d.score)
  }

  /** How the budget is spent. `AsWritten` charges a whole document its text only, and
      keeps `remaining - 50` characters of a cut document's content whatever the length of
      its header. `WithinBudget` also charges each whole document the newline that joins it
      to the next part, and keeps no more than what remains after the header and the
      closing "...\n". */
  datatype Truncation = AsWritten | WithinBudget

  function Header(i: nat, filename: string): string {
    "[Source " + NatToString(i + 1) + ": " + filename + "]\n"
  }

  /** The text of the `i`-th document (counted from 0) when it fits whole. */
  function Chunk(i: nat, d: Document): string {
    Header(i, d.filename) + d.content + "\n"
  }

  /** The text of the `i`-th document cut to fit `remaining` characters, if any is added. */
  function PartialChunk(i: nat, d: Document, remaining: int, policy: Truncation): Option<string> {
    var header := Header(i, d.filename);
    var cut := if policy == AsWritten then remaining - 50 else Min(remaining - 50, remaining - |header| - 4);
    if remaining > 100 && cut >= 0 then Some(header + PyTake(d.content, cut) + "..." + "\n")
    else None
  }

  /** What packing the `i`-th document whole costs: its text, and under `WithinBudget` the
      separator after it. */
  function Cost(i: nat, d: Document, policy: Truncation): nat {
    |Chunk(i, d)| + (if policy == WithinBudget then 1 else 0)
  }

  function SumLen(parts: seq<string>): nat
    decreases |parts|
  {
    if parts == [] then 0 else SumLen(parts[..|parts| - 1]) + |parts[|parts| - 1]|
  }

  lemma {:induction false} SumLenAppend(a: seq<string>, b: seq<string>)
    ensures SumLen(a + b) == SumLen(a) + SumLen(b)
    decreases |b|
  {
    if b == [] {
      assert a + b == a;
    } else {
      assert (a + b)[..|a + b| - 1] == a + b[..|b| - 1];
      SumLenAppend(a, b[..|b| - 1]);
    }
  }

  /** The parts of the context, with their scores and sources; `truncated` when the last
      part is a cut document. */
  datatype Packed = Packed(parts: seq<string>, scores: seq<int>, sources: seq<SourceRef>, truncated: bool)

  /** Count of parts holding a whole document. */
  function Whole(p: Packed): int {
    if p.truncated then |p.parts| - 1 else |p.parts|
  }

  /** Packs `docs[i..]` given `total` characters already used: whole documents while they
      fit, then at most one cut document when more than 100 characters remain. Scores and
      sources follow the documents packed, in order. */
  function Pack(docs: seq<Document>, i: nat, total: int, maxChars: int, policy: Truncation): (p: Packed)
    requires i <= |docs|
    ensures |p.parts| == |p.scores| == |p.sources| <= |docs| - i
    ensures forall k :: 0 <= k < |p.sources| ==> p.sources[k] == SourceOf(docs[i + k]) && p.scores[k] == docs[i + k].score
    ensures p.truncated ==> p.parts != []
    decreases |docs| - i
  {
    if i == |docs| || total >= maxChars then Packed([], [], [], false)
    else
      var chunk := Chunk(i, docs[i]);
      if total + Cost(i, docs[i], policy) <= maxChars then
        var rest := Pack(docs, i + 1, total + Cost(i, docs[i], policy), maxChars, policy);
        Packed([chunk] + rest.parts, [docs[i].score] + rest.scores,
               [SourceOf(docs[i])] + rest.sources, rest.truncated)
      else
        match PartialChunk(i, docs[i], maxChars - total, policy)
        case None => Packed([], [], [], false)
        case Some(partial) => Packed([partial], [docs[i].score], [SourceOf(docs[i])], true)
  }

  /** The first `Whole(p)` parts of `p` are the full texts of `docs[i..]`, in order. */
  ghost predicate WholeChunksFrom(p: Packed, docs: seq<Document>, i: nat) {
    forall k :: i <= k < i + Whole(p) ==> WholeChunkAt(p, docs, i, k)
  }

  ghost predicate WholeChunkAt(p: Packed, docs: seq<Document>, i: nat, k: nat) {
    k < |docs| && i <= k && k - i < |p.parts| && p.parts[k - i] == Chunk(k, docs[k])
  }

  /** The whole documents come first, each as its full text. */
  lemma {:induction false} PackWholeChunks(docs: seq<Document>, i: nat, total: int, maxChars: int, policy: Truncation)
    requires i <= |docs|
    ensures var p := Pack(docs, i, total, maxChars, policy);
      forall k :: i <= k < i + Whole(p) ==> p.parts[k - i] == Chunk(k, docs[k])
  {
    var p := Pack(docs, i, total, maxChars, policy);
    PackWholeChunksHold(docs, i, total, maxChars, policy);
    forall k | i <= k < i + Whole(p) ensures p.parts[k - i] == Chunk(k, docs[k]) {
      assert WholeChunkAt(p, docs, i, k);
    }
  }

  lemma {:induction false} PackWholeChunksHold(docs: seq<Document>, i: nat, total: int, maxChars: int, policy: Truncation)
    requires i <= |docs|
    ensures WholeChunksFrom(Pack(docs, i, total, maxChars, policy), docs, i)
    decreases |docs| - i
  {
    var p := Pack(docs, i, total, maxChars, policy);
    if i < |docs| && total < maxChars && total + Cost(i, docs[i], policy) <= maxChars {
      var rest := Pack(docs, i + 1, total + Cost(i, docs[i], policy), maxChars, policy);
      PackWholeChunksHold(docs, i + 1, total + Cost(i, docs[i], policy), maxChars, policy);
      PackFits(docs, i, total, maxChars, policy);
      WholeChunksShift(p, rest, docs, i);
    } else {
      assert Whole(p) <= 0;
    }
  }

  lemma WholeChunksShift(p: Packed, rest: Packed, docs: seq<Document>, i: nat)
    requires i < |docs| && p.parts == [Chunk(i, docs[i])] + rest.parts && p.truncated == rest.truncated
    requires rest.truncated ==> rest.parts != []
    requires WholeChunksFrom(rest, docs, i + 1)
    ensures WholeChunksFrom(p, docs, i)
  {
    FrontParts(p, rest, Chunk(i, docs[i]));
    forall k | i <= k < i + Whole(p)
      ensures WholeChunkAt(p, docs, i, k)
    {
      if k > i {
        assert i + 1 <= k < i + 1 + Whole(rest);
        assert WholeChunkAt(rest, docs, i + 1, k);
        assert p.parts[k - i] == rest.parts[k - (i + 1)];
      }
    }
  }

  /** The whole documents' text, before any cut one. */
  function WholeParts(p: Packed): seq<string>
    requires p.truncated ==> p.parts != []
  {
    p.parts[..Whole(p)]
  }

  /** What the whole documents of `p` charged to the budget. */
  function Spent(p: Packed, policy: Truncation): int
    requires p.truncated ==> p.parts != []
  {
    SumLen(WholeParts(p)) + (if policy == WithinBudget then Whole(p) else 0)
  }

  /** When the next document fits whole, it is packed first, followed by the packing of
      the rest. */
  lemma PackFits(docs: seq<Document>, i: nat, total: int, maxChars: int, policy: Truncation)
    requires i < |docs| && total < maxChars && total + Cost(i, docs[i], policy) <= maxChars
    ensures Pack(docs, i, total, maxChars, policy) ==
      Combine(Packed([Chunk(i, docs[i])], [docs[i].score], [SourceOf(docs[i])], false),
              Pack(docs, i + 1, total + Cost(i, docs[i], policy), maxChars, policy))
  {
  }

  /** A packing that starts with `chunk` has it as its first whole part. */
  lemma FrontParts(p: Packed, rest: Packed, chunk: string)
    requires rest.truncated ==> rest.parts != []
    requires p.parts == [chunk] + rest.parts && p.truncated == rest.truncated
    ensures p.truncated ==> p.parts != []
    ensures Whole(p) == Whole(rest) + 1
    ensures WholeParts(p) == [chunk] + WholeParts(rest)
    ensures SumLen(WholeParts(p)) == |chunk| + SumLen(WholeParts(rest))
    ensures p.truncated ==> p.parts[Whole(p)] == rest.parts[Whole(rest)]
  {
    assert p.parts[..Whole(rest) + 1] == [chunk] + rest.parts[..Whole(rest)];
    SumLenFront(chunk, WholeParts(rest));
  }

  /** When the next document fits whole, the packing is its text followed by the packing
      of the rest. */
  lemma PackFront(docs: seq<Document>, i: nat, total: int, maxChars: int, policy: Truncation)
    requires i < |docs| && total < maxChars && total + Cost(i, docs[i], policy) <= maxChars
    ensures var p := Pack(docs, i, total, maxChars, policy);
      var rest := Pack(docs, i + 1, total + Cost(i, docs[i], policy), maxChars, policy);
      && p.truncated == rest.truncated
      && Whole(p) == Whole(rest) + 1
      && WholeParts(p) == [Chunk(i, docs[i])] + WholeParts(rest)
      && SumLen(WholeParts(p)) == |Chunk(i, docs[i])| + SumLen(WholeParts(rest))
      && (p.truncated ==> p.parts[Whole(p)] == rest.parts[Whole(rest)])
  {
    var chunk := Chunk(i, docs[i]);
    var rest := Pack(docs, i + 1, total + Cost(i, docs[i], policy), maxChars, policy);
    PackFits(docs, i, total, maxChars, policy);
    FrontParts(Pack(docs, i, total, maxChars, policy), rest, chunk);
  }

  ghost predicate WithinRemaining(docs: seq<Document>, i: nat, total: int, maxChars: int, policy: Truncation)
    requires i <= |docs|
  {
    Spent(Pack(docs, i, total, maxChars, policy), policy) <= Max(0, maxChars - total)
  }

  /** The whole documents' total length stays within the budget; under `WithinBudget`,
      together with one separator per whole document. */
  lemma {:induction false} PackBudget(docs: seq<Document>, i: nat, total: int, maxChars: int, policy: Truncation)
    requires i <= |docs|
    ensures var p := Pack(docs, i, total, maxChars, policy);
      SumLen(p.parts[..Whole(p)]) <= Max(0, maxChars - total)
    ensures var p := Pack(docs, i, total, maxChars, policy);
      policy == WithinBudget ==> SumLen(p.parts[..Whole(p)]) + Whole(p) <= Max(0, maxChars - total)
  {
    PackBudgetHolds(docs, i, total, maxChars, policy);
  }

  lemma {:induction false} PackBudgetHolds(docs: seq<Document>, i: nat, total: int, maxChars: int, policy: Truncation)
    requires i <= |docs|
    ensures WithinRemaining(docs, i, total, maxChars, policy)
    decreases |docs| - i
  {
    var p := Pack(docs, i, total, maxChars, policy);
    if i < |docs| && total < maxChars && total + Cost(i, docs[i], policy) <= maxChars {
      PackBudgetHolds(docs, i + 1, total + Cost(i, docs[i], policy), maxChars, policy);
      PackBudgetStep(docs, i, total, maxChars, policy);
    } else {
      assert WholeParts(p) == [];
    }
  }

  lemma PackBudgetStep(docs: seq<Document>, i: nat, total: int, maxChars: int, policy: Truncation)
    requires i < |docs| && total < maxChars && total + Cost(i, docs[i], policy) <= maxChars
    requires WithinRemaining(docs, i + 1, total + Cost(i, docs[i], policy), maxChars, policy)
    ensures WithinRemaining(docs, i, total, maxChars, policy)
  {
    var chunk := Chunk(i, docs[i]);
    var rest := Pack(docs, i + 1, total + Cost(i, docs[i], policy), maxChars, policy);
    PackFront(docs, i, total, maxChars, policy);
    SumLenFront(chunk, WholeParts(rest));
  }

  /** After `total` characters, the packing `p` of `docs[i..]` ends with a cut document only
      when more than 100 characters remain after what its whole ones cost, and that cut is
      of the next document. */
  ghost predicate CutAfter(p: Packed, docs: seq<Document>, i: nat, total: int, maxChars: int, policy: Truncation)
    requires p.truncated ==> p.parts != []
  {
    p.truncated ==>
      var used := total + Spent(p, policy);
      && maxChars - used > 100
      && i + Whole(p) < |docs|
      && PartialChunk(i + Whole(p), docs[i + Whole(p)], maxChars - used, policy) == Some(p.parts[Whole(p)])
  }

  ghost predicate CutFollows(docs: seq<Document>, i: nat, total: int, maxChars: int, policy: Truncation)
    requires i <= |docs|
  {
    CutAfter(Pack(docs, i, total, maxChars, policy), docs, i, total, maxChars, policy)
  }

  /** A cut document follows only when more than 100 characters remain after what the
      whole ones cost, and it is the cut of the next document. */
  lemma {:induction false} PackCut(docs: seq<Document>, i: nat, total: int, maxChars: int, policy: Truncation)
    requires i <= |docs|
    ensures var p := Pack(docs, i, total, maxChars, policy);
      p.truncated ==>
        var used := total + SumLen(p.parts[..Whole(p)]) + (if policy == WithinBudget then Whole(p) else 0);
        && maxChars - used > 100
        && i + Whole(p) < |docs|
        && PartialChunk(i + Whole(p), docs[i + Whole(p)], maxChars - used, policy) == Some(p.parts[Whole(p)])
  {
    PackCutHolds(docs, i, total, maxChars, policy);
  }

  lemma {:induction false} PackCutHolds(docs: seq<Document>, i: nat, total: int, maxChars: int, policy: Truncation)
    requires i <= |docs|
    ensures CutFollows(docs, i, total, maxChars, policy)
    decreases |docs| - i
  {
    var p := Pack(docs, i, total, maxChars, policy);
    if i < |docs| && total < maxChars && total + Cost(i, docs[i], policy) <= maxChars {
      PackCutHolds(docs, i + 1, total + Cost(i, docs[i], policy), maxChars, policy);
      PackCutStep(docs, i, total, maxChars, policy);
    } else if p.truncated {
      assert WholeParts(p) == [];
    }
  }

  lemma PackCutStep(docs: seq<Document>, i: nat, total: int, maxChars: int, policy: Truncation)
    requires i < |docs| && total < maxChars && total + Cost(i, docs[i], policy) <= maxChars
    requires CutFollows(docs, i + 1, total + Cost(i, docs[i], policy), maxChars, policy)
    ensures CutFollows(docs, i, total, maxChars, policy)
  {
    var chunk := Chunk(i, docs[i]);
    var p := Pack(docs, i, total, maxChars, policy);
    var rest := Pack(docs, i + 1, total + Cost(i, docs[i], policy), maxChars, policy);
    PackFits(docs, i, total, maxChars, policy);
    FrontParts(p, rest, chunk);
    SpentFront(p, rest, chunk, policy);
    CutShifts(p, rest, docs, i, total, Cost(i, docs[i], policy), maxChars, policy);
  }

  /** A whole document in front costs its text, and its separator under `WithinBudget`. */
  lemma SpentFront(p: Packed, rest: Packed, chunk: string, policy: Truncation)
    requires p.truncated ==> p.parts != []
    requires rest.truncated ==> rest.parts != []
    requires Whole(p) == Whole(rest) + 1
    requires SumLen(WholeParts(p)) == |chunk| + SumLen(WholeParts(rest))
    ensures Spent(p, policy) == |chunk| + (if policy == WithinBudget then 1 else 0) + Spent(rest, policy)
  {
  }

  lemma CutShifts(p: Packed, rest: Packed, docs: seq<Document>, i: nat, total: int, n: int, maxChars: int, policy: Truncation)
    requires p.truncated ==> p.parts != []
    requires rest.truncated ==> rest.parts != []
    requires p.truncated == rest.truncated && Whole(p) == Whole(rest) + 1
    requires Spent(p, policy) == n + Spent(rest, policy)
    requires p.truncated ==> p.parts[Whole(p)] == rest.parts[Whole(rest)]
    requires CutAfter(rest, docs, i + 1, total + n, maxChars, policy)
    ensures CutAfter(p, docs, i, total, maxChars, policy)
  {
  }

  lemma SumLenFront(x: string, rest: seq<string>)
    ensures SumLen([x] + rest) == |x| + SumLen(rest)
  {
    SumLenAppend([x], rest);
    assert [x][..0] == [];
  }

  /** The length of a cut document's text under the two policies. */
  lemma PartialLength(i: nat, d: Document, remaining: int, policy: Truncation)
    requires PartialChunk(i, d, remaining, policy).Some?
    ensures policy == WithinBudget ==> |PartialChunk(i, d, remaining, policy).value| <= remaining
    ensures |PartialChunk(i, d, remaining, policy).value| <= remaining - 46 + |Header(i, d.filename)|
  {
  }

  /** With the cost that counts the separators and the cut that accounts for the header,
      the joined context stays within the budget. */
  lemma {:induction false} PackWithinBudget(docs: seq<Document>, maxChars: int)
    ensures |Join(Pack(docs, 0, 0, maxChars, WithinBudget).parts, '\n')| <= Max(0, maxChars)
  {
    var p := Pack(docs, 0, 0, maxChars, WithinBudget);
    PackBudget(docs, 0, 0, maxChars, WithinBudget);
    PackCut(docs, 0, 0, maxChars, WithinBudget);
    if p.truncated {
      var w := Whole(p);
      assert p.parts == p.parts[..w] + [p.parts[w]];
      SumLenAppend(p.parts[..w], [p.parts[w]]);
      SumLenFront(p.parts[w], []);
      PartialLength(w, docs[w], maxChars - (SumLen(p.parts[..w]) + w), WithinBudget);
      JoinLength(p.parts, '\n');
    } else if p.parts != [] {
      assert p.parts[..Whole(p)] == p.parts;
      JoinLength(p.parts, '\n');
    }
  }

  /** Joining puts one separator between consecutive parts. */
  lemma {:induction false} JoinLength(parts: seq<string>, sep: char)
    requires parts != []
    ensures |Join(parts, sep)| == SumLen(parts) + |parts| - 1
    decreases |parts|
  {
    SumLenFront(parts[0], parts[1..]);
    assert parts == [parts[0]] + parts[1..];
    if |parts| == 1 {
      assert SumLen(parts[1..]) == 0;
    } else {
      JoinLength(parts[1..], sep);
    }
  }

  /** As written, one document with a long filename and long content already overflows a
      150-character budget: the cut keeps 100 characters of content, and the 60-character
      filename's header does not fit in the 50 characters set aside. */
  lemma PackOverflowsAsWritten()
    ensures
      var d := Document(seq(200, _ => 'a'), seq(60, _ => 'f'), 0, 1, "unknown", "unknown", None);
      |ContextOf([d], 150).context| == 177
  {
    var d := Document(seq(200, _ => 'a'), seq(60, _ => 'f'), 0, 1, "unknown", "unknown", None);
    assert NatToString(1) == "1";
    assert |Chunk(0, d)| == 274;
    var partial := PartialChunk(0, d, 150, AsWritten);
    assert |partial.value| == 177;
    assert Pack([d], 0, 0, 150, AsWritten).parts == [partial.value];
  }

  /** As written, the budget test ignores the newlines that join the parts: two documents
      whose texts add up to exactly 32 characters give a 33-character context under a
      32-character budget. */
  lemma SeparatorsOverflowAsWritten()
    ensures
      var d := Document("a", "f", 0, 1, "unknown", "unknown", None);
      && SumLen(Pack([d, d], 0, 0, 32, AsWritten).parts) == 32
      && |ContextOf([d, d], 32).context| == 33
  {
    var d := Document("a", "f", 0, 1, "unknown", "unknown", None);
    assert NatToString(1) == "1" && NatToString(2) == "2";
    assert |Chunk(0, d)| == 16 && |Chunk(1, d)| == 16;
    var p := Pack([d, d], 0, 0, 32, AsWritten);
    PackFits([d, d], 0, 0, 32, AsWritten);
    PackFits([d, d], 1, 16, 32, AsWritten);
    assert Pack([d, d], 2, 32, 32, AsWritten).parts == [];
    assert p.parts == [Chunk(0, d), Chunk(1, d)];
    SumLenFront(Chunk(0, d), [Chunk(1, d)]);
    SumLenFront(Chunk(1, d), []);
    JoinLength(p.parts, '\n');
  }

  /** `get_context_for_query`'s result. */
  datatype ContextResult = ContextResult(
    context: string, contextCount: nat, similarityScores: seq<int>, sources: seq<SourceRef>)

  const NoContext := ContextResult("No relevant chess knowledge found for this query.", 0, [], [])

  /** The context built from `docs` under `maxChars`, parts separated by newlines. */
  function ContextOf(docs: seq<Document>, maxChars: int): (r: ContextResult)
    ensures r.contextCount == |r.similarityScores| == |r.sources| <= |docs|
    ensures docs == [] ==> r == NoContext
    ensures forall k :: 0 <= k < |r.sources| ==> r.sources[k] == SourceOf(docs[k]) && r.similarityScores[k] == docs[k].score
  {
    if docs == [] then NoContext
    else
      var p := Pack(docs, 0, 0, maxChars, AsWritten);
      ContextResult(Join(p.parts, '\n'), |p.parts|, p.scores, p.sources)
  }

  function Combine(a: Packed, b: Packed): Packed {
    Packed(a.parts + b.parts, a.scores + b.scores, a.sources + b.sources, b.truncated)
  }

  lemma CombineEmpty(a: Packed)
    requires !a.truncated
    ensures Combine(a, Packed([], [], [], false)) == a
  {
    assert a.parts + [] == a.parts && a.scores + [] == a.scores && a.sources + [] == a.sources;
  }

  lemma CombineAssoc(a: Packed, b: Packed, c: Packed)
    ensures Combine(a, Combine(b, c)) == Combine(Combine(a, b), c)
  {
    assert a.parts + (b.parts + c.parts) == (a.parts + b.parts) + c.parts;
    assert a.scores + (b.scores + c.scores) == (a.scores + b.scores) + c.scores;
    assert a.sources + (b.sources + c.sources) == (a.sources + b.sources) + c.sources;
  }

  /** The next document does not fit whole and more than 100 characters remain: the as-written
      cut of it ends the packing. */
  lemma PackCutsHere(docs: seq<Document>, i: nat, total: int, maxChars: int)
    requires i < |docs| && total < maxChars && total + |Chunk(i, docs[i])| > maxChars
    requires maxChars - total > 100
    ensures Pack(docs, i, total, maxChars, AsWritten) ==
      Packed([Header(i, docs[i].filename) + PyTake(docs[i].content, maxChars - total - 50) + "..." + "\n"],
             [docs[i].score], [SourceOf(docs[i])], true)
  {
  }

  /** The next document does not fit whole and at most 100 characters remain: nothing more
      is packed. */
  lemma PackStopsHere(docs: seq<Document>, i: nat, total: int, maxChars: int)
    requires i < |docs| && total < maxChars && total + |Chunk(i, docs[i])| > maxChars
    requires maxChars - total <= 100
    ensures Pack(docs, i, total, maxChars, AsWritten) == Packed([], [], [], false)
  {
  }

  /** The packing loop of `get_context_for_query`. */
  method PackContext(docs: seq<Document>, maxChars: int) returns (r: ContextResult)
    ensures r == ContextOf(docs, maxChars)
  {
    if docs == [] {
      return NoContext;
    }
    var parts: seq<string> := [];
    var scores: seq<int> := [];
    var sources: seq<SourceRef> := [];
    var totalChars := 0;
    var stop := false;
    ghost var truncated := false;
    ghost var whole := Pack(docs, 0, 0, maxChars, AsWritten);
    var i := 0;
    while i < |docs| && !stop
      invariant 0 <= i <= |docs|
      invariant !stop ==> whole == Combine(Packed(parts, scores, sources, false), Pack(docs, i, totalChars, maxChars, AsWritten))
      invariant stop ==> whole == Packed(parts, scores, sources, truncated)
      invariant !stop ==> !truncated
      decreases |docs| - i, if stop then 0 else 1
    {
      if totalChars >= maxChars {
        stop := true;
        CombineEmpty(Packed(parts, scores, sources, false));
      } else {
        var chunk := Chunk(i, docs[i]);
        if totalChars + |chunk| <= maxChars {
          PackFits(docs, i, totalChars, maxChars, AsWritten);
          CombineAssoc(Packed(parts, scores, sources, false),
                       Packed([chunk], [docs[i].score], [SourceOf(docs[i])], false),
                       Pack(docs, i + 1, totalChars + |chunk|, maxChars, AsWritten));
          parts := parts + [chunk];
          scores := scores + [docs[i].score];
          sources := sources + [SourceOf(docs[i])];
          totalChars := totalChars + |chunk|;
          i := i + 1;
        } else {
          var remaining := maxChars - totalChars;
          if remaining > 100 {
            var partial := Header(i, docs[i].filename) + PyTake(docs[i].content, remaining - 50) + "..." + "\n";
            PackCutsHere(docs, i, totalChars, maxChars);
            parts := parts + [partial];
            scores := scores + [docs[i].score];
            sources := sources + [SourceOf(docs[i])];
            truncated := true;
          } else {
            PackStopsHere(docs, i, totalChars, maxChars);
            CombineEmpty(Packed(parts, scores, sources, false));
          }
          stop := true;
        }
      }
    }
    if !stop {
      CombineEmpty(Packed(parts, scores, sources, false));
    }
    r := ContextResult(Join(parts, '\n'), |parts|, scores, sources);
  }

  /** `get_context_for_query`: searches with `max_chunks` as the limit, then packs. */
  method GetContextForQuery(query: string, maxChunks: int, maxChars: int, search: Search) returns (r: ContextResult)
    ensures r == ContextOf(SearchResult(query, maxChunks, true, search).0, maxChars)
  {
    var docs, _ := SearchSimilarDocuments(query, maxChunks, true, search);
    r := PackContext(docs, maxChars);
  }
}
