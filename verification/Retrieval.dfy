/** What cited retrieval guarantees: budget, provenance, and evidence that never conflicts. */
module Retrieval {
  import opened Prelude
  import opened Text
  import opened Sorting
  import opened Decimal
  import opened Chunking
  import opened Citations
  import opened SourceModel

  // ----- Budget and provenance -----

  function TotalLength(items: seq<Item>): nat {
    if items == [] then 0 else TotalLength(items[..|items| - 1]) + |items[|items| - 1].value|
  }

  /** The loop spends at most its budget and keeps to its limit. */
  lemma {:induction false} GatherKeepsTheBudget(platform: Platform, g: Gathered, candidates: seq<Candidate>,
                                               access: Access, limit: nat, remaining: nat)
    requires |g.items| <= limit && g.error.None?
    ensures var h := Gather(platform, g, candidates, access, limit, remaining);
            TotalLength(h.items) <= TotalLength(g.items) + remaining && |h.items| <= limit
    decreases |candidates|
  {
    hide RStrip;
    if Continues(g, candidates, limit, remaining) {
      var excerpt := Excerpt(candidates[0].chunk.text, remaining);
      var next := Added(platform, g, candidates[0], excerpt, access);
      if next.error.None? {
        assert next.items[..|g.items|] == g.items;
        GatherKeepsTheBudget(platform, next, candidates[1..], access, limit, remaining - |excerpt|);
      }
    }
  }

  /** An item quotes the beginning of its candidate's chunk. */
  predicate Quotes(item: Item, c: Candidate) {
    item.value != [] && item.value <= c.chunk.text && item == ItemFor(c, item.value)
  }

  lemma AddedQuotes(platform: Platform, g: Gathered, c: Candidate, excerpt: string, access: Access)
    requires excerpt != [] && excerpt <= c.chunk.text
    ensures var next := Added(platform, g, c, excerpt, access);
            && (next.error.Some? ==> next.items == g.items)
            && (next.error.None? ==>
                  |next.items| == |g.items| + 1 && next.items[..|g.items|] == g.items
                      && Quotes(next.items[|g.items|], c))
  {
  }

  /** The loop takes the candidates in ranking order and skips none. */
  lemma {:induction false} GatherFollowsTheRanking(platform: Platform, g: Gathered, ranking: seq<Candidate>, k: nat,
                                                  access: Access, limit: nat, remaining: nat)
    requires k <= |ranking| && |g.items| == k && g.error.None?
    requires forall i :: 0 <= i < k ==> Quotes(g.items[i], ranking[i])
    ensures var h := Gather(platform, g, ranking[k..], access, limit, remaining);
            |h.items| <= |ranking| && forall i :: 0 <= i < |h.items| ==> Quotes(h.items[i], ranking[i])
    decreases |ranking| - k
  {
    hide RStrip, Added;
    if Continues(g, ranking[k..], limit, remaining) {
      assert ranking[k..][0] == ranking[k] && ranking[k..][1..] == ranking[k + 1..];
      var excerpt := Excerpt(ranking[k].chunk.text, remaining);
      var next := Added(platform, g, ranking[k], excerpt, access);
      AddedQuotes(platform, g, ranking[k], excerpt, access);
      if next.error.None? {
        assert forall i :: 0 <= i < k ==> next.items[i] == next.items[..k][i];
        GatherFollowsTheRanking(platform, next, ranking, k + 1, access, limit, remaining - |excerpt|);
      }
    }
  }

  /** A candidate cites a chunk of a visible version. */
  ghost predicate FromStore(c: Candidate, records: seq<SourceRecord>, access: Access) {
    && c.record in records && Visible(c.record, access) && c.score > 0
    && c.chunk in RecordChunks(c.record)
  }

  lemma {:induction false} ScoredAreChunks(platform: Platform, terms: set<string>, r: SourceRecord, chunks: seq<Chunk>)
    ensures forall c :: c in Scored(platform, terms, r, chunks) ==> c.record == r && c.chunk in chunks && c.score > 0
  {
    if chunks != [] { ScoredAreChunks(platform, terms, r, chunks[..|chunks| - 1]); }
  }

  lemma {:induction false} CandidatesAreFromStore(platform: Platform, terms: set<string>, records: seq<SourceRecord>,
                                                  access: Access)
    ensures forall c :: c in Candidates(platform, terms, records, access) ==> FromStore(c, records, access)
  {
    if records != [] {
      var front, last := records[..|records| - 1], records[|records| - 1];
      CandidatesAreFromStore(platform, terms, front, access);
      ScoredAreChunks(platform, terms, last, RecordChunks(last));
    }
  }

  lemma CandidateOrder()
    ensures TotalPreorder(CandidateLe)
  {
  }

  lemma RankingIsFromStore(platform: Platform, lib: Library, query: string, access: Access)
    requires lib.versions.Valid()
    ensures InOrder(Ranking(platform, lib, query, access), CandidateLe)
    ensures forall c :: c in Ranking(platform, lib, query, access) ==>
              FromStore(c, Values(lib.versions.order, lib.versions.items), access)
  {
    var records := Values(lib.versions.order, lib.versions.items);
    var candidates := Candidates(platform, Words(platform.casefold(query)), records, access);
    CandidateOrder();
    SortedIsSorted(candidates, CandidateLe);
    CandidatesAreFromStore(platform, Words(platform.casefold(query)), records, access);
    forall c | c in Ranking(platform, lib, query, access) ensures c in candidates {
      assert c in multiset(Sorted(candidates, CandidateLe));
    }
  }

  /** The item quotes the beginning of a chunk of a VERIFIED version that the caller may read. */
  ghost predicate Cites(item: Item, record: SourceRecord, chunk: Chunk, access: Access) {
    && Visible(record, access) && chunk in RecordChunks(record)
    && item.value != [] && item.value <= chunk.text
    && item.key == chunk.citation && item.anchor == chunk.anchor
    && item.sourceId == record.sourceId && item.sourceVersion == record.sourceVersion
    && item.contentHash == record.contentHash && item.classification == record.classification
    && item.evidenceId == EvidenceId(item.key, Sha256(item.value))
  }

  /** Every successful retrieval keeps to its limits and cites only what the caller may read,
      best match first. */
  lemma RetrievalKeepsTheBudget(platform: Platform, lib: Library, query: string, access: Access, limit: int,
                                maxCharacters: int, now: int)
    requires lib.versions.Valid()
    requires SearchContext(platform, lib, query, access, limit, maxCharacters, now).bundle.Some?
    ensures var items := SearchContext(platform, lib, query, access, limit, maxCharacters, now).bundle.value.items;
            var ranking := Ranking(platform, lib, query, access);
            && TotalLength(items) <= maxCharacters && |items| <= limit && |items| <= |ranking|
            && InOrder(ranking, CandidateLe)
            && forall i :: 0 <= i < |items| ==>
                  && ranking[i].record in lib.versions.items.Values
                  && Cites(items[i], ranking[i].record, ranking[i].chunk, access)
  {
    hide RStrip, Sorted, Candidates, IsBlank;
    var ranking := Ranking(platform, lib, query, access);
    var start := Gathered(lib.evidence, [], [], None);
    assert ranking[0..] == ranking;
    GatherKeepsTheBudget(platform, start, ranking, access, limit, maxCharacters);
    GatherFollowsTheRanking(platform, start, ranking, 0, access, limit, maxCharacters);
    RankingIsFromStore(platform, lib, query, access);
    var items := Gather(platform, start, ranking, access, limit, maxCharacters).items;
    forall i | 0 <= i < |items|
      ensures ranking[i].record in lib.versions.items.Values
      ensures Cites(items[i], ranking[i].record, ranking[i].chunk, access)
    {
      assert ranking[i] in ranking && Quotes(items[i], ranking[i]);
      InStore(lib, ranking[i].record);
    }
  }

  lemma InStore(lib: Library, r: SourceRecord)
    requires lib.versions.Valid() && r in Values(lib.versions.order, lib.versions.items)
    ensures r in lib.versions.items.Values
  {
    var i :| 0 <= i < |lib.versions.order| && Values(lib.versions.order, lib.versions.items)[i] == r;
    assert lib.versions.order[i] in lib.versions.items;
  }

  // ----- The order of the ranking -----

  lemma {:induction false} ScoredAreDistinct(platform: Platform, terms: set<string>, r: SourceRecord,
                                             chunks: seq<Chunk>)
    requires Distinct(chunks)
    ensures Distinct(Scored(platform, terms, r, chunks))
  {
    hide Score;
    if chunks != [] {
      var front := chunks[..|chunks| - 1];
      ScoredAreDistinct(platform, terms, r, front);
      ScoredAreChunks(platform, terms, r, front);
      assert chunks[|chunks| - 1] !in front;
    }
  }

  lemma ChunksAreDistinct(r: SourceRecord)
    ensures Distinct(RecordChunks(r))
    ensures forall c :: c in RecordChunks(r) ==> c.index < |RecordChunks(r)| && RecordChunks(r)[c.index] == c
  {
    hide Chunks;
    forall i | 0 <= i < |RecordChunks(r)| ensures RecordChunks(r)[i].index == i {
      ChunkTexts(r.sourceId, r.sourceVersion, r.content, CHUNK_CHARACTERS, i);
    }
  }

  lemma {:induction false} CandidatesAreDistinct(platform: Platform, terms: set<string>, records: seq<SourceRecord>,
                                                 access: Access)
    requires Distinct(records)
    ensures Distinct(Candidates(platform, terms, records, access))
  {
    hide Scored, RecordChunks, Visible;
    if records != [] {
      var front, last := records[..|records| - 1], records[|records| - 1];
      CandidatesAreDistinct(platform, terms, front, access);
      CandidatesAreFromStore(platform, terms, front, access);
      ChunksAreDistinct(last);
      ScoredAreDistinct(platform, terms, last, RecordChunks(last));
      ScoredAreChunks(platform, terms, last, RecordChunks(last));
      var xs, ys := Candidates(platform, terms, front, access), Scored(platform, terms, last, RecordChunks(last));
      assert last !in front;
      forall i, j | 0 <= i < |xs| && 0 <= j < |ys| ensures xs[i] != ys[j] {
        assert FromStore(xs[i], front, access) && ys[j] in ys;
      }
    }
  }

  lemma VersionsAreDistinct(lib: Library)
    requires Filed(lib)
    ensures Distinct(Values(lib.versions.order, lib.versions.items))
  {
    var order, values := lib.versions.order, Values(lib.versions.order, lib.versions.items);
    forall i, j | 0 <= i < j < |values| ensures values[i] != values[j] {
      assert order[i] in order && order[j] in order;
      assert KeyOf(values[i]) == order[i] && KeyOf(values[j]) == order[j];
    }
  }

  /** Equally scored chunks of one version come in the order of the text, each once. */
  lemma EqualChunksComeInOrder(platform: Platform, lib: Library, query: string, access: Access, i: nat, j: nat)
    requires Filed(lib)
    requires var ranking := Ranking(platform, lib, query, access);
             i < j < |ranking| && ranking[i].record == ranking[j].record && ranking[i].score == ranking[j].score
    ensures var ranking := Ranking(platform, lib, query, access); ranking[i].chunk.index < ranking[j].chunk.index
  {
    hide Sorted, Candidates, RecordChunks, Words, TotalPreorder;
    var records := Values(lib.versions.order, lib.versions.items);
    var candidates := Candidates(platform, Words(platform.casefold(query)), records, access);
    var ranking := Ranking(platform, lib, query, access);
    CandidateOrder();
    RankingIsFromStore(platform, lib, query, access);
    VersionsAreDistinct(lib);
    CandidatesAreDistinct(platform, Words(platform.casefold(query)), records, access);
    SortedKeepsDistinct(candidates, CandidateLe, i, j);
    ChunksAreDistinct(ranking[i].record);
    assert ranking[i] in ranking && ranking[j] in ranking;
    assert FromStore(ranking[i], records, access) && FromStore(ranking[j], records, access);
    assert CandidateLe(ranking[i], ranking[j]);
  }

  /** Of several versions, candidates that tie in score, time and index stay in the order of the store. */
  lemma TiesKeepTheStoreOrder(platform: Platform, lib: Library, query: string, access: Access, tie: Candidate)
    requires lib.versions.Valid()
    ensures Filter(Ranking(platform, lib, query, access), TiesWith(tie))
            == Filter(Candidates(platform, Words(platform.casefold(query)),
                                 Values(lib.versions.order, lib.versions.items), access),
                      TiesWith(tie))
  {
    hide Candidates, Words;
    var records := Values(lib.versions.order, lib.versions.items);
    SortedIsStable(Candidates(platform, Words(platform.casefold(query)), records, access), CandidateLe, TiesWith(tie));
  }

  function TiesWith(tie: Candidate): Candidate -> bool {
    (c: Candidate) => c.score == tie.score && c.record.createdAt == tie.record.createdAt
        && c.chunk.index == tie.chunk.index
  }

  // ----- The store over whole runs -----

  /** Every version is filed under its own key, its chunks come from its content, and all
      versions of a source share the source's classification. */
  ghost predicate Filed(lib: Library) {
    && lib.versions.Valid()
    && forall key :: key in lib.versions.items ==>
      && KeyOf(lib.versions.items[key]) == key
      && key.source in lib.classifications
      && lib.versions.items[key].classification == lib.classifications[key.source]
      && lib.versions.items[key].contentHash == Sha256(lib.versions.items[key].content)
  }

  predicate SameSource(a: SourceRecord, b: SourceRecord) {
    a == b.(status := a.status, verifiedBy := a.verifiedBy, verifiedAt := a.verifiedAt)
  }

  /** Versions are never removed and change only in their verification. */
  ghost predicate Keeps(a: Library, b: Library) {
    forall key :: key in a.versions.items ==>
        key in b.versions.items && SameSource(a.versions.items[key], b.versions.items[key])
  }

  /** One record is filed under its key, with its source's classification. */
  lemma FilingKeeps(lib: Library, after: Library, r: SourceRecord)
    requires Filed(lib) && after.versions == lib.versions.Put(KeyOf(r), r)
    requires after.classifications == lib.classifications[KeyOf(r).source := r.classification]
    requires KeyOf(r).source in lib.classifications ==> lib.classifications[KeyOf(r).source] == r.classification
    requires r.contentHash == Sha256(r.content)
    requires KeyOf(r) in lib.versions.items ==> SameSource(lib.versions.items[KeyOf(r)], r)
    ensures Filed(after) && Keeps(lib, after)
  {
    hide KeyOf, SameSource, Dict.Valid, Dict.Put;
    PutIsValid(lib.versions, KeyOf(r), r);
    forall key | key in lib.versions.items && key != KeyOf(r)
      ensures SameSource(lib.versions.items[key], after.versions.items[key])
    {
      SameSourceAsItself(lib.versions.items[key]);
    }
  }

  lemma SameSourceAsItself(r: SourceRecord)
    ensures SameSource(r, r)
  {
  }

  lemma RegisterKeepsFiling(lib: Library, c: Registration, access: Access, now: int)
    requires Filed(lib)
    ensures var after := RegisterSource(lib, c, access, now).library; Filed(after) && Keeps(lib, after)
  {
    hide IsBlank, Filed, Keeps;
    var after := RegisterSource(lib, c, access, now).library;
    if after == lib { NothingFiled(lib); } else { FilingKeeps(lib, after, NewRecord(c, access, now)); }
  }

  lemma NothingFiled(lib: Library)
    requires Filed(lib)
    ensures Keeps(lib, lib)
  {
  }

  lemma VerifyKeepsFiling(lib: Library, sourceId: string, version: string, access: Access, now: int)
    requires Filed(lib)
    ensures var after := VerifySource(lib, sourceId, version, access, now).library; Filed(after) && Keeps(lib, after)
  {
    hide Keeps;
    var after := VerifySource(lib, sourceId, version, access, now).library;
    if after == lib {
      NothingFiled(lib);
    } else {
      var key := VersionKey(SourceKey(access.tenantId, access.workspaceId, sourceId), version);
      var r := VerifiedRecord(lib.versions.items[key], access, now);
      assert lib.classifications[key.source := r.classification] == lib.classifications;
      FilingKeeps(lib, after, r);
    }
  }

  lemma SearchLeavesVersions(platform: Platform, lib: Library, query: string, access: Access, limit: int,
                             maxCharacters: int, now: int)
    requires lib.versions.Valid()
    ensures var after := SearchContext(platform, lib, query, access, limit, maxCharacters, now).library;
            after.versions == lib.versions && after.classifications == lib.classifications
  {
    hide Ranking, Gather, IsBlank;
  }

  lemma ServeKeepsFiling(platform: Platform, lib: Library, r: Request)
    requires Filed(lib)
    ensures Filed(Serve(platform, lib, r).library) && Keeps(lib, Serve(platform, lib, r).library)
  {
    hide RegisterSource, VerifySource, SearchContext;
    match r
    case Register(command, access, now) => RegisterKeepsFiling(lib, command, access, now);
    case Verify(sourceId, version, access, now) => VerifyKeepsFiling(lib, sourceId, version, access, now);
    case Search(query, access, limit, maxCharacters, now) =>
      SearchLeavesVersions(platform, lib, query, access, limit, maxCharacters, now);
  }

  /** After every run, each version is stored under its own key and with its source's classification. */
  lemma {:induction false} EveryRunIsFiled(platform: Platform, requests: seq<Request>)
    ensures Filed(ServeAll(platform, requests))
  {
    if requests != [] {
      var before := requests[..|requests| - 1];
      EveryRunIsFiled(platform, before);
      ServeKeepsFiling(platform, ServeAll(platform, before), requests[|requests| - 1]);
    }
  }

  /** In every run, all versions of one source carry one classification. */
  lemma OneClassificationPerSource(platform: Platform, requests: seq<Request>, a: VersionKey, b: VersionKey)
    requires var items := ServeAll(platform, requests).versions.items; a in items && b in items && a.source == b.source
    ensures var items := ServeAll(platform, requests).versions.items; items[a].classification == items[b].classification
  {
    EveryRunIsFiled(platform, requests);
  }

  // ----- Evidence never conflicts -----

  function AfterHash(s: string): nat {
    if s == [] || s[|s| - 1] == '#' then 0 else 1 + AfterHash(s[..|s| - 1])
  }

  predicate NoHash(s: string) {
    forall i :: 0 <= i < |s| ==> s[i] != '#'
  }

  lemma {:induction false} AfterHashOf(a: string, t: string)
    requires a != [] && a[|a| - 1] == '#' && NoHash(t)
    ensures AfterHash(a + t) == |t|
  {
    if t == [] {
      assert a + t == a;
    } else {
      assert (a + t)[..|a + t| - 1] == a + t[..|t| - 1];
      AfterHashOf(a, t[..|t| - 1]);
    }
  }

  /** The stem ends at the last `#`. */
  lemma StemEnds(a: string, t: string, b: string, u: string)
    requires a != [] && a[|a| - 1] == '#' && NoHash(t)
    requires b != [] && b[|b| - 1] == '#' && NoHash(u)
    requires a + t == b + u
    ensures a == b && t == u
  {
    AfterHashOf(a, t);
    AfterHashOf(b, u);
    assert a == (a + t)[..|a|] && t == (a + t)[|a|..];
    assert b == (b + u)[..|b|] && u == (b + u)[|b|..];
  }

  lemma TailHasNoHash(first: nat, last: nat, k: nat)
    ensures NoHash(Span(first, last) + Ending(k))
  {
    assert AllDigits(Show(first)) && AllDigits(Show(last)) && AllDigits(Show(k));
  }

  /** Names are safe when different versions have different stems. */
  ghost predicate Safe(names: set<VersionKey>) {
    forall a, b :: a in names && b in names && StemOf(a) == StemOf(b) ==> a == b
  }

  /** A citation determines the version, by its stem, and the chunk in it, by its tail. */
  lemma CitationDeterminesChunk(r: SourceRecord, i: nat, s: SourceRecord, j: nat)
    requires i < |RecordChunks(r)| && j < |RecordChunks(s)|
    requires RecordChunks(r)[i].citation == RecordChunks(s)[j].citation
    requires StemOf(KeyOf(r)) == StemOf(KeyOf(s)) ==> r.content == s.content && KeyOf(r) == KeyOf(s)
    ensures KeyOf(r) == KeyOf(s) && i == j
  {
    var rBlocks, sBlocks := ContentBlocks(r.content, CHUNK_CHARACTERS), ContentBlocks(s.content, CHUNK_CHARACTERS);
    var rRaw := RawChunks(r.sourceId, r.sourceVersion, rBlocks);
    var sRaw := RawChunks(s.sourceId, s.sourceVersion, sBlocks);
    NameShape(r.sourceId, r.sourceVersion, rBlocks, i);
    NameShape(s.sourceId, s.sourceVersion, sBlocks, j);
    TailHasNoHash(FirstLine(rBlocks[i]), LastLine(rBlocks[i]), OccurrenceAt(rRaw, i));
    TailHasNoHash(FirstLine(sBlocks[j]), LastLine(sBlocks[j]), OccurrenceAt(sRaw, j));
    StemEnds(StemOf(KeyOf(r)), NameTail(rBlocks, rRaw, i), StemOf(KeyOf(s)), NameTail(sBlocks, sRaw, j));
    if i < j { CitationsAreDistinct(r.sourceId, r.sourceVersion, r.content, CHUNK_CHARACTERS, i, j); }
    if j < i { CitationsAreDistinct(r.sourceId, r.sourceVersion, r.content, CHUNK_CHARACTERS, j, i); }
  }

  /** The evidence that retrieval makes of chunk `i` of a record. */
  function RefOf(r: SourceRecord, i: nat, excerpt: string): EvidenceRef
    requires i < |RecordChunks(r)|
  {
    var chunk := RecordChunks(r)[i];
    EvidenceRef(r.tenantId, r.organizationId, r.workspaceId, EvidenceId(chunk.citation, Sha256(excerpt)),
                r.sourceId, r.storageUri, r.createdAt, r.contentHash, r.sourceVersion, chunk.anchor, excerpt,
                r.classification, chunk.citation, chunk.index)
  }

  ghost predicate MadeFrom(ref: EvidenceRef, r: SourceRecord, i: nat) {
    i < |RecordChunks(r)| && ref == RefOf(r, i, ref.excerpt)
  }

  /** All evidence was made from stored versions. */
  ghost predicate Traced(versions: map<VersionKey, SourceRecord>, evidence: map<EvidenceId, EvidenceRef>) {
    forall id :: id in evidence ==>
      && evidence[id].evidenceId == id
      && exists key, i :: key in versions && MadeFrom(evidence[id], versions[key], i)
  }

  lemma MadeFromSameSource(ref: EvidenceRef, a: SourceRecord, b: SourceRecord, i: nat)
    requires MadeFrom(ref, a, i) && SameSource(a, b)
    ensures MadeFrom(ref, b, i)
  {
  }

  lemma TracedStays(a: Library, b: Library)
    requires Keeps(a, b) && Traced(a.versions.items, a.evidence)
    ensures Traced(b.versions.items, a.evidence)
  {
    forall id | id in a.evidence
      ensures exists key, i :: key in b.versions.items && MadeFrom(a.evidence[id], b.versions.items[key], i)
    {
      var key, i :| key in a.versions.items && MadeFrom(a.evidence[id], a.versions.items[key], i);
      MadeFromSameSource(a.evidence[id], a.versions.items[key], b.versions.items[key], i);
    }
  }

  /** Evidence with an id that is already there is the evidence that is already there. */
  lemma EvidenceIdDeterminesRef(lib: Library, evidence: map<EvidenceId, EvidenceRef>, key: VersionKey, i: nat,
                                excerpt: string)
    requires Filed(lib) && Safe(lib.versions.items.Keys) && Traced(lib.versions.items, evidence)
    requires key in lib.versions.items && i < |RecordChunks(lib.versions.items[key])|
    ensures var ref := RefOf(lib.versions.items[key], i, excerpt);
            ref.evidenceId in evidence ==> evidence[ref.evidenceId] == ref
  {
    var r := lib.versions.items[key];
    var ref := RefOf(r, i, excerpt);
    if ref.evidenceId in evidence {
      var known := evidence[ref.evidenceId];
      var other, j :| other in lib.versions.items && MadeFrom(known, lib.versions.items[other], j);
      var s := lib.versions.items[other];
      assert StemOf(KeyOf(r)) == StemOf(KeyOf(s)) ==> key == other;
      CitationDeterminesChunk(r, i, s, j);
    }
  }

  lemma TracedMore(versions: map<VersionKey, SourceRecord>, evidence: map<EvidenceId, EvidenceRef>, ref: EvidenceRef,
                   key: VersionKey, i: nat)
    requires Traced(versions, evidence) && key in versions && MadeFrom(ref, versions[key], i)
    ensures Traced(versions, evidence[ref.evidenceId := ref])
  {
    hide MadeFrom;
  }

  lemma AddedNeverConflicts(platform: Platform, lib: Library, g: Gathered, c: Candidate, excerpt: string,
                            access: Access)
    requires Filed(lib) && Safe(lib.versions.items.Keys) && Traced(lib.versions.items, g.evidence) && g.error.None?
    requires FromStore(c, Values(lib.versions.order, lib.versions.items), access)
    ensures var next := Added(platform, g, c, excerpt, access);
            next.error != Some(EvidenceConflict) && Traced(lib.versions.items, next.evidence)
  {
    hide RecordChunks, Safe, Traced, Filed;
    var key, i := FindChunk(lib, c, access);
    var ref := RefFor(c, excerpt, access);
    assert ref == RefOf(c.record, i, excerpt);
    EvidenceIdDeterminesRef(lib, g.evidence, key, i, excerpt);
    TracedMore(lib.versions.items, g.evidence, ref, key, i);
  }

  lemma {:induction false} GatherNeverConflicts(platform: Platform, lib: Library, g: Gathered,
                                                candidates: seq<Candidate>, access: Access, limit: nat, remaining: nat)
    requires Filed(lib) && Safe(lib.versions.items.Keys) && Traced(lib.versions.items, g.evidence) && g.error.None?
    requires forall c :: c in candidates ==> FromStore(c, Values(lib.versions.order, lib.versions.items), access)
    ensures var h := Gather(platform, g, candidates, access, limit, remaining);
            h.error != Some(EvidenceConflict) && Traced(lib.versions.items, h.evidence)
    decreases |candidates|
  {
    hide RStrip;
    if Continues(g, candidates, limit, remaining) {
      var excerpt := Excerpt(candidates[0].chunk.text, remaining);
      var next := Added(platform, g, candidates[0], excerpt, access);
      AddedNeverConflicts(platform, lib, g, candidates[0], excerpt, access);
      if next.error.None? {
        GatherNeverConflicts(platform, lib, next, candidates[1..], access, limit, remaining - |excerpt|);
      }
    }
  }

  lemma FindChunk(lib: Library, c: Candidate, access: Access) returns (key: VersionKey, i: nat)
    requires Filed(lib) && FromStore(c, Values(lib.versions.order, lib.versions.items), access)
    ensures key in lib.versions.items && lib.versions.items[key] == c.record
    ensures i < |RecordChunks(c.record)| && RecordChunks(c.record)[i] == c.chunk
  {
    InStore(lib, c.record);
    key :| key in lib.versions.items && lib.versions.items[key] == c.record;
    i :| 0 <= i < |RecordChunks(c.record)| && RecordChunks(c.record)[i] == c.chunk;
  }

  function NameIn(c: Registration, access: Access): VersionKey {
    VersionKey(SourceKey(access.tenantId, access.workspaceId, c.sourceId), c.sourceVersion)
  }

  /** Only versions from `names` are ever registered. */
  ghost predicate UsesOnly(requests: seq<Request>, names: set<VersionKey>) {
    forall i :: 0 <= i < |requests| && requests[i].Register? ==>
        NameIn(requests[i].command, requests[i].access) in names
  }

  lemma SearchNeverConflicts(platform: Platform, lib: Library, query: string, access: Access, limit: int,
                             maxCharacters: int, now: int)
    requires Filed(lib) && Safe(lib.versions.items.Keys) && Traced(lib.versions.items, lib.evidence)
    ensures var out := SearchContext(platform, lib, query, access, limit, maxCharacters, now);
            out.error != Some(EvidenceConflict) && Traced(out.library.versions.items, out.library.evidence)
  {
    hide Traced, Safe, Gather, Ranking, FromStore, IsBlank;
    if 1 <= limit && 1 <= maxCharacters {
      RankingIsFromStore(platform, lib, query, access);
      GatherNeverConflicts(platform, lib, Gathered(lib.evidence, [], [], None),
                           Ranking(platform, lib, query, access), access, limit, maxCharacters);
    }
  }

  lemma WritesLeaveEvidence(lib: Library, r: Request)
    requires lib.versions.Valid()
    ensures r.Register? ==>
              var out := RegisterSource(lib, r.command, r.access, r.now);
              out.library.evidence == lib.evidence && out.error != Some(EvidenceConflict)
    ensures r.Verify? ==>
              var out := VerifySource(lib, r.sourceId, r.version, r.access, r.now);
              out.library.evidence == lib.evidence && out.error != Some(EvidenceConflict)
  {
  }

  lemma ServeNeverConflicts(platform: Platform, lib: Library, r: Request)
    requires Filed(lib) && Safe(lib.versions.items.Keys) && Traced(lib.versions.items, lib.evidence)
    ensures var out := Serve(platform, lib, r);
            out.error != Some(EvidenceConflict) && Traced(out.library.versions.items, out.library.evidence)
  {
    hide SearchContext, RegisterSource, VerifySource, Traced, Safe, Keeps;
    if r.Search? {
      SearchNeverConflicts(platform, lib, r.query, r.access, r.limit, r.maxCharacters, r.now);
    } else {
      WritesLeaveEvidence(lib, r);
      ServeKeepsFiling(platform, lib, r);
      TracedStays(lib, Serve(platform, lib, r).library);
    }
  }

  lemma ServeUsesName(platform: Platform, lib: Library, r: Request, names: set<VersionKey>)
    requires lib.versions.Valid() && lib.versions.items.Keys <= names
    requires r.Register? ==> NameIn(r.command, r.access) in names
    ensures Serve(platform, lib, r).library.versions.items.Keys <= names
  {
  }

  lemma {:induction false} SafeRunsAreTraced(platform: Platform, requests: seq<Request>, names: set<VersionKey>)
    requires Safe(names) && UsesOnly(requests, names)
    ensures var lib := ServeAll(platform, requests);
            Filed(lib) && lib.versions.items.Keys <= names && Traced(lib.versions.items, lib.evidence)
  {
    hide Serve, Filed;
    EveryRunIsFiled(platform, requests);
    if requests != [] {
      var front, last := requests[..|requests| - 1], requests[|requests| - 1];
      SafeRunsAreTraced(platform, front, names);
      ServeNeverConflicts(platform, ServeAll(platform, front), last);
      ServeUsesName(platform, ServeAll(platform, front), last, names);
    }
  }

  /** With safe names no request of any run ever makes the evidence registry raise a conflict. */
  lemma SafeNamesNeverConflict(platform: Platform, requests: seq<Request>, r: Request, names: set<VersionKey>)
    requires Safe(names) && UsesOnly(requests, names)
    ensures Serve(platform, ServeAll(platform, requests), r).error != Some(EvidenceConflict)
  {
    SafeRunsAreTraced(platform, requests, names);
    ServeNeverConflicts(platform, ServeAll(platform, requests), r);
  }
}
