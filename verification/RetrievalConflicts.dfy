/** The names for which retrieval is safe, exactly: a run that conflicts exists for all others. */
module RetrievalConflicts {
  import opened Prelude
  import opened Text
  import opened Sorting
  import opened Decimal
  import opened Chunking
  import opened Citations
  import opened SourceModel
  import opened Retrieval

  const TEXT := "xyz"
  const SOURCE_TYPE := "TEXT"

  /** A platform on which the text of the runs below survives: "xyz" is its own case folding,
      and the contract of evidence accepts what retrieval writes. */
  ghost predicate Ordinary(platform: Platform) {
    platform.casefold(TEXT) == TEXT && forall ref :: platform.acceptsEvidence(ref)
  }

  function Reader(key: VersionKey): Access {
    Access(key.source.tenantId, TEXT, key.source.workspaceId, TEXT, TEXT, {WRITE, VERIFY, READ}, Restricted)
  }

  function Registered(key: VersionKey, now: int): Request {
    Register(Registration(key.source.sourceId, key.version, TEXT, SOURCE_TYPE, Public, TEXT, TEXT, None), Reader(key),
             now)
  }

  function Checked(key: VersionKey, now: int): Request {
    Verify(key.source.sourceId, key.version, Reader(key), now)
  }

  function Sought(key: VersionKey, now: int): Request {
    Search(TEXT, Reader(key), 2, 3, now)
  }

  function Filing(key: VersionKey, now: int): SourceRecord {
    VerifiedRecord(NewRecord(Registered(key, now).command, Reader(key), now), Reader(key), now)
  }

  lemma OneStrip()
    ensures Strip(TEXT) == TEXT && SplitLines(TEXT) == [TEXT]
  {
    assert |TEXT| == 3 && TEXT[0] == 'x' && TEXT[1] == 'y' && TEXT[2] == 'z' && !IsSpace(TEXT[0]) && !IsSpace(TEXT[2]);
    assert FirstBreak(TEXT[3..]) == 0 && TEXT[2..][1..] == TEXT[3..];
    assert FirstBreak(TEXT[2..]) == 1 && TEXT[1..][1..] == TEXT[2..];
    assert FirstBreak(TEXT[1..]) == 2;
    assert FirstBreak(TEXT) == 3;
  }

  lemma OneContentLine()
    ensures ContentLines(TEXT) == [TEXT]
  {
    hide Strip, SplitLines;
    OneStrip();
    assert [TEXT][1..] == [];
    assert StrippedLines([TEXT]) == [TEXT] + StrippedLines([]);
  }

  lemma OnePart()
    ensures PartsOf([TEXT], CHUNK_CHARACTERS) == [Part(1, TEXT)]
  {
    assert |TEXT| == 3;
    assert Pieces(TEXT, CHUNK_CHARACTERS) == [TEXT];
    assert [TEXT][1..] == [] && [TEXT][..0] == [];
    assert Numbered(1, [TEXT]) == [Part(1, TEXT)] + Numbered(1, []);
    assert PartsOf([TEXT], CHUNK_CHARACTERS) == [] + Numbered(1, [TEXT]);
  }

  lemma OneBlock()
    ensures Blocks([Part(1, TEXT)], CHUNK_CHARACTERS) == [[Part(1, TEXT)]]
  {
    var parts := [Part(1, TEXT)];
    assert parts[..0] == [];
    assert [] + [Part(1, TEXT)] == parts;
    assert PlaceAll(parts, CHUNK_CHARACTERS) == Splitter([], parts);
  }

  lemma OneLine()
    ensures ContentBlocks(TEXT, CHUNK_CHARACTERS) == [[Part(1, TEXT)]]
  {
    hide ContentLines, PartsOf, Blocks;
    OneContentLine();
    OnePart();
    OneBlock();
  }

  function OnlyChunk(key: VersionKey): Chunk {
    Chunk(0, StemOf(key) + Span(1, 1), "lines " + Show(1) + "-" + Show(1), TEXT)
  }

  lemma RenamedOne(c: Chunk)
    ensures Renamed([c]) == [c]
  {
    assert [c][..0] == [];
    assert Occurrences([], c.citation) == 0;
    assert Renamed([c]) == [] + [c.(citation := Suffixed(c.citation, 1))];
  }

  lemma RawOne(sourceId: string, sourceVersion: string, block: seq<Part>)
    requires block != []
    ensures RawChunks(sourceId, sourceVersion, [block]) == [MakeChunk(sourceId, sourceVersion, 0, block)]
  {
    hide MakeChunk;
    assert [block][..0] == [];
    assert RawChunks(sourceId, sourceVersion, [block]) == [] + [MakeChunk(sourceId, sourceVersion, 0, block)];
  }

  lemma FilingHasOneChunk(key: VersionKey, now: int)
    ensures RecordChunks(Filing(key, now)) == [OnlyChunk(key)]
  {
    hide Show, ContentBlocks, Renamed, RawChunks, Span;
    OneLine();
    var block := [Part(1, TEXT)];
    assert Join(block) == TEXT;
    RawOne(key.source.sourceId, key.version, block);
    assert MakeChunk(key.source.sourceId, key.version, 0, block) == OnlyChunk(key);
    RenamedOne(OnlyChunk(key));
  }

  lemma OneWord()
    ensures Words(TEXT) == {TEXT} && Score({TEXT}, TEXT) == 1
  {
    assert TEXT[0] == 'x' && TEXT[1] == 'y' && TEXT[2] == 'z';
    assert WordEnd(TEXT[3..]) == 0 && TEXT[2..][1..] == TEXT[3..];
    assert WordEnd(TEXT[2..]) == 1 && TEXT[1..][1..] == TEXT[2..];
    assert WordEnd(TEXT[1..]) == 2;
    assert WordEnd(TEXT) == 3;
    assert TEXT[..3] == TEXT && TEXT[3..] == "";
    assert Contains(TEXT, TEXT);
    assert Occurring({TEXT}, TEXT) == {TEXT};
  }

  function Hit(key: VersionKey, now: int): Candidate {
    Candidate(1, Filing(key, now), OnlyChunk(key))
  }

  lemma FilingIsACandidate(platform: Platform, key: VersionKey, now: int)
    requires Ordinary(platform)
    ensures Scored(platform, Words(platform.casefold(TEXT)), Filing(key, now), RecordChunks(Filing(key, now)))
            == [Hit(key, now)]
  {
    hide Chunks, Words, Score, Show;
    OneWord();
    FilingHasOneChunk(key, now);
    var chunks := [OnlyChunk(key)];
    assert chunks[..0] == [];
    assert Scored(platform, {TEXT}, Filing(key, now), chunks) == [] + [Hit(key, now)];
  }

  /** Registering and verifying a new version of a source whose classification is free or PUBLIC. */
  lemma VersionIsFiled(platform: Platform, lib: Library, key: VersionKey, now: int)
    requires lib.versions.Valid() && key !in lib.versions.items
    requires key.source in lib.classifications ==> lib.classifications[key.source] == Public
    ensures var b := Serve(platform, Serve(platform, lib, Registered(key, now)).library, Checked(key, now)).library;
            && b.versions == Dict(lib.versions.order + [key], lib.versions.items[key := Filing(key, now)])
            && b.classifications == lib.classifications[key.source := Public]
            && b.evidence == lib.evidence
  {
    assert TEXT[0] == 'x' && !IsBlank(TEXT);
    var r := NewRecord(Registered(key, now).command, Reader(key), now);
    assert KeyOf(r) == key;
    var a := Serve(platform, lib, Registered(key, now)).library;
    assert a.versions == lib.versions.Put(key, r);
    assert a.versions.items[key] == r;
    var b := Serve(platform, a, Checked(key, now)).library;
    assert b.versions == a.versions.Put(key, Filing(key, now));
    assert lib.versions.items[key := r][key := Filing(key, now)] == lib.versions.items[key := Filing(key, now)];
  }

  /** A ranking that begins with a hit whose evidence id is taken by other evidence. */
  lemma FirstHitConflicts(platform: Platform, lib: Library, key: VersionKey, now: int, at: int)
    requires Ordinary(platform) && lib.versions.Valid()
    requires var ranking := Ranking(platform, lib, TEXT, Reader(key)); ranking != [] && ranking[0] == Hit(key, now)
    requires var ref := RefFor(Hit(key, now), TEXT, Reader(key));
             ref.evidenceId in lib.evidence && lib.evidence[ref.evidenceId] != ref
    ensures Serve(platform, lib, Sought(key, at)).error == Some(EvidenceConflict)
  {
    hide Ranking, Filing, StemOf, Show;
    assert TEXT[0] == 'x' && !IsBlank(TEXT);
    var ranking := Ranking(platform, lib, TEXT, Reader(key));
    assert Excerpt(TEXT, 3) == TEXT;
    var g := Gathered(lib.evidence, [], [], None);
    assert Continues(g, ranking, 2, 3);
    assert Added(platform, g, ranking[0], TEXT, Reader(key)).error == Some(EvidenceConflict);
  }

  lemma OnlyHit(platform: Platform, lib: Library, key: VersionKey, now: int, at: int)
    requires Ordinary(platform) && lib.versions == Dict([key], map[key := Filing(key, now)]) && lib.evidence == map[]
    ensures var b := Serve(platform, lib, Sought(key, at)).library;
            var ref := RefFor(Hit(key, now), TEXT, Reader(key));
            b.versions == lib.versions && b.classifications == lib.classifications
                && b.evidence == map[ref.evidenceId := ref]
  {
    hide Chunks, Words, Show, StemOf;
    var ranking := Ranking(platform, lib, TEXT, Reader(key));
    var terms := Words(platform.casefold(TEXT));
    assert Values([key], lib.versions.items) == [Filing(key, now)] by { assert [key][1..] == []; }
    FilingIsACandidate(platform, key, now);
    var records := [Filing(key, now)];
    assert records[..0] == [];
    assert Candidates(platform, terms, records, Reader(key)) == [] + [Hit(key, now)];
    var hits := [Hit(key, now)];
    assert hits[..0] == [];
    assert Sorted(hits, CandidateLe) == [] + [Hit(key, now)];
    assert ranking == [Hit(key, now)];
    GatherOnlyHit(platform, lib, ranking, key, now, at);
  }

  lemma GatherOnlyHit(platform: Platform, lib: Library, ranking: seq<Candidate>, key: VersionKey, now: int, at: int)
    requires Ordinary(platform) && lib.versions.Valid() && lib.evidence == map[]
    requires ranking == Ranking(platform, lib, TEXT, Reader(key)) == [Hit(key, now)]
    ensures var b := Serve(platform, lib, Sought(key, at)).library;
            var ref := RefFor(Hit(key, now), TEXT, Reader(key));
            b.versions == lib.versions && b.classifications == lib.classifications
                && b.evidence == map[ref.evidenceId := ref]
  {
    hide Ranking, Filing, StemOf, Show;
    assert TEXT[0] == 'x' && !IsBlank(TEXT);
    assert Excerpt(TEXT, 3) == TEXT;
    var g := Gathered(map[], [], [], None);
    assert Continues(g, ranking, 2, 3);
    var next := Added(platform, g, ranking[0], TEXT, Reader(key));
    assert ranking[1..] == [];
    assert Gather(platform, g, ranking, Reader(key), 2, 3) == next;
  }

  function FirstSteps(a: VersionKey, b: VersionKey): seq<Request> {
    [Registered(a, 0), Checked(a, 0), Sought(a, 0), Registered(b, 1), Checked(b, 1)]
  }

  lemma ServeMore(platform: Platform, requests: seq<Request>, r: Request)
    ensures ServeAll(platform, requests + [r]) == Serve(platform, ServeAll(platform, requests), r).library
  {
    assert (requests + [r])[..|requests|] == requests;
  }

  lemma ServeNone(platform: Platform)
    ensures ServeAll(platform, []) == EMPTY_LIBRARY
  {
  }

  lemma AfterSearch(platform: Platform, a: VersionKey)
    requires Ordinary(platform)
    ensures var lib := ServeAll(platform, [Registered(a, 0), Checked(a, 0), Sought(a, 0)]);
            var ref := RefFor(Hit(a, 0), TEXT, Reader(a));
            && lib.versions == Dict([a], map[a := Filing(a, 0)])
            && lib.classifications == map[a.source := Public]
            && lib.evidence == map[ref.evidenceId := ref]
  {
    hide Serve, Filing, Hit, Reader, RefFor, Sought, Registered, Checked, Ordinary, ServeAll;
    ServeNone(platform);
    var s1, s2 := [Registered(a, 0)], [Registered(a, 0), Checked(a, 0)];
    assert [] + [Registered(a, 0)] == s1 && s1 + [Checked(a, 0)] == s2;
    assert s2 + [Sought(a, 0)] == [Registered(a, 0), Checked(a, 0), Sought(a, 0)];
    ServeMore(platform, [], Registered(a, 0));
    ServeMore(platform, s1, Checked(a, 0));
    ServeMore(platform, s2, Sought(a, 0));
    VersionIsFiled(platform, EMPTY_LIBRARY, a, 0);
    assert ServeAll(platform, s2).versions == Dict([a], map[a := Filing(a, 0)]);
    OnlyHit(platform, ServeAll(platform, s2), a, 0, 0);
  }

  /** After the first steps both versions are verified and the evidence is a's. */
  lemma AfterFirstSteps(platform: Platform, a: VersionKey, b: VersionKey)
    requires Ordinary(platform) && a != b
    ensures var lib := ServeAll(platform, FirstSteps(a, b));
            var ref := RefFor(Hit(a, 0), TEXT, Reader(a));
            && lib.versions == Dict([a, b], map[a := Filing(a, 0), b := Filing(b, 1)])
            && lib.evidence == map[ref.evidenceId := ref]
  {
    hide Serve, Filing, Hit, Reader, RefFor, Sought, Registered, Checked, Ordinary;
    var s3 := [Registered(a, 0), Checked(a, 0), Sought(a, 0)];
    var s4 := s3 + [Registered(b, 1)];
    assert s4 + [Checked(b, 1)] == FirstSteps(a, b);
    AfterSearch(platform, a);
    ServeMore(platform, s3, Registered(b, 1));
    ServeMore(platform, s4, Checked(b, 1));
    VersionIsFiled(platform, ServeAll(platform, s3), b, 1);
    assert map[a := Filing(a, 0)][b := Filing(b, 1)] == map[a := Filing(a, 0), b := Filing(b, 1)];
    assert [a] + [b] == [a, b];
  }

  lemma CandidatesMore(platform: Platform, terms: set<string>, records: seq<SourceRecord>, last: SourceRecord,
                       access: Access)
    ensures Candidates(platform, terms, records + [last], access) ==
            Candidates(platform, terms, records, access) +
            (if Visible(last, access) then Scored(platform, terms, last, RecordChunks(last)) else [])
  {
    assert (records + [last])[..|records|] == records;
  }

  lemma CandidatesOfBoth(platform: Platform, a: VersionKey, b: VersionKey)
    requires Ordinary(platform)
    ensures Candidates(platform, Words(platform.casefold(TEXT)), [Filing(a, 0), Filing(b, 1)], Reader(b)) ==
            (if Visible(Filing(a, 0), Reader(b)) then [Hit(a, 0)] else []) + [Hit(b, 1)]
  {
    hide RecordChunks, Words, Hit, Scored;
    var terms := Words(platform.casefold(TEXT));
    FilingIsACandidate(platform, a, 0);
    FilingIsACandidate(platform, b, 1);
    assert Visible(Filing(b, 1), Reader(b));
    CandidatesMore(platform, terms, [], Filing(a, 0), Reader(b));
    CandidatesMore(platform, terms, [Filing(a, 0)], Filing(b, 1), Reader(b));
    assert [] + [Filing(a, 0)] == [Filing(a, 0)] && [Filing(a, 0)] + [Filing(b, 1)] == [Filing(a, 0), Filing(b, 1)];
    var seen := if Visible(Filing(a, 0), Reader(b)) then [Hit(a, 0)] else [];
    assert [] + seen == seen;
  }

  /** The newer version comes first, whether or not its reader also sees the older one. */
  lemma NewerHitLeads(platform: Platform, lib: Library, a: VersionKey, b: VersionKey)
    requires Ordinary(platform) && a != b
    requires lib.versions == Dict([a, b], map[a := Filing(a, 0), b := Filing(b, 1)])
    ensures lib.versions.Valid()
    ensures var ranking := Ranking(platform, lib, TEXT, Reader(b)); ranking != [] && ranking[0] == Hit(b, 1)
  {
    hide Words, Candidates, Visible, OnlyChunk;
    assert lib.versions.Valid();
    assert Values([a, b], lib.versions.items) == [Filing(a, 0), Filing(b, 1)] by {
      assert [a, b][1..] == [b] && [b][1..] == [];
    }
    CandidatesOfBoth(platform, a, b);
    if Visible(Filing(a, 0), Reader(b)) {
      SortsNewerFirst(Hit(a, 0), Hit(b, 1));
    } else {
      assert [] + [Hit(b, 1)] == [Hit(b, 1)] && [Hit(b, 1)][..0] == [];
      assert Sorted([Hit(b, 1)], CandidateLe) == [] + [Hit(b, 1)];
    }
  }

  lemma SortsNewerFirst(older: Candidate, newer: Candidate)
    requires older.score == newer.score && older.record.createdAt < newer.record.createdAt
    ensures Sorted([older] + [newer], CandidateLe) == [newer, older]
  {
    var both := [older] + [newer];
    assert both[..1] == [older] && [older][..0] == [];
    assert Sorted([older], CandidateLe) == [] + [older];
    assert !CandidateLe(older, newer);
    assert Insert([older], newer, CandidateLe) == Insert([], newer, CandidateLe) + [older];
    assert Insert([], newer, CandidateLe) == [] + [newer];
  }

  /** Two different versions with one stem: in an admissible run the second search raises a conflict. */
  lemma SharedStemConflicts(platform: Platform, a: VersionKey, b: VersionKey)
    requires Ordinary(platform) && a != b && StemOf(a) == StemOf(b) && AdmissibleName(a) && AdmissibleName(b)
    ensures AllAdmissible(FirstSteps(a, b)) && AdmissibleRequest(Sought(b, 1))
    ensures Serve(platform, ServeAll(platform, FirstSteps(a, b)), Sought(b, 1)).error == Some(EvidenceConflict)
  {
    hide StemOf, Show, Ranking, Serve, AllAdmissible, AdmissibleRequest;
    FirstStepsAreAdmissible(a, b);
    var lib := ServeAll(platform, FirstSteps(a, b));
    AfterFirstSteps(platform, a, b);
    NewerHitLeads(platform, lib, a, b);
    FirstHitConflicts(platform, lib, b, 1, 1);
  }

  predicate AllAdmissible(requests: seq<Request>) {
    forall i :: 0 <= i < |requests| ==> AdmissibleRequest(requests[i])
  }

  /** No run over `names` that the request models let in makes the evidence registry raise. */
  ghost predicate NeverConflicts(platform: Platform, names: set<VersionKey>) {
    forall requests: seq<Request>, r: Request ::
      UsesOnly(requests, names) && AllAdmissible(requests) && AdmissibleRequest(r) ==>
        Serve(platform, ServeAll(platform, requests), r).error != Some(EvidenceConflict)
  }

  lemma FirstStepsUse(a: VersionKey, b: VersionKey, names: set<VersionKey>)
    requires a in names && b in names
    ensures UsesOnly(FirstSteps(a, b), names)
  {
  }

  lemma FirstStepsAreAdmissible(a: VersionKey, b: VersionKey)
    requires AdmissibleName(a) && AdmissibleName(b)
    ensures AllAdmissible(FirstSteps(a, b)) && AdmissibleRequest(Sought(b, 1))
  {
    assert |TEXT| == 3;
    assert WRITE in Reader(a).scopeRefs && WRITE in Reader(b).scopeRefs;
  }

  /** Among the names that the request models let in, retrieval is free of evidence conflicts on
      every admissible run exactly for the sets in which different versions, of whatever tenant,
      have different stems. */
  lemma NeverConflictsIffSafe(platform: Platform, names: set<VersionKey>)
    requires Ordinary(platform) && forall k :: k in names ==> AdmissibleName(k)
    ensures NeverConflicts(platform, names) <==> Safe(names)
  {
    hide Serve, ServeAll, StemOf, Ordinary, FirstSteps, Sought, UsesOnly, AllAdmissible, AdmissibleRequest;
    if Safe(names) {
      forall requests: seq<Request>, r: Request
        | UsesOnly(requests, names) && AllAdmissible(requests) && AdmissibleRequest(r)
        ensures Serve(platform, ServeAll(platform, requests), r).error != Some(EvidenceConflict)
      {
        SafeNamesNeverConflict(platform, requests, r, names);
      }
    } else {
      var a, b :| a in names && b in names && StemOf(a) == StemOf(b) && a != b;
      SharedStemConflicts(platform, a, b);
      FirstStepsUse(a, b, names);
      FirstStepsAreAdmissible(a, b);
    }
  }

  // ----- Names that a deployment can check -----

  function BeforeAt(s: string): nat {
    if s == [] || s[0] == '@' then 0 else 1 + BeforeAt(s[1..])
  }

  predicate NoAt(s: string) {
    forall i :: 0 <= i < |s| ==> s[i] != '@'
  }

  lemma {:induction false} BeforeAtOf(s: string, rest: string)
    requires NoAt(s) && rest != [] && rest[0] == '@'
    ensures BeforeAt(s + rest) == |s|
  {
    if s == [] {
      assert s + rest == rest;
    } else {
      assert (s + rest)[1..] == s[1..] + rest;
      BeforeAtOf(s[1..], rest);
    }
  }

  lemma StemSplits(a: VersionKey, b: VersionKey)
    requires StemOf(a) == StemOf(b) && NoAt(a.source.sourceId) && NoAt(b.source.sourceId)
    ensures a.source.sourceId == b.source.sourceId && a.version == b.version
  {
    var restA, restB := "@" + a.version + "#", "@" + b.version + "#";
    assert StemOf(a) == a.source.sourceId + restA && StemOf(b) == b.source.sourceId + restB;
    BeforeAtOf(a.source.sourceId, restA);
    BeforeAtOf(b.source.sourceId, restB);
    var n := |a.source.sourceId|;
    assert a.source.sourceId == StemOf(a)[..n] && b.source.sourceId == StemOf(b)[..n];
    assert restA == StemOf(a)[n..] && restB == StemOf(b)[n..];
    assert a.version == restA[1..|restA| - 1] && b.version == restB[1..|restB| - 1];
  }

  /** In one tenant and workspace it is enough that no source id contains an `@`. */
  lemma OneWorkspaceWithoutAtIsSafe(names: set<VersionKey>, tenantId: string, workspaceId: string)
    requires forall k :: k in names ==>
               k.source.tenantId == tenantId && k.source.workspaceId == workspaceId && NoAt(k.source.sourceId)
    ensures Safe(names)
  {
    forall a, b | a in names && b in names && StemOf(a) == StemOf(b) ensures a == b { StemSplits(a, b); }
  }

  /** The evidence registry is shared: the same source id and version in two tenants is unsafe. */
  lemma SharedNamesAcrossTenantsAreUnsafe(names: set<VersionKey>, a: VersionKey, tenantId: string)
    requires tenantId != a.source.tenantId
    requires a in names && a.(source := a.source.(tenantId := tenantId)) in names
    ensures !Safe(names)
  {
    var b := a.(source := a.source.(tenantId := tenantId));
    assert StemOf(a) == StemOf(b) && a != b;
  }
}
