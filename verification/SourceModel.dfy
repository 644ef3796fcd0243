/** Source versions, their evidence, and cited retrieval. */
module SourceModel {
  import opened Prelude
  import opened Text
  import opened Sorting
  import opened Chunking
  import opened Citations
  import Decimal

  datatype Status = Received | Verified | Retired

  datatype Classification = Public | Internal | Confidential | Restricted

  function Rank(c: Classification): nat {
    match c case Public => 0 case Internal => 1 case Confidential => 2 case Restricted => 3
  }

  /** SHA-256, idealised: different texts have different digests. */
  datatype Digest = Sha256(text: string)

  datatype Access = Access(
    tenantId: string, organizationId: string, workspaceId: string, actorId: string,
    correlationId: string, scopeRefs: set<string>, clearance: Classification)

  datatype Registration = Registration(
    sourceId: string, sourceVersion: string, title: string, sourceType: string,
    classification: Classification, storageUri: string, content: string, documentId: Option<string>)

  datatype SourceRecord = SourceRecord(
    tenantId: string, organizationId: string, workspaceId: string, sourceId: string,
    sourceVersion: string, title: string, sourceType: string, classification: Classification,
    storageUri: string, contentHash: Digest, content: string, documentId: Option<string>,
    status: Status, createdBy: string, createdAt: int, verifiedBy: Option<string>, verifiedAt: Option<int>)

  datatype SourceKey = SourceKey(tenantId: string, workspaceId: string, sourceId: string)

  datatype VersionKey = VersionKey(source: SourceKey, version: string)

  function KeyOf(r: SourceRecord): VersionKey {
    VersionKey(SourceKey(r.tenantId, r.workspaceId, r.sourceId), r.sourceVersion)
  }

  function StemOf(key: VersionKey): string {
    Stem(key.source.sourceId, key.version)
  }

  /** The canonical id of an excerpt: a digest of the citation key and the excerpt's digest. */
  datatype EvidenceId = EvidenceId(citation: string, excerpt: Digest)

  datatype EvidenceRef = EvidenceRef(
    tenantId: string, organizationId: string, workspaceId: string, evidenceId: EvidenceId,
    sourceId: string, uri: string, capturedAt: int, contentHash: Digest, sourceVersion: string,
    anchor: string, excerpt: string, classification: Classification, citationKey: string, chunkIndex: nat)

  datatype Item = Item(
    key: string, value: string, sourceId: string, evidenceId: EvidenceId, sourceVersion: string,
    contentHash: Digest, anchor: string, classification: Classification)

  datatype Bundle = Bundle(
    contextSeed: string, access: Access, createdAt: int, expiresAt: int, items: seq<Item>, evidence: seq<EvidenceRef>)

  /** Code outside the services: Unicode case folding, and the two contract checks. */
  datatype Platform = Platform(
    casefold: string -> string, acceptsEvidence: EvidenceRef -> bool, acceptsBundle: Bundle -> bool)

  datatype SourceError = Refused | ContractRejected | EvidenceConflict

  datatype SourceEvent = SourceEvent(actorId: string, correlationId: string, entity: string, eventType: string)

  /** The source registry with the evidence registry that retrieval writes into. */
  datatype Library = Library(
    versions: Dict<VersionKey, SourceRecord>, classifications: map<SourceKey, Classification>,
    evidence: map<EvidenceId, EvidenceRef>, audit: seq<SourceEvent>)

  const EMPTY_LIBRARY := Library(Dict([], map[]), map[], map[], [])

  const CHUNK_CHARACTERS: nat := 1500
  const WRITE := "scope.sources.write"
  const VERIFY := "scope.sources.verify"
  const READ := "scope.sources.read"

  function NewRecord(c: Registration, access: Access, now: int): SourceRecord {
    SourceRecord(access.tenantId, access.organizationId, access.workspaceId, c.sourceId, c.sourceVersion,
                 c.title, c.sourceType, c.classification, c.storageUri, Sha256(c.content), c.content,
                 c.documentId, Received, access.actorId, now, None, None)
  }

  datatype Outcome = Outcome(library: Library, error: Option<SourceError>, bundle: Option<Bundle>)

  function Refuse(lib: Library): Outcome {
    Outcome(lib, Some(Refused), None)
  }

  function RegisterSource(lib: Library, c: Registration, access: Access, now: int): Outcome {
    if WRITE !in access.scopeRefs || IsBlank(c.content) then Refuse(lib)
    else
      var record := NewRecord(c, access, now);
      var key := KeyOf(record);
      if key.source in lib.classifications && lib.classifications[key.source] != c.classification then Refuse(lib)
      else if key in lib.versions.items then
        if lib.versions.items[key].contentHash == record.contentHash then Outcome(lib, None, None) else Refuse(lib)
      else
        Outcome(lib.(versions := lib.versions.Put(key, record),
                classifications := lib.classifications[key.source := c.classification],
                audit := lib.audit + [SourceEvent(access.actorId, access.correlationId, c.sourceId, "registered")]),
                None, None)
  }

  function VerifiedRecord(r: SourceRecord, access: Access, now: int): SourceRecord {
    r.(status := Verified, verifiedBy := Some(access.actorId), verifiedAt := Some(now))
  }

  function VerifySource(lib: Library, sourceId: string, version: string, access: Access, now: int): Outcome {
    var key := VersionKey(SourceKey(access.tenantId, access.workspaceId, sourceId), version);
    if VERIFY !in access.scopeRefs then Refuse(lib)
    else if key !in lib.versions.items || lib.versions.items[key].organizationId != access.organizationId
        then Refuse(lib)
    else if lib.versions.items[key].status.Retired? then Refuse(lib)
    else
      Outcome(lib.(versions := lib.versions.Put(key, VerifiedRecord(lib.versions.items[key], access, now)),
              audit := lib.audit + [SourceEvent(access.actorId, access.correlationId,
                                                sourceId, "verified")]), None, None)
  }

  // ----- Retrieval -----

  predicate IsWordChar(c: char) {
    'a' <= c <= 'z' || '0' <= c <= '9' || c == '_'
  }

  function WordEnd(s: string): (n: nat)
    ensures n <= |s|
  {
    if s == [] || !IsWordChar(s[0]) then 0 else 1 + WordEnd(s[1..])
  }

  /** `set(re.findall(r"[a-z0-9_]+", s))`. */
  function Words(s: string): set<string>
    decreases |s|
  {
    if s == [] then {}
    else if !IsWordChar(s[0]) then Words(s[1..])
    else {s[..WordEnd(s)]} + Words(s[WordEnd(s)..])
  }

  predicate Contains(text: string, term: string) {
    term <= text || (text != [] && Contains(text[1..], term))
  }

  /** How many of the query's words occur in a text. */
  function Score(terms: set<string>, folded: string): nat {
    |Occurring(terms, folded)|
  }

  function Occurring(terms: set<string>, folded: string): set<string> {
    set t | t in terms && Contains(folded, t)
  }

  datatype Candidate = Candidate(score: nat, record: SourceRecord, chunk: Chunk)

  predicate Visible(r: SourceRecord, access: Access) {
    && r.tenantId == access.tenantId && r.organizationId == access.organizationId
    && r.workspaceId == access.workspaceId && r.status.Verified?
    && Rank(r.classification) <= Rank(access.clearance)
  }

  function RecordChunks(r: SourceRecord): seq<Chunk> {
    Chunks(r.sourceId, r.sourceVersion, r.content, CHUNK_CHARACTERS)
  }

  function Scored(platform: Platform, terms: set<string>, r: SourceRecord, chunks: seq<Chunk>): seq<Candidate> {
    if chunks == [] then []
    else
      var last := chunks[|chunks| - 1];
      var score := Score(terms, platform.casefold(last.text));
      Scored(platform, terms, r, chunks[..|chunks| - 1]) + (if score > 0 then [Candidate(score, r, last)] else [])
  }

  lemma ScoredMore(platform: Platform, terms: set<string>, r: SourceRecord, chunks: seq<Chunk>, i: nat)
    requires i < |chunks|
    ensures var score := Score(terms, platform.casefold(chunks[i].text));
            Scored(platform, terms, r, chunks[..i + 1])
            == Scored(platform, terms, r, chunks[..i]) + (if score > 0 then [Candidate(score, r, chunks[i])] else [])
  {
    hide Score;
    assert chunks[..i + 1][..i] == chunks[..i];
  }

  function Candidates(platform: Platform, terms: set<string>, records: seq<SourceRecord>,
                      access: Access): seq<Candidate> {
    if records == [] then []
    else
      var last := records[|records| - 1];
      Candidates(platform, terms, records[..|records| - 1], access) +
      (if Visible(last, access) then Scored(platform, terms, last, RecordChunks(last)) else [])
  }

  lemma CandidatesMore(platform: Platform, terms: set<string>, records: seq<SourceRecord>, i: nat, access: Access)
    requires i < |records|
    ensures Candidates(platform, terms, records[..i + 1], access)
            == Candidates(platform, terms, records[..i], access) +
               (if Visible(records[i], access)
                then Scored(platform, terms, records[i], RecordChunks(records[i])) else [])
  {
    assert records[..i + 1][..i] == records[..i];
  }

  /** Best score first, then newest, then by the chunk's index; the sort leaves other ties as they come. */
  predicate CandidateLe(a: Candidate, b: Candidate) {
    || a.score > b.score
    || (a.score == b.score
        && (|| a.record.createdAt > b.record.createdAt
            || (a.record.createdAt == b.record.createdAt && a.chunk.index <= b.chunk.index)))
  }

  function Excerpt(text: string, remaining: nat): (e: string)
    ensures e <= text && |e| <= remaining
  {
    var cut := if |text| <= remaining then text else text[..remaining];
    RStrip(cut)
  }

  function RefFor(c: Candidate, excerpt: string, access: Access): EvidenceRef {
    EvidenceRef(access.tenantId, access.organizationId, access.workspaceId,
                EvidenceId(c.chunk.citation, Sha256(excerpt)), c.record.sourceId, c.record.storageUri,
                c.record.createdAt, c.record.contentHash, c.record.sourceVersion, c.chunk.anchor, excerpt,
                c.record.classification, c.chunk.citation, c.chunk.index)
  }

  function ItemFor(c: Candidate, excerpt: string): Item {
    Item(c.chunk.citation, excerpt, c.record.sourceId, EvidenceId(c.chunk.citation, Sha256(excerpt)),
         c.record.sourceVersion, c.record.contentHash, c.chunk.anchor, c.record.classification)
  }

  /** `EvidenceRegistry.register`. */
  function RegisterEvidence(platform: Platform, evidence: map<EvidenceId, EvidenceRef>, ref: EvidenceRef)
    : Result<map<EvidenceId, EvidenceRef>, SourceError>
  {
    if !platform.acceptsEvidence(ref) then Err(ContractRejected)
    else if ref.evidenceId in evidence && evidence[ref.evidenceId] != ref then Err(EvidenceConflict)
    else Ok(evidence[ref.evidenceId := ref])
  }

  datatype Gathered = Gathered(
    evidence: map<EvidenceId, EvidenceRef>, items: seq<Item>, refs: seq<EvidenceRef>, error: Option<SourceError>)

  predicate Continues(g: Gathered, candidates: seq<Candidate>, limit: nat, remaining: nat) {
    && candidates != [] && |g.items| < limit && remaining > 0
    && Excerpt(candidates[0].chunk.text, remaining) != []
  }

  /** One turn of the loop: the excerpt becomes evidence and an item, or the evidence is refused. */
  function Added(platform: Platform, g: Gathered, c: Candidate, excerpt: string, access: Access): Gathered {
    var ref := RefFor(c, excerpt, access);
    match RegisterEvidence(platform, g.evidence, ref)
    case Err(e) => g.(error := Some(e))
    case Ok(evidence) => Gathered(evidence, g.items + [ItemFor(c, excerpt)], g.refs + [ref], None)
  }

  /** The budget loop over the sorted candidates, from what it has gathered so far. */
  function Gather(platform: Platform, g: Gathered, candidates: seq<Candidate>, access: Access, limit: nat,
                  remaining: nat)
    : Gathered
    decreases |candidates|
  {
    if !Continues(g, candidates, limit, remaining) then g
    else
      var excerpt := Excerpt(candidates[0].chunk.text, remaining);
      var next := Added(platform, g, candidates[0], excerpt, access);
      if next.error.Some? then next
      else Gather(platform, next, candidates[1..], access, limit, remaining - |excerpt|)
  }

  function Ranking(platform: Platform, lib: Library, query: string, access: Access): seq<Candidate>
    requires lib.versions.Valid()
  {
    Sorted(Candidates(platform, Words(platform.casefold(query)), Values(lib.versions.order, lib.versions.items),
                      access),
           CandidateLe)
  }

  const MINUTES_30 := 1800

  function SearchContext(platform: Platform, lib: Library, query: string, access: Access, limit: int,
                         maxCharacters: int, now: int): Outcome
    requires lib.versions.Valid()
  {
    if READ !in access.scopeRefs || IsBlank(query) || !(1 <= limit <= 50) || !(1 <= maxCharacters <= 60000)
    then Refuse(lib)
    else
      var g := Gather(platform, Gathered(lib.evidence, [], [], None), Ranking(platform, lib, query, access),
                      access, limit, maxCharacters);
      var after := lib.(evidence := g.evidence);
      if g.error.Some? then Outcome(after, g.error, None)
      else
        var bundle := Bundle(access.correlationId + ":" + query + ":" + Decimal.Show(|g.items|), access, now,
                             now + MINUTES_30, g.items, g.refs);
        if !platform.acceptsBundle(bundle) then Outcome(after, Some(ContractRejected), None)
        else
          var event := SourceEvent(access.actorId, access.correlationId, bundle.contextSeed, "retrieved");
          Outcome(after.(audit := lib.audit + [event]), None, Some(bundle))
  }

  datatype Request =
    | Register(command: Registration, access: Access, now: int)
    | Verify(sourceId: string, version: string, access: Access, now: int)
    | Search(query: string, access: Access, limit: int, maxCharacters: int, now: int)

  // ----- What the request models let in -----

  predicate Between(s: string, low: nat, high: nat) {
    low <= |s| <= high
  }

  predicate AdmissibleAccess(a: Access) {
    && Between(a.tenantId, 3, 128) && Between(a.organizationId, 3, 128) && Between(a.workspaceId, 3, 128)
    && Between(a.actorId, 3, 128) && Between(a.correlationId, 3, 128) && a.scopeRefs != {}
  }

  predicate AdmissibleRegistration(c: Registration) {
    && Between(c.sourceId, 3, 128) && Between(c.sourceVersion, 1, 100) && Between(c.title, 1, 500)
    && (c.sourceType == "DOCX" || c.sourceType == "PDF" || c.sourceType == "TEXT" || c.sourceType == "URL")
    && Between(c.storageUri, 3, 2000) && Between(c.content, 1, 200000)
    && (c.documentId.Some? ==> Between(c.documentId.value, 3, 128))
  }

  predicate AdmissibleRequest(r: Request) {
    AdmissibleAccess(r.access) && (r.Register? ==> AdmissibleRegistration(r.command))
  }

  /** A name that some admissible registration can give. */
  predicate AdmissibleName(k: VersionKey) {
    && Between(k.source.tenantId, 3, 128) && Between(k.source.workspaceId, 3, 128)
    && Between(k.source.sourceId, 3, 128) && Between(k.version, 1, 100)
  }

  function Serve(platform: Platform, lib: Library, r: Request): Outcome
    requires lib.versions.Valid()
  {
    match r
    case Register(command, access, now) => RegisterSource(lib, command, access, now)
    case Verify(sourceId, version, access, now) => VerifySource(lib, sourceId, version, access, now)
    case Search(query, access, limit, maxCharacters, now) =>
      SearchContext(platform, lib, query, access, limit, maxCharacters, now)
  }

  lemma ServeKeepsVersionsValid(platform: Platform, lib: Library, r: Request)
    requires lib.versions.Valid()
    ensures Serve(platform, lib, r).library.versions.Valid()
  {
    hide Gather, Ranking, IsBlank, NewRecord, VerifiedRecord;
  }

  function ServeAll(platform: Platform, requests: seq<Request>): (lib: Library)
    ensures lib.versions.Valid()
  {
    if requests == [] then EMPTY_LIBRARY
    else
      var before := ServeAll(platform, requests[..|requests| - 1]);
      ServeKeepsVersionsValid(platform, before, requests[|requests| - 1]);
      Serve(platform, before, requests[|requests| - 1]).library
  }
}
