/** The source registry and the evidence registry, method by method as the services run them. */
module SourceRegistry {
  import opened Prelude
  import opened Text
  import opened Sorting
  import opened Citations
  import opened SourceModel
  import opened Retrieval

  class EvidenceRegistry {
    const platform: Platform
    var evidence: map<EvidenceId, EvidenceRef>

    constructor (platform: Platform)
      ensures this.platform == platform && evidence == map[]
    {
      this.platform := platform;
      evidence := map[];
    }

    /** Append-only: an id keeps the payload it was first registered with. */
    method Register(payload: EvidenceRef) returns (r: Result<EvidenceRef, SourceError>)
      modifies this
      ensures match RegisterEvidence(platform, old(evidence), payload)
              case Ok(after) => r == Ok(payload) && evidence == after
              case Err(e) => r == Err(e) && evidence == old(evidence)
      ensures forall id :: id in old(evidence) ==> id in evidence && evidence[id] == old(evidence[id])
    {
      if !platform.acceptsEvidence(payload) {
        return Err(ContractRejected);
      }
      var existing := Lookup(evidence, payload.evidenceId);
      if existing.Some? && existing.value != payload {
        return Err(EvidenceConflict);
      }
      evidence := evidence[payload.evidenceId := payload];
      r := Ok(payload);
    }
  }

  class Registry {
    const platform: Platform
    const evidence: EvidenceRegistry
    var versions: Dict<VersionKey, SourceRecord>
    var classifications: map<SourceKey, Classification>
    var audit: seq<SourceEvent>

    ghost function State(): Library
      reads this, evidence
    {
      Library(versions, classifications, evidence.evidence, audit)
    }

    ghost predicate Valid()
      reads this, evidence
    {
      evidence.platform == platform && versions.Valid()
    }

    constructor (platform: Platform, evidence: EvidenceRegistry)
      requires evidence.platform == platform
      ensures Valid() && this.platform == platform && this.evidence == evidence
      ensures State() == EMPTY_LIBRARY.(evidence := evidence.evidence)
    {
      this.platform, this.evidence := platform, evidence;
      versions, classifications, audit := Dict([], map[]), map[], [];
    }

    method Record(access: Access, entity: string, eventType: string)
      modifies this`audit
      ensures audit == old(audit) + [SourceEvent(access.actorId, access.correlationId, entity, eventType)]
    {
      audit := audit + [SourceEvent(access.actorId, access.correlationId, entity, eventType)];
    }

    method Register(command: Registration, access: Access, now: int) returns (r: Result<SourceRecord, SourceError>)
      requires Valid()
      modifies this
      ensures Valid()
      ensures var out := RegisterSource(old(State()), command, access, now);
              State() == out.library && (r.Err? <==> out.error.Some?) && (r.Err? ==> out.error == Some(r.error))
      ensures r.Ok? ==> var key := NameIn(command, access);
                        key in versions.items && versions.items[key] == r.value
                            && r.value.contentHash == Sha256(command.content)
    {
      if WRITE !in access.scopeRefs || IsBlank(command.content) {
        return Err(Refused);
      }
      var digest := Sha256(command.content);
      var record := NewRecord(command, access, now);
      var key := KeyOf(record);
      var classification := Lookup(classifications, key.source);
      if classification.Some? && classification.value != command.classification {
        return Err(Refused);
      }
      var existing := Lookup(versions.items, key);
      if existing.Some? {
        if existing.value.contentHash == digest {
          return Ok(existing.value);
        }
        return Err(Refused);
      }
      classifications := classifications[key.source := command.classification];
      versions := versions.Put(key, record);
      Record(access, command.sourceId, "registered");
      r := Ok(record);
    }

    method Verify(sourceId: string, version: string, access: Access, now: int)
      returns (r: Result<SourceRecord, SourceError>)
      requires Valid()
      modifies this
      ensures Valid()
      ensures var out := VerifySource(old(State()), sourceId, version, access, now);
              State() == out.library && (r.Err? <==> out.error.Some?) && (r.Err? ==> out.error == Some(r.error))
      ensures r.Ok? ==> r.value.status.Verified? && r.value.verifiedBy == Some(access.actorId)
                        && r.value in versions.items.Values
    {
      var key := VersionKey(SourceKey(access.tenantId, access.workspaceId, sourceId), version);
      if VERIFY !in access.scopeRefs {
        return Err(Refused);
      }
      var current := Lookup(versions.items, key);
      if current.None? || current.value.organizationId != access.organizationId {
        return Err(Refused);
      }
      if current.value.status.Retired? {
        return Err(Refused);
      }
      var updated := VerifiedRecord(current.value, access, now);
      versions := versions.Put(key, updated);
      Record(access, sourceId, "verified");
      assert versions.items[key] == updated;
      r := Ok(updated);
    }

    /** The chunks of one record that contain a word of the query. */
    method ScoreRecord(terms: set<string>, record: SourceRecord) returns (scored: seq<Candidate>)
      ensures scored == Scored(platform, terms, record, RecordChunks(record))
    {
      var chunks := ChunkContent(record.sourceId, record.sourceVersion, record.content, CHUNK_CHARACTERS);
      hide Score;
      scored := [];
      for i := 0 to |chunks|
        invariant scored == Scored(platform, terms, record, chunks[..i])
      {
        ScoredMore(platform, terms, record, chunks, i);
        var score := Score(terms, platform.casefold(chunks[i].text));
        if score > 0 {
          scored := scored + [Candidate(score, record, chunks[i])];
        }
      }
      assert chunks[..|chunks|] == chunks;
    }

    method CollectCandidates(terms: set<string>, access: Access) returns (candidates: seq<Candidate>)
      requires Valid()
      ensures candidates == Candidates(platform, terms, Values(versions.order, versions.items), access)
    {
      hide RecordChunks, Scored, Visible;
      ghost var records := Values(versions.order, versions.items);
      candidates := [];
      for i := 0 to |versions.order|
        invariant candidates == Candidates(platform, terms, records[..i], access)
      {
        CandidatesMore(platform, terms, records, i, access);
        var record := versions.items[versions.order[i]];
        if Visible(record, access) {
          var scored := ScoreRecord(terms, record);
          candidates := candidates + scored;
        }
      }
      assert records[..|records|] == records;
    }

    /** The budget loop: every excerpt becomes evidence before it becomes an item. */
    method GatherItems(candidates: seq<Candidate>, access: Access, limit: nat, maxCharacters: nat)
      returns (items: seq<Item>, refs: seq<EvidenceRef>, error: Option<SourceError>)
      requires Valid()
      modifies evidence
      ensures Gathered(evidence.evidence, items, refs, error) ==
              Gather(platform, Gathered(old(evidence.evidence), [], [], None), candidates, access, limit, maxCharacters)
    {
      hide RStrip, RefFor, ItemFor;
      items, refs, error := [], [], None;
      var remaining: nat := maxCharacters;
      var i := 0;
      ghost var whole := Gather(platform, Gathered(evidence.evidence, [], [], None), candidates, access, limit,
                                maxCharacters);
      assert candidates[0..] == candidates;
      while i < |candidates|
        invariant 0 <= i <= |candidates| && error.None?
        invariant Gather(platform, Gathered(evidence.evidence, items, refs, None), candidates[i..], access, limit,
                         remaining) == whole
      {
        if |items| >= limit || remaining == 0 {
          break;
        }
        var c := candidates[i];
        var excerpt := Excerpt(c.chunk.text, remaining);
        if excerpt == [] {
          break;
        }
        assert candidates[i..][0] == c && candidates[i..][1..] == candidates[i + 1..];
        var registered := evidence.Register(RefFor(c, excerpt, access));
        if registered.Err? {
          error := Some(registered.error);
          return;
        }
        refs := refs + [registered.value];
        items := items + [ItemFor(c, excerpt)];
        remaining := remaining - |excerpt|;
        i := i + 1;
      }
    }

    method SearchContext(query: string, access: Access, limit: int, maxCharacters: int, now: int)
      returns (r: Result<Bundle, SourceError>)
      requires Valid()
      modifies this, evidence
      ensures Valid()
      ensures var out := SourceModel.SearchContext(platform, old(State()), query, access, limit, maxCharacters, now);
              State() == out.library && (r.Ok? <==> out.error.None?)
              && (r.Err? ==> out.error == Some(r.error)) && (r.Ok? ==> out.bundle == Some(r.value))
    {
      if READ !in access.scopeRefs || IsBlank(query) {
        return Err(Refused);
      }
      if !(1 <= limit <= 50) || !(1 <= maxCharacters <= 60000) {
        return Err(Refused);
      }
      var terms := Words(platform.casefold(query));
      var candidates := CollectCandidates(terms, access);
      candidates := Sorted(candidates, CandidateLe);
      var items, refs, error := GatherItems(candidates, access, limit, maxCharacters);
      if error.Some? {
        return Err(error.value);
      }
      var bundle := Bundle(access.correlationId + ":" + query + ":" + Decimal.Show(|items|), access, now,
                           now + MINUTES_30, items, refs);
      if !platform.acceptsBundle(bundle) {
        return Err(ContractRejected);
      }
      Record(access, bundle.contextSeed, "retrieved");
      r := Ok(bundle);
    }
  }
}
