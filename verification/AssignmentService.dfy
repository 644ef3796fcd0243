/** The assignment service as an object over the two registries. */
module AssignmentService {
  import opened Prelude
  import opened Identity
  import opened RegistryModel
  import opened RegistryService
  import opened AuthorityView
  import opened Assignment
  import SemVer

  datatype AssignmentEvent = AssignmentEvent(created: bool, agentId: string, skillId: string, skillVersion: string,
                                             actorId: string, correlationId: string)

  function EventOf(created: bool, r: Request, p: Principal): AssignmentEvent {
    AssignmentEvent(created, r.agentId, r.skillId, r.skillVersion, p.actorId, r.correlationId)
  }

  class SkillAssignmentService {
    const registry: VersionedContractRegistry
    const agents: VersionedContractRegistry
    var trail: seq<AssignmentEvent>

    ghost predicate Valid()
      reads this, registry, registry.store, agents, agents.store
    {
      && registry.Valid() && agents.Valid() && registry != agents
      && registry.subjectType == SKILL && agents.subjectType == AGENT && agents.store == registry.store
    }

    constructor (registry: VersionedContractRegistry, agents: VersionedContractRegistry)
      requires registry.Valid() && agents.Valid() && registry != agents
      requires registry.subjectType == SKILL && agents.subjectType == AGENT && agents.store == registry.store
      ensures Valid() && trail == [] && this.registry == registry && this.agents == agents
    {
      this.registry := registry;
      this.agents := agents;
      trail := [];
    }

    /** A failed check leaves both registries alone and one rejection in the trail; a new draft
        leaves one line too, and a refused registration none. */
    method Assign(r: Request, p: Principal, now: int, works: bool) returns (reply: Result<Entry, AssignmentError>)
      requires Valid()
      modifies this, agents, agents.store
      ensures Valid() && registry.entries == old(registry.entries)
      ensures var call := DraftCall(old(agents.entries), old(registry.entries), r, p);
              match call
              case Err(error) =>
                && reply == Err(error) && agents.entries == old(agents.entries)
                && agents.store.records == old(agents.store.records)
              case Ok(register) =>
                var attempt := AttemptOf(AGENT, agents.accepts, old(agents.entries), register, now);
                && reply == AnswerOf(ReplyOf(attempt, works))
                && Performs(attempt, works, old(agents.entries), old(agents.store.records),
                            agents.entries, agents.store.records, ReplyOf(attempt, works))
      ensures trail == old(trail) +
                       (if Problem(old(agents.entries), old(registry.entries), r, p).Some? then [EventOf(false, r, p)]
                        else if reply.Ok? then [EventOf(true, r, p)]
                        else [])
    {
      hide SemVer.NextMinor, AuthorizedView, AttemptOf;
      var agent := agents.Get(PlaceOf(p, r.agentId, r.agentVersion));
      if agent.Err? {
        Reject(r, p);
        return Err(AgentVersionNotFound);
      }
      if !agent.value.state.Active? {
        Reject(r, p);
        return Err(AgentNotActive);
      }
      var skillEntry := registry.Get(PlaceOf(p, r.skillId, r.skillVersion));
      if skillEntry.Err? {
        Reject(r, p);
        return Err(SkillVersionNotFound);
      }
      if !skillEntry.value.state.Active? {
        Reject(r, p);
        return Err(SkillNotActive);
      }
      var agentView, skill := GetAuthorized(agent.value, p), GetAuthorized(skillEntry.value, p);
      if agentView.Err? {
        Reject(r, p);
        return Err(CodeOf(agentView.error));
      }
      if skill.Err? {
        Reject(r, p);
        return Err(CodeOf(skill.error));
      }
      var reference := SkillRef(r.skillId, r.skillVersion);
      var unmet := Unmet(agent.value.payload, skill.value, reference);
      if unmet.Some? {
        Reject(r, p);
        return Err(unmet.value);
      }
      var draftVersion := DraftVersion(r);
      if draftVersion.None? { return Err(AgentVersionInvalid); }
      var payload := DraftPayload(agent.value.payload, draftVersion.value, reference);
      var draft := agents.Register(
        payload, p.tenantId, p.organizationId, p.workspaceId, p.actorId, r.correlationId, now, works);
      if draft.Ok? {
        trail := trail + [EventOf(true, r, p)];
      }
      reply := AnswerOf(draft);
    }

    method Reject(r: Request, p: Principal)
      modifies this`trail
      ensures trail == old(trail) + [EventOf(false, r, p)]
    {
      trail := trail + [EventOf(false, r, p)];
    }
  }
}
