/** The typed view of a definition that registries hand out, and who may have it. */
module AuthorityView {
  import opened Prelude
  import opened Identity
  import opened RegistryModel
  import Text

  datatype View = View(
    subjectType: string, subjectId: string, version: string, owner: string, risk: string,
    tools: set<string>, permissions: set<string>, scope: set<string>,
    tenantId: string, organizationId: string, workspaceId: string, digest: Digest)

  datatype AuthorizationError =
    | OutsideOrganization | NotActive | NoOwner | NoRisk | InvalidReferences
    | InactivePrincipal | OutsideRegistryScope | NoScopeAuthority | LacksPermissions | LacksScope

  function Members(xs: Option<seq<string>>): set<string> {
    set x | x in Items(xs)
  }

  function OwnerOf(e: Entry): Option<string> {
    var owner := Or(e.payload.owner, e.payload.ownerActorId);
    if e.subjectType == "skill" then Or(owner, Some(e.createdBy)) else owner
  }

  function RiskOf(e: Entry): Option<string> {
    if e.subjectType == "skill" then Or(e.payload.riskLevel, Some("UNSPECIFIED")) else e.payload.riskLevel
  }

  function ToolsOf(e: Entry): set<string> {
    if e.subjectType == "skill" then Members(e.payload.requiredToolIds)
    else if Items(e.payload.toolIds) != [] then Members(e.payload.toolIds)
    else Members(e.payload.backingToolIds)
  }

  predicate Names(s: Option<string>) {
    s.Some? && !Text.IsBlank(s.value)
  }

  function FromEntry(e: Entry): Result<View, AuthorizationError> {
    var permissions, scope := Members(e.payload.permissionRefs), Members(e.payload.scopeRefs);
    if !Names(OwnerOf(e)) then Err(NoOwner)
    else if !Names(RiskOf(e)) then Err(NoRisk)
    else if exists r :: r in ToolsOf(e) + permissions + scope && Text.IsBlank(r) then Err(InvalidReferences)
    else
      Ok(View(e.subjectType, e.subjectId, e.version, OwnerOf(e).value, RiskOf(e).value, ToolsOf(e), permissions, scope,
              e.tenantId, e.organizationId, e.workspaceId, e.digest))
  }

  function Authorize(v: View, p: Principal): Result<View, AuthorizationError> {
    if !p.active then Err(InactivePrincipal)
    else if p.tenantId != v.tenantId || p.organizationId != v.organizationId || p.workspaceId != v.workspaceId then
      Err(OutsideRegistryScope)
    else if v.scope == {} && v.subjectType != "skill" then Err(NoScopeAuthority)
    else if !(v.permissions <= p.permissions) then Err(LacksPermissions)
    else if !(v.scope <= p.scopes) then Err(LacksScope)
    else Ok(v)
  }

  function AuthorizedView(e: Entry, p: Principal): Result<View, AuthorizationError> {
    var view := FromEntry(e);
    if view.Err? then view else Authorize(view.value, p)
  }

  /** `get_authorized` on an entry that was found. */
  function GetAuthorized(e: Entry, p: Principal): Result<View, AuthorizationError> {
    if e.organizationId != p.organizationId then Err(OutsideOrganization)
    else if !e.state.Active? then Err(NotActive)
    else AuthorizedView(e, p)
  }

  /** A view that is handed out grants exactly what the definition asks for, to a principal of its
      tenant, organization and workspace who holds all of it; and it speaks of an ACTIVE entry. */
  lemma ViewIsWithinThePrincipal(e: Entry, p: Principal)
    requires GetAuthorized(e, p).Ok?
    ensures var v := GetAuthorized(e, p).value;
            && e.state.Active? && p.active
            && e.tenantId == p.tenantId && e.organizationId == p.organizationId && e.workspaceId == p.workspaceId
            && v.permissions == Members(e.payload.permissionRefs) <= p.permissions
            && v.scope == Members(e.payload.scopeRefs) <= p.scopes
            && v.tools == ToolsOf(e) && (e.subjectType != "skill" ==> v.scope != {})
            && forall r :: r in v.tools + v.permissions + v.scope ==> !Text.IsBlank(r)
  {
    hide Text.IsBlank;
  }
}
