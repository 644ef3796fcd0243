/** The authenticated caller, as the registries and the tool executor see it. */
module Identity {

  datatype Principal = Principal(
    actorId: string, tenantId: string, organizationId: string, workspaceId: string,
    permissions: set<string>, scopes: set<string>, active: bool)
}
