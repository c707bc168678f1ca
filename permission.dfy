// Permission: the (type, resource, action) triple checked by AuthService.authorize.
module Permissions {
  import Text

  datatype PermissionType = ENDPOINT_ACCESS | API_CALL | RESOURCE_OPERATION | FEATURE_ACCESS

  datatype Permission = Permission(kind: PermissionType, resource: string, action: string)

  function TypeName(t: PermissionType): string
  {
    match t
    case ENDPOINT_ACCESS => "ENDPOINT_ACCESS"
    case API_CALL => "API_CALL"
    case RESOURCE_OPERATION => "RESOURCE_OPERATION"
    case FEATURE_ACCESS => "FEATURE_ACCESS"
  }

  function ForEndpoint(endpointId: string): (p: Permission)
    ensures p.kind == ENDPOINT_ACCESS && p.resource == endpointId && p.action == "access"
  {
    Permission(ENDPOINT_ACCESS, endpointId, "access")
  }

  function ForApiCall(apiPath: string, httpMethod: string): (p: Permission)
    ensures p.kind == API_CALL && p.resource == apiPath && p.action == httpMethod
  {
    Permission(API_CALL, apiPath, httpMethod)
  }

  function ForResource(resourceType: string, resourceId: string, operation: string): (p: Permission)
    ensures p.kind == RESOURCE_OPERATION && p.action == operation
    ensures p.resource == resourceType + ":" + resourceId
  {
    Permission(RESOURCE_OPERATION, resourceType + ":" + resourceId, operation)
  }

  function ForFeature(feature: string): (p: Permission)
    ensures p.kind == FEATURE_ACCESS && p.resource == feature && p.action == "access"
  {
    Permission(FEATURE_ACCESS, feature, "access")
  }

  /** Permission.toString: type:resource:action. */
  function ToString(p: Permission): string
  {
    TypeName(p.kind) + ":" + p.resource + ":" + p.action
  }

  /**
   * The type names hold no colon, so toString starts with exactly the type name and a colon;
   * distinct permission types therefore never share a string form.
   */
  lemma ToStringSeparatesTypes(p: Permission, q: Permission)
    requires ToString(p) == ToString(q)
    ensures p.kind == q.kind
  {
    assert ToString(p) == TypeName(p.kind) + [':'] + (p.resource + ":" + p.action);
    assert ToString(q) == TypeName(q.kind) + [':'] + (q.resource + ":" + q.action);
    Text.FirstIndexOfSeparator(TypeName(p.kind), ':', p.resource + ":" + p.action);
    Text.FirstIndexOfSeparator(TypeName(q.kind), ':', q.resource + ":" + q.action);
    // the four type names have pairwise different lengths
  }

  /** Equality of permissions compares exactly the type, the resource and the action. */
  lemma EqualityIsFieldwise(p: Permission, q: Permission)
    ensures p == q <==> p.kind == q.kind && p.resource == q.resource && p.action == q.action
  {
  }
}
