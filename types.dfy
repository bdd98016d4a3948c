/** Entities of the IAM inventory: the canonical policy shape, the two provider
    schemas it is projected from, rows, roles, ancestry records, and the cloud
    services the resource manager talks to, abstracted as one immutable oracle. */
module Types {

  datatype Option<T> = None | Some(value: T)

  /** What can go wrong. Errors coming from a cloud service are opaque
      (`ServiceError`); the others are the wrappers the resource manager builds. */
  datatype Error =
    | ServiceError(detail: string)
    | RoleLookupFailed(uri: string)
    | PermissionsFailed(row: Row, cause: Error)
    | AncestryFailed(projectId: string, cause: Error)
    | EmptyAncestry(projectId: string)
    | CredentialsFailed(cause: Error)
    | OrgIdFromProjectFailed(projectId: string, cause: Error)

  datatype Result<T> = Ok(value: T) | Err(error: Error)

  /** One flattened fact: `member` holds `role` on `resource` of kind `kind`
      ("organization", "folder" or "project"). */
  datatype Row = Row(resource: string, kind: string, role: string, member: string)

  /** An IAM role as returned by the role service. */
  datatype Role = Role(name: string, includedPermissions: seq<string>)

  // The canonical, schema-unified policy.
  datatype Expr = Expr(description: string, expression: string, location: string, title: string)
  datatype Binding = Binding(condition: Option<Expr>, members: seq<string>, role: string)
  datatype Policy = Policy(bindings: seq<Binding>, etag: string)

  // The v1 schema (organizations and projects).
  datatype V1Expr = V1Expr(description: string, expression: string, location: string, title: string)
  datatype V1Binding = V1Binding(condition: Option<V1Expr>, members: seq<string>, role: string)
  datatype V1Policy = V1Policy(bindings: seq<V1Binding>, etag: string)

  // The v2 schema (folders).
  datatype V2Expr = V2Expr(description: string, expression: string, location: string, title: string)
  datatype V2Binding = V2Binding(condition: Option<V2Expr>, members: seq<string>, role: string)
  datatype V2Policy = V2Policy(bindings: seq<V2Binding>, etag: string)

  // Ancestry records: the provider's and the resource manager's own.
  datatype V1ResourceId = V1ResourceId(id: string, kind: string)
  datatype V1Ancestor = V1Ancestor(resourceId: V1ResourceId)
  datatype ResourceId = ResourceId(id: string, kind: string)
  datatype Ancestor = Ancestor(resourceId: ResourceId)

  /** The dynamically typed ancestor list of an ancestry response: either the
      one recognised variant or some other shape. */
  datatype AncestorsPayload = V1Ancestors(ancestors: seq<V1Ancestor>) | OtherShape

  datatype Folder = Folder(name: string)
  datatype Project = Project(name: string, projectId: string)

  /** A paged listing as the client library drains it: the pages received in
      order and, if a page request failed, the error that ended the listing. */
  datatype Listing<T> = Listing(pages: seq<seq<T>>, failure: Option<Error>)

  /** The cloud services, as a deterministic oracle.
      - `roles`: the role service; a URI that is a key resolves to that role.
      - `organizationPolicy`, `projectPolicy` (v1) and `folderPolicy` (v2):
        policy retrieval by resource name.
      - `folders` (by parent) and `projects` (by filter, "" meaning none):
        paged listings.
      - `ancestry`: the ancestry of a project id.
      - `credentials`: the project id found in the default credentials or in
        the credentials file at the given path. */
  datatype Cloud = Cloud(
    roles: map<string, Role>,
    organizationPolicy: string -> Result<V1Policy>,
    folderPolicy: string -> Result<V2Policy>,
    projectPolicy: string -> Result<V1Policy>,
    folders: string -> Listing<Folder>,
    projects: string -> Listing<Project>,
    ancestry: string -> Result<AncestorsPayload>,
    credentials: string -> Result<string>)

  /** A call to a service whose use the model tracks. */
  datatype Call = RoleGet(uri: string) | CredentialsLookup(path: string) | AncestryGet(projectId: string)

  const OrganizationKind: string := "organization"
  const FolderKind: string := "folder"
  const ProjectKind: string := "project"
}
