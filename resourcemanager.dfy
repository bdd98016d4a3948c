/** The resource manager: the organization id it works for, the role cache
    it fills, and the operations that turn the organization's policies into
    rows. Each method is proved against the specification functions of the
    Roles, Ancestry and Aggregate modules. */
module Manager {
  import opened Types
  import opened Listings
  import opened Normalize
  import opened Flattener
  import opened Output
  import opened Roles
  import opened Ancestry
  import opened Aggregate

  class ResourceManager {
    /** The cloud services. */
    const cloud: Cloud
    var orgId: string
    /** Roles already fetched, keyed by the URI they were fetched under. */
    var roleMap: map<string, Role>
    /** Every call made to the role, credentials and ancestry services, in
        order. */
    ghost var calls: seq<Call>

    /** The cache agrees with the role service on every entry it has. */
    predicate Valid()
      reads this
    {
      CacheSound(roleMap, cloud.roles)
    }

    constructor (cloud: Cloud, orgId: string)
      ensures this.cloud == cloud && this.orgId == orgId
      ensures roleMap == map[] && calls == []
      ensures Valid()
    {
      this.cloud := cloud;
      this.orgId := orgId;
      roleMap := map[];
      calls := [];
    }

    /** `_getRoleByUri`: a cached URI is answered from the cache, with no
        call and no change; otherwise the role service is asked once, and a
        found role is added under exactly that URI while a miss leaves the
        cache as it was. */
    method RoleByUri(uri: string) returns (res: Result<Role>)
      requires Valid()
      modifies this`roleMap, this`calls
      ensures Valid()
      ensures uri in old(roleMap) ==>
        res == Ok(old(roleMap)[uri]) && roleMap == old(roleMap) && calls == old(calls)
      ensures uri !in old(roleMap) ==> calls == old(calls) + [RoleGet(uri)]
      ensures uri !in old(roleMap) && uri in cloud.roles ==>
        res == Ok(cloud.roles[uri]) && roleMap == old(roleMap)[uri := cloud.roles[uri]]
      ensures uri !in old(roleMap) && uri !in cloud.roles ==>
        res == Err(RoleLookupFailed(uri)) && roleMap == old(roleMap)
    {
      if uri in roleMap {
        return Ok(roleMap[uri]);
      }
      calls := calls + [RoleGet(uri)];
      if uri !in cloud.roles {
        return Err(RoleLookupFailed(uri));
      }
      var role := cloud.roles[uri];
      roleMap := roleMap[uri := role];
      return Ok(role);
    }

    /** `GetRole`: the scoped URI first for organization and project rows,
        then the bare role. */
    method GetRole(row: Row) returns (res: Result<Role>)
      requires Valid()
      modifies this`roleMap, this`calls
      ensures Valid() && res == ResolveDirect(cloud.roles, row)
      ensures var l := ResolveRole(old(roleMap), cloud.roles, row);
        res == l.result && roleMap == l.cache && calls == old(calls) + l.queried
    {
      ResolveAgreesWithDirect(roleMap, cloud.roles, row);
      if IsScopedKind(row.kind) {
        res := RoleByUri(ScopedUri(row));
        if res.Ok? {
          return;
        }
      }
      res := RoleByUri(row.role);
    }

    /** `GetRolePermissions`: the permissions of the row's role. */
    method GetRolePermissions(row: Row) returns (res: Result<seq<string>>)
      requires Valid()
      modifies this`roleMap, this`calls
      ensures Valid()
      ensures res == PermissionsOf(row, ResolveDirect(cloud.roles, row))
      ensures var l := ResolveRole(old(roleMap), cloud.roles, row);
        res == PermissionsOf(row, l.result) && roleMap == l.cache && calls == old(calls) + l.queried
    {
      var role := GetRole(row);
      if role.Err? {
        return Err(PermissionsFailed(row, role.error));
      }
      return Ok(role.value.includedPermissions);
    }

    /** `Row.Print`: the lines written for a row, one per permission, or one
        `UNKNOWN` line when its role cannot be resolved. The error returned
        is that of the permission lookup (the write errors are shadowed in
        the loop). */
    method PrintRow(row: Row) returns (lines: seq<string>, err: Option<Error>)
      requires Valid()
      modifies this`roleMap, this`calls
      ensures Valid()
      ensures lines == RowLines(row, PrintedPermissions(PermissionsOf(row, ResolveDirect(cloud.roles, row))))
      ensures var ps := PermissionsOf(row, ResolveDirect(cloud.roles, row));
        (ps.Ok? ==> err == None) && (ps.Err? ==> err == Some(ps.error))
      ensures var l := ResolveRole(old(roleMap), cloud.roles, row);
        lines == RowLines(row, PrintedPermissions(PermissionsOf(row, l.result)))
        && roleMap == l.cache && calls == old(calls) + l.queried
    {
      var permissions := GetRolePermissions(row);
      var ps: seq<string>;
      if permissions.Err? {
        err := Some(permissions.error);
        ps := [Unknown];
      } else {
        err := None;
        ps := permissions.value;
      }
      lines := [];
      var i := 0;
      while i < |ps|
        invariant 0 <= i <= |ps|
        invariant lines == RowLines(row, ps)[..i]
      {
        lines := lines + [CsvLine(LineFields(row, ps[i]))];
        i := i + 1;
      }
    }

    /** `getProjectIdFromCredentials`, as a call to the credentials oracle. */
    method ProjectIdFromCredentials(credentialsPath: string) returns (res: Result<string>)
      modifies this`calls
      ensures res == cloud.credentials(credentialsPath)
      ensures calls == old(calls) + [CredentialsLookup(credentialsPath)]
    {
      calls := calls + [CredentialsLookup(credentialsPath)];
      res := cloud.credentials(credentialsPath);
    }

    /** `GetAncestryForProject`: the project's ancestry, converted. */
    method GetAncestryForProject(projectId: string) returns (res: Result<seq<Ancestor>>)
      modifies this`calls
      ensures calls == old(calls) + [AncestryGet(projectId)]
      ensures cloud.ancestry(projectId).Err? ==> res == Err(cloud.ancestry(projectId).error)
      ensures cloud.ancestry(projectId).Ok? ==> res == Ok(ConvertedAncestors(cloud.ancestry(projectId).value))
    {
      calls := calls + [AncestryGet(projectId)];
      var response := cloud.ancestry(projectId);
      if response.Err? {
        return Err(response.error);
      }
      var ancestors := ConvertAncestors(response.value);
      return Ok(ancestors);
    }

    /** `GetOrgIdFromProjectId`: sets the organization id to the last
        ancestor's id; on failure the organization id is left alone. */
    method GetOrgIdFromProjectId(projectId: string) returns (err: Option<Error>)
      modifies this`orgId, this`calls
      ensures calls == old(calls) + [AncestryGet(projectId)]
      ensures OrgIdOfProject(cloud, projectId).Ok? ==>
        err == None && orgId == OrgIdOfProject(cloud, projectId).value
      ensures OrgIdOfProject(cloud, projectId).Err? ==>
        err == Some(OrgIdOfProject(cloud, projectId).error) && orgId == old(orgId)
    {
      var ancestry := GetAncestryForProject(projectId);
      if ancestry.Err? {
        return Some(AncestryFailed(projectId, ancestry.error));
      }
      var a := ancestry.value;
      if |a| == 0 {
        return Some(EmptyAncestry(projectId));
      }
      orgId := a[|a| - 1].resourceId.id;
      return None;
    }

    /** `GetIamPolicyForOrganization`. */
    method GetIamPolicyForOrganization() returns (res: Result<Policy>)
      ensures res == FetchOrgPolicy(cloud, orgId)
    {
      var response := cloud.organizationPolicy(OrganizationName(orgId));
      if response.Err? {
        return Err(response.error);
      }
      var policy := ConvertPolicyV1(response.value);
      return Ok(policy);
    }

    /** `GetIamPolicyForFolder`. */
    method GetIamPolicyForFolder(folderId: string) returns (res: Result<Policy>)
      ensures res == FetchFolderPolicy(cloud, folderId)
    {
      var response := cloud.folderPolicy(folderId);
      if response.Err? {
        return Err(response.error);
      }
      var policy := ConvertPolicyV2(response.value);
      return Ok(policy);
    }

    /** `GetIamPolicyForProject`. */
    method GetIamPolicyForProject(projectId: string) returns (res: Result<Policy>)
      ensures res == FetchProjectPolicy(cloud, projectId)
    {
      var response := cloud.projectPolicy(projectId);
      if response.Err? {
        return Err(response.error);
      }
      var policy := ConvertPolicyV1(response.value);
      return Ok(policy);
    }

    /** `FoldersList`: every folder under `parent`, page after page. */
    method FoldersList(parent: string) returns (res: Result<seq<Folder>>)
      ensures res == Drained(cloud.folders(parent))
    {
      res := DrainPages(cloud.folders(parent));
    }

    /** `ProjectsListByFilter`: every project matching `filter`, page after
        page. */
    method ProjectsListByFilter(filter: string) returns (res: Result<seq<Project>>)
      ensures res == Drained(cloud.projects(filter))
    {
      res := DrainPages(cloud.projects(filter));
    }

    /** `ProjectsList`: the projects whose parent is the organization. */
    method ProjectsList() returns (res: Result<seq<Project>>)
      ensures res == Drained(cloud.projects(ProjectsFilter(orgId)))
    {
      res := ProjectsListByFilter(ProjectsFilter(orgId));
    }

    /** `GetOrgPolicyRows`: the organization's rows. */
    method GetOrgPolicyRows() returns (rows: seq<Row>, err: Option<Error>)
      ensures Stage(rows, err) == OrgStage(cloud, orgId)
    {
      rows := [];
      var policy := GetIamPolicyForOrganization();
      if policy.Err? {
        return rows, Some(policy.error);
      }
      rows := AddBindings(policy.value.bindings, rows, orgId, OrganizationKind);
      err := None;
    }

    /** `GetFolderPolicyRows`: the rows of every folder of the organization,
        stopping at the first folder whose policy cannot be fetched. */
    method GetFolderPolicyRows() returns (rows: seq<Row>, err: Option<Error>)
      ensures Stage(rows, err) == FolderStage(cloud, orgId)
    {
      rows := [];
      var listed := FoldersList(OrganizationName(orgId));
      if listed.Err? {
        return rows, Some(listed.error);
      }
      var folders := listed.value;
      ghost var targets := FolderTargets(folders);
      var i := 0;
      while i < |folders|
        invariant 0 <= i <= |folders|
        invariant TargetRows(cloud, targets[..i], FolderKind) == Stage(rows, None)
      {
        var f := folders[i];
        var policy := GetIamPolicyForFolder(f.name);
        assert targets[..i + 1][..i] == targets[..i];
        if policy.Err? {
          TargetRowsStopsAtFailure(cloud, targets, FolderKind, i + 1);
          return rows, Some(policy.error);
        }
        rows := AddBindings(policy.value.bindings, rows, f.name, FolderKind);
        i := i + 1;
      }
      assert targets[..i] == targets;
      err := None;
    }

    /** `GetProjectPolicyRows`: the rows of every project of the
        organization, stopping at the first project whose policy cannot be
        fetched. Policies are fetched by project id, rows name the project. */
    method GetProjectPolicyRows() returns (rows: seq<Row>, err: Option<Error>)
      ensures Stage(rows, err) == ProjectStage(cloud, orgId)
    {
      rows := [];
      var listed := ProjectsList();
      if listed.Err? {
        return rows, Some(listed.error);
      }
      var projects := listed.value;
      ghost var targets := ProjectTargets(projects);
      var i := 0;
      while i < |projects|
        invariant 0 <= i <= |projects|
        invariant TargetRows(cloud, targets[..i], ProjectKind) == Stage(rows, None)
      {
        var p := projects[i];
        var policy := GetIamPolicyForProject(p.projectId);
        assert targets[..i + 1][..i] == targets[..i];
        if policy.Err? {
          TargetRowsStopsAtFailure(cloud, targets, ProjectKind, i + 1);
          return rows, Some(policy.error);
        }
        rows := AddBindings(policy.value.bindings, rows, p.name, ProjectKind);
        i := i + 1;
      }
      assert targets[..i] == targets;
      err := None;
    }

    /** `GetAllPolicyRows`: organization, folder and project rows in that
        order, or the first error with no rows. */
    method GetAllPolicyRows() returns (res: Result<seq<Row>>)
      ensures res == AllPolicyRows(cloud, orgId)
    {
      var newRows, err := GetOrgPolicyRows();
      if err.Some? {
        return Err(err.value);
      }
      var allRows := newRows;
      newRows, err := GetFolderPolicyRows();
      if err.Some? {
        return Err(err.value);
      }
      allRows := allRows + newRows;
      newRows, err := GetProjectPolicyRows();
      if err.Some? {
        return Err(err.value);
      }
      allRows := allRows + newRows;
      return Ok(allRows);
    }
  }

  /** `NewResourceManager`: a manager with an empty role cache whose
      organization id is the supplied one or, failing that, the one resolved
      from the supplied or the credentials' project. A failed lookup is
      reported against `p`, the credentials' project id, which stays empty
      when the project id was supplied. */
  method NewResourceManager(cloud: Cloud, credentialsPath: string, orgId: string, projectId: string)
    returns (res: Result<ResourceManager>)
    ensures var o := ResolveOrgIdAsWritten(cloud, credentialsPath, orgId, projectId);
      && (res.Ok? <==> o.result.Ok?)
      && (res.Err? ==> res.error == o.result.error)
      && (res.Ok? ==>
            fresh(res.value) && res.value.cloud == cloud && res.value.orgId == o.result.value
            && res.value.roleMap == map[] && res.value.Valid() && res.value.calls == o.calls)
  {
    var r := new ResourceManager(cloud, orgId);
    if r.orgId == "" {
      var p := "";
      var project := projectId;
      if projectId == "" {
        var fromCredentials := r.ProjectIdFromCredentials(credentialsPath);
        if fromCredentials.Err? {
          return Err(CredentialsFailed(fromCredentials.error));
        }
        p := fromCredentials.value;
        project := p;
      }
      var err := r.GetOrgIdFromProjectId(project);
      if err.Some? {
        return Err(OrgIdFromProjectFailed(p, err.value));
      }
    }
    return Ok(r);
  }
}
