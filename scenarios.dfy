/** Worked runs of the pipeline on small concrete organizations. */
module Scenarios {
  import opened Types
  import opened Listings
  import opened Normalize
  import opened Flattener
  import opened Roles
  import opened Aggregate

  /** Organization O binds `roles/viewer` to two members; its one folder F
      has an empty policy; its one project P binds `roles/editor` to one
      member. */
  predicate SmallOrganization(cloud: Cloud)
  {
    && cloud.organizationPolicy("organizations/O")
       == Ok(V1Policy([V1Binding(None, ["user:a@x.com", "group:g@x.com"], "roles/viewer")], "e1"))
    && cloud.folders("organizations/O") == Listing([[Folder("F")]], None)
    && cloud.folderPolicy("F") == Ok(V2Policy([], "e2"))
    && cloud.projects("parent.type:organization parent.id:O") == Listing([[Project("P", "P")]], None)
    && cloud.projectPolicy("P")
       == Ok(V1Policy([V1Binding(None, ["user:b@x.com"], "roles/editor")], "e3"))
  }

  /** The whole run gives the organization's two rows, then the project's
      one; the folder contributes nothing. */
  lemma SmallOrganizationRows(cloud: Cloud)
    requires SmallOrganization(cloud)
    ensures AllPolicyRows(cloud, "O") == Ok([
      Row("O", OrganizationKind, "roles/viewer", "user:a@x.com"),
      Row("O", OrganizationKind, "roles/viewer", "group:g@x.com"),
      Row("P", ProjectKind, "roles/editor", "user:b@x.com")])
  {
    assert OrganizationName("O") == "organizations/O";
    assert ProjectsFilter("O") == "parent.type:organization parent.id:O";
    var viewer := [Binding(None, ["user:a@x.com", "group:g@x.com"], "roles/viewer")];
    var editor := [Binding(None, ["user:b@x.com"], "roles/editor")];
    assert NormalizeV1AsWritten(cloud.organizationPolicy("organizations/O").value).bindings == viewer;
    assert NormalizeV1AsWritten(cloud.projectPolicy("P").value).bindings == editor;
    assert Concat([[Folder("F")]]) == [Folder("F")];
    assert Concat([[Project("P", "P")]]) == [Project("P", "P")];
    var folderTargets := FolderTargets([Folder("F")]);
    var projectTargets := ProjectTargets([Project("P", "P")]);
    assert folderTargets == [Target("F", "F")] && folderTargets[..0] == [];
    assert projectTargets == [Target("P", "P")] && projectTargets[..0] == [];
    assert FlattenBindings(viewer, "O", OrganizationKind)
      == [Row("O", OrganizationKind, "roles/viewer", "user:a@x.com"),
          Row("O", OrganizationKind, "roles/viewer", "group:g@x.com")]
    by {
      assert viewer[..0] == [];
    }
    assert FlattenBindings(editor, "P", ProjectKind) == [Row("P", ProjectKind, "roles/editor", "user:b@x.com")] by {
      assert editor[..0] == [];
    }
    assert OrgStage(cloud, "O").rows == FlattenBindings(viewer, "O", OrganizationKind);
    assert NormalizeV2AsWritten(V2Policy([], "e2")).bindings == [];
    assert FetchTierPolicy(cloud, FolderKind, "F") == Ok(NormalizeV2AsWritten(V2Policy([], "e2")));
    assert FolderStage(cloud, "O") == Stage([], None);
    assert ProjectKind != FolderKind;
    assert FetchTierPolicy(cloud, ProjectKind, "P") == Ok(NormalizeV1AsWritten(cloud.projectPolicy("P").value));
    assert ProjectStage(cloud, "O") == Stage(FlattenBindings(editor, "P", ProjectKind), None);
    assert FlattenBindings(viewer, "O", OrganizationKind) + [] + FlattenBindings(editor, "P", ProjectKind)
      == [Row("O", OrganizationKind, "roles/viewer", "user:a@x.com"),
          Row("O", OrganizationKind, "roles/viewer", "group:g@x.com"),
          Row("P", ProjectKind, "roles/editor", "user:b@x.com")];
  }

  /** With `roles/viewer` granting permA and permB and `roles/editor`
      granting permC, each of those rows resolves to its role's permissions,
      through the bare role after the scoped URI misses. */
  lemma SmallOrganizationPermissions()
    ensures var roles := map["roles/viewer" := Role("roles/viewer", ["permA", "permB"]),
                             "roles/editor" := Role("roles/editor", ["permC"])];
            && ResolveRole(map[], roles, Row("O", OrganizationKind, "roles/viewer", "user:a@x.com")).result
               == Ok(Role("roles/viewer", ["permA", "permB"]))
            && ResolveRole(map[], roles, Row("O", OrganizationKind, "roles/viewer", "user:a@x.com")).queried
               == [RoleGet("organizations/O/roles/viewer"), RoleGet("roles/viewer")]
            && ResolveRole(map[], roles, Row("P", ProjectKind, "roles/editor", "user:b@x.com")).result
               == Ok(Role("roles/editor", ["permC"]))
            && ResolveRole(map[], roles, Row("P", ProjectKind, "roles/editor", "user:b@x.com")).queried
               == [RoleGet("projects/P/roles/editor"), RoleGet("roles/editor")]
  {
    var roles := map["roles/viewer" := Role("roles/viewer", ["permA", "permB"]),
                     "roles/editor" := Role("roles/editor", ["permC"])];
    var o := Row("O", OrganizationKind, "roles/viewer", "user:a@x.com");
    var p := Row("P", ProjectKind, "roles/editor", "user:b@x.com");
    assert |ScopedUri(o)| > |"roles/viewer"| && |ScopedUri(o)| > |"roles/editor"|;
    assert |ScopedUri(p)| > |"roles/viewer"| && |ScopedUri(p)| > |"roles/editor"|;
    assert ScopedUri(o) == "organizations/O/roles/viewer" && ScopedUri(p) == "projects/P/roles/editor";
    assert ScopedUri(o) !in roles && ScopedUri(p) !in roles;
  }

  /** A project row whose role is `roles/myrole` on project P resolves
      through the scoped URI `projects/P/roles/myrole`, built verbatim, with
      a single service call and without looking up the bare role. */
  lemma ScopedCustomRole(perms: seq<string>)
    ensures var custom := Role("projects/P/roles/myrole", perms);
            var l := ResolveRole(map[], map["projects/P/roles/myrole" := custom],
                                 Row("P", ProjectKind, "roles/myrole", "user:b@x.com"));
            l.result == Ok(custom) && l.queried == [RoleGet("projects/P/roles/myrole")]
            && l.cache == map["projects/P/roles/myrole" := custom]
  {
    assert ScopedUri(Row("P", ProjectKind, "roles/myrole", "user:b@x.com")) == "projects/P/roles/myrole";
  }

  /** A bare role name `myrole` on project P is looked up as `projects/P/myrole`
      first, which is not the custom role's name, so the resolver falls back to
      the bare name: two service calls, and a failure if that is unknown. */
  lemma BareCustomRoleName(perms: seq<string>)
    ensures var custom := Role("projects/P/roles/myrole", perms);
            var l := ResolveRole(map[], map["projects/P/roles/myrole" := custom],
                                 Row("P", ProjectKind, "myrole", "user:b@x.com"));
            l.result == Err(RoleLookupFailed("myrole"))
            && l.queried == [RoleGet("projects/P/myrole"), RoleGet("myrole")]
  {
    assert ScopedUri(Row("P", ProjectKind, "myrole", "user:b@x.com")) == "projects/P/myrole";
    assert "projects/P/myrole" != "projects/P/roles/myrole" by {
      assert "projects/P/myrole"[11] != "projects/P/roles/myrole"[11];
    }
    assert "myrole" != "projects/P/roles/myrole";
  }
}
