/** The aggregator, as functions of the cloud: organization rows, then the
    rows of every folder of the organization, then the rows of every project
    of the organization. Each tier stops at its first failure, and any
    failure fails the whole run. */
module Aggregate {
  import opened Types
  import opened Listings
  import opened Normalize
  import opened Flattener

  /** What one tier produced: its rows, and the error it stopped at, if any
      (the rows are then those of the resources before the failing one). */
  datatype Stage = Stage(rows: seq<Row>, err: Option<Error>)

  /** A resource of a tier: its policy is fetched by `key`, its rows name it
      `name`. */
  datatype Target = Target(key: string, name: string)

  /** The organization's resource name, used for its policy and as the
      parent of its folders. */
  function OrganizationName(orgId: string): string
  {
    "organizations/" + orgId
  }

  /** `ProjectsList`'s filter: projects whose parent is the organization. */
  function ProjectsFilter(orgId: string): string
  {
    "parent.type:organization parent.id:" + orgId
  }

  /** Distinct organizations are listed with distinct filters. */
  lemma ProjectsFilterInjective(a: string, b: string)
    requires ProjectsFilter(a) == ProjectsFilter(b)
    ensures a == b
  {
    var prefix := "parent.type:organization parent.id:";
    assert a == ProjectsFilter(a)[|prefix|..];
    assert b == ProjectsFilter(b)[|prefix|..];
  }

  /** A folder's policy is fetched by its name, and its rows name it so. */
  function FolderTargets(folders: seq<Folder>): seq<Target>
  {
    seq(|folders|, i requires 0 <= i < |folders| => Target(folders[i].name, folders[i].name))
  }

  /** A project's policy is fetched by its project id, but its rows name it
      by its (display) name. */
  function ProjectTargets(projects: seq<Project>): seq<Target>
  {
    seq(|projects|, i requires 0 <= i < |projects| => Target(projects[i].projectId, projects[i].name))
  }

  /** `GetIamPolicyForOrganization`: the v1 policy, normalised as the code
      does, conditions dropped. */
  function FetchOrgPolicy(cloud: Cloud, orgId: string): Result<Policy>
  {
    match cloud.organizationPolicy(OrganizationName(orgId))
    case Err(e) => Err(e)
    case Ok(p) => Ok(NormalizeV1AsWritten(p))
  }

  /** `GetIamPolicyForFolder`: the v2 policy, normalised as the code does. */
  function FetchFolderPolicy(cloud: Cloud, folderId: string): Result<Policy>
  {
    match cloud.folderPolicy(folderId)
    case Err(e) => Err(e)
    case Ok(p) => Ok(NormalizeV2AsWritten(p))
  }

  /** `GetIamPolicyForProject`: the v1 policy, normalised as the code does. */
  function FetchProjectPolicy(cloud: Cloud, projectId: string): Result<Policy>
  {
    match cloud.projectPolicy(projectId)
    case Err(e) => Err(e)
    case Ok(p) => Ok(NormalizeV1AsWritten(p))
  }

  /** The policy of a resource of the folder or the project tier. */
  function FetchTierPolicy(cloud: Cloud, kind: string, key: string): Result<Policy>
  {
    if kind == FolderKind then FetchFolderPolicy(cloud, key) else FetchProjectPolicy(cloud, key)
  }

  /** The rows of a tier's resources, resource after resource, stopping at
      the first policy that cannot be fetched. */
  function TargetRows(cloud: Cloud, targets: seq<Target>, kind: string): Stage
    decreases |targets|
  {
    if targets == [] then Stage([], None)
    else
      var prev := TargetRows(cloud, targets[..|targets| - 1], kind);
      if prev.err.Some? then prev
      else
        var t := targets[|targets| - 1];
        match FetchTierPolicy(cloud, kind, t.key)
        case Err(e) => Stage(prev.rows, Some(e))
        case Ok(p) => Stage(prev.rows + FlattenBindings(p.bindings, t.name, kind), None)
  }

  /** `GetOrgPolicyRows`. */
  function OrgStage(cloud: Cloud, orgId: string): Stage
  {
    match FetchOrgPolicy(cloud, orgId)
    case Err(e) => Stage([], Some(e))
    case Ok(p) => Stage(FlattenBindings(p.bindings, orgId, OrganizationKind), None)
  }

  /** `GetFolderPolicyRows`. */
  function FolderStage(cloud: Cloud, orgId: string): Stage
  {
    match Drained(cloud.folders(OrganizationName(orgId)))
    case Err(e) => Stage([], Some(e))
    case Ok(folders) => TargetRows(cloud, FolderTargets(folders), FolderKind)
  }

  /** `GetProjectPolicyRows`. */
  function ProjectStage(cloud: Cloud, orgId: string): Stage
  {
    match Drained(cloud.projects(ProjectsFilter(orgId)))
    case Err(e) => Stage([], Some(e))
    case Ok(projects) => TargetRows(cloud, ProjectTargets(projects), ProjectKind)
  }

  /** `GetAllPolicyRows`: the three tiers in order, or the first tier's
      error with no rows at all. */
  function AllPolicyRows(cloud: Cloud, orgId: string): Result<seq<Row>>
  {
    var org := OrgStage(cloud, orgId);
    if org.err.Some? then Err(org.err.value)
    else
      var folders := FolderStage(cloud, orgId);
      if folders.err.Some? then Err(folders.err.value)
      else
        var projects := ProjectStage(cloud, orgId);
        if projects.err.Some? then Err(projects.err.value)
        else Ok(org.rows + folders.rows + projects.rows)
  }

  /** A tier completes exactly when every one of its policies can be
      fetched. */
  lemma {:induction false} TargetRowsComplete(cloud: Cloud, targets: seq<Target>, kind: string)
    ensures TargetRows(cloud, targets, kind).err.None?
        <==> forall i :: 0 <= i < |targets| ==> FetchTierPolicy(cloud, kind, targets[i].key).Ok?
    decreases |targets|
  {
    if targets != [] {
      var front := targets[..|targets| - 1];
      TargetRowsComplete(cloud, front, kind);
      assert forall i :: 0 <= i < |front| ==> front[i] == targets[i];
    }
  }

  /** Fail-fast: a tier that fails stopped at the FIRST resource whose policy
      could not be fetched, with that error, and holds the rows of the
      resources before it. */
  lemma {:induction false} TargetRowsFirstFailure(cloud: Cloud, targets: seq<Target>, kind: string)
    requires TargetRows(cloud, targets, kind).err.Some?
    ensures exists k ::
      (0 <= k < |targets|
       && FetchTierPolicy(cloud, kind, targets[k].key) == Err(TargetRows(cloud, targets, kind).err.value)
       && (forall j :: 0 <= j < k ==> FetchTierPolicy(cloud, kind, targets[j].key).Ok?)
       && TargetRows(cloud, targets, kind).rows == TargetRows(cloud, targets[..k], kind).rows)
    decreases |targets|
  {
    var n := |targets| - 1;
    var front := targets[..n];
    var prev := TargetRows(cloud, front, kind);
    if prev.err.Some? {
      TargetRowsFirstFailure(cloud, front, kind);
      var k :| 0 <= k < |front|
        && FetchTierPolicy(cloud, kind, front[k].key) == Err(prev.err.value)
        && (forall j :: 0 <= j < k ==> FetchTierPolicy(cloud, kind, front[j].key).Ok?)
        && prev.rows == TargetRows(cloud, front[..k], kind).rows;
      assert front[..k] == targets[..k];
      assert forall j :: 0 <= j <= k ==> front[j] == targets[j];
    } else {
      TargetRowsComplete(cloud, front, kind);
      assert forall j :: 0 <= j < n ==> front[j] == targets[j];
      assert targets[..n] == front;
    }
  }

  /** A tier that failed on a prefix of its resources fails the same way,
      with the same rows, whatever follows: no later policy is fetched. */
  lemma {:induction false} TargetRowsStopsAtFailure(cloud: Cloud, targets: seq<Target>, kind: string, n: nat)
    requires n <= |targets|
    requires TargetRows(cloud, targets[..n], kind).err.Some?
    ensures TargetRows(cloud, targets, kind) == TargetRows(cloud, targets[..n], kind)
    decreases |targets|
  {
    if n < |targets| {
      var front := targets[..|targets| - 1];
      assert front[..n] == targets[..n];
      TargetRowsStopsAtFailure(cloud, front, kind, n);
    } else {
      assert targets[..n] == targets;
    }
  }

  /** The members of a tier's policies, counted over every resource whose
      policy can be fetched. */
  function TargetMembers(cloud: Cloud, targets: seq<Target>, kind: string): nat
    decreases |targets|
  {
    if targets == [] then 0
    else
      TargetMembers(cloud, targets[..|targets| - 1], kind)
      + match FetchTierPolicy(cloud, kind, targets[|targets| - 1].key)
        case Err(_) => 0
        case Ok(p) => MemberCount(p.bindings)
  }

  /** A complete tier has one row per (resource, binding, member). */
  lemma {:induction false} TargetRowsCount(cloud: Cloud, targets: seq<Target>, kind: string)
    requires TargetRows(cloud, targets, kind).err.None?
    ensures |TargetRows(cloud, targets, kind).rows| == TargetMembers(cloud, targets, kind)
    decreases |targets|
  {
    if targets != [] {
      var t := targets[|targets| - 1];
      TargetRowsCount(cloud, targets[..|targets| - 1], kind);
      FlattenLength(FetchTierPolicy(cloud, kind, t.key).value.bindings, t.name, kind);
    }
  }

  /** Every row of a tier carries the tier's kind. */
  lemma {:induction false} TargetRowsKind(cloud: Cloud, targets: seq<Target>, kind: string)
    ensures forall r :: r in TargetRows(cloud, targets, kind).rows ==> r.kind == kind
    decreases |targets|
  {
    if targets != [] {
      var t := targets[|targets| - 1];
      TargetRowsKind(cloud, targets[..|targets| - 1], kind);
      if FetchTierPolicy(cloud, kind, t.key).Ok? {
        FlattenKind(FetchTierPolicy(cloud, kind, t.key).value.bindings, t.name, kind);
      }
    }
  }

  /** Every flattened row carries the kind it was flattened with. */
  lemma FlattenKind(bs: seq<Binding>, resource: string, kind: string)
    ensures forall r :: r in FlattenBindings(bs, resource, kind) ==> r.kind == kind
  {
    forall r | r in FlattenBindings(bs, resource, kind) ensures r.kind == kind {
      var k :| 0 <= k < |FlattenBindings(bs, resource, kind)| && FlattenBindings(bs, resource, kind)[k] == r;
      FlattenFrom(bs, resource, kind, k);
    }
  }

  /** The folder tier completes exactly when the folder listing and every
      listed folder's policy can be fetched. */
  lemma FolderStageComplete(cloud: Cloud, orgId: string)
    ensures FolderStage(cloud, orgId).err.None? <==>
      && cloud.folders(OrganizationName(orgId)).failure.None?
      && forall f :: f in Concat(cloud.folders(OrganizationName(orgId)).pages) ==> FetchFolderPolicy(cloud, f.name).Ok?
  {
    var fs := Concat(cloud.folders(OrganizationName(orgId)).pages);
    var ts := FolderTargets(fs);
    TargetRowsComplete(cloud, ts, FolderKind);
    assert (forall f :: f in fs ==> FetchFolderPolicy(cloud, f.name).Ok?)
       <==> (forall i :: 0 <= i < |ts| ==> FetchTierPolicy(cloud, FolderKind, ts[i].key).Ok?) by {
      assert forall i :: 0 <= i < |ts| ==> ts[i].key == fs[i].name;
    }
  }

  /** The project tier completes exactly when the project listing and every
      listed project's policy can be fetched. */
  lemma ProjectStageComplete(cloud: Cloud, orgId: string)
    ensures ProjectStage(cloud, orgId).err.None? <==>
      && cloud.projects(ProjectsFilter(orgId)).failure.None?
      && forall p :: p in Concat(cloud.projects(ProjectsFilter(orgId)).pages) ==> FetchProjectPolicy(cloud, p.projectId).Ok?
  {
    var ps := Concat(cloud.projects(ProjectsFilter(orgId)).pages);
    var ts := ProjectTargets(ps);
    TargetRowsComplete(cloud, ts, ProjectKind);
    assert (forall p :: p in ps ==> FetchProjectPolicy(cloud, p.projectId).Ok?)
       <==> (forall i :: 0 <= i < |ts| ==> FetchTierPolicy(cloud, ProjectKind, ts[i].key).Ok?) by {
      assert forall i :: 0 <= i < |ts| ==> ts[i].key == ps[i].projectId;
    }
  }

  /** A run succeeds exactly when the organization's policy, both listings
      and every listed folder's and project's policy can be fetched; its rows
      are then the organization's, the folders' and the projects', in that
      order. */
  lemma AllPolicyRowsSucceed(cloud: Cloud, orgId: string)
    ensures AllPolicyRows(cloud, orgId).Ok? <==>
      && FetchOrgPolicy(cloud, orgId).Ok?
      && cloud.folders(OrganizationName(orgId)).failure.None?
      && (forall f :: f in Concat(cloud.folders(OrganizationName(orgId)).pages) ==> FetchFolderPolicy(cloud, f.name).Ok?)
      && cloud.projects(ProjectsFilter(orgId)).failure.None?
      && (forall p :: p in Concat(cloud.projects(ProjectsFilter(orgId)).pages) ==> FetchProjectPolicy(cloud, p.projectId).Ok?)
    ensures AllPolicyRows(cloud, orgId).Ok? ==>
      AllPolicyRows(cloud, orgId).value == OrgStage(cloud, orgId).rows + FolderStage(cloud, orgId).rows + ProjectStage(cloud, orgId).rows
  {
    FolderStageComplete(cloud, orgId);
    ProjectStageComplete(cloud, orgId);
  }

  /** One folder whose policy cannot be fetched fails the whole run: no rows
      at all, and the error is that of the first folder that failed. */
  lemma FolderFailureFailsRun(cloud: Cloud, orgId: string, i: int)
    requires FetchOrgPolicy(cloud, orgId).Ok?
    requires cloud.folders(OrganizationName(orgId)).failure.None?
    requires 0 <= i < |Concat(cloud.folders(OrganizationName(orgId)).pages)|
    requires FetchFolderPolicy(cloud, Concat(cloud.folders(OrganizationName(orgId)).pages)[i].name).Err?
    ensures AllPolicyRows(cloud, orgId).Err?
    ensures exists k ::
      (0 <= k <= i
       && FetchFolderPolicy(cloud, Concat(cloud.folders(OrganizationName(orgId)).pages)[k].name)
          == Err(AllPolicyRows(cloud, orgId).error)
       && forall j :: 0 <= j < k ==> FetchFolderPolicy(cloud, Concat(cloud.folders(OrganizationName(orgId)).pages)[j].name).Ok?)
  {
    var fs := Concat(cloud.folders(OrganizationName(orgId)).pages);
    var ts := FolderTargets(fs);
    assert FetchTierPolicy(cloud, FolderKind, ts[i].key).Err?;
    TargetRowsComplete(cloud, ts, FolderKind);
    TargetRowsFirstFailure(cloud, ts, FolderKind);
    var k :| 0 <= k < |ts| && FetchTierPolicy(cloud, FolderKind, ts[k].key) == Err(TargetRows(cloud, ts, FolderKind).err.value)
      && (forall j :: 0 <= j < k ==> FetchTierPolicy(cloud, FolderKind, ts[j].key).Ok?);
    assert k <= i;
    forall j | 0 <= j < k ensures FetchFolderPolicy(cloud, fs[j].name).Ok? {
      assert ts[j].key == fs[j].name;
    }
  }

  /** Likewise one project whose policy cannot be fetched fails the run. */
  lemma ProjectFailureFailsRun(cloud: Cloud, orgId: string, i: int)
    requires cloud.projects(ProjectsFilter(orgId)).failure.None?
    requires 0 <= i < |Concat(cloud.projects(ProjectsFilter(orgId)).pages)|
    requires FetchProjectPolicy(cloud, Concat(cloud.projects(ProjectsFilter(orgId)).pages)[i].projectId).Err?
    ensures AllPolicyRows(cloud, orgId).Err?
  {
    var ps := Concat(cloud.projects(ProjectsFilter(orgId)).pages);
    var ts := ProjectTargets(ps);
    assert FetchTierPolicy(cloud, ProjectKind, ts[i].key).Err?;
    TargetRowsComplete(cloud, ts, ProjectKind);
  }

  /** Tier order: in a successful run every organization row comes before
      every folder row, and every folder row before every project row. */
  function TierRank(kind: string): nat
  {
    if kind == OrganizationKind then 0 else if kind == FolderKind then 1 else 2
  }

  lemma AllPolicyRowsTierOrder(cloud: Cloud, orgId: string)
    requires AllPolicyRows(cloud, orgId).Ok?
    ensures var rows := AllPolicyRows(cloud, orgId).value;
      forall i, j :: 0 <= i < j < |rows| ==> TierRank(rows[i].kind) <= TierRank(rows[j].kind)
  {
    var o := OrgStage(cloud, orgId).rows;
    var f := FolderStage(cloud, orgId).rows;
    var p := ProjectStage(cloud, orgId).rows;
    FlattenKind(FetchOrgPolicy(cloud, orgId).value.bindings, orgId, OrganizationKind);
    var fs := Drained(cloud.folders(OrganizationName(orgId))).value;
    TargetRowsKind(cloud, FolderTargets(fs), FolderKind);
    var ps := Drained(cloud.projects(ProjectsFilter(orgId))).value;
    TargetRowsKind(cloud, ProjectTargets(ps), ProjectKind);
    var rows := o + f + p;
    assert forall i :: 0 <= i < |rows| ==>
      TierRank(rows[i].kind) == if i < |o| then 0 else if i < |o| + |f| then 1 else 2 by {
      forall i | 0 <= i < |rows|
        ensures TierRank(rows[i].kind) == if i < |o| then 0 else if i < |o| + |f| then 1 else 2
      {
        if i < |o| { assert rows[i] in o; }
        else if i < |o| + |f| { assert rows[i] == f[i - |o|]; assert rows[i] in f; }
        else { assert rows[i] == p[i - |o| - |f|]; assert rows[i] in p; }
      }
    }
  }

  /** A successful run has one row per (resource, binding, member) over the
      organization, its folders and its projects. */
  lemma AllPolicyRowsCount(cloud: Cloud, orgId: string)
    requires AllPolicyRows(cloud, orgId).Ok?
    ensures |AllPolicyRows(cloud, orgId).value| ==
      MemberCount(FetchOrgPolicy(cloud, orgId).value.bindings)
      + TargetMembers(cloud, FolderTargets(Concat(cloud.folders(OrganizationName(orgId)).pages)), FolderKind)
      + TargetMembers(cloud, ProjectTargets(Concat(cloud.projects(ProjectsFilter(orgId)).pages)), ProjectKind)
  {
    FlattenLength(FetchOrgPolicy(cloud, orgId).value.bindings, orgId, OrganizationKind);
    TargetRowsCount(cloud, FolderTargets(Concat(cloud.folders(OrganizationName(orgId)).pages)), FolderKind);
    TargetRowsCount(cloud, ProjectTargets(Concat(cloud.projects(ProjectsFilter(orgId)).pages)), ProjectKind);
  }

  /** The normaliser's condition handling never shows in the rows: the
      conversion as written and the corrected one flatten identically. */
  lemma AsWrittenSameRows(p1: V1Policy, p2: V2Policy, resource: string, kind: string)
    ensures FlattenBindings(NormalizeV1AsWritten(p1).bindings, resource, kind)
         == FlattenBindings(NormalizeV1(p1).bindings, resource, kind)
    ensures FlattenBindings(NormalizeV2AsWritten(p2).bindings, resource, kind)
         == FlattenBindings(NormalizeV2(p2).bindings, resource, kind)
  {
    FlattenIgnoresConditions(NormalizeV1AsWritten(p1).bindings, NormalizeV1(p1).bindings, resource, kind);
    FlattenIgnoresConditions(NormalizeV2AsWritten(p2).bindings, NormalizeV2(p2).bindings, resource, kind);
  }
}
