# policygopher resource manager, modelled in Dafny

policygopher takes a snapshot of a cloud organization's IAM surface. It
lists the organization's policy, the policies of its folders and the
policies of its projects, and flattens every binding into rows of
(resource, type, role, member). It then resolves each row's role to its
permissions and writes one comma-separated line per permission.
`resourcemanager.go` holds all of that logic. This project models it:

- **Types** (`types.dfy`): rows, roles, the canonical policy and the two
  provider policy schemas (v1 for organizations and projects, v2 for
  folders), ancestors, paged listings, errors. The cloud services are one
  immutable value, `Cloud`:
  - a role map
  - a policy fetch per tier
  - a paged listing of folders by parent and of projects by filter
  - an ancestry lookup
  - a credentials lookup
- **Listings** (`listing.dfy`): draining a paged listing.
- **Normalize** (`normalize.dfy`): the v1/v2 → canonical policy
  normaliser. The version as written drops every condition and is the one
  the pipeline runs; the corrected version is proved lossless beside it (see
  Findings).
- **Flattener** (`flatten.dfy`): `addBindings`, one row per (binding,
  member).
- **Roles** (`roles.dfy`): the memoising role resolver. The scoped URI
  `<type>s/<resource>/<role>` is tried first for organization and project
  rows, then the bare role.
- **Output** (`output.dfy`): which lines `Row.Print` writes.
- **Ancestry** (`ancestry.dfy`): `convertAncestors` and organization-id
  resolution.
- **Aggregate** (`aggregate.dfy`): the three tiers and the fail-fast run, as
  functions of the cloud.
- **Manager** (`resourcemanager.dfy`): the `ResourceManager` class. Its
  fields are `orgId`, the `roleMap` cache and a ghost log of service calls.
  Its methods are proved against the functions above, and `Valid()` (the
  cache agrees with the role service) is kept by every method.
- **Scenarios** (`scenarios.dfy`): a small organization run end to end,
  plus role resolution for custom roles.

Where the code and its design description differ, the model follows the
code:
- A binding's condition is never copied, because the code tests the
  condition of the freshly allocated destination. The policy fetches
  therefore return bindings without conditions. `Aggregate.AsWrittenSameRows`
  shows that this does not change any row.
- When the project id is supplied and its lookup fails, `NewResourceManager`
  reports the failure against the empty project name `p`, as the code does.
- The scoped URI is built verbatim. No `roles/` segment is inserted, so a
  row with role `myrole` on project P tries `projects/P/myrole`, not
  `projects/P/roles/myrole` (`Scenarios.BareCustomRoleName`).
- An ancestors payload of an unrecognised shape converts to no ancestors
  rather than to an error.
- A failed listing reports its error, and the tier stops with no rows, as
  the callers of the listing functions do.

## Model

| member | source | states |
|---|---|---|
| Listings.ConcatMembers | resourcemanager.go:211-231 | an item is in the drained listing exactly when some page holds it |
| Listings.DrainPages | resourcemanager.go:233-248 | the listing loop yields every page's items in page order, or the listing's error |
| Normalize.ConvertIntoV1 | resourcemanager.go:315-322 | members and role are copied; a condition is present afterwards exactly when the destination already had one, and it is then the converted source condition |
| Normalize.ConvertIntoV2 | resourcemanager.go:323-330 | the same for the v2 schema |
| Normalize.ConvertBindingV1AsWritten | resourcemanager.go:294-322 | a binding converted into a fresh destination keeps members and role and never has a condition |
| Normalize.ConvertBindingV2AsWritten | resourcemanager.go:301-330 | the same for the v2 schema |
| Normalize.NormalizeV1AsWritten | resourcemanager.go:284-322 | same binding count, etag copied, each binding's role and members copied index for index, every condition absent |
| Normalize.NormalizeV2AsWritten | resourcemanager.go:289-330 | the same for the v2 schema |
| Normalize.ConvertBindingV1 | resourcemanager.go:315-322 | corrected conversion: converting back to v1 gives the source binding, condition included |
| Normalize.ConvertBindingV2 | resourcemanager.go:323-330 | corrected conversion: converting back to v2 gives the source binding |
| Normalize.NormalizeV1 | resourcemanager.go:284-287 | corrected v1 normalisation keeps the binding count and loses nothing: converting back gives the input |
| Normalize.NormalizeV2 | resourcemanager.go:289-292 | corrected v2 normalisation keeps the binding count and loses nothing |
| Normalize.VersionsAgree | resourcemanager.go:284-350 | a v1 and a v2 policy with the same fields normalise to the same canonical policy, as written and as corrected |
| Normalize.AsWrittenLossless | resourcemanager.go:315-330 | the as-written v1 and v2 conversions each round-trip exactly when no binding has a condition |
| Normalize.ConditionDroppedWitness | resourcemanager.go:315-322 | a concrete conditional binding whose condition the as-written conversion drops and the corrected one keeps |
| Normalize.ConvertBindingsV1 | resourcemanager.go:294-300 | the filled slice has one binding per source binding, index for index, each the source converted into a fresh destination (members and role, no condition) |
| Normalize.ConvertBindingsV2 | resourcemanager.go:301-307 | the same for the v2 schema |
| Normalize.ConvertPolicyV1 | resourcemanager.go:284-287 | the converted policy is the as-written normalisation of the v1 input: etag, binding count, each role and member list, no conditions |
| Normalize.ConvertPolicyV2 | resourcemanager.go:289-292 | the converted policy is the as-written normalisation of the v2 input |
| Flattener.FlattenLength | resourcemanager.go:387-399 | flattening yields exactly one row per (binding, member) pair |
| Flattener.FlattenAt | resourcemanager.go:387-399 | the row for member j of binding i sits after the rows of earlier bindings and members and carries the resource, type, role and that member |
| Flattener.FlattenFrom | resourcemanager.go:387-399 | every flattened row comes from some member of some binding, at that position |
| Flattener.FlattenIgnoresConditions | resourcemanager.go:387-399 | rows depend on roles and members only, never on conditions |
| Flattener.AddBindings | resourcemanager.go:387-399 | the new rows are appended after the existing ones, which stay unchanged; exactly one row is added per (binding, member) |
| Output.PrintedLines | resourcemanager.go:38-53 | one line per permission in order when the lookup succeeds; exactly one `UNKNOWN` line when it fails |
| Output.SplitJoin | resourcemanager.go:46 | splitting comma-free fields joined by commas gives the fields back |
| Output.LineRoundTrip | resourcemanager.go:46 | a line reads back as Resource, Type, Member, Role, Permission when no field holds a comma |
| Roles.FirstKnown | resourcemanager.go:114-134 | the first candidate URI the role service knows (no earlier candidate is known), or none when it knows none of them |
| Roles.ResolveAgreesWithDirect | resourcemanager.go:114-147 | with a sound cache, resolution answers as the uncached reference resolver does, and the cache stays sound |
| Roles.ResolveFailsIff | resourcemanager.go:114-134 | resolution fails exactly when every candidate misses both the cache and the service |
| Roles.ResolveCacheGrowth | resourcemanager.go:136-147 | the cache only grows, only by candidates the service knows, with the service's role; a failure leaves it unchanged |
| Roles.ResolveQueries | resourcemanager.go:114-147 | service calls go to uncached candidates in candidate order, at most one each |
| Roles.ScopedFirst | resourcemanager.go:118-128 | when the scoped URI resolves, the bare role is never looked up; other row types never look up a scoped URI |
| Roles.ResolveTwice | resourcemanager.go:136-147 | a second resolution of the same row gives the same answer; after a successful first resolution it makes at most one service call, and none if the scoped URI is then cached or the row is not scoped; a failed first resolution gives no bound |
| Ancestry.ConvertAncestors | resourcemanager.go:268-277 | the converted ancestors have the input's length, order, ids and types; an unrecognised shape gives none |
| Ancestry.OrgIdIsLastAncestor | resourcemanager.go:178-185 | the organization id is the last raw ancestor's id, found exactly when the ancestry call returns a non-empty list |
| Ancestry.FallbackOrder | resourcemanager.go:85-102 | an explicit org id is used with no lookup; an explicit project id skips the credentials; otherwise the credentials are read first and their project id is the one looked up; the id found is that of the project looked up |
| Ancestry.AsWrittenAgreesOnSuccess | resourcemanager.go:85-102 | the as-written and corrected resolutions make the same calls and agree on every success and every credentials-branch failure; with a supplied project the as-written error names "" where the corrected one names the project |
| Ancestry.AsWrittenLosesProjectWitness | resourcemanager.go:98-101 | with a supplied project whose ancestry call fails, the as-written error names project "" and the corrected one names the project |
| Aggregate.ProjectsFilterInjective | resourcemanager.go:207-209 | distinct organizations are listed with distinct project filters |
| Aggregate.TargetRowsComplete | resourcemanager.go:401-436 | a tier completes exactly when every one of its policies can be fetched |
| Aggregate.TargetRowsFirstFailure | resourcemanager.go:408-414 | a failed tier stopped at the first resource whose policy failed, with that error and the rows of the resources before it |
| Aggregate.TargetRowsStopsAtFailure | resourcemanager.go:408-414 | once a tier fails, nothing after the failing resource changes its rows or error |
| Aggregate.TargetRowsCount | resourcemanager.go:401-436 | a complete tier has one row per (resource, binding, member) |
| Aggregate.TargetRowsKind | resourcemanager.go:401-436 | every row of a tier carries the tier's type |
| Aggregate.FlattenKind | resourcemanager.go:387-399 | every flattened row carries the type it was flattened with |
| Aggregate.FolderStageComplete | resourcemanager.go:401-417 | the folder tier completes exactly when the folder listing and every listed folder's policy can be fetched |
| Aggregate.ProjectStageComplete | resourcemanager.go:419-436 | the project tier completes exactly when the project listing and every listed project's policy can be fetched |
| Aggregate.AllPolicyRowsSucceed | resourcemanager.go:451-471 | a run succeeds exactly when every policy and listing can be fetched, and then gives organization rows, folder rows, project rows in that order |
| Aggregate.FolderFailureFailsRun | resourcemanager.go:401-471 | one folder whose policy fails fails the whole run, with the error of the first failing folder (every folder before it succeeds) |
| Aggregate.ProjectFailureFailsRun | resourcemanager.go:419-471 | one project whose policy fails fails the whole run |
| Aggregate.AllPolicyRowsTierOrder | resourcemanager.go:451-471 | organization rows precede folder rows, which precede project rows |
| Aggregate.AllPolicyRowsCount | resourcemanager.go:451-471 | a successful run has one row per (resource, binding, member) over all three tiers |
| Aggregate.AsWrittenSameRows | resourcemanager.go:387-399 | the as-written and corrected normalisers give identical rows |
| Manager.ResourceManager.constructor | resourcemanager.go:77-84 | a new manager has the given organization id, an empty, sound role cache and no calls made |
| Manager.ResourceManager.RoleByUri | resourcemanager.go:136-148 | a cache hit answers from the cache with no call and no change; a miss makes one call and caches exactly uri ↦ role on success, nothing on failure |
| Manager.ResourceManager.GetRole | resourcemanager.go:114-134 | the result, new cache and calls are those of the scoped-then-bare resolver; the result is the uncached reference answer and the cache stays sound |
| Manager.ResourceManager.GetRolePermissions | resourcemanager.go:106-112 | the role's included permissions, or an error naming the row |
| Manager.ResourceManager.PrintRow | resourcemanager.go:38-53 | the lines written are one per permission of the row's role, or one `UNKNOWN` line; the error returned is the permission lookup's, if any |
| Manager.ResourceManager.ProjectIdFromCredentials | resourcemanager.go:150-176 | the credentials' project id or their error, with one credentials call logged |
| Manager.ResourceManager.GetAncestryForProject | resourcemanager.go:259-266 | the converted ancestry, or the service's error, with one ancestry call logged |
| Manager.ResourceManager.GetOrgIdFromProjectId | resourcemanager.go:178-186 | on success the organization id becomes the last ancestor's id; on failure it is unchanged and the error names the project |
| Manager.ResourceManager.GetIamPolicyForOrganization | resourcemanager.go:364-373 | the organization's v1 policy normalised as the code does (conditions dropped), or the service's error |
| Manager.ResourceManager.GetIamPolicyForFolder | resourcemanager.go:375-385 | the folder's v2 policy normalised as the code does (conditions dropped), or the service's error |
| Manager.ResourceManager.GetIamPolicyForProject | resourcemanager.go:352-362 | the project's v1 policy normalised as the code does (conditions dropped), or the service's error |
| Manager.ResourceManager.FoldersList | resourcemanager.go:233-248 | every folder under the parent in page order, or the listing's error |
| Manager.ResourceManager.ProjectsListByFilter | resourcemanager.go:211-231 | every project matching the filter in page order, or the listing's error |
| Manager.ResourceManager.ProjectsList | resourcemanager.go:207-209 | the projects listed with the organization's parent filter |
| Manager.ResourceManager.GetOrgPolicyRows | resourcemanager.go:438-449 | the organization tier's rows, or its error with no rows |
| Manager.ResourceManager.GetFolderPolicyRows | resourcemanager.go:401-417 | the folder tier's rows, or its error with the rows of the folders before the failing one |
| Manager.ResourceManager.GetProjectPolicyRows | resourcemanager.go:419-436 | the project tier's rows, or its error with the rows of the projects before the failing one |
| Manager.ResourceManager.GetAllPolicyRows | resourcemanager.go:451-471 | the fail-fast run: the three tiers' rows in order, or the first error |
| Manager.NewResourceManager | resourcemanager.go:64-104 | a manager exactly when organization-id resolution as written succeeds, with the resolved id, an empty sound cache and the resolution's calls; otherwise its error, naming the credentials' project or "" |
| Scenarios.SmallOrganizationRows | resourcemanager.go:451-471 | an organization with two members, an empty folder and a one-member project yields those three rows in order |
| Scenarios.SmallOrganizationPermissions | resourcemanager.go:114-134 | those rows' predefined roles resolve through the bare role after the scoped URI misses: two service calls each, scoped URI first |
| Scenarios.ScopedCustomRole | resourcemanager.go:118-124 | role `roles/myrole` on project P resolves through `projects/P/roles/myrole` with one call |
| Scenarios.BareCustomRoleName | resourcemanager.go:118-128 | role `myrole` on project P tries `projects/P/myrole`, then `myrole`, and does not find `projects/P/roles/myrole` |

## Left out

- `main.go` is not part of this model: flag parsing, the temporary CSV file, flushing, timing and logging are I/O.
- The API clients (`v1beta1`, `v2beta1`, `iam`), their creation errors (resourcemanager.go:65-76) and the request context are left out. Each service is a field of `Cloud`; a listing is its pages plus an optional failure.
- Manager.ResourceManager.ProjectIdFromCredentials: the default credentials, the `os.Stat` and file read and the JSON parsing are one oracle, `Cloud.credentials`, so its distinct error messages are not modelled.
- Types.Cloud.credentials may yield an empty project id, which the credentials lookup never returns (resourcemanager.go:152, 171); no contract depends on it being non-empty.
- `OrganizationsList` (resourcemanager.go:188-200) is not used by the pipeline and is left out.
- Manager.ResourceManager.PrintRow: the `fmt.Fprintf` writes and the break on a write error are left out. Only the lines produced and the permission-lookup error returned are modelled.
- Log and console messages are left out. Errors are structured values, not formatted strings.
- Manager.ResourceManager.GetOrgIdFromProjectId: an empty ancestry makes the code index out of range (resourcemanager.go:183). The model reports it as the error `EmptyAncestry` instead.
- Output.LineRoundTrip: states the read-back only for comma-free fields, because fields are written unquoted and a comma in a field cannot be told apart from a separator.
- The role service is modelled as a fixed map, so it answers the same URI the same way every time.
- `calls` logs role, credentials and ancestry calls only. Policy and listing calls are not logged.

## Findings

| source | as written | input that shows it | evidently intended | confidence | as-written member | corrected member |
|---|---|---|---|---|---|---|
| resourcemanager.go:315-330 | `Binding.convertV1`/`convertV2` test `b.Condition`, the freshly allocated destination, which is always nil, so a condition is never copied | a v1 binding with condition "business hours" (`Normalize.ConditionDroppedWitness`) | test `binding.Condition`, the source, and copy the condition when it has one | high; not executed | Normalize.ConvertBindingV1AsWritten | Normalize.ConvertBindingV1 |
| resourcemanager.go:98-101 | when the project id is supplied, the error reports `p`, which is still "" | orgId "", projectId "my-project" whose ancestry call fails (`Ancestry.AsWrittenLosesProjectWitness`) | report the project id that was looked up | high; not executed | Ancestry.ResolveOrgIdAsWritten | Ancestry.ResolveOrgId |
