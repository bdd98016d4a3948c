/** The role resolver, as functions of the cache and the role service.

    For an organization or project row the resolver first tries the scoped
    URI `<kind>s/<resource>/<role>` (built verbatim: no `roles/` segment is
    inserted, so a binding role `roles/viewer` on project P tries
    `projects/P/roles/viewer`), then the bare role. Every successful lookup
    is remembered under the URI that was looked up; failures never are. */
module Roles {
  import opened Types

  predicate IsScopedKind(kind: string)
  {
    kind == ProjectKind || kind == OrganizationKind
  }

  /** The resource-scoped URI tried first for organization and project rows. */
  function ScopedUri(row: Row): string
  {
    row.kind + "s/" + row.resource + "/" + row.role
  }

  /** The URIs a row may be resolved through, in the order they are tried. */
  function Candidates(row: Row): seq<string>
  {
    if IsScopedKind(row.kind) then [ScopedUri(row), row.role] else [row.role]
  }

  /** The first URI of `uris` that the role service knows. */
  function FirstKnown(roles: map<string, Role>, uris: seq<string>): (r: Option<string>)
    ensures r.Some? ==> r.value in roles && r.value in uris
    ensures r.None? ==> forall u :: u in uris ==> u !in roles
    ensures r.Some? ==> exists k :: 0 <= k < |uris| && uris[k] == r.value && forall j :: 0 <= j < k ==> uris[j] !in roles
    decreases |uris|
  {
    if uris == [] then None
    else if uris[0] in roles then Some(uris[0])
    else
      var rest := FirstKnown(roles, uris[1..]);
      if rest.Some? then
        var k :| 0 <= k < |uris[1..]| && uris[1..][k] == rest.value && forall j :: 0 <= j < k ==> uris[1..][j] !in roles;
        assert uris[k + 1] == rest.value && forall j :: 0 <= j < k + 1 ==> uris[j] !in roles;
        rest
      else rest
  }

  /** Reference resolution without a cache: the role of the first candidate
      the service knows; failing that, the bare role's lookup error. */
  function ResolveDirect(roles: map<string, Role>, row: Row): Result<Role>
  {
    match FirstKnown(roles, Candidates(row))
    case Some(u) => Ok(roles[u])
    case None => Err(RoleLookupFailed(row.role))
  }

  /** The cache agrees with the role service wherever it has an entry. */
  predicate CacheSound(cache: map<string, Role>, roles: map<string, Role>)
  {
    forall u :: u in cache ==> u in roles && cache[u] == roles[u]
  }

  /** The outcome of a lookup: its result, the cache afterwards and the
      service calls it made. */
  datatype Lookup = Lookup(result: Result<Role>, cache: map<string, Role>, queried: seq<Call>)

  /** `_getRoleByUri`: a cached URI is answered from the cache with no call;
      otherwise the service is asked, and only a found role is cached. */
  function LookupUri(cache: map<string, Role>, roles: map<string, Role>, uri: string): Lookup
  {
    if uri in cache then Lookup(Ok(cache[uri]), cache, [])
    else if uri in roles then Lookup(Ok(roles[uri]), cache[uri := roles[uri]], [RoleGet(uri)])
    else Lookup(Err(RoleLookupFailed(uri)), cache, [RoleGet(uri)])
  }

  /** `GetRole`: the scoped URI first for organization and project rows,
      and the bare role if that fails or for any other kind. */
  function ResolveRole(cache: map<string, Role>, roles: map<string, Role>, row: Row): Lookup
  {
    if IsScopedKind(row.kind) then
      var scoped := LookupUri(cache, roles, ScopedUri(row));
      if scoped.result.Ok? then scoped
      else
        var bare := LookupUri(scoped.cache, roles, row.role);
        Lookup(bare.result, bare.cache, scoped.queried + bare.queried)
    else
      LookupUri(cache, roles, row.role)
  }

  /** Memoisation is transparent: with a sound cache the resolver answers as
      the uncached reference does, and the cache stays sound. */
  lemma ResolveAgreesWithDirect(cache: map<string, Role>, roles: map<string, Role>, row: Row)
    requires CacheSound(cache, roles)
    ensures ResolveRole(cache, roles, row).result == ResolveDirect(roles, row)
    ensures CacheSound(ResolveRole(cache, roles, row).cache, roles)
  {
    if IsScopedKind(row.kind) {
      var s := ScopedUri(row);
      assert Candidates(row)[1..] == [row.role];
      if s !in cache && s !in roles {
        assert FirstKnown(roles, Candidates(row)) == FirstKnown(roles, [row.role]);
      }
    }
  }

  /** The resolver fails only if every candidate misses both the cache and
      the role service. */
  lemma ResolveFailsIff(cache: map<string, Role>, roles: map<string, Role>, row: Row)
    ensures ResolveRole(cache, roles, row).result.Err?
        <==> forall u :: u in Candidates(row) ==> u !in cache && u !in roles
  {
  }

  /** The cache only grows, only by candidates of the row, and only on
      success: a failed resolution leaves it as it was. */
  lemma ResolveCacheGrowth(cache: map<string, Role>, roles: map<string, Role>, row: Row)
    ensures var l := ResolveRole(cache, roles, row);
      (forall u :: u in cache ==> u in l.cache && l.cache[u] == cache[u])
      && (forall u :: u in l.cache && u !in cache ==> u in Candidates(row) && u in roles && l.cache[u] == roles[u])
      && (l.result.Err? ==> l.cache == cache)
  {
  }

  /** Service calls go to candidates missing from the cache, in candidate
      order, at most one per candidate. */
  lemma ResolveQueries(cache: map<string, Role>, roles: map<string, Role>, row: Row)
    ensures var l := ResolveRole(cache, roles, row);
      |l.queried| <= |Candidates(row)|
      && forall k :: 0 <= k < |l.queried| ==>
           l.queried[k] == RoleGet(Candidates(row)[k]) && Candidates(row)[k] !in cache
  {
  }

  /** Lookup order: when the scoped URI resolves (from the cache or the
      service), the bare role is never looked up; rows of other kinds never
      look up a scoped URI. */
  lemma ScopedFirst(cache: map<string, Role>, roles: map<string, Role>, row: Row)
    ensures IsScopedKind(row.kind) && (ScopedUri(row) in cache || ScopedUri(row) in roles) ==>
      RoleGet(row.role) !in ResolveRole(cache, roles, row).queried
      && ResolveRole(cache, roles, row).result == Ok(if ScopedUri(row) in cache then cache[ScopedUri(row)] else roles[ScopedUri(row)])
    ensures !IsScopedKind(row.kind) ==>
      forall c :: c in ResolveRole(cache, roles, row).queried ==> c == RoleGet(row.role)
  {
    if IsScopedKind(row.kind) {
      assert |ScopedUri(row)| > |row.role|;
    }
  }

  /** Resolving the same row twice: the second answer equals the first; if
      the first succeeded, the second makes at most one service call (the
      retried scoped URI), and none at all if it succeeded through the
      scoped URI or for a row of another kind. */
  lemma ResolveTwice(cache: map<string, Role>, roles: map<string, Role>, row: Row)
    ensures var first := ResolveRole(cache, roles, row);
            var second := ResolveRole(first.cache, roles, row);
            second.result == first.result
            && (first.result.Ok? ==> |second.queried| <= 1)
            && (first.result.Ok? && (!IsScopedKind(row.kind) || ScopedUri(row) in first.cache) ==> second.queried == [])
  {
    if IsScopedKind(row.kind) {
      assert |ScopedUri(row)| > |row.role|;
    }
  }

  /** `GetRolePermissions`: the role's included permissions, or an error
      naming the row. */
  function PermissionsOf(row: Row, role: Result<Role>): Result<seq<string>>
  {
    match role
    case Ok(x) => Ok(x.includedPermissions)
    case Err(e) => Err(PermissionsFailed(row, e))
  }
}
