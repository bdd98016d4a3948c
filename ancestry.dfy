/** Organization-id resolution: an explicit organization id wins; otherwise
    the project id (given, or else found in the credentials) is looked up and
    the organization is the last, outermost, element of its ancestry. */
module Ancestry {
  import opened Types

  /** `convertAncestors`: the recognised ancestor list converted element by
      element; any other shape gives no ancestors. */
  function ConvertedAncestors(payload: AncestorsPayload): seq<Ancestor>
  {
    match payload
    case V1Ancestors(a) =>
      seq(|a|, i requires 0 <= i < |a| => Ancestor(ResourceId(a[i].resourceId.id, a[i].resourceId.kind)))
    case OtherShape => []
  }

  /** `convertAncestors` fills a slice of the input's length, index by index:
      the same ancestors, in the same order. */
  method ConvertAncestors(payload: AncestorsPayload) returns (results: seq<Ancestor>)
    ensures results == ConvertedAncestors(payload)
    ensures payload.V1Ancestors? ==>
      (|results| == |payload.ancestors|
       && forall i :: 0 <= i < |results| ==>
            results[i].resourceId.id == payload.ancestors[i].resourceId.id
            && results[i].resourceId.kind == payload.ancestors[i].resourceId.kind)
    ensures payload.OtherShape? ==> results == []
  {
    results := [];
    if payload.V1Ancestors? {
      var v1 := payload.ancestors;
      var a := new Ancestor[|v1|];
      var i := 0;
      while i < |v1|
        invariant 0 <= i <= |v1|
        invariant forall k :: 0 <= k < i ==> a[k] == Ancestor(ResourceId(v1[k].resourceId.id, v1[k].resourceId.kind))
      {
        a[i] := Ancestor(ResourceId(v1[i].resourceId.id, v1[i].resourceId.kind));
        i := i + 1;
      }
      results := a[..];
    }
  }

  /** `GetOrgIdFromProjectId`'s outcome: the id of the last ancestor of the
      project. A failed ancestry call is reported with the project id; an
      empty ancestry (on which the code would index out of range) is an error
      of its own. */
  function OrgIdOfProject(cloud: Cloud, projectId: string): Result<string>
  {
    match cloud.ancestry(projectId)
    case Err(e) => Err(AncestryFailed(projectId, e))
    case Ok(payload) =>
      var a := ConvertedAncestors(payload);
      if |a| == 0 then Err(EmptyAncestry(projectId)) else Ok(a[|a| - 1].resourceId.id)
  }

  /** The organization id is the id of the LAST raw ancestor, and it is found
      exactly when the ancestry call succeeds with a non-empty list of the
      recognised shape. */
  lemma OrgIdIsLastAncestor(cloud: Cloud, projectId: string)
    ensures OrgIdOfProject(cloud, projectId).Ok? <==>
      cloud.ancestry(projectId).Ok? && cloud.ancestry(projectId).value.V1Ancestors?
      && |cloud.ancestry(projectId).value.ancestors| > 0
    ensures OrgIdOfProject(cloud, projectId).Ok? ==>
      var a := cloud.ancestry(projectId).value.ancestors;
      OrgIdOfProject(cloud, projectId).value == a[|a| - 1].resourceId.id
  {
  }

  /** The outcome of organization-id resolution and the service calls made. */
  datatype OrgResolution = OrgResolution(result: Result<string>, calls: seq<Call>)

  /** A failed project lookup, reported against `subject`. */
  function ReportFailure(r: Result<string>, subject: string): Result<string>
  {
    if r.Err? then Err(OrgIdFromProjectFailed(subject, r.error)) else r
  }

  /** `NewResourceManager`'s organization-id branch as written: a failed
      lookup is reported against `p`, the project id taken from the
      credentials, which is empty when the caller supplied the project id. */
  function ResolveOrgIdAsWritten(cloud: Cloud, credentialsPath: string, orgId: string, projectId: string): OrgResolution
  {
    if orgId != "" then OrgResolution(Ok(orgId), [])
    else if projectId == "" then
      match cloud.credentials(credentialsPath)
      case Err(e) => OrgResolution(Err(CredentialsFailed(e)), [CredentialsLookup(credentialsPath)])
      case Ok(p) =>
        OrgResolution(ReportFailure(OrgIdOfProject(cloud, p), p), [CredentialsLookup(credentialsPath), AncestryGet(p)])
    else
      OrgResolution(ReportFailure(OrgIdOfProject(cloud, projectId), ""), [AncestryGet(projectId)])
  }

  /** Organization-id resolution as intended: a failed lookup is reported
      against the project id that was looked up. */
  function ResolveOrgId(cloud: Cloud, credentialsPath: string, orgId: string, projectId: string): OrgResolution
  {
    if orgId != "" then OrgResolution(Ok(orgId), [])
    else if projectId == "" then
      match cloud.credentials(credentialsPath)
      case Err(e) => OrgResolution(Err(CredentialsFailed(e)), [CredentialsLookup(credentialsPath)])
      case Ok(p) =>
        OrgResolution(ReportFailure(OrgIdOfProject(cloud, p), p), [CredentialsLookup(credentialsPath), AncestryGet(p)])
    else
      OrgResolution(ReportFailure(OrgIdOfProject(cloud, projectId), projectId), [AncestryGet(projectId)])
  }

  /** The fallback order: an explicit organization id is used as is, with no
      lookup at all; otherwise an explicit project id is looked up without
      consulting the credentials; only when both are empty are the
      credentials consulted, first, and their project id looked up. The
      organization id found is the last ancestor's of the project looked up,
      and a failure names that project. */
  lemma FallbackOrder(cloud: Cloud, credentialsPath: string, orgId: string, projectId: string)
    ensures var o := ResolveOrgId(cloud, credentialsPath, orgId, projectId);
      && (orgId != "" ==> o.result == Ok(orgId) && o.calls == [])
      && (orgId == "" && projectId != "" ==> o.calls == [AncestryGet(projectId)])
      && (orgId == "" && projectId == "" ==>
            1 <= |o.calls| && o.calls[0] == CredentialsLookup(credentialsPath)
            && (cloud.credentials(credentialsPath).Err? <==> o.calls == [CredentialsLookup(credentialsPath)])
            && (cloud.credentials(credentialsPath).Ok? ==>
                  o.calls == [CredentialsLookup(credentialsPath), AncestryGet(cloud.credentials(credentialsPath).value)]))
      && (orgId == "" && o.calls[|o.calls| - 1].AncestryGet? ==>
            var used := o.calls[|o.calls| - 1].projectId;
            (o.result.Ok? ==> o.result == OrgIdOfProject(cloud, used))
            && (o.result.Err? ==> o.result.error == OrgIdFromProjectFailed(used, OrgIdOfProject(cloud, used).error)))
  {
  }

  /** The two versions agree on every success and on every call made; they
      differ only in the project named by the error, and only when the
      project id was supplied, where the version as written names "". */
  lemma AsWrittenAgreesOnSuccess(cloud: Cloud, credentialsPath: string, orgId: string, projectId: string)
    ensures var w := ResolveOrgIdAsWritten(cloud, credentialsPath, orgId, projectId);
            var c := ResolveOrgId(cloud, credentialsPath, orgId, projectId);
            && w.calls == c.calls && w.result.Ok? == c.result.Ok? && (c.result.Ok? ==> w.result == c.result)
            && (orgId != "" || projectId == "" ==> w.result == c.result)
            && (orgId == "" && projectId != "" && c.result.Err? ==>
                  c.result.error == OrgIdFromProjectFailed(projectId, OrgIdOfProject(cloud, projectId).error)
                  && w.result.error == OrgIdFromProjectFailed("", OrgIdOfProject(cloud, projectId).error))
  {
  }

  /** A supplied project id whose ancestry call fails: the error as written
      names the project "", not the project that was looked up. */
  lemma AsWrittenLosesProjectWitness(cloud: Cloud)
    requires cloud.ancestry("my-project") == Err(ServiceError("permission denied"))
    ensures ResolveOrgIdAsWritten(cloud, "", "", "my-project").result
      == Err(OrgIdFromProjectFailed("", AncestryFailed("my-project", ServiceError("permission denied"))))
    ensures ResolveOrgId(cloud, "", "", "my-project").result
      == Err(OrgIdFromProjectFailed("my-project", AncestryFailed("my-project", ServiceError("permission denied"))))
  {
  }
}
