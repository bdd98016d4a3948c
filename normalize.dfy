/** The policy normaliser: the v1 (organization, project) and v2 (folder)
    policy schemas projected onto the one canonical `Policy`.

    A binding's condition is where the code and its evident intent part: the
    code tests the condition of the freshly allocated destination binding,
    which is always absent, so it never copies a condition. The functions
    suffixed `AsWritten` model that, and are what the policy fetches of the
    model run; the unsuffixed ones copy the source's condition when there is
    one, and are the corrected conversion, proved lossless. */
module Normalize {
  import opened Types

  function ConvertExprV1(e: V1Expr): Expr
  {
    Expr(e.description, e.expression, e.location, e.title)
  }

  function ConvertExprV2(e: V2Expr): Expr
  {
    Expr(e.description, e.expression, e.location, e.title)
  }

  /** A destination binding as the normaliser allocates it: no condition,
      no members, no role. */
  const FreshBinding: Binding := Binding(None, [], "")

  /** `Binding.convertV1` as written: members and role are copied into
      `dest`, and a condition is converted only if `dest` ALREADY has one;
      the source binding must then have one too, or the conversion faults. */
  function ConvertIntoV1(dest: Binding, b: V1Binding): (r: Binding)
    requires dest.condition.Some? ==> b.condition.Some?
    ensures r.members == b.members && r.role == b.role
    ensures r.condition.Some? <==> dest.condition.Some?
    ensures dest.condition.Some? ==> r.condition == Some(ConvertExprV1(b.condition.value))
  {
    var d := dest.(members := b.members, role := b.role);
    if d.condition.Some? then d.(condition := Some(ConvertExprV1(b.condition.value))) else d
  }

  /** How the normaliser converts each binding: into a fresh destination, so
      whatever condition the source has is dropped. */
  function ConvertBindingV1AsWritten(b: V1Binding): (r: Binding)
    ensures r.condition.None?
    ensures r.members == b.members && r.role == b.role
  {
    ConvertIntoV1(FreshBinding, b)
  }

  /** `Binding.convertV2` as written: members and role are copied into
      `dest`, and a condition is converted only if `dest` ALREADY has one;
      the source binding must then have one too, or the conversion faults. */
  function ConvertIntoV2(dest: Binding, b: V2Binding): (r: Binding)
    requires dest.condition.Some? ==> b.condition.Some?
    ensures r.members == b.members && r.role == b.role
    ensures r.condition.Some? <==> dest.condition.Some?
    ensures dest.condition.Some? ==> r.condition == Some(ConvertExprV2(b.condition.value))
  {
    var d := dest.(members := b.members, role := b.role);
    if d.condition.Some? then d.(condition := Some(ConvertExprV2(b.condition.value))) else d
  }

  /** How the normaliser converts each binding: into a fresh destination, so
      whatever condition the source has is dropped. */
  function ConvertBindingV2AsWritten(b: V2Binding): (r: Binding)
    ensures r.condition.None?
    ensures r.members == b.members && r.role == b.role
  {
    ConvertIntoV2(FreshBinding, b)
  }

  /** Policy conversion as written: same number of bindings, etag copied,
      each binding's role and members copied index for index, no condition. */
  function NormalizeV1AsWritten(p: V1Policy): (r: Policy)
    ensures r.etag == p.etag && |r.bindings| == |p.bindings|
    ensures forall i :: 0 <= i < |p.bindings| ==>
      r.bindings[i].role == p.bindings[i].role && r.bindings[i].members == p.bindings[i].members
    ensures forall i :: 0 <= i < |r.bindings| ==> r.bindings[i].condition.None?
  {
    Policy(seq(|p.bindings|, i requires 0 <= i < |p.bindings| => ConvertBindingV1AsWritten(p.bindings[i])), p.etag)
  }

  function NormalizeV2AsWritten(p: V2Policy): (r: Policy)
    ensures r.etag == p.etag && |r.bindings| == |p.bindings|
    ensures forall i :: 0 <= i < |p.bindings| ==>
      r.bindings[i].role == p.bindings[i].role && r.bindings[i].members == p.bindings[i].members
    ensures forall i :: 0 <= i < |r.bindings| ==> r.bindings[i].condition.None?
  {
    Policy(seq(|p.bindings|, i requires 0 <= i < |p.bindings| => ConvertBindingV2AsWritten(p.bindings[i])), p.etag)
  }

  // The way back to each provider schema, to state that the corrected
  // normaliser loses nothing.

  function ExprToV1(e: Expr): V1Expr
  {
    V1Expr(e.description, e.expression, e.location, e.title)
  }

  function ExprToV2(e: Expr): V2Expr
  {
    V2Expr(e.description, e.expression, e.location, e.title)
  }

  function BindingToV1(b: Binding): V1Binding
  {
    V1Binding(if b.condition.Some? then Some(ExprToV1(b.condition.value)) else None, b.members, b.role)
  }

  function BindingToV2(b: Binding): V2Binding
  {
    V2Binding(if b.condition.Some? then Some(ExprToV2(b.condition.value)) else None, b.members, b.role)
  }

  function PolicyToV1(p: Policy): V1Policy
  {
    V1Policy(seq(|p.bindings|, i requires 0 <= i < |p.bindings| => BindingToV1(p.bindings[i])), p.etag)
  }

  function PolicyToV2(p: Policy): V2Policy
  {
    V2Policy(seq(|p.bindings|, i requires 0 <= i < |p.bindings| => BindingToV2(p.bindings[i])), p.etag)
  }

  /** Binding conversion as intended: the condition is converted when the
      source binding has one. Nothing is lost. */
  function ConvertBindingV1(b: V1Binding): (r: Binding)
    ensures BindingToV1(r) == b
  {
    Binding(if b.condition.Some? then Some(ConvertExprV1(b.condition.value)) else None, b.members, b.role)
  }

  function ConvertBindingV2(b: V2Binding): (r: Binding)
    ensures BindingToV2(r) == b
  {
    Binding(if b.condition.Some? then Some(ConvertExprV2(b.condition.value)) else None, b.members, b.role)
  }

  /** The canonical policy of a v1 policy; converting back gives the input. */
  function NormalizeV1(p: V1Policy): (r: Policy)
    ensures |r.bindings| == |p.bindings| && PolicyToV1(r) == p
  {
    var r := Policy(seq(|p.bindings|, i requires 0 <= i < |p.bindings| => ConvertBindingV1(p.bindings[i])), p.etag);
    assert PolicyToV1(r).bindings == p.bindings;
    r
  }

  /** The canonical policy of a v2 policy; converting back gives the input. */
  function NormalizeV2(p: V2Policy): (r: Policy)
    ensures |r.bindings| == |p.bindings| && PolicyToV2(r) == p
  {
    var r := Policy(seq(|p.bindings|, i requires 0 <= i < |p.bindings| => ConvertBindingV2(p.bindings[i])), p.etag);
    assert PolicyToV2(r).bindings == p.bindings;
    r
  }

  // The two schemas hold the same information when every field agrees.

  predicate SameExpr(a: V1Expr, b: V2Expr)
  {
    a.description == b.description && a.expression == b.expression
    && a.location == b.location && a.title == b.title
  }

  predicate SameBinding(a: V1Binding, b: V2Binding)
  {
    a.members == b.members && a.role == b.role
    && (a.condition.Some? <==> b.condition.Some?)
    && (a.condition.Some? && b.condition.Some? ==> SameExpr(a.condition.value, b.condition.value))
  }

  predicate SamePolicy(a: V1Policy, b: V2Policy)
  {
    a.etag == b.etag && |a.bindings| == |b.bindings|
    && forall i :: 0 <= i < |a.bindings| ==> SameBinding(a.bindings[i], b.bindings[i])
  }

  /** The two schema versions normalise identically: a v1 and a v2 policy
      carrying the same fields give the same canonical policy, with the
      conversion as written and with the corrected one. */
  lemma VersionsAgree(a: V1Policy, b: V2Policy)
    requires SamePolicy(a, b)
    ensures NormalizeV1(a) == NormalizeV2(b)
    ensures NormalizeV1AsWritten(a) == NormalizeV2AsWritten(b)
  {
    assert NormalizeV1(a).bindings == NormalizeV2(b).bindings;
    assert NormalizeV1AsWritten(a).bindings == NormalizeV2AsWritten(b).bindings;
  }

  /** The conversion as written loses information exactly when some binding
      of the source has a condition. */
  lemma AsWrittenLossless(p: V1Policy, q: V2Policy)
    ensures PolicyToV1(NormalizeV1AsWritten(p)) == p
        <==> forall i :: 0 <= i < |p.bindings| ==> p.bindings[i].condition.None?
    ensures PolicyToV2(NormalizeV2AsWritten(q)) == q
        <==> forall i :: 0 <= i < |q.bindings| ==> q.bindings[i].condition.None?
  {
    var backQ := PolicyToV2(NormalizeV2AsWritten(q));
    if forall i :: 0 <= i < |q.bindings| ==> q.bindings[i].condition.None? {
      assert backQ.bindings == q.bindings;
    }
    if backQ == q {
      forall i | 0 <= i < |q.bindings| ensures q.bindings[i].condition.None? {
        assert backQ.bindings[i] == q.bindings[i];
      }
    }
    var back := PolicyToV1(NormalizeV1AsWritten(p));
    if forall i :: 0 <= i < |p.bindings| ==> p.bindings[i].condition.None? {
      assert back.bindings == p.bindings;
    }
    if back == p {
      forall i | 0 <= i < |p.bindings| ensures p.bindings[i].condition.None? {
        assert back.bindings[i] == p.bindings[i];
      }
    }
  }

  /** A concrete binding that shows the discrepancy: it carries a condition,
      the conversion as written drops it, the corrected one keeps it. */
  lemma ConditionDroppedWitness()
    ensures var b := V1Binding(Some(V1Expr("business hours", "request.time.getHours() < 18", "", "day")),
                               ["user:a@x.com"], "roles/viewer");
            ConvertBindingV1AsWritten(b).condition == None
            && ConvertBindingV1(b).condition == Some(Expr("business hours", "request.time.getHours() < 18", "", "day"))
  {
  }

  /** Fills a freshly allocated slice of bindings, one per source binding,
      each converted into a freshly allocated destination, as the code does. */
  method ConvertBindingsV1(bindings: seq<V1Binding>) returns (r: seq<Binding>)
    ensures |r| == |bindings|
    ensures forall i :: 0 <= i < |bindings| ==> r[i] == ConvertBindingV1AsWritten(bindings[i])
  {
    var a := new Binding[|bindings|];
    var i := 0;
    while i < |bindings|
      invariant 0 <= i <= |bindings|
      invariant forall k :: 0 <= k < i ==> a[k] == ConvertBindingV1AsWritten(bindings[k])
    {
      a[i] := FreshBinding;
      a[i] := ConvertIntoV1(a[i], bindings[i]);
      i := i + 1;
    }
    r := a[..];
  }

  method ConvertBindingsV2(bindings: seq<V2Binding>) returns (r: seq<Binding>)
    ensures |r| == |bindings|
    ensures forall i :: 0 <= i < |bindings| ==> r[i] == ConvertBindingV2AsWritten(bindings[i])
  {
    var a := new Binding[|bindings|];
    var i := 0;
    while i < |bindings|
      invariant 0 <= i <= |bindings|
      invariant forall k :: 0 <= k < i ==> a[k] == ConvertBindingV2AsWritten(bindings[k])
    {
      a[i] := FreshBinding;
      a[i] := ConvertIntoV2(a[i], bindings[i]);
      i := i + 1;
    }
    r := a[..];
  }

  /** Converts a v1 policy: the etag, then the bindings. */
  method ConvertPolicyV1(p: V1Policy) returns (q: Policy)
    ensures q == NormalizeV1AsWritten(p)
  {
    var bindings := ConvertBindingsV1(p.bindings);
    q := Policy(bindings, p.etag);
    assert q.bindings == NormalizeV1AsWritten(p).bindings;
  }

  /** Converts a v2 policy: the etag, then the bindings. */
  method ConvertPolicyV2(p: V2Policy) returns (q: Policy)
    ensures q == NormalizeV2AsWritten(p)
  {
    var bindings := ConvertBindingsV2(p.bindings);
    q := Policy(bindings, p.etag);
    assert q.bindings == NormalizeV2AsWritten(p).bindings;
  }
}
