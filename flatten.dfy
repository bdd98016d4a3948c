/** The binding flattener: one row per (binding, member) pair, binding by
    binding and member by member, appended to the rows collected so far. */
module Flattener {
  import opened Types

  /** The rows of one binding: one per member, in member order. */
  function BindingRows(b: Binding, resource: string, kind: string): seq<Row>
  {
    seq(|b.members|, j requires 0 <= j < |b.members| => Row(resource, kind, b.role, b.members[j]))
  }

  /** The rows of a list of bindings, binding after binding. */
  function FlattenBindings(bs: seq<Binding>, resource: string, kind: string): seq<Row>
    decreases |bs|
  {
    if bs == [] then []
    else FlattenBindings(bs[..|bs| - 1], resource, kind) + BindingRows(bs[|bs| - 1], resource, kind)
  }

  /** The number of (binding, member) pairs. */
  function MemberCount(bs: seq<Binding>): nat
    decreases |bs|
  {
    if bs == [] then 0 else MemberCount(bs[..|bs| - 1]) + |bs[|bs| - 1].members|
  }

  /** Flattening is a pure fan-out: exactly one row per (binding, member). */
  lemma {:induction false} FlattenLength(bs: seq<Binding>, resource: string, kind: string)
    ensures |FlattenBindings(bs, resource, kind)| == MemberCount(bs)
    decreases |bs|
  {
    if bs != [] {
      FlattenLength(bs[..|bs| - 1], resource, kind);
    }
  }

  /** Row order: the row for member `j` of binding `i` sits right after the
      rows of the bindings before `i` and the members before `j`, and carries
      the resource, its kind, the binding's role and that member. */
  lemma {:induction false} FlattenAt(bs: seq<Binding>, resource: string, kind: string, i: int, j: int)
    requires 0 <= i < |bs| && 0 <= j < |bs[i].members|
    ensures MemberCount(bs[..i]) + j < |FlattenBindings(bs, resource, kind)|
    ensures FlattenBindings(bs, resource, kind)[MemberCount(bs[..i]) + j] == Row(resource, kind, bs[i].role, bs[i].members[j])
    decreases |bs|
  {
    var n := |bs| - 1;
    var front := bs[..n];
    FlattenLength(front, resource, kind);
    if i == n {
      assert bs[..i] == front;
    } else {
      assert front[..i] == bs[..i] && front[i] == bs[i];
      FlattenAt(front, resource, kind, i, j);
    }
  }

  /** Nothing else: every row comes from some member of some binding. */
  lemma {:induction false} FlattenFrom(bs: seq<Binding>, resource: string, kind: string, k: int)
    requires 0 <= k < |FlattenBindings(bs, resource, kind)|
    ensures exists i, j ::
      (0 <= i < |bs| && 0 <= j < |bs[i].members|
       && k == MemberCount(bs[..i]) + j
       && FlattenBindings(bs, resource, kind)[k] == Row(resource, kind, bs[i].role, bs[i].members[j]))
    decreases |bs|
  {
    var n := |bs| - 1;
    var front := bs[..n];
    assert bs[..n] == front;
    FlattenLength(front, resource, kind);
    if k < MemberCount(front) {
      FlattenFrom(front, resource, kind, k);
      var i, j :| 0 <= i < |front| && 0 <= j < |front[i].members|
        && k == MemberCount(front[..i]) + j
        && FlattenBindings(front, resource, kind)[k] == Row(resource, kind, front[i].role, front[i].members[j]);
      assert front[..i] == bs[..i];
    } else {
      var j := k - MemberCount(front);
      assert FlattenBindings(bs, resource, kind)[k] == Row(resource, kind, bs[n].role, bs[n].members[j]);
    }
  }

  /** Rows depend on each binding's role and members only, never on its
      condition. */
  lemma {:induction false} FlattenIgnoresConditions(a: seq<Binding>, b: seq<Binding>, resource: string, kind: string)
    requires |a| == |b|
    requires forall i :: 0 <= i < |a| ==> a[i].role == b[i].role && a[i].members == b[i].members
    ensures FlattenBindings(a, resource, kind) == FlattenBindings(b, resource, kind)
    decreases |a|
  {
    if a != [] {
      FlattenIgnoresConditions(a[..|a| - 1], b[..|b| - 1], resource, kind);
    }
  }

  /** `addBindings`: appends the rows of `bindings` to `rows`. The rows that
      were there stay in front, unchanged; exactly one row per (binding,
      member) pair follows. */
  method AddBindings(bindings: seq<Binding>, rows: seq<Row>, resource: string, kind: string) returns (rows': seq<Row>)
    ensures rows' == rows + FlattenBindings(bindings, resource, kind)
    ensures |rows'| == |rows| + MemberCount(bindings) && rows'[..|rows|] == rows
  {
    rows' := rows;
    var i := 0;
    while i < |bindings|
      invariant 0 <= i <= |bindings|
      invariant rows' == rows + FlattenBindings(bindings[..i], resource, kind)
    {
      var b := bindings[i];
      ghost var before := rows';
      var j := 0;
      while j < |b.members|
        invariant 0 <= j <= |b.members|
        invariant rows' == before + BindingRows(b, resource, kind)[..j]
      {
        assert BindingRows(b, resource, kind)[..j + 1]
          == BindingRows(b, resource, kind)[..j] + [Row(resource, kind, b.role, b.members[j])];
        rows' := rows' + [Row(resource, kind, b.role, b.members[j])];
        j := j + 1;
      }
      assert BindingRows(b, resource, kind)[..j] == BindingRows(b, resource, kind);
      assert bindings[..i + 1][..i] == bindings[..i] && bindings[..i + 1][i] == b;
      assert FlattenBindings(bindings[..i + 1], resource, kind)
        == FlattenBindings(bindings[..i], resource, kind) + BindingRows(b, resource, kind);
      i := i + 1;
    }
    assert bindings[..i] == bindings;
    FlattenLength(bindings, resource, kind);
  }
}
