/** The lines a row produces: one comma-separated line per permission of its
    role, or a single line with the `UNKNOWN` sentinel when the role cannot be
    resolved. */
module Output {
  import opened Types

  /** The permission written when a row's role cannot be resolved. */
  const Unknown: string := "UNKNOWN"

  /** The fields of the line for one permission, in output order:
      Resource, Type, Member, Role, Permission. */
  function LineFields(row: Row, permission: string): seq<string>
  {
    [row.resource, row.kind, row.member, row.role, permission]
  }

  /** Fields separated by commas (no quoting). */
  function Join(fields: seq<string>): string
    requires |fields| > 0
    decreases |fields|
  {
    if |fields| == 1 then fields[0] else fields[0] + "," + Join(fields[1..])
  }

  /** One output line: the joined fields and a newline. */
  function CsvLine(fields: seq<string>): string
    requires |fields| > 0
  {
    Join(fields) + "\n"
  }

  /** The permissions a row is written with: its role's, or the sentinel. */
  function PrintedPermissions(permissions: Result<seq<string>>): seq<string>
  {
    if permissions.Ok? then permissions.value else [Unknown]
  }

  /** The lines for a row and a list of permissions, one per permission. */
  function RowLines(row: Row, permissions: seq<string>): seq<string>
  {
    seq(|permissions|, i requires 0 <= i < |permissions| => CsvLine(LineFields(row, permissions[i])))
  }

  /** The lines `Row.Print` writes, given the outcome of the permission
      lookup: one per permission in order when it succeeded (none for a role
      without permissions), otherwise exactly one, whose permission is
      `UNKNOWN`. */
  lemma PrintedLines(row: Row, permissions: Result<seq<string>>)
    ensures permissions.Ok? ==>
      |RowLines(row, PrintedPermissions(permissions))| == |permissions.value|
      && forall i :: 0 <= i < |permissions.value| ==>
           RowLines(row, PrintedPermissions(permissions))[i] == CsvLine(LineFields(row, permissions.value[i]))
    ensures permissions.Err? ==>
      RowLines(row, PrintedPermissions(permissions)) == [CsvLine(LineFields(row, Unknown))]
  {
  }

  /** Splits a string at every comma. */
  function Split(s: string): (r: seq<string>)
    ensures |r| >= 1
    decreases |s|
  {
    if s == [] then [""]
    else
      var rest := Split(s[1..]);
      if s[0] == ',' then [""] + rest else [[s[0]] + rest[0]] + rest[1..]
  }

  /** A comma-free prefix joins the first piece of what follows it. */
  lemma {:induction false} SplitCommaFree(a: string, t: string)
    requires ',' !in a
    ensures Split(a + t) == [a + Split(t)[0]] + Split(t)[1..]
    decreases |a|
  {
    if a == [] {
      assert a + t == t && a + Split(t)[0] == Split(t)[0];
      assert [Split(t)[0]] + Split(t)[1..] == Split(t);
    } else {
      assert (a + t)[0] == a[0];
      assert (a + t)[1..] == a[1..] + t;
      SplitCommaFree(a[1..], t);
      assert [a[0]] + (a[1..] + Split(t)[0]) == a + Split(t)[0];
    }
  }

  /** Splitting a joined list of comma-free fields gives the fields back. */
  lemma {:induction false} SplitJoin(fields: seq<string>)
    requires |fields| > 0
    requires forall i :: 0 <= i < |fields| ==> ',' !in fields[i]
    ensures Split(Join(fields)) == fields
    decreases |fields|
  {
    if |fields| == 1 {
      SplitCommaFree(fields[0], "");
      assert fields[0] + "" == fields[0];
    } else {
      var tail := Join(fields[1..]);
      SplitJoin(fields[1..]);
      assert ("," + tail)[0] == ',' && ("," + tail)[1..] == tail;
      assert Split("," + tail) == [""] + fields[1..];
      assert Join(fields) == fields[0] + ("," + tail);
      SplitCommaFree(fields[0], "," + tail);
      assert fields[0] + "" == fields[0];
    }
  }

  /** Reading a line back: drop the newline, split at commas. */
  function ParseLine(line: string): seq<string>
  {
    if |line| > 0 && line[|line| - 1] == '\n' then Split(line[..|line| - 1]) else Split(line)
  }

  /** When no field holds a comma, each line reads back as Resource, Type,
      Member, Role, Permission, in that order. */
  lemma LineRoundTrip(row: Row, permission: string)
    requires ',' !in row.resource && ',' !in row.kind && ',' !in row.member
    requires ',' !in row.role && ',' !in permission
    ensures ParseLine(CsvLine(LineFields(row, permission))) == [row.resource, row.kind, row.member, row.role, permission]
  {
    var fields := LineFields(row, permission);
    var line := CsvLine(fields);
    assert line[..|line| - 1] == Join(fields);
    SplitJoin(fields);
  }
}
