/** Fully-qualified Iceberg table names: `database.schema.table`, falling
    back to `schema.table` and then to `table`, and the write statement that
    embeds such a name. */
module TableNames {
  import opened Wrappers

  /** Python truthiness of an optional string: None and "" are both false. */
  predicate Present(part: Option<string>) {
    part.Some? && part.value != ""
  }

  /** Without a table, `fqn` is never bound and Python raises UnboundLocalError. */
  datatype NameError = TableMissing

  /** `_get_fqn(table, schema, database)`. */
  function QualifiedName(table: Option<string>, schema: Option<string>, database: Option<string>)
    : (r: Result<string, NameError>)
    ensures r.Err? <==> !Present(table)
    ensures r.Ok? ==> |r.value| >= |table.value| && r.value[|r.value| - |table.value|..] == table.value
  {
    if Present(database) && Present(schema) && Present(table) then
      Ok(database.value + "." + schema.value + "." + table.value)
    else if Present(schema) && Present(table) then
      Ok(schema.value + "." + table.value)
    else if Present(table) then
      Ok(table.value)
    else
      Err(TableMissing)
  }

  /** The parts a qualified name is made of, outermost first: the database
      only together with a schema, the schema whenever it is given. */
  function NameParts(table: string, schema: Option<string>, database: Option<string>): seq<string> {
    if Present(schema) then
      (if Present(database) then [database.value] else []) + [schema.value, table]
    else
      [table]
  }

  /** `s.split(".")`. */
  function SplitDots(s: string): (parts: seq<string>)
    ensures |parts| >= 1
  {
    if s == [] then [""]
    else
      var tail := SplitDots(s[1..]);
      if s[0] == '.' then [""] + tail else [[s[0]] + tail[0]] + tail[1..]
  }

  lemma {:induction false} SplitWithoutDot(a: string)
    requires '.' !in a
    ensures SplitDots(a) == [a]
  {
    if a != [] {
      assert '.' !in a[1..] by {
        forall i | 0 <= i < |a[1..]| ensures a[1..][i] != '.' {
          assert a[1..][i] == a[i + 1];
        }
      }
      SplitWithoutDot(a[1..]);
      assert [a[0]] + a[1..] == a;
    }
  }

  lemma {:induction false} SplitAfterPart(a: string, b: string)
    requires '.' !in a
    ensures SplitDots(a + "." + b) == [a] + SplitDots(b)
  {
    var s := a + "." + b;
    if a == [] {
      assert s == "." + b;
      assert s[1..] == b;
    } else {
      assert s[0] == a[0];
      assert s[1..] == a[1..] + "." + b;
      assert '.' !in a[1..] by {
        forall i | 0 <= i < |a[1..]| ensures a[1..][i] != '.' {
          assert a[1..][i] == a[i + 1];
        }
      }
      SplitAfterPart(a[1..], b);
      assert [a[0]] + a[1..] == a;
    }
  }

  /** When no part contains a dot, splitting the qualified name at its dots
      gives back exactly the parts it was built from, in order: the priority
      rules lose nothing but a database given without a schema. */
  lemma QualifiedNameSplits(table: Option<string>, schema: Option<string>, database: Option<string>)
    requires Present(table)
    requires '.' !in table.value
    requires Present(schema) ==> '.' !in schema.value
    requires Present(database) ==> '.' !in database.value
    ensures QualifiedName(table, schema, database).Ok?
    ensures SplitDots(QualifiedName(table, schema, database).value) == NameParts(table.value, schema, database)
  {
    SplitWithoutDot(table.value);
    if Present(schema) {
      SplitAfterPart(schema.value, table.value);
      if Present(database) {
        assert database.value + "." + schema.value + "." + table.value ==
               database.value + "." + (schema.value + "." + table.value);
        SplitAfterPart(database.value, schema.value + "." + table.value);
      }
    }
  }

  /** A database given without a schema is dropped. */
  lemma DatabaseNeedsSchema(table: Option<string>, schema: Option<string>, database: Option<string>)
    requires !Present(schema)
    ensures QualifiedName(table, schema, database) == QualifiedName(table, None, None)
  {
  }

  /** The statement `to_iceberg` hands to the session: `df.writeTo(<fqn>,
      if_exists=<policy>)`. A missing table fails before any statement is
      formed. */
  function WriteToStatement(table: Option<string>, schema: Option<string>, database: Option<string>, ifExists: string)
    : (r: Result<string, NameError>)
    ensures r.Err? <==> !Present(table)
    ensures r.Ok? ==>
      var fqn := QualifiedName(table, schema, database).value;
      |r.value| == |fqn| + |ifExists| + 24 &&
      r.value[..11] == "df.writeTo(" &&
      r.value[11..11 + |fqn|] == fqn &&
      r.value[11 + |fqn|..23 + |fqn|] == ", if_exists=" &&
      r.value[|r.value| - 1 - |ifExists|..|r.value| - 1] == ifExists &&
      r.value[|r.value| - 1] == ')'
  {
    match QualifiedName(table, schema, database)
    case Err(e) => Err(e)
    case Ok(fqn) => Ok("df.writeTo(" + fqn + ", if_exists=" + ifExists + ")")
  }
}
