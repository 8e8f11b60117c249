/**
  The sensitivity catalog: database -> schema -> table -> ordered columns, each
  column carrying its masking level; and table resolution against it.
 */
module Catalog {
  import opened Wrappers
  import opened Seqs
  import opened MaskingLevels
  import opened Fields

  datatype ColumnInfo = ColumnInfo(name: string, maskingLevel: MaskingLevel)
  datatype TableSchema = TableSchema(name: string, columnList: seq<ColumnInfo>)
  datatype SchemaSchema = SchemaSchema(name: string, tableList: seq<TableSchema>)
  datatype DatabaseSchema = DatabaseSchema(name: string, schemaList: seq<SchemaSchema>)
  datatype SensitiveSchemaInfo = SensitiveSchemaInfo(databaseList: seq<DatabaseSchema>)

  /** A table's columns as a field list, in declaration order. */
  function TableFields(columns: seq<ColumnInfo>): (r: FieldList)
    ensures |r| == |columns|
    ensures forall i :: 0 <= i < |columns| ==> r[i].name == columns[i].name && r[i].level == columns[i].maskingLevel
  {
    if |columns| == 0 then [] else [Field(columns[0].name, columns[0].maskingLevel)] + TableFields(columns[1..])
  }

  function FindDatabase(info: SensitiveSchemaInfo, name: string): Option<DatabaseSchema> {
    Find(info.databaseList, (d: DatabaseSchema) => d.name == name)
  }

  function FindSchema(db: DatabaseSchema, name: string): Option<SchemaSchema> {
    Find(db.schemaList, (s: SchemaSchema) => s.name == name)
  }

  function FindTable(schema: SchemaSchema, name: string): Option<TableSchema> {
    Find(schema.tableList, (t: TableSchema) => t.name == name)
  }

  /** Every schema holding a table of this name, with that table. */
  function TableCandidates(schemas: seq<SchemaSchema>, name: string): (r: seq<(string, TableSchema)>)
    ensures forall k :: 0 <= k < |r| ==> r[k].1.name == name
  {
    if |schemas| == 0 then []
    else
      var rest := TableCandidates(schemas[1..], name);
      match FindTable(schemas[0], name)
      case None => rest
      case Some(t) => [(schemas[0].name, t)] + rest
  }

  /** Each candidate is a schema's own table of that name. */
  lemma {:induction false} TableCandidatesSound(schemas: seq<SchemaSchema>, name: string)
    ensures forall k :: 0 <= k < |TableCandidates(schemas, name)| ==>
      exists i :: 0 <= i < |schemas| && schemas[i].name == TableCandidates(schemas, name)[k].0
        && FindTable(schemas[i], name) == Some(TableCandidates(schemas, name)[k].1)
  {
    if |schemas| > 0 {
      var tail := schemas[1..];
      TableCandidatesSound(tail, name);
      var r := TableCandidates(schemas, name);
      var rest := TableCandidates(tail, name);
      var shift := if FindTable(schemas[0], name).Some? then 1 else 0;
      assert r[shift..] == rest;
      forall k | 0 <= k < |r|
        ensures exists i :: 0 <= i < |schemas| && schemas[i].name == r[k].0 && FindTable(schemas[i], name) == Some(r[k].1)
      {
        if k < shift {
          assert schemas[0].name == r[k].0 && FindTable(schemas[0], name) == Some(r[k].1);
        } else {
          assert r[k] == rest[k - shift];
          var j :| 0 <= j < |tail| && tail[j].name == rest[k - shift].0 && FindTable(tail[j], name) == Some(rest[k - shift].1);
          assert schemas[j + 1] == tail[j];
        }
      }
    } else {
      assert TableCandidates(schemas, name) == [];
    }
  }

  /** There is no candidate exactly when no schema has a table of that name. */
  lemma {:induction false} TableCandidatesEmpty(schemas: seq<SchemaSchema>, name: string)
    ensures |TableCandidates(schemas, name)| == 0 <==> forall i :: 0 <= i < |schemas| ==> FindTable(schemas[i], name).None?
  {
    if |schemas| > 0 {
      var tail := schemas[1..];
      TableCandidatesEmpty(tail, name);
      if forall i :: 0 <= i < |schemas| ==> FindTable(schemas[i], name).None? {
        forall i | 0 <= i < |tail| ensures FindTable(tail[i], name).None? {
          assert tail[i] == schemas[i + 1];
        }
      }
      if |TableCandidates(schemas, name)| == 0 {
        forall i | 0 <= i < |schemas| ensures FindTable(schemas[i], name).None? {
          if i > 0 {
            assert schemas[i] == tail[i - 1];
          }
        }
      }
    }
  }

  /** Schema `i` is the only one holding a table of this name. */
  predicate OnlyHolder(schemas: seq<SchemaSchema>, name: string, i: int) {
    && 0 <= i < |schemas|
    && FindTable(schemas[i], name).Some?
    && forall j :: 0 <= j < |schemas| && j != i ==> FindTable(schemas[j], name).None?
  }

  /** There is exactly one candidate exactly when exactly one schema holds a table of that name. */
  lemma {:induction false} TableCandidatesSingle(schemas: seq<SchemaSchema>, name: string)
    ensures |TableCandidates(schemas, name)| == 1 <==> exists i :: OnlyHolder(schemas, name, i)
  {
    if |schemas| > 0 {
      var tail := schemas[1..];
      TableCandidatesSingle(tail, name);
      TableCandidatesEmpty(tail, name);
      if FindTable(schemas[0], name).Some? {
        if |TableCandidates(schemas, name)| == 1 {
          forall j | 0 < j < |schemas| ensures FindTable(schemas[j], name).None? {
            assert schemas[j] == tail[j - 1];
          }
          assert OnlyHolder(schemas, name, 0);
        }
        if exists i :: OnlyHolder(schemas, name, i) {
          var i :| OnlyHolder(schemas, name, i);
          assert i == 0;
          forall j | 0 <= j < |tail| ensures FindTable(tail[j], name).None? {
            assert tail[j] == schemas[j + 1];
          }
        }
      } else {
        if |TableCandidates(schemas, name)| == 1 {
          var i :| OnlyHolder(tail, name, i);
          forall j | 0 <= j < |schemas| && j != i + 1 ensures FindTable(schemas[j], name).None? {
            if j > 0 {
              assert schemas[j] == tail[j - 1];
            }
          }
          assert OnlyHolder(schemas, name, i + 1);
        }
        if exists i :: OnlyHolder(schemas, name, i) {
          var i :| OnlyHolder(schemas, name, i);
          assert i > 0;
          forall j | 0 <= j < |tail| && j != i - 1 ensures FindTable(tail[j], name).None? {
            assert tail[j] == schemas[j + 1];
          }
          assert OnlyHolder(tail, name, i - 1);
        }
      }
    } else {
      assert TableCandidates(schemas, name) == [];
    }
  }

  /**
    Resolves a table reference in the default database: directly when the schema
    is named, otherwise by searching every schema for a uniquely named table.
    Yields the schema the table was found in, and the table.
   */
  function ResolveTable(info: SensitiveSchemaInfo, defaultDatabase: string, schema: Option<string>, name: string): (r: Result<(string, TableSchema)>)
    ensures r.Ok? ==> r.value.1.name == name
    ensures r.Ok? ==> FindDatabase(info, defaultDatabase).Some?
    ensures r.Ok? && schema.Some? ==> r.value.0 == schema.value
    ensures r.Ok? ==> exists s :: s in FindDatabase(info, defaultDatabase).value.schemaList && s.name == r.value.0 && FindTable(s, name) == Some(r.value.1)
    ensures r.Ok? && schema.None? ==> |TableCandidates(FindDatabase(info, defaultDatabase).value.schemaList, name)| == 1
  {
    match FindDatabase(info, defaultDatabase)
    case None => Err("database not found")
    case Some(db) =>
      match schema
      case Some(s) =>
        (match FindSchema(db, s)
         case None => Err("schema does not exist")
         case Some(sc) =>
           match FindTable(sc, name)
           case None => Err("relation does not exist")
           case Some(t) => Ok((s, t)))
      case None =>
        var candidates := TableCandidates(db.schemaList, name);
        TableCandidatesSound(db.schemaList, name);
        if |candidates| == 0 then Err("relation does not exist")
        else if |candidates| > 1 then Err("table reference is ambiguous")
        else Ok(candidates[0])
  }

  /**
    An unqualified table name resolves exactly when the default database exists
    and exactly one of its schemas holds a table of that name, and it resolves
    to that schema and its table.
   */
  lemma UnqualifiedResolution(info: SensitiveSchemaInfo, defaultDatabase: string, name: string)
    ensures ResolveTable(info, defaultDatabase, None, name).Ok? <==>
      FindDatabase(info, defaultDatabase).Some? && exists i :: OnlyHolder(FindDatabase(info, defaultDatabase).value.schemaList, name, i)
    ensures forall i :: FindDatabase(info, defaultDatabase).Some? && OnlyHolder(FindDatabase(info, defaultDatabase).value.schemaList, name, i) ==>
      var s := FindDatabase(info, defaultDatabase).value.schemaList[i];
      ResolveTable(info, defaultDatabase, None, name) == Ok((s.name, FindTable(s, name).value))
  {
    if FindDatabase(info, defaultDatabase).Some? {
      var schemas := FindDatabase(info, defaultDatabase).value.schemaList;
      TableCandidatesSingle(schemas, name);
      TableCandidatesSound(schemas, name);
      forall i | OnlyHolder(schemas, name, i)
        ensures ResolveTable(info, defaultDatabase, None, name) == Ok((schemas[i].name, FindTable(schemas[i], name).value))
      {
        var c := TableCandidates(schemas, name)[0];
        var j :| 0 <= j < |schemas| && schemas[j].name == c.0 && FindTable(schemas[j], name) == Some(c.1);
        assert j == i;
      }
    }
  }
}
