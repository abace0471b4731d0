/** The engine-neutral schema: tables as introspection leaves them and as requests look them up. */
module Schema {
  import opened Text

  datatype Kind = Table | View | Other

  datatype Column = Column(name: string, dataType: string, nullable: bool)

  datatype IndexInfo = IndexInfo(name: string, columns: seq<string>, unique: bool)

  datatype ForeignInfo = ForeignInfo(
    columns: seq<string>, schema: string, table: string, referenced: seq<string>)

  /** `kind` is absent when no row supplied one: unknown. */
  datatype TableInfo = TableInfo(
    schema: string, name: string, kind: Option<Kind>, columns: seq<Column>, primaryKey: seq<string>,
    indexes: seq<IndexInfo>, foreignKeys: seq<ForeignInfo>)

  function Lower(s: string): string {
    seq(|s|, i requires 0 <= i < |s| => if 'A' <= s[i] <= 'Z' then s[i] - 'A' + 'a' else s[i])
  }

  /** A type name as it is looked up. */
  function Canonical(dataType: string): string {
    Trim(Lower(dataType))
  }

  function NamesOf(columns: seq<Column>): seq<string> {
    seq(|columns|, i requires 0 <= i < |columns| => columns[i].name)
  }
}
