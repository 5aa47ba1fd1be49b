/** The catalog rows as they are written: which cells say what about a relation, a column or a constraint, and that the
    decoder reads exactly that. */
module CatalogRows {
  import opened Wrappers
  import opened QueryResult
  import opened Catalog

  // ----- cells -----

  ghost predicate SpellsNumber(cell: Option<string>, n: nat) {
    n <= U32_MAX && exists zeros: nat, plus: bool :: cell == Some(Spelling(n, zeros, plus))
  }

  function Flag(b: bool): Option<string> {
    Some(if b then "t" else "f")
  }

  /** `pg_class.relkind` */
  function RelationLetter(k: RelationKind): string {
    match k
    case Table => "r"
    case PartitionedTable => "p"
    case View => "v"
    case MaterializedView => "m"
    case ForeignTable => "f"
  }

  /** `pg_attribute.attidentity`, which may also be missing for a column that is no identity column. */
  predicate SpellsIdentity(cell: Option<string>, k: IdentityKind) {
    match k
    case NoIdentity => cell == None || cell == Some("")
    case Always => cell == Some("a")
    case ByDefault => cell == Some("d")
  }

  /** `pg_constraint.contype` */
  function ConstraintLetter(k: ConstraintKind): string {
    match k
    case PrimaryKey => "p"
    case Unique => "u"
    case ForeignKey => "f"
    case Check => "c"
    case Exclusion => "x"
  }

  // ----- rows -----

  /** Schema, relation, kind, and any number as the object id. */
  ghost predicate WritesRelation(cells: Row, schema: string, relation: string, kind: RelationKind) {
    && |cells| == 4
    && cells[0] == Some(schema) && cells[1] == Some(relation) && cells[2] == Some(RelationLetter(kind))
    && exists oid: nat :: SpellsNumber(cells[3], oid)
  }

  /** Schema, relation, name, ordinal, type id, type name, nullable, default, identity, generated. */
  ghost predicate WritesColumn(cells: Row, schema: string, relation: string, c: SchemaColumn) {
    && |cells| == 10
    && cells[0] == Some(schema) && cells[1] == Some(relation) && cells[2] == Some(c.name)
    && SpellsNumber(cells[3], c.ordinal) && SpellsNumber(cells[4], c.typeOid)
    && cells[5] == Some(c.typeName) && cells[6] == Flag(c.nullable) && cells[7] == c.defaultExpression
    && SpellsIdentity(cells[8], c.identity) && cells[9] == Flag(c.generated)
  }

  /** Schema, relation, name, kind, definition. */
  ghost predicate WritesConstraint(cells: Row, schema: string, relation: string, c: Constraint) {
    && |cells| == 5
    && cells[0] == Some(schema) && cells[1] == Some(relation) && cells[2] == Some(c.name)
    && cells[3] == Some(ConstraintLetter(c.kind)) && cells[4] == Some(c.definition)
  }

  ghost predicate Writes(row: CatalogRow, item: Item) {
    match (row, item)
    case (RelationRow(cells), RelationItem(schema, relation, kind)) => WritesRelation(cells, schema, relation, kind)
    case (ColumnRow(cells), ColumnItem(schema, relation, c)) => WritesColumn(cells, schema, relation, c)
    case (ConstraintRow(cells), ConstraintItem(schema, relation, c)) => WritesConstraint(cells, schema, relation, c)
    case _ => false
  }

  // ----- reading them -----

  lemma NumberRead(cell: Option<string>, n: nat)
    ensures cell.Some? && ParseU32(cell.value) == Some(n) <==> SpellsNumber(cell, n)
  {
    hide ParseU32, Spelling;
    if cell.Some? {
      ParsesExactly(cell.value, n);
    }
  }

  lemma FlagRead(cell: Option<string>, b: bool)
    ensures cell.Some? && ParseBool(cell.value) == Some(b) <==> cell == Flag(b)
  {
    assert "t"[0] != "f"[0];
  }

  lemma KindRead(s: string, k: RelationKind)
    ensures ParseKind(s) == Some(k) <==> s == RelationLetter(k)
  {
    LettersDiffer();
  }

  lemma ConstraintKindRead(s: string, k: ConstraintKind)
    ensures ParseConstraint(s) == Some(k) <==> s == ConstraintLetter(k)
  {
    LettersDiffer();
  }

  lemma IdentityRead(cell: Option<string>, k: IdentityKind)
    ensures ParseIdentity(cell) == Some(k) <==> SpellsIdentity(cell, k)
  {
    LettersDiffer();
  }

  lemma LettersDiffer()
    ensures "r"[0] == 'r' && "p"[0] == 'p' && "v"[0] == 'v' && "m"[0] == 'm' && "f"[0] == 'f' && "u"[0] == 'u'
    ensures "c"[0] == 'c' && "x"[0] == 'x' && "a"[0] == 'a' && "d"[0] == 'd'
  {}

  lemma RelationRead(cells: Row, schema: string, relation: string, kind: RelationKind)
    ensures DecodeRelation(cells) == Some(RelationItem(schema, relation, kind)) <==>
            WritesRelation(cells, schema, relation, kind)
  {
    hide ParseKind, ParseU32, SpellsNumber, RelationLetter;
    if |cells| == 4 {
      if cells[2].Some? {
        KindRead(cells[2].value, kind);
      }
      if cells[3].Some? && ParseU32(cells[3].value).Some? {
        NumberRead(cells[3], ParseU32(cells[3].value).value);
      }
      if oid: nat :| SpellsNumber(cells[3], oid) {
        NumberRead(cells[3], oid);
      }
    }
  }

  lemma ColumnRead(cells: Row, schema: string, relation: string, c: SchemaColumn)
    ensures DecodeColumn(cells) == Some(ColumnItem(schema, relation, c)) <==> WritesColumn(cells, schema, relation, c)
  {
    hide ParseBool, ParseIdentity, ParseU32, SpellsNumber, SpellsIdentity, Flag;
    if |cells| == 10 {
      NumberRead(cells[3], c.ordinal);
      NumberRead(cells[4], c.typeOid);
      FlagRead(cells[6], c.nullable);
      IdentityRead(cells[8], c.identity);
      FlagRead(cells[9], c.generated);
    }
  }

  lemma ConstraintRead(cells: Row, schema: string, relation: string, c: Constraint)
    ensures DecodeConstraint(cells) == Some(ConstraintItem(schema, relation, c)) <==>
            WritesConstraint(cells, schema, relation, c)
  {
    hide ParseConstraint, ConstraintLetter;
    if |cells| == 5 && cells[3].Some? {
      ConstraintKindRead(cells[3].value, c.kind);
    }
  }

  lemma RightKind(row: CatalogRow)
    ensures Decode(row).Some? ==>
              match row
              case RelationRow(_) => Decode(row).value.RelationItem?
              case ColumnRow(_) => Decode(row).value.ColumnItem?
              case ConstraintRow(_) => Decode(row).value.ConstraintItem?
  {
    hide ParseKind, ParseBool, ParseIdentity, ParseU32, ParseConstraint;
  }

  /** A row is read as what it is written as, cell by cell, and nothing else is read. */
  lemma DecodesExactly(row: CatalogRow, item: Item)
    ensures Decode(row) == Some(item) <==> Writes(row, item)
  {
    RightKind(row);
    hide DecodeRelation, DecodeColumn, DecodeConstraint, WritesRelation, WritesColumn, WritesConstraint;
    match (row, item) {
      case (RelationRow(cells), RelationItem(schema, relation, kind)) => RelationRead(cells, schema, relation, kind);
      case (ColumnRow(cells), ColumnItem(schema, relation, c)) => ColumnRead(cells, schema, relation, c);
      case (ConstraintRow(cells), ConstraintItem(schema, relation, c)) => ConstraintRead(cells, schema, relation, c);
      case _ =>
    }
  }
}
