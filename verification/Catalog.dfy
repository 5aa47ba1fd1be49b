/** The schema response: its parts, its JSON, its limits (protocol.rs), and the catalog rows it is made
    from (schema.rs). */
module Catalog {
  import opened Wrappers
  import opened SortedMap
  import opened Lists
  import opened Json
  import opened JsonText
  import opened QueryResult

  const U32_MAX: nat := 0xffff_ffff

  datatype RelationKind = Table | PartitionedTable | View | MaterializedView | ForeignTable
  datatype IdentityKind = NoIdentity | Always | ByDefault
  datatype ConstraintKind = PrimaryKey | Unique | ForeignKey | Check | Exclusion

  datatype SchemaColumn = SchemaColumn(
    name: string,
    ordinal: nat,
    typeOid: nat,
    typeName: string,
    nullable: bool,
    defaultExpression: Option<string>,
    identity: IdentityKind,
    generated: bool)

  datatype Constraint = Constraint(name: string, kind: ConstraintKind, definition: string)

  datatype Relation = Relation(
    name: string,
    kind: RelationKind,
    columns: seq<SchemaColumn>,
    constraints: seq<Constraint>)

  datatype SchemaInfo = SchemaInfo(name: string, relations: seq<Relation>)

  // ----- JSON -----

  function KindText(k: RelationKind): string {
    match k
    case Table => "table"
    case PartitionedTable => "partitioned_table"
    case View => "view"
    case MaterializedView => "materialized_view"
    case ForeignTable => "foreign_table"
  }

  function IdentityText(k: IdentityKind): string {
    match k case NoIdentity => "none" case Always => "always" case ByDefault => "by_default"
  }

  function ConstraintText(k: ConstraintKind): string {
    match k
    case PrimaryKey => "primary_key"
    case Unique => "unique"
    case ForeignKey => "foreign_key"
    case Check => "check"
    case Exclusion => "exclusion"
  }

  function SchemaColumnJson(c: SchemaColumn): Json {
    Obj([Entry("name", Str(c.name)), Entry("ordinal", Num(c.ordinal)), Entry("type_oid", Num(c.typeOid)),
         Entry("type_name", Str(c.typeName)), Entry("nullable", Bool(c.nullable)),
         Entry("default_expression", TextOrNull(c.defaultExpression)),
         Entry("identity", Str(IdentityText(c.identity))), Entry("generated", Bool(c.generated))])
  }

  function ConstraintJson(c: Constraint): Json {
    Obj([Entry("name", Str(c.name)), Entry("kind", Str(ConstraintText(c.kind))), Entry("definition", Str(c.definition))])
  }

  function RelationJson(r: Relation): Json {
    Obj([Entry("name", Str(r.name)), Entry("kind", Str(KindText(r.kind))),
         Entry("columns", Arr(Map(SchemaColumnJson, r.columns))),
         Entry("constraints", Arr(Map(ConstraintJson, r.constraints)))])
  }

  function SchemaJson(s: SchemaInfo): Json {
    Obj([Entry("name", Str(s.name)), Entry("relations", Arr(Map(RelationJson, s.relations)))])
  }

  function ResultJson(schemas: seq<SchemaInfo>): Json {
    Obj([Entry("schemas", Arr(Map(SchemaJson, schemas)))])
  }

  // ----- limits -----

  function RelationUnits(r: Relation): nat {
    1 + |r.columns| + |r.constraints|
  }

  function SchemaUnits(s: SchemaInfo): nat {
    1 + Sum(s.relations, RelationUnits)
  }

  predicate ColumnCellsFit(c: SchemaColumn, limit: nat) {
    && |c.name| <= limit && |c.typeName| <= limit
    && (c.defaultExpression.Some? ==> |c.defaultExpression.value| <= limit)
  }

  predicate ConstraintCellsFit(c: Constraint, limit: nat) {
    |c.name| <= limit && |c.definition| <= limit
  }

  predicate RelationCellsFit(r: Relation, limit: nat) {
    && |r.name| <= limit
    && (forall c | c in r.columns :: ColumnCellsFit(c, limit))
    && (forall c | c in r.constraints :: ConstraintCellsFit(c, limit))
  }

  predicate SchemaCellsFit(s: SchemaInfo, limit: nat) {
    |s.name| <= limit && forall r | r in s.relations :: RelationCellsFit(r, limit)
  }

  /** A complete response within its limits: objects counted together, every text, and the JSON bytes. */
  predicate SchemaFits(schemas: seq<SchemaInfo>, limits: Limits) {
    && Sum(schemas, SchemaUnits) <= limits.resultRows
    && (forall s | s in schemas :: SchemaCellsFit(s, limits.cellBytes))
    && CanonicalLength(ResultJson(schemas)) <= limits.resultJsonBytes
  }

  lemma {:induction false} SumTake<T>(s: seq<T>, i: nat, f: T -> nat)
    requires i < |s|
    ensures Sum(s[..i + 1], f) == Sum(s[..i], f) + f(s[i])
    ensures Sum(s[..i + 1], f) <= Sum(s, f)
    decreases |s| - i
  {
    assert s[..i + 1] == s[..i] + [s[i]];
    SumAppend(s[..i], s[i], f);
    if i + 1 == |s| {
      assert s[..i + 1] == s;
    } else {
      SumTake(s, i + 1, f);
    }
  }

  /** The counting of one relation: `units` objects seen before it. */
  method ValidateRelation(r: Relation, limits: Limits, before: nat) returns (units: nat, ok: bool)
    requires limits.resultRows <= USIZE_MAX && before <= limits.resultRows
    ensures ok <==> before + RelationUnits(r) <= limits.resultRows && RelationCellsFit(r, limits.cellBytes)
    ensures ok ==> units == before + RelationUnits(r)
  {
    if before == USIZE_MAX {
      return before, false;
    }
    units := before + 1;
    if |r.name| > limits.cellBytes {
      return units, false;
    }
    for i := 0 to |r.columns|
      invariant units == before + 1 + i
      invariant forall k | 0 <= k < i :: ColumnCellsFit(r.columns[k], limits.cellBytes)
    {
      var c := r.columns[i];
      assert c in r.columns;
      if units == USIZE_MAX {
        return units, false;
      }
      units := units + 1;
      if |c.name| > limits.cellBytes || |c.typeName| > limits.cellBytes {
        return units, false;
      }
      if c.defaultExpression.Some? && |c.defaultExpression.value| > limits.cellBytes {
        return units, false;
      }
    }
    for i := 0 to |r.constraints|
      invariant units == before + 1 + |r.columns| + i
      invariant forall k | 0 <= k < i :: ConstraintCellsFit(r.constraints[k], limits.cellBytes)
    {
      var c := r.constraints[i];
      assert c in r.constraints;
      if units == USIZE_MAX {
        return units, false;
      }
      units := units + 1;
      if |c.name| > limits.cellBytes || |c.definition| > limits.cellBytes {
        return units, false;
      }
    }
    ok := units <= limits.resultRows;
  }

  /** The counting of one schema. */
  method ValidateSchema(s: SchemaInfo, limits: Limits, before: nat) returns (units: nat, ok: bool)
    requires limits.resultRows <= USIZE_MAX && before <= limits.resultRows
    ensures ok <==> before + SchemaUnits(s) <= limits.resultRows && SchemaCellsFit(s, limits.cellBytes)
    ensures ok ==> units == before + SchemaUnits(s)
  {
    if before == USIZE_MAX {
      return before, false;
    }
    units := before + 1;
    if |s.name| > limits.cellBytes || units > limits.resultRows {
      return units, false;
    }
    for i := 0 to |s.relations|
      invariant units == before + 1 + Sum(s.relations[..i], RelationUnits) <= limits.resultRows
      invariant forall k | 0 <= k < i :: RelationCellsFit(s.relations[k], limits.cellBytes)
    {
      SumTake(s.relations, i, RelationUnits);
      var fits;
      units, fits := ValidateRelation(s.relations[i], limits, units);
      if !fits {
        return units, false;
      }
    }
    assert s.relations[..|s.relations|] == s.relations;
    ok := true;
  }

  /** `SchemaResult::validate`: running totals, stopping at the first excess. */
  method ValidateResult(schemas: seq<SchemaInfo>, limits: Limits) returns (ok: bool)
    requires limits.resultRows <= USIZE_MAX
    ensures ok <==> SchemaFits(schemas, limits)
  {
    var units := 0;
    for i := 0 to |schemas|
      invariant units == Sum(schemas[..i], SchemaUnits) <= limits.resultRows
      invariant forall k | 0 <= k < i :: SchemaCellsFit(schemas[k], limits.cellBytes)
    {
      SumTake(schemas, i, SchemaUnits);
      var fits;
      units, fits := ValidateSchema(schemas[i], limits, units);
      if !fits {
        return false;
      }
    }
    assert schemas[..|schemas|] == schemas;
    ok := CanonicalLength(ResultJson(schemas)) <= limits.resultJsonBytes;
  }

  // ----- catalog rows -----

  predicate Digits(s: string) {
    forall i | 0 <= i < |s| :: '0' <= s[i] <= '9'
  }

  function DecimalValue(s: string): nat
    requires Digits(s)
  {
    if s == "" then 0
    else
      assert '0' <= s[|s| - 1] <= '9';
      10 * DecimalValue(s[..|s| - 1]) + (s[|s| - 1] as nat - '0' as nat)
  }

  predicate HasPlus(s: string) {
    s != "" && s[0] == '+'
  }

  function Unsigned(s: string): string {
    if HasPlus(s) then s[1..] else s
  }

  /** `str::parse::<u32>`: an optional plus sign and decimal digits. */
  function ParseU32(s: string): Option<nat> {
    var digits := Unsigned(s);
    if digits != "" && Digits(digits) && DecimalValue(digits) <= U32_MAX then Some(DecimalValue(digits)) else None
  }

  lemma {:induction false} DecimalDigits(n: nat)
    ensures Decimal(n) != "" && Digits(Decimal(n)) && DecimalValue(Decimal(n)) == n
  {
    var d := Decimal(n);
    if n >= 10 {
      DecimalDigits(n / 10);
    }
    assert d[..|d| - 1] == if n < 10 then "" else Decimal(n / 10);
  }

  function Zeros(n: nat): string {
    seq(n, i requires 0 <= i < n => '0')
  }

  /** Digits are zeros and the decimal spelling of their value. */
  lemma {:induction false} DigitsAreDecimal(s: string)
    requires s != "" && Digits(s)
    ensures |Decimal(DecimalValue(s))| <= |s|
    ensures s == Zeros(|s| - |Decimal(DecimalValue(s))|) + Decimal(DecimalValue(s))
  {
    var n := |s| - 1;
    var before, v := s[..n], DecimalValue(s[..n]);
    assert '0' <= s[n] <= '9' && s == before + [s[n]];
    if before == "" {
      assert Zeros(0) == "";
    } else {
      DigitsAreDecimal(before);
      if v == 0 {
        assert before == Zeros(n);
      } else {
        assert DecimalValue(s) / 10 == v;
      }
    }
  }

  lemma {:induction false} ZerosKeepValue(k: nat, s: string)
    requires Digits(s)
    ensures Digits(Zeros(k) + s) && DecimalValue(Zeros(k) + s) == DecimalValue(s)
  {
    var t := Zeros(k) + s;
    if s != "" {
      ZerosKeepValue(k, s[..|s| - 1]);
      assert t[..|t| - 1] == Zeros(k) + s[..|s| - 1];
    } else if k > 0 {
      ZerosKeepValue(k - 1, "");
      assert t[..|t| - 1] == Zeros(k - 1) + "";
    }
  }

  /** A way to write a number: zeros and its decimal form, after a plus sign or not. */
  function Spelling(n: nat, zeros: nat, plus: bool): string {
    (if plus then "+" else "") + (Zeros(zeros) + Decimal(n))
  }

  lemma ParsedIsSpelled(s: string, n: nat)
    requires ParseU32(s) == Some(n)
    ensures exists k: nat, plus: bool :: s == Spelling(n, k, plus)
  {
    DigitsAreDecimal(Unsigned(s));
    SignApart(s);
    hide Zeros, Decimal, Digits, DecimalValue, Unsigned, HasPlus;
    assert s == Spelling(n, |Unsigned(s)| - |Decimal(n)|, HasPlus(s));
  }

  lemma SignApart(s: string)
    ensures s == (if HasPlus(s) then "+" else "") + Unsigned(s)
  {}

  lemma SpelledDigits(n: nat, k: nat)
    ensures var s := Zeros(k) + Decimal(n); s != "" && s[0] != '+' && Digits(s) && DecimalValue(s) == n
  {
    DecimalDigits(n);
    ZerosKeepValue(k, Decimal(n));
    assert '0' <= (Zeros(k) + Decimal(n))[0] <= '9';
  }

  lemma SpelledIsParsed(n: nat, k: nat, plus: bool)
    ensures ParseU32(Spelling(n, k, plus)) == if n <= U32_MAX then Some(n) else None
  {
    SpelledDigits(n, k);
    hide Zeros, Decimal, Digits, DecimalValue;
    var s, digits := Spelling(n, k, plus), Zeros(k) + Decimal(n);
    assert plus ==> s[0] == '+' && s[1..] == digits;
    assert !plus ==> s == digits;
    assert Unsigned(s) == digits;
  }

  /** A number is read from exactly its spellings, and exactly when it fits 32 bits; everything else is refused. */
  lemma ParsesExactly(s: string, n: nat)
    ensures ParseU32(s) == Some(n) <==> n <= U32_MAX && exists k: nat, plus: bool :: s == Spelling(n, k, plus)
  {
    if ParseU32(s) == Some(n) {
      ParsedIsSpelled(s, n);
    }
    hide ParseU32, Spelling;
    if k: nat, plus: bool :| s == Spelling(n, k, plus) {
      SpelledIsParsed(n, k, plus);
    }
  }

  function ParseBool(s: string): Option<bool> {
    if s == "t" then Some(true) else if s == "f" then Some(false) else None
  }

  function ParseKind(s: string): Option<RelationKind> {
    if s == "r" then Some(Table)
    else if s == "p" then Some(PartitionedTable)
    else if s == "v" then Some(View)
    else if s == "m" then Some(MaterializedView)
    else if s == "f" then Some(ForeignTable)
    else None
  }

  function ParseIdentity(cell: Option<string>): Option<IdentityKind> {
    if cell == None || cell == Some("") then Some(NoIdentity)
    else if cell == Some("a") then Some(Always)
    else if cell == Some("d") then Some(ByDefault)
    else None
  }

  function ParseConstraint(s: string): Option<ConstraintKind> {
    if s == "p" then Some(PrimaryKey)
    else if s == "u" then Some(Unique)
    else if s == "f" then Some(ForeignKey)
    else if s == "c" then Some(Check)
    else if s == "x" then Some(Exclusion)
    else None
  }

  /** One row of one of the three catalog queries. */
  datatype CatalogRow = RelationRow(cells: Row) | ColumnRow(cells: Row) | ConstraintRow(cells: Row)

  datatype Item =
    | RelationItem(schema: string, relation: string, kind: RelationKind)
    | ColumnItem(schema: string, relation: string, column: SchemaColumn)
    | ConstraintItem(schema: string, relation: string, constraint: Constraint)


  function DecodeRelation(cells: Row): Option<Item> {
    if |cells| != 4 || cells[0].None? || cells[1].None? || cells[2].None? || cells[3].None? then None
    else
      match (ParseKind(cells[2].value), ParseU32(cells[3].value))
      case (Some(kind), Some(_)) => Some(RelationItem(cells[0].value, cells[1].value, kind))
      case _ => None
  }

  function DecodeColumn(cells: Row): Option<Item> {
    if |cells| != 10 || cells[0].None? || cells[1].None? || cells[2].None? || cells[3].None? || cells[4].None?
       || cells[5].None? || cells[6].None? || cells[9].None? then None
    else
      match (ParseU32(cells[3].value), ParseU32(cells[4].value), ParseBool(cells[6].value),
             ParseIdentity(cells[8]), ParseBool(cells[9].value))
      case (Some(ordinal), Some(typeOid), Some(nullable), Some(identity), Some(generated)) =>
        Some(ColumnItem(cells[0].value, cells[1].value,
                        SchemaColumn(cells[2].value, ordinal, typeOid, cells[5].value, nullable, cells[7],
                                     identity, generated)))
      case _ => None
  }

  function DecodeConstraint(cells: Row): Option<Item> {
    if |cells| != 5 || cells[0].None? || cells[1].None? || cells[2].None? || cells[3].None? || cells[4].None? then None
    else
      match ParseConstraint(cells[3].value)
      case Some(kind) =>
        Some(ConstraintItem(cells[0].value, cells[1].value, Constraint(cells[2].value, kind, cells[4].value)))
      case None => None
  }

  function Decode(row: CatalogRow): Option<Item> {
    match row
    case RelationRow(cells) => DecodeRelation(cells)
    case ColumnRow(cells) => DecodeColumn(cells)
    case ConstraintRow(cells) => DecodeConstraint(cells)
  }
}
