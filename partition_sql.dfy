/** The statement templates of `PostgresSchemaEditor`, as literal text. */
module SqlTemplates {
  // The class-level templates and the inline composite-key template, each
  // written as its text cut at the `%s` holes (the same characters).
  const SqlPartitionBy: string := " PARTITION BY " + "%s" + " (" + "%s" + ")"
  const SqlAddDefaultPartition: string := "CREATE TABLE " + "%s" + " PARTITION OF " + "%s" + " DEFAULT"
  const SqlAddRangePartition: string :=
    "CREATE TABLE " + "%s" + " PARTITION OF " + "%s" + " FOR VALUES FROM (" + "%s" + ") TO (" + "%s" + ")"
  const SqlAddListPartition: string :=
    "CREATE TABLE " + "%s" + " PARTITION OF " + "%s" + " FOR VALUES IN (" + "%s" + ")"
  const SqlCompositePrimaryKey: string := ", PRIMARY KEY (" + "%s" + ", " + "%s" + "))"
}

/** The DDL text of PostgreSQL declarative partitioning as the schema editor
    assembles it: the parent table (`CREATE TABLE ... PARTITION BY`) and its
    range, list and default partitions (`CREATE TABLE ... PARTITION OF ...`).
    Quoting of identifiers is a parameter `q`, the backend's `quote_name`. */
module PartitionSql {
  import opened Text
  import opened SqlTemplates

  /** The inline constraint removed from the intercepted `CREATE TABLE`. */
  const InlinePrimaryKey: string := " PRIMARY KEY"

  // The literal text between the holes of each template.
  const PartitionByText: seq<string> := [" PARTITION BY ", " (", ")"]
  const DefaultText: seq<string> := ["CREATE TABLE ", " PARTITION OF ", " DEFAULT"]
  const RangeText: seq<string> := ["CREATE TABLE ", " PARTITION OF ", " FOR VALUES FROM (", ") TO (", ")"]
  const ListText: seq<string> := ["CREATE TABLE ", " PARTITION OF ", " FOR VALUES IN (", ")"]
  const CompositePrimaryKeyText: seq<string> := [", PRIMARY KEY (", ", ", "))"]

  predicate PercentFree(lits: seq<string>) {
    forall i :: 0 <= i < |lits| ==> '%' !in lits[i]
  }

  // Each template is its literal text with a `%s` hole between consecutive pieces.

  lemma PartitionByTemplate()
    ensures SqlPartitionBy == Join("%s", PartitionByText) && PercentFree(PartitionByText)
  {
    JoinCons("%s", " (", [")"]);
    JoinCons("%s", " PARTITION BY ", [" (", ")"]);
    assert PartitionByText == [" PARTITION BY "] + [" (", ")"];
  }

  lemma DefaultTemplate()
    ensures SqlAddDefaultPartition == Join("%s", DefaultText) && PercentFree(DefaultText)
  {
    JoinCons("%s", " PARTITION OF ", [" DEFAULT"]);
    JoinCons("%s", "CREATE TABLE ", [" PARTITION OF ", " DEFAULT"]);
    assert DefaultText == ["CREATE TABLE "] + [" PARTITION OF ", " DEFAULT"];
  }

  lemma RangeJoin()
    ensures Join("%s", RangeText)
         == "CREATE TABLE " + ("%s" + (" PARTITION OF " + ("%s" + (" FOR VALUES FROM ("
            + ("%s" + (") TO (" + ("%s" + ")")))))))
  {
    var t4 := [")"];
    var t3 := [") TO ("] + t4;
    var t2 := [" FOR VALUES FROM ("] + t3;
    var t1 := [" PARTITION OF "] + t2;
    assert RangeText == ["CREATE TABLE "] + t1;
    JoinCons("%s", ") TO (", t4);
    JoinCons("%s", " FOR VALUES FROM (", t3);
    JoinCons("%s", " PARTITION OF ", t2);
    JoinCons("%s", "CREATE TABLE ", t1);
  }

  lemma RangeTemplate()
    ensures SqlAddRangePartition == Join("%s", RangeText) && PercentFree(RangeText)
  {
    RangeJoin();
  }

  lemma ListJoin()
    ensures Join("%s", ListText)
         == "CREATE TABLE " + ("%s" + (" PARTITION OF " + ("%s" + (" FOR VALUES IN (" + ("%s" + ")")))))
  {
    var t2 := [" FOR VALUES IN (", ")"];
    var t1 := [" PARTITION OF "] + t2;
    assert ListText == ["CREATE TABLE "] + t1;
    JoinCons("%s", " FOR VALUES IN (", [")"]);
    JoinCons("%s", " PARTITION OF ", t2);
    JoinCons("%s", "CREATE TABLE ", t1);
  }

  lemma ListTemplate()
    ensures SqlAddListPartition == Join("%s", ListText) && PercentFree(ListText)
  {
    ListJoin();
  }

  lemma CompositePrimaryKeyTemplate()
    ensures SqlCompositePrimaryKey == Join("%s", CompositePrimaryKeyText)
         && PercentFree(CompositePrimaryKeyText)
  {
    JoinCons("%s", ", ", ["))"]);
    JoinCons("%s", ", PRIMARY KEY (", [", ", "))"]);
    assert CompositePrimaryKeyText == [", PRIMARY KEY ("] + [", ", "))"];
  }

  lemma TemplateHoles()
    ensures Placeholders(SqlPartitionBy) == 2
    ensures Placeholders(SqlAddDefaultPartition) == 2
    ensures Placeholders(SqlAddRangePartition) == 4
    ensures Placeholders(SqlAddListPartition) == 3
    ensures Placeholders(SqlCompositePrimaryKey) == 2
  {
    PartitionByTemplate();
    DefaultTemplate();
    RangeTemplate();
    ListTemplate();
    CompositePrimaryKeyTemplate();
    FormatFillsHoles(PartitionByText, ["", ""]);
    FormatFillsHoles(DefaultText, ["", ""]);
    FormatFillsHoles(RangeText, ["", "", "", ""]);
    FormatFillsHoles(ListText, ["", "", ""]);
    FormatFillsHoles(CompositePrimaryKeyText, ["", ""]);
  }

  /** `self.quote_name(f) for f in names`. */
  function QuoteAll(q: string -> string, names: seq<string>): (r: seq<string>)
    ensures |r| == |names|
    ensures forall i :: 0 <= i < |names| ==> r[i] == q(names[i])
  {
    seq(|names|, i requires 0 <= i < |names| => q(names[i]))
  }

  /** `create_partitioned_model`'s rewrite of the intercepted `CREATE TABLE`:
      strip ` PRIMARY KEY`, drop the last character, close the statement with
      a composite primary key and append the partitioning clause. */
  function PartitionedTableSql(q: string -> string, sql: string, pk: string, methodName: string,
                               key: seq<string>): string
  {
    TemplateHoles();
    var keySql := Join(", ", QuoteAll(q, key));
    var stripped := Replace(sql, InlinePrimaryKey, "");
    var withKey := DropLast(stripped) + Format(SqlCompositePrimaryKey, [q(pk), keySql]);
    withKey + Format(SqlPartitionBy, [Upper(methodName), keySql])
  }

  /** `sql_add_range_partition` with the quoted names and two bound-parameter holes. */
  function RangePartitionSql(quotedName: string, quotedTable: string): string {
    TemplateHoles();
    Format(SqlAddRangePartition, [quotedName, quotedTable, "%s", "%s"])
  }

  /** `sql_add_list_partition` with one bound-parameter hole per value. */
  function ListPartitionSql(quotedName: string, quotedTable: string, count: nat): string {
    TemplateHoles();
    Format(SqlAddListPartition, [quotedName, quotedTable, Join(",", Repeat("%s", count))])
  }

  /** `sql_add_default_partition` with the quoted names. */
  function DefaultPartitionSql(quotedName: string, quotedTable: string): string {
    TemplateHoles();
    Format(SqlAddDefaultPartition, [quotedName, quotedTable])
  }

  // ---------------------------------------------------------------------
  // What the statements say

  lemma PlaceholdersText(lit: string, rest: string)
    requires '%' !in lit
    ensures Placeholders(lit + rest) == Placeholders(rest)
  {
    FormatText(lit, rest, Repeat("", Placeholders(rest)));
  }

  /** The composite key clause: the pk column first, then the key columns. */
  lemma CompositePrimaryKeyClause(quotedPk: string, keySql: string)
    ensures Placeholders(SqlCompositePrimaryKey) == 2
    ensures Format(SqlCompositePrimaryKey, [quotedPk, keySql])
         == ", PRIMARY KEY (" + quotedPk + ", " + keySql + "))"
  {
    CompositePrimaryKeyTemplate();
    FormatFillsHoles(CompositePrimaryKeyText, [quotedPk, keySql]);
    Interleave2(", PRIMARY KEY (", ", ", "))", quotedPk, keySql);
  }

  lemma PartitionByClause(methodSql: string, keySql: string)
    ensures Placeholders(SqlPartitionBy) == 2
    ensures Format(SqlPartitionBy, [methodSql, keySql]) == " PARTITION BY " + methodSql + " (" + keySql + ")"
  {
    PartitionByTemplate();
    FormatFillsHoles(PartitionByText, [methodSql, keySql]);
    Interleave2(" PARTITION BY ", " (", ")", methodSql, keySql);
  }

  /** The partitioned parent: the intercepted statement with every ` PRIMARY
      KEY` cut out (the text between non-overlapping occurrences, joined) and
      its last character dropped, then a primary key on the pk column followed
      by the key columns in declared order, then `PARTITION BY` on the
      upper-cased method and the same column list. */
  lemma PartitionedTableSqlShape(q: string -> string, sql: string, pk: string,
                                 methodName: string, key: seq<string>)
    requires |key| > 0
    ensures PartitionedTableSql(q, sql, pk, methodName, key)
         == DropLast(Join("", Split(sql, InlinePrimaryKey)))
            + ", PRIMARY KEY (" + Join(", ", QuoteAll(q, [pk] + key)) + "))"
            + " PARTITION BY " + Upper(methodName) + " (" + Join(", ", QuoteAll(q, key)) + ")"
  {
    var keySql := Join(", ", QuoteAll(q, key));
    PartitionedTableSqlParts(q, sql, pk, methodName, key);
    ReplaceJoinsPieces(sql, InlinePrimaryKey, "");
    CompositePrimaryKeyClause(q(pk), keySql);
    PartitionByClause(Upper(methodName), keySql);
    QuotedKeyWithPk(q, pk, key);
  }

  /** The three parts the parent statement is made of. */
  lemma PartitionedTableSqlParts(q: string -> string, sql: string, pk: string,
                                 methodName: string, key: seq<string>)
    ensures Placeholders(SqlCompositePrimaryKey) == 2 && Placeholders(SqlPartitionBy) == 2
    ensures PartitionedTableSql(q, sql, pk, methodName, key)
         == DropLast(Replace(sql, InlinePrimaryKey, ""))
            + Format(SqlCompositePrimaryKey, [q(pk), Join(", ", QuoteAll(q, key))])
            + Format(SqlPartitionBy, [Upper(methodName), Join(", ", QuoteAll(q, key))])
  {
    TemplateHoles();
  }

  /** The composite key's column list: the quoted pk, then the quoted key. */
  lemma QuotedKeyWithPk(q: string -> string, pk: string, key: seq<string>)
    requires |key| > 0
    ensures Join(", ", QuoteAll(q, [pk] + key)) == q(pk) + ", " + Join(", ", QuoteAll(q, key))
  {
    assert QuoteAll(q, [pk] + key) == [q(pk)] + QuoteAll(q, key);
    JoinCons(", ", q(pk), QuoteAll(q, key));
  }

  /** The composite key does not drop a pk column that is also a key column:
      such a column is listed twice. */
  lemma CompositeKeyRepeatsKeyedPk(q: string -> string, pk: string, key: seq<string>, j: nat)
    requires j < |key| && key[j] == pk
    ensures QuoteAll(q, [pk] + key)[0] == QuoteAll(q, [pk] + key)[j + 1]
  {
    assert ([pk] + key)[j + 1] == key[j];
  }

  /** A range partition binds its bounds through exactly two holes. */
  lemma RangePartitionSqlShape(quotedName: string, quotedTable: string)
    ensures RangePartitionSql(quotedName, quotedTable)
         == "CREATE TABLE " + quotedName + " PARTITION OF " + quotedTable
            + " FOR VALUES FROM (" + "%s" + ") TO (" + "%s" + ")"
    ensures '%' !in quotedName && '%' !in quotedTable ==>
              Placeholders(RangePartitionSql(quotedName, quotedTable)) == 2
  {
    RangeTemplate();
    FormatFillsHoles(RangeText, [quotedName, quotedTable, "%s", "%s"]);
    Interleave4("CREATE TABLE ", " PARTITION OF ", " FOR VALUES FROM (", ") TO (", ")",
                quotedName, quotedTable, "%s", "%s");
    var head := "CREATE TABLE " + quotedName + " PARTITION OF " + quotedTable + " FOR VALUES FROM (";
    if '%' !in quotedName && '%' !in quotedTable {
      assert RangePartitionSql(quotedName, quotedTable) == head + ("%s" + (") TO (" + ("%s" + ")")));
      assert '%' !in RangeText[0] && '%' !in RangeText[1] && '%' !in RangeText[2];
      PlaceholdersText(head, "%s" + (") TO (" + ("%s" + ")")));
      PlaceholdersHole(") TO (" + ("%s" + ")"));
      PlaceholdersText(") TO (", "%s" + ")");
      PlaceholdersHole(")");
      PlaceholdersNone(")");
    }
  }

  /** A list partition has one hole per value, joined by `,` without blanks. */
  lemma ListPartitionSqlShape(quotedName: string, quotedTable: string, count: nat)
    ensures ListPartitionSql(quotedName, quotedTable, count)
         == "CREATE TABLE " + quotedName + " PARTITION OF " + quotedTable
            + " FOR VALUES IN (" + Join(",", Repeat("%s", count)) + ")"
    ensures ' ' !in Join(",", Repeat("%s", count))
    ensures '%' !in quotedName && '%' !in quotedTable ==>
              Placeholders(ListPartitionSql(quotedName, quotedTable, count)) == count
  {
    ListTemplate();
    var holes := Join(",", Repeat("%s", count));
    FormatFillsHoles(ListText, [quotedName, quotedTable, holes]);
    Interleave3("CREATE TABLE ", " PARTITION OF ", " FOR VALUES IN (", ")", quotedName, quotedTable, holes);
    PlaceholderListCount(count, ")");
    var head := "CREATE TABLE " + quotedName + " PARTITION OF " + quotedTable + " FOR VALUES IN (";
    if '%' !in quotedName && '%' !in quotedTable {
      assert ListPartitionSql(quotedName, quotedTable, count) == head + (holes + ")");
      assert '%' !in ListText[0] && '%' !in ListText[1] && '%' !in ListText[2];
      PlaceholdersText(head, holes + ")");
    }
  }

  /** A default partition has no bound clause and no hole. */
  lemma DefaultPartitionSqlShape(quotedName: string, quotedTable: string)
    ensures DefaultPartitionSql(quotedName, quotedTable)
         == "CREATE TABLE " + quotedName + " PARTITION OF " + quotedTable + " DEFAULT"
    ensures '%' !in quotedName && '%' !in quotedTable ==>
              Placeholders(DefaultPartitionSql(quotedName, quotedTable)) == 0
  {
    DefaultTemplate();
    FormatFillsHoles(DefaultText, [quotedName, quotedTable]);
    Interleave2("CREATE TABLE ", " PARTITION OF ", " DEFAULT", quotedName, quotedTable);
    if '%' !in quotedName && '%' !in quotedTable {
      assert '%' !in DefaultText[0] && '%' !in DefaultText[1] && '%' !in DefaultText[2];
      PlaceholdersNone(DefaultPartitionSql(quotedName, quotedTable));
    }
  }
}
