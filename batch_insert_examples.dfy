/**
 * The batch insert element for concrete column lists, with a formatter that
 * writes a column's escaped name as its actual name and its placeholder as
 * `#{<prefix><property>}`.
 */
module BatchInsertExamples {
  import opened Host
  import opened BatchInsertPlugin

  const Id := Column("id", "id", "java.lang.Long", true, false)
  const Name := Column("name", "name", "java.lang.String", false, false)
  const SeqNo := Column("seq_no", "seqNo", "java.lang.Long", false, true)

  function PrefixText(prefix: Option<string>): string
  {
    match prefix
    case Some(p) => p
    case None => ""
  }

  ghost predicate PlainFormatter(fmt: Formatter)
  {
    && (forall c :: fmt.escapedColumnName(c) == c.actualColumnName)
    && (forall c, prefix :: fmt.parameterClause(c, prefix) == "#{" + PrefixText(prefix) + c.javaProperty + "}")
  }

  lemma KeptOfUserColumns()
    ensures Kept([Id, Name, SeqNo]) == [Name, SeqNo]
  {
    assert [Id][..0] == [];
    assert Kept([Id]) == [];
    assert [Id, Name][..1] == [Id];
    assert Kept([Id, Name]) == [Name];
    assert [Id, Name, SeqNo][..2] == [Id, Name];
  }

  lemma JoinOfTwo(a: string, b: string)
    ensures Join([a, b]) == a + ", " + b
  {
    assert [a, b][..1] == [a];
  }

  /**
   * Columns (id identity, name, seq_no sequence): the column list is
   * (name, seq_no).
   */
  lemma UserTableColumns(table: Table, fmt: Formatter)
    requires table.allColumns == [Id, Name, SeqNo] && table.fullyQualifiedTableNameAtRuntime == "user"
    requires PlainFormatter(fmt)
    ensures Dedented(Fragments(table, fmt).inserts) == "insert into user (name, seq_no)"
  {
    InsertClauseText(table, fmt);
    KeptOfUserColumns();
    assert [Name, SeqNo][..1] == [Name];
    assert [Name][..0] == [];
    assert Rendered([Name, SeqNo], fmt.escapedColumnName) == ["name", "seq_no"];
    JoinOfTwo("name", "seq_no");
    assert !TrailingSeparator(table.allColumns);
    assert InsertHeader(table) == "insert into " + "user" + " (";
    InsertLiterals();
  }

  // Solver hints: the string facts the examples rely on, each in the shape it
  // is used, proved outside the examples' larger contexts.

  lemma InsertLiterals()
    ensures "insert into " + "user" + " (" + ("name" + ", " + "seq_no") + ")" == "insert into user (name, seq_no)"
    ensures "insert into " + "user" + " (" + ("name" + ", ") == "insert into user (name, "
    ensures "insert into " + "user" + " (" + ("name" + ", ") + ")" == "insert into user (name, )"
  {
  }

  lemma PlaceholderLiterals()
    ensures "#{" + "item." + "name" + "}" == "#{item.name}"
    ensures "#{" + "" + "seqNo" + "}" == "#{seqNo}"
    ensures "#{item.name}" + ", " + "#{seqNo}" == "#{item.name}, #{seqNo}"
  {
  }

  lemma IndentLiterals()
    ensures Indent + "seq_no" + ")" == "  seq_no)"
    ensures Indent + "#{seqNo}" + ValuesFooter == "  #{seqNo})</foreach>"
  {
  }

  /**
   * The same columns' placeholders: `name` reads from the row item, the
   * sequence column `seq_no` has no `item.` prefix.
   */
  lemma UserTablePlaceholders(table: Table, fmt: Formatter)
    requires table.allColumns == [Id, Name, SeqNo]
    requires PlainFormatter(fmt)
    ensures Dedented(Fragments(table, fmt).values) == ValuesHeader + "#{item.name}, #{seqNo}" + ValuesFooter
  {
    ValuesClauseText(table, fmt);
    PlaceholderLiterals();
    KeptOfUserColumns();
    assert [Name, SeqNo][..1] == [Name];
    assert [Name][..0] == [];
    assert Placeholders(fmt)(Name) == "#{item.name}";
    assert Placeholders(fmt)(SeqNo) == "#{seqNo}";
    assert Rendered([Name, SeqNo], Placeholders(fmt)) == ["#{item.name}", "#{seqNo}"];
    JoinOfTwo("#{item.name}", "#{seqNo}");
    assert !TrailingSeparator(table.allColumns);
  }

  /** A JDBC-standard key on `id` makes the statement use generated keys bound to `id`. */
  lemma UserTableKey(table: Table, fmt: Formatter)
    requires table.generatedKey == Some(GeneratedKey("id", true, "AFTER", ""))
    requires table.getColumn("id") == Some(Id)
    ensures AttributeValue(BatchInsertElement(table, fmt).attributes, "useGeneratedKeys") == Some("true")
    ensures AttributeValue(BatchInsertElement(table, fmt).attributes, "keyProperty") == Some("id")
  {
    GeneratedKeyCases(table, fmt);
  }

  /**
   * For the same columns the values buffer passes 80 characters after `name`,
   * so both clauses are flushed there: two insert and two values fragments.
   */
  lemma UserTableFlush(table: Table, fmt: Formatter)
    requires table.allColumns == [Id, Name, SeqNo] && table.fullyQualifiedTableNameAtRuntime == "user"
    requires PlainFormatter(fmt)
    ensures Fragments(table, fmt)
         == Clauses(
              ["insert into user (name, ", "  seq_no)"],
              [ValuesHeader + "#{item.name}, ", "  #{seqNo})</foreach>"])
  {
    var columns := table.allColumns;
    InsertLiterals();
    PlaceholderLiterals();
    IndentLiterals();
    assert |ValuesHeader| == 77;
    var w0 := Run(table, fmt, 0);
    assert Run(table, fmt, 1) == w0;
    assert Piece(columns, 1, fmt.escapedColumnName) == "name, ";
    assert Placeholders(fmt)(Name) == "#{item.name}";
    assert Piece(columns, 1, Placeholders(fmt)) == "#{item.name}, ";
    assert |w0.valuesClause + "#{item.name}, "| == 91;
    var w2 := Run(table, fmt, 2);
    assert w2 == Wrap(Indent, Indent, ["insert into user (name, "], [ValuesHeader + "#{item.name}, "]);
    assert Piece(columns, 2, fmt.escapedColumnName) == "seq_no";
    assert Placeholders(fmt)(SeqNo) == "#{seqNo}";
    assert Piece(columns, 2, Placeholders(fmt)) == "#{seqNo}";
    assert Run(table, fmt, 3) == Wrap(Indent + "seq_no", Indent + "#{seqNo}", w2.insertFragments, w2.valuesFragments);
  }

  /**
   * Columns (name, id identity): only an identity column follows `name`, so
   * the column list keeps a trailing ", ".
   */
  lemma TrailingIdentityExample(table: Table, fmt: Formatter)
    requires table.allColumns == [Name, Id] && table.fullyQualifiedTableNameAtRuntime == "user"
    requires PlainFormatter(fmt)
    ensures Dedented(Fragments(table, fmt).inserts) == "insert into user (name, )"
  {
    InsertClauseText(table, fmt);
    assert table.allColumns[..1] == [Name];
    assert table.allColumns[..1][..0] == [];
    assert Kept(table.allColumns) == [Name];
    assert Rendered([Name], fmt.escapedColumnName) == ["name"];
    assert TrailingSeparator(table.allColumns);
    assert InsertHeader(table) == "insert into " + "user" + " (";
    InsertLiterals();
  }
}
