/**
 * The batch insert plugin: for a MyBatis3 table it adds a `batchInsert` and a
 * `batchInsertSelective` method to the client interface and a multi-row
 * `insert` element to the XML mapper.
 *
 * The mapper element is assembled by a loop over the table's columns that fills
 * two text buffers side by side (the column list and the per-row placeholder
 * list) and flushes both once the placeholder buffer is longer than 80
 * characters. `AddBatchInsertSqlMap` is that loop; `Run`/`Fragments` give the
 * same text as a recursive definition, and the lemmas state what the text is.
 */
module BatchInsertPlugin {
  import opened Host

  const BatchInsert := "batchInsert"
  const BatchInsertSelective := "batchInsertSelective"

  /** The values buffer is flushed once it is longer than this. */
  const LineWidth := 80

  /** One level of XML indentation: the host's XML indent writes two spaces per level. */
  const Indent := "  "

  const ItemPrefix := "item."

  const ValuesHeader := "values <foreach collection=\"list\" item=\"item\" index=\"index\" separator=\",\" > ("

  const ValuesFooter := ")</foreach>"

  function InsertHeader(table: Table): string
  {
    "insert into " + table.fullyQualifiedTableNameAtRuntime + " ("
  }

  /** The plugin accepts every configuration. */
  function Validate(warnings: seq<string>): (valid: bool)
    ensures valid
  {
    true
  }

  // ---------------------------------------------------------------------------
  // Column lists
  // ---------------------------------------------------------------------------

  /** The columns that are not identity columns, in table order. */
  function Kept(columns: seq<Column>): (kept: seq<Column>)
    ensures |kept| <= |columns|
    ensures forall k :: 0 <= k < |kept| ==> !kept[k].isIdentity
  {
    if columns == [] then []
    else
      var last := columns[|columns| - 1];
      Kept(columns[..|columns| - 1]) + (if last.isIdentity then [] else [last])
  }

  function IdentityCount(columns: seq<Column>): nat
  {
    if columns == [] then 0
    else IdentityCount(columns[..|columns| - 1]) + (if columns[|columns| - 1].isIdentity then 1 else 0)
  }

  /** `render` applied to every column of `columns`. */
  function Rendered(columns: seq<Column>, render: Column -> string): (items: seq<string>)
    ensures |items| == |columns|
    ensures forall k :: 0 <= k < |columns| ==> items[k] == render(columns[k])
  {
    if columns == [] then []
    else Rendered(columns[..|columns| - 1], render) + [render(columns[|columns| - 1])]
  }

  /** The items separated by ", ". */
  function Join(items: seq<string>): string
  {
    if |items| == 0 then ""
    else if |items| == 1 then items[0]
    else Join(items[..|items| - 1]) + (", " + items[|items| - 1])
  }

  /** Every item followed by ", ". */
  function Terminated(items: seq<string>): string
  {
    if items == [] then ""
    else Terminated(items[..|items| - 1]) + (items[|items| - 1] + ", ")
  }

  /**
   * True when the last column is an identity column and some earlier column is
   * kept: the last kept column then still has a later column, so it is
   * followed by ", ".
   */
  predicate TrailingSeparator(columns: seq<Column>)
  {
    |columns| > 0 && columns[|columns| - 1].isIdentity && Kept(columns) != []
  }

  function ColumnList(items: seq<string>, trailing: bool): string
  {
    if trailing then Join(items) + ", " else Join(items)
  }

  // Two solver hints: re-bracketing and the empty suffix, stated once so that
  // proofs can call them at the one place they are needed.

  lemma ConcatAssoc(a: string, b: string, c: string)
    ensures a + b + c == a + (b + c)
  {
  }

  lemma EmptyRight(a: string)
    ensures a + "" == a
  {
  }

  /** The separator after column `i`: ", " whenever any later column exists. */
  function Separator(columns: seq<Column>, i: nat): string
    requires i < |columns|
  {
    if i + 1 < |columns| then ", " else ""
  }

  /** What column `i` appends to a buffer whose entries `render` produces. */
  function Piece(columns: seq<Column>, i: nat, render: Column -> string): string
    requires i < |columns|
  {
    if columns[i].isIdentity then "" else render(columns[i]) + Separator(columns, i)
  }

  /** The text the first `n` columns append to one buffer, flushes ignored. */
  function Body(columns: seq<Column>, n: nat, render: Column -> string): string
    requires n <= |columns|
  {
    if n == 0 then "" else Body(columns, n - 1, render) + Piece(columns, n - 1, render)
  }

  /** The placeholder of a column in the values clause. */
  function Placeholder(fmt: Formatter, column: Column): string
  {
    if column.isSequenceColumn then fmt.parameterClause(column, None)
    else fmt.parameterClause(column, Some(ItemPrefix))
  }

  function Placeholders(fmt: Formatter): Column -> string
  {
    c => Placeholder(fmt, c)
  }

  lemma {:induction false} KeptColumns(columns: seq<Column>)
    ensures |Kept(columns)| == |columns| - IdentityCount(columns)
    ensures forall c :: c in Kept(columns) <==> c in columns && !c.isIdentity
  {
    if columns != [] {
      var init, last := columns[..|columns| - 1], columns[|columns| - 1];
      KeptColumns(init);
      assert columns == init + [last];
    }
  }

  lemma JoinSnoc(items: seq<string>, x: string)
    ensures Join(items + [x]) == if items == [] then x else Join(items) + (", " + x)
  {
    assert (items + [x])[..|items|] == items;
  }

  lemma TerminatedSnoc(items: seq<string>, x: string)
    ensures Terminated(items + [x]) == Terminated(items) + (x + ", ")
  {
    assert (items + [x])[..|items|] == items;
  }

  lemma {:induction false} TerminatedIsJoin(items: seq<string>)
    requires items != []
    ensures Terminated(items) == Join(items) + ", "
  {
    var init, last := items[..|items| - 1], items[|items| - 1];
    assert items == init + [last];
    TerminatedSnoc(init, last);
    JoinSnoc(init, last);
    if init != [] {
      TerminatedIsJoin(init);
    }
  }

  lemma KeptSnoc(columns: seq<Column>, n: nat)
    requires 0 < n <= |columns|
    ensures columns[n - 1].isIdentity ==> Kept(columns[..n]) == Kept(columns[..n - 1])
    ensures !columns[n - 1].isIdentity ==> Kept(columns[..n]) == Kept(columns[..n - 1]) + [columns[n - 1]]
  {
    assert columns[..n][..n - 1] == columns[..n - 1];
  }

  lemma RenderedSnoc(columns: seq<Column>, c: Column, render: Column -> string)
    ensures Rendered(columns + [c], render) == Rendered(columns, render) + [render(c)]
  {
    assert (columns + [c])[..|columns|] == columns;
  }

  /** Before the last column every kept column is followed by ", ". */
  lemma {:induction false} BodyBeforeLast(columns: seq<Column>, n: nat, render: Column -> string)
    requires n < |columns|
    ensures Body(columns, n, render) == Terminated(Rendered(Kept(columns[..n]), render))
  {
    if n == 0 {
      assert columns[..0] == [];
    } else {
      BodyBeforeLast(columns, n - 1, render);
      KeptSnoc(columns, n);
      var c := columns[n - 1];
      if !c.isIdentity {
        var items := Rendered(Kept(columns[..n - 1]), render);
        RenderedSnoc(Kept(columns[..n - 1]), c, render);
        TerminatedSnoc(items, render(c));
      }
    }
  }

  /**
   * A whole buffer body is the kept columns' entries separated by ", ", with
   * one more ", " exactly when only identity columns follow the last kept one.
   */
  lemma ColumnListBody(columns: seq<Column>, render: Column -> string)
    ensures Body(columns, |columns|, render)
         == ColumnList(Rendered(Kept(columns), render), TrailingSeparator(columns))
  {
    if columns != [] {
      var n := |columns| - 1;
      BodyBeforeLast(columns, n, render);
      KeptSnoc(columns, n + 1);
      assert columns[..n + 1] == columns;
      if columns[n].isIdentity {
        BodyEndingInIdentity(columns, render);
      } else {
        BodyEndingInKept(columns, render);
      }
    }
  }

  lemma BodyEndingInIdentity(columns: seq<Column>, render: Column -> string)
    requires columns != [] && columns[|columns| - 1].isIdentity
    requires Body(columns, |columns| - 1, render) == Terminated(Rendered(Kept(columns[..|columns| - 1]), render))
    requires Kept(columns) == Kept(columns[..|columns| - 1])
    ensures Body(columns, |columns|, render)
         == ColumnList(Rendered(Kept(columns), render), TrailingSeparator(columns))
  {
    var items := Rendered(Kept(columns), render);
    EmptyRight(Terminated(items));
    if items != [] {
      TerminatedIsJoin(items);
    }
  }

  lemma BodyEndingInKept(columns: seq<Column>, render: Column -> string)
    requires columns != [] && !columns[|columns| - 1].isIdentity
    requires Body(columns, |columns| - 1, render) == Terminated(Rendered(Kept(columns[..|columns| - 1]), render))
    requires Kept(columns) == Kept(columns[..|columns| - 1]) + [columns[|columns| - 1]]
    ensures Body(columns, |columns|, render)
         == ColumnList(Rendered(Kept(columns), render), TrailingSeparator(columns))
  {
    var c := columns[|columns| - 1];
    var kept := Kept(columns[..|columns| - 1]);
    var items := Rendered(kept, render);
    assert Piece(columns, |columns| - 1, render) == render(c) + "";
    EmptyRight(render(c));
    RenderedSnoc(kept, c, render);
    JoinSnoc(items, render(c));
    if items != [] {
      TerminatedIsJoin(items);
      ConcatAssoc(Join(items), ", ", render(c));
    }
  }

  // ---------------------------------------------------------------------------
  // Generated key
  // ---------------------------------------------------------------------------

  /** The generated-key configuration together with its column, when both exist. */
  function ResolvedKey(table: Table): Option<(GeneratedKey, Column)>
  {
    match table.generatedKey
    case None => None
    case Some(gk) =>
      match table.getColumn(gk.column)
      case None => None
      case Some(column) => Some((gk, column))
  }

  /** The nested element that fetches a non-JDBC-standard generated key. */
  function SelectKey(column: Column, gk: GeneratedKey): (e: XmlElement)
    ensures e.name == "selectKey"
    ensures AttributeValue(e.attributes, "resultType") == Some(column.fullyQualifiedJavaType)
    ensures AttributeValue(e.attributes, "keyProperty") == Some(column.javaProperty)
    ensures AttributeValue(e.attributes, "order") == Some(gk.myBatis3Order)
    ensures e.elements == [TextElement(gk.runtimeSqlStatement)]
  {
    var attributes :=
      [ Attribute("resultType", column.fullyQualifiedJavaType),
        Attribute("keyProperty", column.javaProperty),
        Attribute("order", gk.myBatis3Order) ];
    AttributeValueAt(attributes, "resultType", 0);
    AttributeValueAt(attributes, "keyProperty", 1);
    AttributeValueAt(attributes, "order", 2);
    XmlElement("selectKey", attributes, [TextElement(gk.runtimeSqlStatement)])
  }

  function InsertAttributes(table: Table): seq<Attribute>
  {
    [Attribute("id", BatchInsert), Attribute("parameterType", table.allFieldsClass)]
    + match ResolvedKey(table)
      case Some((gk, column)) =>
        if gk.isJdbcStandard
        then [Attribute("useGeneratedKeys", "true"), Attribute("keyProperty", column.javaProperty)]
        else []
      case None => []
  }

  function KeyElements(table: Table): seq<Element>
  {
    match ResolvedKey(table)
    case Some((gk, column)) => if gk.isJdbcStandard then [] else [Child(SelectKey(column, gk))]
    case None => []
  }

  // ---------------------------------------------------------------------------
  // The insert text, as a recursive definition
  // ---------------------------------------------------------------------------

  /**
   * The state of the column loop: both buffers, the insert fragments already
   * flushed, and the values fragments queued.
   */
  datatype Wrap = Wrap(
    insertClause: string,
    valuesClause: string,
    insertFragments: seq<string>,
    valuesFragments: seq<string>)

  /**
   * The state after appending `insertPiece` and `valuesPiece` to the buffers:
   * when the values buffer is then longer than the line width, both buffers
   * are flushed and reopened with one indent.
   */
  function Appended(w: Wrap, insertPiece: string, valuesPiece: string): Wrap
  {
    var insertClause := w.insertClause + insertPiece;
    var valuesClause := w.valuesClause + valuesPiece;
    if |valuesClause| > LineWidth
    then Wrap(Indent, Indent, w.insertFragments + [insertClause], w.valuesFragments + [valuesClause])
    else Wrap(insertClause, valuesClause, w.insertFragments, w.valuesFragments)
  }

  /** Column `i` of `columns` processed from state `w`; identity columns are skipped. */
  function Step(fmt: Formatter, columns: seq<Column>, i: nat, w: Wrap): Wrap
    requires i < |columns|
  {
    if columns[i].isIdentity then w
    else Appended(w, Piece(columns, i, fmt.escapedColumnName), Piece(columns, i, Placeholders(fmt)))
  }

  /** The state after the first `n` columns. */
  function Run(table: Table, fmt: Formatter, n: nat): Wrap
    requires n <= |table.allColumns|
  {
    if n == 0 then Wrap(InsertHeader(table), ValuesHeader, [], [])
    else Step(fmt, table.allColumns, n - 1, Run(table, fmt, n - 1))
  }

  datatype Clauses = Clauses(inserts: seq<string>, values: seq<string>)

  /** The text elements of both clauses, once both buffers are closed. */
  function Fragments(table: Table, fmt: Formatter): Clauses
  {
    var w := Run(table, fmt, |table.allColumns|);
    Clauses(w.insertFragments + [w.insertClause + ")"], w.valuesFragments + [w.valuesClause + ValuesFooter])
  }

  function Texts(contents: seq<string>): seq<Element>
  {
    seq(|contents|, k requires 0 <= k < |contents| => TextElement(contents[k]))
  }

  /** The `insert` element the plugin adds to the mapper. */
  function BatchInsertElement(table: Table, fmt: Formatter): XmlElement
  {
    var f := Fragments(table, fmt);
    XmlElement("insert", InsertAttributes(table), KeyElements(table) + Texts(f.inserts) + Texts(f.values))
  }

  predicate StartsWithIndent(s: string)
  {
    |Indent| <= |s| && s[..|Indent|] == Indent
  }

  function DropIndent(s: string): string
  {
    if StartsWithIndent(s) then s[|Indent|..] else s
  }

  /** The fragments joined back together, each later fragment without its indent. */
  function Dedented(fragments: seq<string>): string
  {
    if |fragments| == 0 then ""
    else if |fragments| == 1 then fragments[0]
    else Dedented(fragments[..|fragments| - 1]) + DropIndent(fragments[|fragments| - 1])
  }

  lemma DedentedSnoc(fragments: seq<string>, x: string)
    requires fragments != []
    ensures Dedented(fragments + [x]) == Dedented(fragments) + DropIndent(x)
  {
    assert (fragments + [x])[..|fragments|] == fragments;
  }

  lemma IndentExtends(x: string, p: string)
    requires StartsWithIndent(x)
    ensures StartsWithIndent(x + p)
    ensures DropIndent(x + p) == DropIndent(x) + p
  {
    assert (x + p)[..|Indent|] == x[..|Indent|];
    assert (x + p)[|Indent|..] == x[|Indent|..] + p;
  }

  /** Appending to the open buffer appends to the dedented text. */
  lemma DedentedAppend(fragments: seq<string>, x: string, p: string)
    requires fragments != [] ==> StartsWithIndent(x)
    ensures Dedented(fragments + [x + p]) == Dedented(fragments + [x]) + p
  {
    if fragments == [] {
      assert fragments + [x + p] == [x + p];
      assert fragments + [x] == [x];
    } else {
      DedentedSnoc(fragments, x + p);
      DedentedSnoc(fragments, x);
      IndentExtends(x, p);
    }
  }

  /** Appending to the open buffer and then flushing it appends to the dedented text. */
  lemma DedentedFlush(fragments: seq<string>, x: string, p: string)
    requires fragments != [] ==> StartsWithIndent(x)
    ensures Dedented(fragments + [x + p] + [Indent]) == Dedented(fragments + [x]) + p
  {
    DedentedAppend(fragments, x, p);
    DedentedSnoc(fragments + [x + p], Indent);
    assert DropIndent(Indent) == "";
    EmptyRight(Dedented(fragments + [x + p]));
  }

  /**
   * The loop state's layout: both sides flushed equally often, every queued
   * values fragment longer than the line width and the open values buffer
   * not, every fragment after the first and every reopened buffer starting
   * with one indent.
   */
  ghost predicate WellWrapped(w: Wrap)
  {
    && |w.insertFragments| == |w.valuesFragments|
    && |w.valuesClause| <= LineWidth
    && (forall k :: 0 <= k < |w.valuesFragments| ==> |w.valuesFragments[k]| > LineWidth)
    && (forall k :: 0 < k < |w.insertFragments| ==>
          StartsWithIndent(w.insertFragments[k]) && StartsWithIndent(w.valuesFragments[k]))
    && (w.insertFragments != [] ==> StartsWithIndent(w.insertClause) && StartsWithIndent(w.valuesClause))
  }

  lemma {:induction false} RunWellWrapped(table: Table, fmt: Formatter, n: nat)
    requires n <= |table.allColumns|
    ensures WellWrapped(Run(table, fmt, n))
  {
    if n == 0 {
      assert |ValuesHeader| == 77;
    } else {
      var columns, i := table.allColumns, n - 1;
      RunWellWrapped(table, fmt, i);
      var w := Run(table, fmt, i);
      if !columns[i].isIdentity && w.insertFragments != [] {
        IndentExtends(w.insertClause, Piece(columns, i, fmt.escapedColumnName));
        IndentExtends(w.valuesClause, Piece(columns, i, Placeholders(fmt)));
      }
    }
  }

  /** Appending to the buffers appends to both dedented texts, whether or not they are flushed. */
  lemma AppendedText(w: Wrap, insertPiece: string, valuesPiece: string)
    requires w.insertFragments != [] ==> StartsWithIndent(w.insertClause)
    requires w.valuesFragments != [] ==> StartsWithIndent(w.valuesClause)
    ensures var next := Appended(w, insertPiece, valuesPiece);
      && Dedented(next.insertFragments + [next.insertClause]) == Dedented(w.insertFragments + [w.insertClause]) + insertPiece
      && Dedented(next.valuesFragments + [next.valuesClause]) == Dedented(w.valuesFragments + [w.valuesClause]) + valuesPiece
  {
    if |w.valuesClause + valuesPiece| > LineWidth {
      DedentedFlush(w.insertFragments, w.insertClause, insertPiece);
      DedentedFlush(w.valuesFragments, w.valuesClause, valuesPiece);
    } else {
      DedentedAppend(w.insertFragments, w.insertClause, insertPiece);
      DedentedAppend(w.valuesFragments, w.valuesClause, valuesPiece);
    }
  }

  /**
   * With the indents dropped, each side of the loop state is its header
   * followed by the pieces of every column seen so far: flushing loses no text.
   */
  lemma {:induction false} RunText(table: Table, fmt: Formatter, n: nat)
    requires n <= |table.allColumns|
    ensures var w := Run(table, fmt, n);
      && Dedented(w.insertFragments + [w.insertClause])
         == InsertHeader(table) + Body(table.allColumns, n, fmt.escapedColumnName)
      && Dedented(w.valuesFragments + [w.valuesClause])
         == ValuesHeader + Body(table.allColumns, n, Placeholders(fmt))
  {
    if n > 0 {
      var columns, i := table.allColumns, n - 1;
      RunText(table, fmt, i);
      RunWellWrapped(table, fmt, i);
      var w := Run(table, fmt, i);
      var pi, pv := Piece(columns, i, fmt.escapedColumnName), Piece(columns, i, Placeholders(fmt));
      var bi, bv := Body(columns, i, fmt.escapedColumnName), Body(columns, i, Placeholders(fmt));
      assert Body(columns, n, fmt.escapedColumnName) == bi + pi;
      assert Body(columns, n, Placeholders(fmt)) == bv + pv;
      ConcatAssoc(InsertHeader(table), bi, pi);
      ConcatAssoc(ValuesHeader, bv, pv);
      if columns[i].isIdentity {
        assert Run(table, fmt, n) == w;
        EmptyRight(bi);
        EmptyRight(bv);
      } else {
        assert Run(table, fmt, n) == Appended(w, pi, pv);
        AppendedText(w, pi, pv);
      }
    }
  }

  /**
   * The insert side and the values side yield the same number of text
   * elements, one more than the number of flushes; every values fragment but
   * the last is longer than the line width, the last one's buffer was not;
   * every fragment after the first starts with one indent.
   */
  lemma FragmentsShape(table: Table, fmt: Formatter)
    ensures var f := Fragments(table, fmt);
      && |f.inserts| == |f.values| >= 1
      && (forall k :: 0 <= k < |f.values| - 1 ==> |f.values[k]| > LineWidth)
      && |f.values[|f.values| - 1]| <= LineWidth + |ValuesFooter|
      && (forall k :: 0 < k < |f.inserts| ==> StartsWithIndent(f.inserts[k]) && StartsWithIndent(f.values[k]))
  {
    var w := Run(table, fmt, |table.allColumns|);
    RunWellWrapped(table, fmt, |table.allColumns|);
    if w.insertFragments != [] {
      IndentExtends(w.insertClause, ")");
      IndentExtends(w.valuesClause, ValuesFooter);
    }
  }

  /**
   * With the indents dropped, the insert fragments read `insert into <table> (`,
   * the escaped names of the non-identity columns in table order separated by
   * ", " (plus the trailing ", " of `TrailingSeparator`), then `)`.
   */
  lemma InsertClauseText(table: Table, fmt: Formatter)
    ensures Dedented(Fragments(table, fmt).inserts)
         == InsertHeader(table)
            + ColumnList(Rendered(Kept(table.allColumns), fmt.escapedColumnName), TrailingSeparator(table.allColumns))
            + ")"
  {
    var w := Run(table, fmt, |table.allColumns|);
    RunText(table, fmt, |table.allColumns|);
    RunWellWrapped(table, fmt, |table.allColumns|);
    DedentedAppend(w.insertFragments, w.insertClause, ")");
    ColumnListBody(table.allColumns, fmt.escapedColumnName);
  }

  /**
   * With the indents dropped, the values fragments read the `foreach` header,
   * the placeholders of the non-identity columns in table order separated by
   * ", " (plus the same trailing ", " as the insert side), then `)</foreach>`.
   * A sequence column's placeholder has no prefix, every other has `item.`.
   */
  lemma ValuesClauseText(table: Table, fmt: Formatter)
    ensures Dedented(Fragments(table, fmt).values)
         == ValuesHeader
            + ColumnList(Rendered(Kept(table.allColumns), Placeholders(fmt)), TrailingSeparator(table.allColumns))
            + ValuesFooter
    // The host's placeholder text is uninterpreted, so the prefix choice is
    // stated in terms of the arguments it is called with.
    ensures forall c :: c in Kept(table.allColumns) ==>
      Placeholders(fmt)(c)
      == if c.isSequenceColumn then fmt.parameterClause(c, None) else fmt.parameterClause(c, Some("item."))
  {
    var w := Run(table, fmt, |table.allColumns|);
    RunText(table, fmt, |table.allColumns|);
    RunWellWrapped(table, fmt, |table.allColumns|);
    DedentedAppend(w.valuesFragments, w.valuesClause, ValuesFooter);
    ColumnListBody(table.allColumns, Placeholders(fmt));
  }

  /**
   * The three generated-key cases: nothing added; `useGeneratedKeys` and
   * `keyProperty` attributes; or exactly one `selectKey` child, first.
   */
  lemma GeneratedKeyCases(table: Table, fmt: Formatter)
    ensures var e := BatchInsertElement(table, fmt);
      match ResolvedKey(table)
      case None =>
        && e.attributes == [Attribute("id", BatchInsert), Attribute("parameterType", table.allFieldsClass)]
        && forall k :: 0 <= k < |e.elements| ==> e.elements[k].TextElement?
      case Some((gk, column)) =>
        if gk.isJdbcStandard then
          && AttributeValue(e.attributes, "useGeneratedKeys") == Some("true")
          && AttributeValue(e.attributes, "keyProperty") == Some(column.javaProperty)
          && forall k :: 0 <= k < |e.elements| ==> e.elements[k].TextElement?
        else
          && e.attributes == [Attribute("id", BatchInsert), Attribute("parameterType", table.allFieldsClass)]
          && |e.elements| > 0 && e.elements[0] == Child(SelectKey(column, gk))
          && forall k :: 0 < k < |e.elements| ==> e.elements[k].TextElement?
  {
    var f := Fragments(table, fmt);
    var texts := Texts(f.inserts) + Texts(f.values);
    assert forall k :: 0 <= k < |texts| ==> texts[k].TextElement?;
    match ResolvedKey(table)
    case Some((gk, column)) =>
      if gk.isJdbcStandard {
        var attributes := InsertAttributes(table);
        AttributeValueAt(attributes, "useGeneratedKeys", 2);
        AttributeValueAt(attributes, "keyProperty", 3);
      }
    case None =>
  }

  /**
   * The children of the `insert` element: the key element if any, then every
   * insert fragment in order, then every values fragment in order, as many of
   * the one as of the other.
   */
  lemma ElementOrder(table: Table, fmt: Formatter)
    ensures var e := BatchInsertElement(table, fmt);
      var f := Fragments(table, fmt);
      var k := |KeyElements(table)|;
      && |e.elements| == k + |f.inserts| + |f.values|
      && |f.inserts| == |f.values|
      && e.elements[..k] == KeyElements(table)
      && e.elements[k..k + |f.inserts|] == Texts(f.inserts)
      && e.elements[k + |f.inserts|..] == Texts(f.values)
  {
    var e := BatchInsertElement(table, fmt);
    var f := Fragments(table, fmt);
    var k := |KeyElements(table)|;
    FragmentsShape(table, fmt);
    assert e.elements[..k] == KeyElements(table);
    assert e.elements[k..k + |f.inserts|] == Texts(f.inserts);
    assert e.elements[k + |f.inserts|..] == Texts(f.values);
  }

  // ---------------------------------------------------------------------------
  // The mapper element, built as the plugin builds it
  // ---------------------------------------------------------------------------

  lemma TextsSnoc(contents: seq<string>, x: string)
    ensures Texts(contents + [x]) == Texts(contents) + [TextElement(x)]
  {
  }

  /** Appending an entry and then, unless it is the last column, ", " appends the column's piece. */
  lemma PieceAppended(columns: seq<Column>, i: nat, entry: string, clause: string, appended: string)
    requires i < |columns| && !columns[i].isIdentity
    requires appended == if i + 1 < |columns| then clause + entry + ", " else clause + entry
    ensures appended == clause + (entry + Separator(columns, i))
  {
    if i + 1 < |columns| {
      ConcatAssoc(clause, entry, ", ");
    } else {
      EmptyRight(entry);
    }
  }

  /** The `insert` element before its text: id, parameter type and the generated key. */
  method NewInsertElement(table: Table) returns (answer: XmlElement)
    ensures answer == XmlElement("insert", InsertAttributes(table), KeyElements(table))
  {
    answer := XmlElement("insert", [], []);
    answer := answer.(attributes := answer.attributes + [Attribute("id", BatchInsert)]);
    answer := answer.(attributes := answer.attributes + [Attribute("parameterType", table.allFieldsClass)]);

    var gk := table.generatedKey;
    if gk.Some? {
      var column := table.getColumn(gk.value.column);
      if column.Some? {
        if gk.value.isJdbcStandard {
          answer := answer.(attributes := answer.attributes + [Attribute("useGeneratedKeys", "true")]);
          answer := answer.(attributes := answer.attributes + [Attribute("keyProperty", column.value.javaProperty)]);
        } else {
          answer := answer.(elements := answer.elements + [Child(SelectKey(column.value, gk.value))]);
        }
      }
    }
  }

  /**
   * The column loop: fills both buffers, adding each flushed insert fragment
   * to `answer` and queueing each flushed values fragment, and ends in the
   * state `Run` describes.
   */
  method AppendColumns(answer: XmlElement, table: Table, fmt: Formatter)
    returns (filled: XmlElement, insertClause: string, valuesClause: string, valuesClauses: seq<string>)
    ensures var w := Run(table, fmt, |table.allColumns|);
      && filled == answer.(elements := answer.elements + Texts(w.insertFragments))
      && insertClause == w.insertClause
      && valuesClause == w.valuesClause
      && valuesClauses == w.valuesFragments
  {
    filled := answer;
    insertClause := "insert into " + table.fullyQualifiedTableNameAtRuntime + " (";
    valuesClause := ValuesHeader;
    valuesClauses := [];

    var columns := table.allColumns;
    var i := 0;
    while i < |columns|
      invariant 0 <= i <= |columns|
      invariant filled == answer.(elements := answer.elements + Texts(Run(table, fmt, i).insertFragments))
      invariant insertClause == Run(table, fmt, i).insertClause
      invariant valuesClause == Run(table, fmt, i).valuesClause
      invariant valuesClauses == Run(table, fmt, i).valuesFragments
    {
      ghost var before := Run(table, fmt, i);
      ghost var n := i;
      var column := columns[i];
      i := i + 1;
      if column.isIdentity {
        continue;
      }
      insertClause := insertClause + fmt.escapedColumnName(column);
      if column.isSequenceColumn {
        valuesClause := valuesClause + fmt.parameterClause(column, None);
      } else {
        valuesClause := valuesClause + fmt.parameterClause(column, Some(ItemPrefix));
      }
      if i < |columns| {
        insertClause := insertClause + ", ";
        valuesClause := valuesClause + ", ";
      }
      PieceAppended(columns, n, fmt.escapedColumnName(column), before.insertClause, insertClause);
      PieceAppended(columns, n, Placeholders(fmt)(column), before.valuesClause, valuesClause);
      if |valuesClause| > LineWidth {
        TextsSnoc(before.insertFragments, insertClause);
        filled := filled.(elements := filled.elements + [TextElement(insertClause)]);
        insertClause := Indent;
        valuesClauses := valuesClauses + [valuesClause];
        valuesClause := Indent;
      }
    }
  }

  /**
   * Adds the batch insert element to `parent`: the attributes and key element
   * first, then one text element per insert fragment, then one per values
   * fragment.
   */
  method AddBatchInsertSqlMap(parent: XmlElement, table: Table, fmt: Formatter) returns (updated: XmlElement)
    ensures updated == parent.(elements := parent.elements + [Child(BatchInsertElement(table, fmt))])
  {
    var answer := NewInsertElement(table);
    var insertClause, valuesClause, valuesClauses;
    answer, insertClause, valuesClause, valuesClauses := AppendColumns(answer, table, fmt);

    ghost var w := Run(table, fmt, |table.allColumns|);
    ghost var f := Fragments(table, fmt);
    insertClause := insertClause + ")";
    TextsSnoc(w.insertFragments, insertClause);
    answer := answer.(elements := answer.elements + [TextElement(insertClause)]);

    valuesClause := valuesClause + ValuesFooter;
    valuesClauses := valuesClauses + [valuesClause];

    for j := 0 to |valuesClauses|
      invariant answer == XmlElement("insert", InsertAttributes(table), KeyElements(table) + Texts(f.inserts) + Texts(valuesClauses[..j]))
    {
      TextsSnoc(valuesClauses[..j], valuesClauses[j]);
      assert valuesClauses[..j + 1] == valuesClauses[..j] + [valuesClauses[j]];
      answer := answer.(elements := answer.elements + [TextElement(valuesClauses[j])]);
    }
    assert valuesClauses[..|valuesClauses|] == f.values;

    updated := parent.(elements := parent.elements + [Child(answer)]);
  }

  // ---------------------------------------------------------------------------
  // The client interface
  // ---------------------------------------------------------------------------

  const IntType := JavaType("int", [])
  const ListType := JavaType("java.util.List", [])
  const ParamType := JavaType("org.apache.ibatis.annotations.Param", [])

  function EntityType(table: Table): JavaType
  {
    JavaType(table.allFieldsClass, [])
  }

  /** A public `int name(@Param("recordList") List<entity> recordList)`. */
  predicate IsBatchSignature(m: Method, name: string, entity: JavaType)
  {
    && m.visibility == Public
    && m.returnType == Some(IntType)
    && m.name == name
    && |m.parameters| == 1
    && m.parameters[0].parameterType == JavaType(ListType.fullyQualifiedName, [entity])
    && m.parameters[0].name == "recordList"
    && m.parameters[0].annotations == ["@Param(\"recordList\")"]
  }

  /**
   * Appends `batchInsert` and `batchInsertSelective` to the interface's methods
   * and imports the entity, `List` and `Param` types; nothing else changes.
   */
  function AddBatchInsertMethod(iface: Interface, table: Table): (r: Interface)
    ensures |r.methods| == |iface.methods| + 2
    ensures r.methods[..|iface.methods|] == iface.methods
    ensures IsBatchSignature(r.methods[|iface.methods|], BatchInsert, EntityType(table))
    ensures IsBatchSignature(r.methods[|iface.methods| + 1], BatchInsertSelective, EntityType(table))
    ensures r.importedTypes == iface.importedTypes + {EntityType(table), ListType, ParamType}
  {
    var entity := EntityType(table);
    var listParameterType := JavaType(ListType.fullyQualifiedName, [entity]);
    var recordList := Parameter(listParameterType, "recordList", ["@Param(\"recordList\")"]);
    var insertMethod := Method(Public, Some(IntType), BatchInsert, [recordList]);
    var insertSelectiveMethod := Method(Public, Some(IntType), BatchInsertSelective, [recordList]);
    Interface(iface.importedTypes + {entity, ListType, ParamType},
              iface.methods + [insertMethod, insertSelectiveMethod])
  }

  // ---------------------------------------------------------------------------
  // Hooks
  // ---------------------------------------------------------------------------

  /** The client hook changes the interface exactly when the runtime is MyBatis3. */
  function ClientGenerated(iface: Interface, table: Table): (r: Interface)
    ensures r != iface <==> table.targetRuntime == MyBatis3
    ensures table.targetRuntime == MyBatis3 ==> r == AddBatchInsertMethod(iface, table)
  {
    if table.targetRuntime == MyBatis3 then AddBatchInsertMethod(iface, table) else iface
  }

  /** The mapper hook changes the document exactly when the runtime is MyBatis3. */
  method SqlMapDocumentGenerated(document: Document, table: Table, fmt: Formatter) returns (r: Document)
    ensures r != document <==> table.targetRuntime == MyBatis3
    ensures table.targetRuntime == MyBatis3 ==>
      r.rootElement == document.rootElement.(elements := document.rootElement.elements + [Child(BatchInsertElement(table, fmt))])
  {
    r := document;
    if table.targetRuntime == MyBatis3 {
      var root := AddBatchInsertSqlMap(document.rootElement, table, fmt);
      r := Document(root);
      assert |r.rootElement.elements| != |document.rootElement.elements|;
    }
  }
}
