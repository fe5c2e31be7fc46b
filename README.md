# Batch insert plugin for MyBatis Generator, in Dafny

This project models `BatchInsertPlugin`, a MyBatis Generator plugin. For a table
generated for the MyBatis3 runtime, the plugin makes two additions:

- It adds `batchInsert` and `batchInsertSelective` to the generated client
  interface. Each is a public method returning `int` that takes one
  `@Param("recordList") List<Entity> recordList` parameter.
- It adds a multi-row `insert` element to the XML mapper.

The `insert` element carries the statement id and the entity's parameter type.
The generated key adds either `useGeneratedKeys`/`keyProperty` attributes or a
nested `selectKey` element. The SQL text is built by a loop over the table's
columns that fills two buffers side by side:

- the column list: `insert into <table> (a, b, ...)`;
- the per-row placeholders: `values <foreach collection="list" ...> (#{item.a}, ...)</foreach>`.

Identity columns are skipped. A sequence column's placeholder has no `item.`
prefix. When the placeholder buffer grows past 80 characters, both buffers are
flushed and reopened with one indent. The insert fragments are emitted first,
then the queued values fragments.

Modules:

- `Host` (host.dfy) holds plain records for the MyBatis Generator objects the
  plugin reads and builds. These are the introspected table and its columns,
  the generated-key configuration, XML elements and documents, and Java types,
  methods and interfaces.
- `BatchInsertPlugin` (batch_insert_plugin.dfy) holds the plugin:
  - `AddBatchInsertSqlMap` is the imperative builder, split into
    `NewInsertElement` (attributes and key) and `AppendColumns` (the column
    loop).
  - `Run`/`Step`/`Appended` give the same loop as a recursive definition, and
    `BatchInsertElement` gives the element it produces.
  - The lemmas state what that element's text is and how it is laid out.
- `BatchInsertExamples` (batch_insert_examples.dfy) holds concrete column lists
  worked through the model.

Two behaviours of the source are kept as written:

- After a kept column, ", " is appended whenever any later column exists,
  identity columns included. When only identity columns follow the last kept
  column, both clauses therefore end in a dangling ", ". For columns
  (name, id identity) this gives `insert into user (name, )`; see
  `TrailingSeparator` and `BatchInsertExamples.TrailingIdentityExample`.
- The mapper iterates `collection="list"`, while the interface methods name
  their parameter `recordList`.

## Model

| member | source | states |
|---|---|---|
| BatchInsertPlugin.Validate | src/main/java/com/hui/mybatis/plugins/BatchInsertPlugin.java:33-35 | every configuration is valid |
| BatchInsertPlugin.ClientGenerated | src/main/java/com/hui/mybatis/plugins/BatchInsertPlugin.java:46-54 | the interface changes exactly when the target runtime is MyBatis3, and then it gains the batch methods |
| BatchInsertPlugin.SqlMapDocumentGenerated | src/main/java/com/hui/mybatis/plugins/BatchInsertPlugin.java:63-70 | the document changes exactly when the target runtime is MyBatis3; then the root element gains the batch insert element as its last child and nothing else changes |
| BatchInsertPlugin.AddBatchInsertSqlMap | src/main/java/com/hui/mybatis/plugins/BatchInsertPlugin.java:77-165 | the parent gains exactly one new last child, the batch insert element (attributes, key element, insert fragments, values fragments), and keeps its name, attributes and earlier children |
| BatchInsertPlugin.NewInsertElement | src/main/java/com/hui/mybatis/plugins/BatchInsertPlugin.java:79-104 | the element starts as `insert` with id and parameter type, plus the generated-key attributes or `selectKey` child |
| BatchInsertPlugin.AppendColumns | src/main/java/com/hui/mybatis/plugins/BatchInsertPlugin.java:106-152 | the column loop ends in the state of the recursive definition: the flushed insert fragments are appended as text elements in order, and the open buffers and queued values fragments are those of `Run` |
| BatchInsertPlugin.Kept | src/main/java/com/hui/mybatis/plugins/BatchInsertPlugin.java:120-125 | no identity column survives the filter, and it never adds columns |
| BatchInsertPlugin.KeptColumns | src/main/java/com/hui/mybatis/plugins/BatchInsertPlugin.java:118-125 | N columns with K identity columns leave N-K; a column is kept exactly when it is in the table and not an identity column |
| BatchInsertPlugin.Rendered | src/main/java/com/hui/mybatis/plugins/BatchInsertPlugin.java:127-137 | one entry per column, entry k rendered from column k, in order |
| BatchInsertPlugin.BodyBeforeLast | src/main/java/com/hui/mybatis/plugins/BatchInsertPlugin.java:118-141 | before the last column, every kept column's entry is followed by ", " |
| BatchInsertPlugin.ColumnListBody | src/main/java/com/hui/mybatis/plugins/BatchInsertPlugin.java:118-141 | a buffer's body is the kept columns' entries in table order separated by ", ", with one more ", " exactly when the last column is an identity column and some column is kept |
| BatchInsertPlugin.AppendedText | src/main/java/com/hui/mybatis/plugins/BatchInsertPlugin.java:143-151 | appending to the buffers appends to both indent-stripped texts, whether or not the values buffer passes 80 characters and both are flushed |
| BatchInsertPlugin.RunWellWrapped | src/main/java/com/hui/mybatis/plugins/BatchInsertPlugin.java:143-151 | throughout the loop: both sides are flushed equally often, every queued values fragment is longer than 80 characters, the open values buffer is not, and every reopened buffer starts with one indent |
| BatchInsertPlugin.RunText | src/main/java/com/hui/mybatis/plugins/BatchInsertPlugin.java:106-152 | after any number of columns, each side with indents stripped is its header followed by every column's piece so far, so flushing loses no text |
| BatchInsertPlugin.FragmentsShape | src/main/java/com/hui/mybatis/plugins/BatchInsertPlugin.java:143-158 | both sides yield the same number (at least one) of text elements; every values fragment but the last is longer than 80 characters, and the last is at most 80 plus the footer; every later fragment starts with one indent |
| BatchInsertPlugin.InsertClauseText | src/main/java/com/hui/mybatis/plugins/BatchInsertPlugin.java:106-155 | the insert fragments, indents stripped, read `insert into <table> (`, the escaped names of the kept columns separated by ", " (plus the trailing separator case), then `)` |
| BatchInsertPlugin.ValuesClauseText | src/main/java/com/hui/mybatis/plugins/BatchInsertPlugin.java:114-158 | the values fragments, indents stripped, read the `foreach` header, the kept columns' placeholders separated as on the insert side, then `)</foreach>`; a sequence column's placeholder has no prefix, every other has `item.` |
| BatchInsertPlugin.ElementOrder | src/main/java/com/hui/mybatis/plugins/BatchInsertPlugin.java:144-162 | the children are the key element if any, then every insert fragment in order, then every values fragment in order, equally many of each |
| BatchInsertPlugin.GeneratedKeyCases | src/main/java/com/hui/mybatis/plugins/BatchInsertPlugin.java:90-104 | with no key or an unknown key column, only id and parameter type and only text children; with a JDBC-standard key, `useGeneratedKeys="true"` and `keyProperty` = the column's property; otherwise exactly one `selectKey` child, first |
| BatchInsertPlugin.SelectKey | src/main/java/com/hui/mybatis/plugins/BatchInsertPlugin.java:167-183 | a `selectKey` element whose `resultType`, `keyProperty` and `order` are the column's Java type, its property and the configured order, with the runtime SQL statement as its only body |
| BatchInsertPlugin.AddBatchInsertMethod | src/main/java/com/hui/mybatis/plugins/BatchInsertPlugin.java:191-234 | existing methods kept, then exactly `batchInsert` and `batchInsertSelective`, each public, returning `int`, with one `@Param("recordList") List<Entity> recordList` parameter; imports gain the entity, List and Param types |
| BatchInsertExamples.UserTableColumns | src/main/java/com/hui/mybatis/plugins/BatchInsertPlugin.java:106-155 | for columns (id identity, name, seq_no sequence) on table `user`, the insert text is `insert into user (name, seq_no)` |
| BatchInsertExamples.UserTablePlaceholders | src/main/java/com/hui/mybatis/plugins/BatchInsertPlugin.java:114-158 | for the same columns, the placeholders are `#{item.name}, #{seqNo}` |
| BatchInsertExamples.UserTableFlush | src/main/java/com/hui/mybatis/plugins/BatchInsertPlugin.java:143-158 | for the same columns, the values buffer passes 80 characters after `name`, so two insert fragments and two values fragments are produced, the second ones opening with the two-space indent (`  seq_no)` and `  #{seqNo})</foreach>`) |
| BatchInsertExamples.TrailingIdentityExample | src/main/java/com/hui/mybatis/plugins/BatchInsertPlugin.java:138-141 | for columns (name, id identity), the insert text keeps a dangling separator: `insert into user (name, )` |
| BatchInsertExamples.UserTableKey | src/main/java/com/hui/mybatis/plugins/BatchInsertPlugin.java:95-99 | a JDBC-standard key on `id` yields `useGeneratedKeys="true"` and `keyProperty="id"` |

## Left out

- The MyBatis Generator objects (`XmlElement`, `Document`, `Interface`, `Method`, `FullyQualifiedJavaType`) are modelled as immutable values. The plugin's in-place additions become new values returned to the caller, so aliasing of these objects is not captured.
- `MyBatis3FormattingUtilities.getEscapedColumnName` and `getParameterClause` are host library code. They are uninterpreted functions carried in `Formatter`.
- `IntrospectedTable.getColumn` is an uninterpreted lookup carried in `Table`. `getRules().calculateAllFieldsClass()` is a given string, `allFieldsClass`.
- `OutputUtilities.xmlIndent(sb, 1)` is modelled as appending the host's one level of XML indentation, two spaces (`Indent`).
- `StringBuilder.length()` counts UTF-16 code units; the model counts characters of a `seq<char>`. The two differ only for characters outside the Basic Multilingual Plane.
- The comment-generator calls (`addComment`, `addGeneralMethodComment`) are left out. They are host hooks whose effect is not part of this model.
- ClientGenerated: returns the updated interface, not the `boolean` of `super.clientGenerated`. `PluginAdapter` is not part of this model.
- SqlMapDocumentGenerated: returns the updated document, not the `boolean` of `super.sqlMapDocumentGenerated`, for the same reason.
- `TopLevelClass`, which `clientGenerated` receives and does not use, is not modelled.
- No SQL element is generated for `batchInsertSelective`, and none is modelled.
- Writing the generated XML and Java files, and all other I/O, is left out.
- `TargetRuntime` lists only the values the gate distinguishes (MyBatis3 against the rest).
