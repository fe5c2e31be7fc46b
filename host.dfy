/**
 * Plain records standing in for the MyBatis Generator objects that the batch
 * insert plugin reads (the introspected table and its columns, the generated-key
 * configuration) and builds (XML mapper elements, Java interface methods).
 *
 * The host computes several column-level strings with code that is not part of
 * this model; they are carried here as uninterpreted function values.
 */
module Host {

  datatype Option<+T> = None | Some(value: T)

  /** The column facts the plugin reads from an introspected column. */
  datatype Column = Column(
    actualColumnName: string,
    javaProperty: string,
    fullyQualifiedJavaType: string,
    isIdentity: bool,
    isSequenceColumn: bool)

  /** The table's generated-key configuration. */
  datatype GeneratedKey = GeneratedKey(
    column: string,
    isJdbcStandard: bool,
    myBatis3Order: string,
    runtimeSqlStatement: string)

  datatype TargetRuntime = Ibatis2 | MyBatis3 | MyBatis3Dsql

  /**
   * An introspected table. `allFieldsClass` is the fully qualified name of the
   * entity class the host computes for the table; `getColumn` is the host's
   * lookup of a column by name.
   */
  datatype Table = Table(
    targetRuntime: TargetRuntime,
    fullyQualifiedTableNameAtRuntime: string,
    allFieldsClass: string,
    allColumns: seq<Column>,
    generatedKey: Option<GeneratedKey>,
    getColumn: string -> Option<Column>)

  /**
   * The host's formatting utilities: the escaped SQL name of a column, and the
   * bind placeholder of a column, optionally with a property prefix.
   */
  datatype Formatter = Formatter(
    escapedColumnName: Column -> string,
    parameterClause: (Column, Option<string>) -> string)

  // XML mapper document

  datatype Attribute = Attribute(name: string, value: string)

  datatype XmlElement = XmlElement(name: string, attributes: seq<Attribute>, elements: seq<Element>)

  datatype Element = TextElement(content: string) | Child(element: XmlElement)

  datatype Document = Document(rootElement: XmlElement)

  /** The value of the first attribute called `name`, if any. */
  function AttributeValue(attributes: seq<Attribute>, name: string): (v: Option<string>)
    ensures v.Some? <==> exists k :: 0 <= k < |attributes| && attributes[k].name == name
  {
    if attributes == [] then None
    else if attributes[0].name == name then Some(attributes[0].value)
    else AttributeValue(attributes[1..], name)
  }

  lemma {:induction false} AttributeValueAt(attributes: seq<Attribute>, name: string, k: nat)
    requires k < |attributes| && attributes[k].name == name
    requires forall j :: 0 <= j < k ==> attributes[j].name != name
    ensures AttributeValue(attributes, name) == Some(attributes[k].value)
  {
    if k > 0 {
      AttributeValueAt(attributes[1..], name, k - 1);
    }
  }

  // Java client interface

  datatype JavaType = JavaType(fullyQualifiedName: string, typeArguments: seq<JavaType>)

  datatype JavaVisibility = Public | Protected | PackagePrivate | Private

  datatype Parameter = Parameter(parameterType: JavaType, name: string, annotations: seq<string>)

  datatype Method = Method(
    visibility: JavaVisibility,
    returnType: Option<JavaType>,
    name: string,
    parameters: seq<Parameter>)

  datatype Interface = Interface(importedTypes: set<JavaType>, methods: seq<Method>)
}
