/** The host generator's objects the plugins read and change: the introspected
    table and its columns (read only), the generated method (a value the
    plugin builds and hands over), and the generated top-level class, field
    and client interface, whose annotation lists, import sets, javadoc lines
    and method lists the hooks grow in place. Import sets are plain sets of
    fully qualified names; the host's own filtering of imports is not part of
    this model. */
module Dom {
  import opened JavaLang

  /** IntrospectedTable.TargetRuntime: the two runtimes the plugin tells
      apart, and every other one. */
  datatype TargetRuntime = MyBatis3 | MyBatis3Dsql | OtherRuntime

  datatype IntrospectedColumn = IntrospectedColumn(
    javaProperty: string,
    actualColumnName: string,
    isNullable: bool,
    remarks: Option<string>,
    defaultValue: Option<string>,
    isIdentity: bool,
    isGeneratedAlways: bool)

  /** The parts of an introspected table the hooks read. The two names the
      host derives are inputs: propertyName is
      JavaBeansUtil.getValidPropertyName(domainObjectName) and allFieldsClass
      is the record type the host's rules calculate. */
  datatype IntrospectedTable = IntrospectedTable(
    targetRuntime: TargetRuntime,
    domainObjectName: string,
    propertyName: string,
    allFieldsClass: string,
    allColumns: seq<IntrospectedColumn>,
    primaryKeyColumns: seq<IntrospectedColumn>)

  datatype JavaType = JavaType(fullyQualifiedName: string, typeArguments: seq<string>)

  datatype Parameter = Parameter(paramType: JavaType, name: string)

  datatype Method = Method(
    name: string,
    isDefault: bool,
    returnType: JavaType,
    parameters: seq<Parameter>,
    bodyLines: seq<string>)

  predicate Insertable(c: IntrospectedColumn) {
    !c.isIdentity && !c.isGeneratedAlways
  }

  /** ListUtilities.removeIdentityAndGeneratedAlwaysColumns: the columns that
      are neither identity nor generated-always, in their original order. */
  function RemoveIdentityAndGeneratedAlwaysColumns(cols: seq<IntrospectedColumn>): (r: seq<IntrospectedColumn>)
    ensures |r| <= |cols|
    ensures forall c :: c in r <==> c in cols && Insertable(c)
    decreases |cols|
  {
    if cols == [] then []
    else
      var rest := RemoveIdentityAndGeneratedAlwaysColumns(cols[1..]);
      assert forall c :: c in cols <==> c == cols[0] || c in cols[1..];
      if Insertable(cols[0]) then [cols[0]] + rest else rest
  }

  /** One column is kept exactly when it is insertable. */
  lemma RemoveIdentityAndGeneratedAlwaysColumnsSingle(c: IntrospectedColumn)
    ensures RemoveIdentityAndGeneratedAlwaysColumns([c]) == if Insertable(c) then [c] else []
  {
    assert [c][1..] == [];
  }

  /** The filter works list piece by list piece, so with the lemma above it
      keeps the insertable columns in their getAllColumns() order, each as
      often as it occurs. */
  lemma {:induction false} RemoveIdentityAndGeneratedAlwaysColumnsConcat(a: seq<IntrospectedColumn>,
                                                                       b: seq<IntrospectedColumn>)
    ensures RemoveIdentityAndGeneratedAlwaysColumns(a + b)
            == RemoveIdentityAndGeneratedAlwaysColumns(a) + RemoveIdentityAndGeneratedAlwaysColumns(b)
    decreases |a|
  {
    if a == [] {
      assert a + b == b;
    } else {
      assert (a + b)[0] == a[0] && (a + b)[1..] == a[1..] + b;
      RemoveIdentityAndGeneratedAlwaysColumnsConcat(a[1..], b);
    }
  }

  /** A generated model class: its annotation list (duplicates allowed, in
      the order they were added) and its set of imported types. */
  class TopLevelClass {
    var annotations: seq<string>
    var importedTypes: set<string>

    constructor ()
      ensures annotations == [] && importedTypes == {}
    {
      annotations := [];
      importedTypes := {};
    }

    /** getAnnotations().add(a) */
    method AddAnnotation(a: string)
      modifies this
      ensures annotations == old(annotations) + [a]
      ensures importedTypes == old(importedTypes)
    {
      annotations := annotations + [a];
    }

    method AddImportedType(t: string)
      modifies this
      ensures importedTypes == old(importedTypes) + {t}
      ensures annotations == old(annotations)
    {
      importedTypes := importedTypes + {t};
    }
  }

  /** A generated field of a model class. */
  class Field {
    const name: string
    var javaDocLines: seq<string>
    var annotations: seq<string>

    constructor (name: string)
      ensures this.name == name && javaDocLines == [] && annotations == []
    {
      this.name := name;
      javaDocLines := [];
      annotations := [];
    }

    method AddJavaDocLine(line: string)
      modifies this
      ensures javaDocLines == old(javaDocLines) + [line]
      ensures annotations == old(annotations)
    {
      javaDocLines := javaDocLines + [line];
    }

    method AddAnnotation(a: string)
      modifies this
      ensures annotations == old(annotations) + [a]
      ensures javaDocLines == old(javaDocLines)
    {
      annotations := annotations + [a];
    }
  }

  /** A generated client (mapper) interface. */
  class Interface {
    var importedTypes: set<string>
    var methods: seq<Method>

    constructor ()
      ensures importedTypes == {} && methods == []
    {
      importedTypes := {};
      methods := [];
    }

    method AddImportedType(t: string)
      modifies this
      ensures importedTypes == old(importedTypes) + {t}
      ensures methods == old(methods)
    {
      importedTypes := importedTypes + {t};
    }

    method AddMethod(m: Method)
      modifies this
      ensures methods == old(methods) + [m]
      ensures importedTypes == old(importedTypes)
    {
      methods := methods + [m];
    }
  }
}
