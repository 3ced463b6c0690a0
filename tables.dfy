/**
 * Tables (`Table`): a table knows its name and the field that is its primary
 * key, and builds field references bound to its name.
 */
module Tables {
  import opened Wrappers
  import opened Fields

  datatype Table = Table(tableName: string, fieldForPrimaryKey: FieldType)
  {
    /** `field(_: Field)`: the field named by the case's raw value, in this table. */
    function Field(field: FieldType): (f: DeclaredField)
      ensures f.unqualifiedName == field.rawValue && f.tableName == Some(tableName)
      ensures f.QualifiedName() == tableName + "." + field.rawValue
      ensures f.Alias() == tableName + "__" + field.rawValue
    {
      DeclaredField(field.rawValue, Some(tableName))
    }

    /** `f(_:)`: shorthand for `field(_:)`. */
    function F(field: FieldType): (f: DeclaredField)
      ensures f == Field(field)
    {
      Field(field)
    }

    /** `field(_: String)`: the field of the given name, in this table. */
    function FieldNamed(name: string): (f: DeclaredField)
      ensures f.unqualifiedName == name && f.tableName == Some(tableName)
      ensures f.QualifiedName() == tableName + "." + name
      ensures f.Alias() == tableName + "__" + name
    {
      DeclaredField(name, Some(tableName))
    }

    /** `declaredPrimaryKeyField`: the primary-key field, in this table. */
    function DeclaredPrimaryKeyField(): (f: DeclaredField)
      ensures f == Field(fieldForPrimaryKey)
      ensures f.QualifiedName() == tableName + "." + fieldForPrimaryKey.rawValue
    {
      Field(fieldForPrimaryKey)
    }
  }

  /** A field built from a case and one built from the case's raw value are the same field. */
  lemma FieldFormsAgree(t: Table, field: FieldType)
    ensures t.Field(field) == t.FieldNamed(field.rawValue)
  {
  }

  /**
   * Every field a table builds is table-qualified, so its alias differs from
   * its qualified name and aliasing adds ` AS alias` to it.
   */
  lemma TableFieldsAreAliased(t: Table, name: string)
    ensures t.FieldNamed(name).tableName.Some?
    ensures t.FieldNamed(name).QualifiedName() != t.FieldNamed(name).Alias()
    ensures SelectEntry(t.FieldNamed(name), true, true)
            == t.tableName + "." + name + " AS " + t.tableName + "__" + name
  {
    QualifiedNameIsAliasIffNoTable(t.FieldNamed(name));
  }

  /** Two fields of different tables never share a qualified name when their own names agree. */
  lemma TablesSeparateFields(t: Table, u: Table, name: string)
    requires t.tableName != u.tableName
    ensures t.FieldNamed(name).QualifiedName() != u.FieldNamed(name).QualifiedName()
  {
  }
}
