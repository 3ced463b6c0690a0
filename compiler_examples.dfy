/**
 * Worked examples of the compiler under a sample lowering: a field becomes a
 * column reference with its own table, a literal becomes the bind
 * placeholder, and a field operand becomes its column.
 */
module CompilerExamples {
  import opened Wrappers
  import opened Sequences
  import opened Decimal
  import opened Fields
  import opened Conditions
  import opened Components
  import opened Compiler
  import opened CompilerProperties

  function FieldColumn(f: DeclaredField): Lowered
  {
    Column(f.unqualifiedName, f.tableName, None)
  }

  function OperandFragment(o: Operand): Lowered
  {
    match o
    case Value(_) => Sql(ValuePlaceholder)
    case Property(f) => FieldColumn(f)
  }

  function Sample(): Lowering
  {
    Lowering(FieldColumn, OperandFragment)
  }

  /** A column without an alias compiles to its qualified name alone. */
  lemma ColumnCompiles(name: string, table: Option<string>)
    ensures Compile(Sample(), Column(name, table, None)) == [DeclaredField(name, table).QualifiedName()]
  {
    var r := Compile(Sample(), Column(name, table, None));
    assert r == [r[0]];
  }

  /** Every key and operand is rendered as its qualified name or as the placeholder. */
  lemma SampleLowering(f: DeclaredField, v: Option<SqlData>)
    ensures Compile(Sample(), Sample().field(f)) == [f.QualifiedName()]
    ensures Compile(Sample(), Sample().operand(Property(f))) == [f.QualifiedName()]
    ensures Compile(Sample(), Sample().operand(Value(v))) == [ValuePlaceholder]
  {
    ColumnCompiles(f.unqualifiedName, f.tableName);
  }

  lemma DividedTwo(x: seq<string>, y: seq<string>, d: string)
    ensures Divided([x, y], d) == x + [d] + y
  {
    assert [x, y][..1] == [x];
    assert Interleave([x], [d]) == x;
  }

  lemma FlattenNone()
    ensures Flatten(CompileAll(Sample(), [])) == []
  {
  }

  lemma DividedOne(x: seq<string>, d: string)
    ensures Divided([x], d) == x
  {
  }

  /** The columns of the `users` examples. */
  lemma UsersColumns()
    ensures Compile(Sample(), Column("id", Some("users"), None)) == ["users.id"]
    ensures Compile(Sample(), Column("name", Some("users"), None)) == ["users.name"]
  {
    ColumnCompiles("id", Some("users"));
    ColumnCompiles("name", Some("users"));
    assert DeclaredField("id", Some("users")).QualifiedName() == "users.id";
    assert DeclaredField("name", Some("users")).QualifiedName() == "users.name";
  }

  lemma CompileAllOne(low: Lowering, a: QueryComponent)
    ensures CompileAll(low, [a]) == [Compile(low, a)]
  {
    var r := CompileAll(low, [a]);
    assert r == [r[0]];
  }

  lemma CompileAllTwo(low: Lowering, a: QueryComponent, b: QueryComponent)
    ensures CompileAll(low, [a, b]) == [Compile(low, a), Compile(low, b)]
  {
    var r := CompileAll(low, [a, b]);
    assert r == [r[0], r[1]];
  }

  /** The field lists of the `users` examples. */
  lemma UsersFieldLists()
    ensures CompileAll(Sample(), [Column("id", Some("users"), None)]) == [["users.id"]]
    ensures CompileAll(Sample(), [Column("id", Some("users"), None), Column("name", Some("users"), None)])
            == [["users.id"], ["users.name"]]
    ensures CompileAll(Sample(), [Sql("*")]) == [["*"]]
  {
    UsersColumns();
    CompileAllOne(Sample(), Column("id", Some("users"), None));
    CompileAllTwo(Sample(), Column("id", Some("users"), None), Column("name", Some("users"), None));
    CompileAllOne(Sample(), Sql("*"));
  }

  lemma UsersTable()
    ensures Compile(Sample(), Table("users", None)) == ["users"]
  {
  }

  /** A select of two fields of `users` from `users`. */
  lemma SimpleSelect()
    ensures Compile(Sample(), Select([Column("id", Some("users"), None), Column("name", Some("users"), None)],
                                     Table("users", None), [], None, [], None, None, None, None))
            == ["SELECT", "users.id", ",", "users.name", "FROM", "users"]
  {
    var cols := [Column("id", Some("users"), None), Column("name", Some("users"), None)];
    UsersFieldLists();
    UsersTable();
    FlattenNone();
    DividedTwo(["users.id"], ["users.name"], ",");
    SelectLayout(Sample(), cols, Table("users", None), [], None, [], None, None, None, None);
  }

  /** The filter of the filtered example. */
  lemma IdFilter(v: Option<SqlData>)
    ensures Compile(Sample(), Cond(Equals(DeclaredField("id", Some("users")), Value(v))))
            == ["users.id", "=", ValuePlaceholder]
  {
    SampleLowering(DeclaredField("id", Some("users")), v);
    assert DeclaredField("id", Some("users")).QualifiedName() == "users.id";
  }

  /** A filter adds `WHERE`, the key, `=` and the placeholder. */
  lemma FilteredSelect(v: Option<SqlData>)
    ensures Compile(Sample(), Select([Column("id", Some("users"), None)], Table("users", None), [],
                                     Some(Cond(Equals(DeclaredField("id", Some("users")), Value(v)))),
                                     [], None, None, None, None))
            == ["SELECT", "users.id", "FROM", "users", "WHERE", "users.id", "=", ValuePlaceholder]
  {
    var cols := [Column("id", Some("users"), None)];
    var filter := Cond(Equals(DeclaredField("id", Some("users")), Value(v)));
    UsersFieldLists();
    UsersTable();
    FlattenNone();
    IdFilter(v);
    DividedOne(["users.id"], ",");
    SelectLayout(Sample(), cols, Table("users", None), [], Some(filter), [], None, None, None, None);
  }

  /** Under the sample lowering, `f = v` is the field's qualified name, `=` and the placeholder. */
  lemma EqualsValue(f: DeclaredField, v: Option<SqlData>)
    ensures CompileCondition(Sample(), Equals(f, Value(v))) == [f.QualifiedName(), "=", ValuePlaceholder]
  {
    SampleLowering(f, v);
  }

  lemma ConditionsTwo(low: Lowering, c1: Condition, c2: Condition)
    ensures CompileConditions(low, [c1, c2]) == [CompileCondition(low, c1), CompileCondition(low, c2)]
  {
  }

  lemma WrapTwo(x: seq<string>, y: seq<string>, d: string)
    ensures ["("] + Divided([x, y], d) + [")"] == ["("] + x + [d] + y + [")"]
  {
    DividedTwo(x, y, d);
  }

  /** `( x AND y )` for a two-child `And`. */
  lemma AndTwo(low: Lowering, c1: Condition, c2: Condition)
    ensures CompileCondition(low, And([c1, c2]))
            == ["("] + CompileCondition(low, c1) + ["AND"] + CompileCondition(low, c2) + [")"]
  {
    ConditionsTwo(low, c1, c2);
    WrapTwo(CompileCondition(low, c1), CompileCondition(low, c2), "AND");
  }

  /** `( x OR y )` for a two-child `Or`. */
  lemma OrTwo(low: Lowering, c1: Condition, c2: Condition)
    ensures CompileCondition(low, Or([c1, c2]))
            == ["("] + CompileCondition(low, c1) + ["OR"] + CompileCondition(low, c2) + [")"]
  {
    ConditionsTwo(low, c1, c2);
    WrapTwo(CompileCondition(low, c1), CompileCondition(low, c2), "OR");
  }

  /** A nested `And`/`Or` is parenthesised at every level, with its divider between children. */
  lemma CompoundFilter(v1: Option<SqlData>, v2: Option<SqlData>, v3: Option<SqlData>)
    ensures var a, b := Fields.Field("a"), Fields.Field("b");
            CompileCondition(Sample(), And([Equals(a, Value(v1)), Or([Equals(b, Value(v2)), Equals(b, Value(v3))])]))
            == ["(", "a", "=", ValuePlaceholder, "AND",
                  "(", "b", "=", ValuePlaceholder, "OR", "b", "=", ValuePlaceholder, ")", ")"]
  {
    var a, b := Fields.Field("a"), Fields.Field("b");
    var ph := ValuePlaceholder;
    var ea, eb2, eb3 := Equals(a, Value(v1)), Equals(b, Value(v2)), Equals(b, Value(v3));
    EqualsValue(a, v1);
    EqualsValue(b, v2);
    EqualsValue(b, v3);
    OrTwo(Sample(), eb2, eb3);
    AndTwo(Sample(), ea, Or([eb2, eb3]));
  }

  /**
   * The balance lemma applies under the sample lowering: a condition that
   * compares plainly named fields has balanced parentheses.
   */
  lemma PlainComparisonsBalanced()
    ensures var a, b := Fields.Field("a"), Fields.Field("b");
            Balanced(CompileCondition(Sample(), And([Equals(a, Property(b)), Not(LessThan(b, Property(a)))])))
  {
    var a, b := Fields.Field("a"), Fields.Field("b");
    SampleLowering(a, None);
    SampleLowering(b, None);
    BalancedToken("a");
    BalancedToken("b");
    var inner := Not(LessThan(b, Property(a)));
    var c := And([Equals(a, Property(b)), inner]);
    assert OperandsBalancedIn(Sample(), Equals(a, Property(b)));
    assert OperandsBalancedIn(Sample(), inner) by {
      assert OperandsBalancedIn(Sample(), LessThan(b, Property(a)));
    }
    assert OperandsBalancedIn(Sample(), c);
    ConditionParenthesesBalanced(Sample(), c);
  }

  lemma JoinOperands()
    ensures Compile(Sample(), Column("id", Some("users"), None)) == ["users.id"]
    ensures Compile(Sample(), Column("user_id", Some("orders"), None)) == ["orders.user_id"]
    ensures Compile(Sample(), Table("orders", None)) == ["orders"]
  {
    ColumnCompiles("id", Some("users"));
    ColumnCompiles("user_id", Some("orders"));
    assert DeclaredField("id", Some("users")).QualifiedName() == "users.id";
    assert DeclaredField("user_id", Some("orders")).QualifiedName() == "orders.user_id";
  }

  /** A left join on two keys. */
  lemma LeftJoin()
    ensures Compile(Sample(), Join([Left], Table("orders", None), Column("id", Some("users"), None),
                                   Column("user_id", Some("orders"), None)))
            == ["LEFT", "JOIN", "orders", "ON", "users.id", "=", "orders.user_id"]
  {
    var users, orders := Column("id", Some("users"), None), Column("user_id", Some("orders"), None);
    JoinOperands();
    assert Apply(JoinKeyword, [Left]) == ["LEFT"];
    JoinUnfolds(Sample(), [Left], Table("orders", None), users, orders);
  }

  /** The clauses for limit 10 and offset 20. */
  lemma TenAndTwenty()
    ensures LimitClause(Some(Limit(10))) == ["LIMIT 10"]
    ensures OffsetClause(Some(Offset(20))) == ["OFFSET 20"]
  {
    assert IntString(10) == "10" by {
      assert NatString(10) == NatString(1) + [DigitChar(0)];
    }
    assert IntString(20) == "20" by {
      assert NatString(20) == NatString(2) + [DigitChar(0)];
    }
    assert "LIMIT " + IntString(10) == "LIMIT 10";
    assert "OFFSET " + IntString(20) == "OFFSET 20";
  }

  /** Limit 10 and offset 20 render as `LIMIT 10` then `OFFSET 20`, whatever order they were given in. */
  lemma LimitThenOffset()
    ensures Compile(Sample(), Select([Sql("*")], Table("users", None), [], None, [],
                                     Some(Offset(20)), Some(Limit(10)), None, None))
            == ["SELECT", "*", "FROM", "users", "LIMIT 10", "OFFSET 20"]
  {
    UsersFieldLists();
    UsersTable();
    FlattenNone();
    TenAndTwenty();
    DividedOne(["*"], ",");
    SelectLayout(Sample(), [Sql("*")], Table("users", None), [], None, [], Some(Offset(20)), Some(Limit(10)), None, None);
  }
}
