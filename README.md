# SQL token compiler — a Dafny model

This project models the core of a Swift SQL query builder: the compiler that
lowers a tree of query fragments (`QueryComponent`) and boolean conditions
(`Condition`) into the ordered list of tokens that, joined with spaces, is the
SQL text. It also models the naming and rendering rules the compiler relies on:

- field references (`DeclaredField`): qualified names, aliases, equality, and
  select, `SET` and placeholder lists;
- the operators that build conditions;
- the table helpers that build table-bound fields;
- the `ASC`/`DESC` rendering of sort orders.

Modules:

- `Wrappers` — `Option`.
- `Sequences` — generic `Flatten`, `Interleave` (chunks with a separator
  between consecutive ones), `Start` (where chunk `i` begins inside an
  interleaving), `Apply` (Swift's `map`), `Repeat` and `Count`, with their
  positional and counting lemmas.
- `Decimal` — Swift's rendering of an `Int` inside a string, with its round trip.
- `Fields` — `DeclaredField.swift`: names, aliases, hash equality and the three
  renderers.
- `Conditions` — the `Condition` and operand datatypes, reconstructed from the
  cases the compiler and the builders use, and the builder operators.
- `Tables` — `Table.swift`: a table is a record of its name and primary-key case.
- `Orders` — `Order.swift`.
- `Components` — the `QueryComponent` and `JoinType` datatypes, reconstructed
  from the cases the compiler matches. Also the lowering of condition keys and
  operands into fragments.
- `Compiler` — `Compiler.swift`. `Compile` and `CompileCondition` are the
  structural recursion. The clause assemblers that append to a local token list
  are `method`s with loops, proved to produce exactly what the recursion
  computes.
- `CompilerProperties` — the token-layout facts of the compiler: dividers,
  parentheses, clause order, ignored arguments, balanced parentheses.
- `CompilerExamples` — five worked queries under a sample lowering.

The model follows the code as written, including these gaps:

- `Like`, `In` and `NotIn` compile to no tokens. Their code is commented out
  and they fall to the default branch.
- Fragments the dispatch does not handle (`limit`, `offset` outside a `SELECT`)
  also compile to no tokens, rather than being rejected.
- `select` never emits `GROUP BY`, `HAVING` or `ORDER BY`.
- `column` writes a lower-case `as`.

The conversion `queryComponent` of a condition's key and operand is not part of
this model. It is a parameter `Lowering` whose results embed no condition; that
restriction is what makes compilation terminate.

## Model

| member | source | states |
|---|---|---|
| Fields.DeclaredField.QualifiedName | Sources/SQL/Core/DeclaredField.swift:84-90 | the bare name without a table; otherwise the table name, then `.`, then the name (length, prefix, separator and suffix) |
| Fields.DeclaredField.Alias | Sources/SQL/Core/DeclaredField.swift:92-98 | the bare name without a table; otherwise the table name, then `__`, then the name |
| Fields.DeclaredField.Description | Sources/SQL/Core/DeclaredField.swift:100-102 | the description is the qualified name |
| Fields.Field | Sources/SQL/Core/DeclaredField.swift:20-22 | `field(name)` has that name and no table, so its qualified name and alias are the name itself |
| Fields.QualifiedNameIsAliasIffNoTable | Sources/SQL/Core/DeclaredField.swift:84-98 | qualified name and alias coincide if and only if the field has no table |
| Fields.DeclaredField.Equal | Sources/SQL/Core/DeclaredField.swift:78-80 | fields with the same qualified name compare equal under every hash; `EqualIffSameQualifiedName`, `EqualDependsOnlyOnQualifiedName`, `SplitIsInvisibleToEquality` and `CollidingHashesCompareEqual` state the rest |
| Fields.EqualDependsOnlyOnQualifiedName | Sources/SQL/Core/DeclaredField.swift:14-18 | `==` compares hashes of qualified names: replacing either side by a field with the same qualified name changes nothing, under every hash |
| Fields.EqualIffSameQualifiedName | Sources/SQL/Core/DeclaredField.swift:78-80 | with a collision-free hash, two fields are `==` if and only if their qualified names are equal |
| Fields.SplitIsInvisibleToEquality | Sources/SQL/Core/DeclaredField.swift:14-18 | the field `a.b` with no table and the field `b` of table `a` are different values yet compare equal |
| Fields.CollidingHashesCompareEqual | Sources/SQL/Core/DeclaredField.swift:78-80 | equality trusts the hash: fields whose qualified names' hashes collide compare equal |
| Fields.SelectingFields | Sources/SQL/Core/DeclaredField.swift:25-44 | isolated exactly when asked, and binds no values |
| Fields.SelectingFieldsAt | Sources/SQL/Core/DeclaredField.swift:26-36 | entry `i` of the select list stands at its offset in the text (isolated or not) and is field `i`'s rendered entry; `, ` follows it when another entry comes next, and the text ends with the last entry |
| Fields.EntryForm | Sources/SQL/Core/DeclaredField.swift:29-33 | a field's entry is its qualified or bare name, followed by ` AS alias` exactly when aliasing is on and the field has a table |
| Fields.AliasSuffixIffTable | Sources/SQL/Core/DeclaredField.swift:29-33 | with aliasing on, ` AS alias` is added if and only if the field has a table; with aliasing off, never |
| Fields.SettingValues | Sources/SQL/Core/DeclaredField.swift:48-61 | as many bound values as pairs, value `i` being pair `i`'s value |
| Fields.SettingValuesAligned | Sources/SQL/Core/DeclaredField.swift:49-60 | entry `i` of the text is `name = placeholder` for pair `i`, followed by `, ` when another pair comes next, the text ending with the last entry; and the value bound with it is pair `i`'s |
| Fields.ValuePlaceHolders | Sources/SQL/Core/DeclaredField.swift:63-75 | the loop builds `n` placeholders joined by `, `; the values are the pairs' values in order; the result is isolated exactly when asked |
| Fields.PlaceholdersLength | Sources/SQL/Core/DeclaredField.swift:64-70 | `n > 0` placeholders joined by `, ` are `n` placeholders and `n - 1` separators long |
| Conditions.Compare | Sources/SQL/Core/DeclaredField.swift:120-170 | an operator builds a comparison whose key is the left-hand field and whose operand is the right-hand side |
| Conditions.ComparatorOf | Sources/SQL/Compiler/Compiler.swift:170-183 | the comparator read off a comparison rebuilds that comparison |
| Conditions.CompareValue | Sources/SQL/Core/DeclaredField.swift:120-166 | `field op value` and `equals(value)` build the comparison for `op` with key `field` and operand `.Value(value)` |
| Conditions.CompareField | Sources/SQL/Core/DeclaredField.swift:133-169 | `field op field` builds the comparison for `op` with key `lhs` and operand `.Property(rhs)` |
| Conditions.ContainedIn | Sources/SQL/Core/DeclaredField.swift:104-110 | `.In` keyed by the field, with the values' length and order kept |
| Conditions.NotContainedIn | Sources/SQL/Core/DeclaredField.swift:112-118 | `.NotIn` keyed by the field, with the values' length and order kept |
| Conditions.LikeValue | Sources/SQL/Core/DeclaredField.swift:124-126 | `.Like` keyed by the field, with the pattern value |
| Conditions.ValueAndFieldFormsDiffer | Sources/SQL/Core/DeclaredField.swift:129-135 | the value form and the field form of an operator build different conditions with the same comparator |
| Conditions.CompareInjective | Sources/SQL/Core/DeclaredField.swift:129-170 | different operators build different conditions |
| Tables.Table.Field | Sources/SQL/Core/Table.swift:21-23 | `field(f)` is named by `f.rawValue` and belongs to the table; its qualified name is `table.raw` and its alias `table__raw` |
| Tables.Table.F | Sources/SQL/Core/Table.swift:18-20 | `f(x)` is `field(x)` |
| Tables.Table.FieldNamed | Sources/SQL/Core/Table.swift:25-27 | `field(s)` is named `s` and belongs to the table, with qualified name `table.s` and alias `table__s` |
| Tables.Table.DeclaredPrimaryKeyField | Sources/SQL/Core/Table.swift:29-31 | the primary-key field is `field(fieldForPrimaryKey)`, with qualified name `table.pk` |
| Tables.FieldFormsAgree | Sources/SQL/Core/Table.swift:21-27 | building a field from a case and from the case's raw value give the same field |
| Tables.TableFieldsAreAliased | Sources/SQL/Core/Table.swift:25-27 | a table-built field has a table, its alias differs from its qualified name, and a select list with aliasing renders it `table.name AS table__name` |
| Tables.TablesSeparateFields | Sources/SQL/Core/Table.swift:25-27 | same-named fields of differently named tables have different qualified names |
| Orders.Order.SqlString | Sources/SQL/Query/Order.swift:16-22 | the inner rendering is a prefix, followed by exactly ` ASC` (4 characters) or ` DESC` (5) |
| Orders.AscNeverRendersAsDesc | Sources/SQL/Query/Order.swift:18-21 | no ascending rendering equals any descending rendering |
| Orders.RenderingInjective | Sources/SQL/Query/Order.swift:18-21 | equal renderings have the same direction and equal inner renderings |
| Orders.NestedOrders | Sources/SQL/Query/Order.swift:15-22 | an order of an order nests: `asc(desc(s))` renders `s DESC ASC` |
| Decimal.NatString | Sources/SQL/Compiler/Compiler.swift:225-228 | a count is written as a non-empty string of digits without leading zeros |
| Decimal.IntString | Sources/SQL/Compiler/Compiler.swift:225-228 | non-empty; a leading `-` exactly for a negative count, every other character a digit; the digits denote the count's absolute value |
| Decimal.NatStringRoundTrip | Sources/SQL/Compiler/Compiler.swift:225-228 | reading back the digits gives the number |
| Decimal.IntStringInjective | Sources/SQL/Compiler/Compiler.swift:225-228 | distinct counts render differently (a consequence of `IntString`'s contract) |
| Compiler.Compile | Sources/SQL/Compiler/Compiler.swift:5-31 | the dispatch; its cases are stated by `RawSqlVerbatim`, `PartsConcatenate`, `SelectLayout`, `ColumnTokens`, `TableTokens`, `SubqueryParenthesised`, `GroupByLayout`, `JoinLayout` and `StandaloneLimitOffsetCompileToNothing` |
| Compiler.CompileCondition | Sources/SQL/Compiler/Compiler.swift:160-220 | `compileCondition`; its cases are stated by `ComparisonTokens`, `AndOrParenthesised`, `AndChildAt`, `NotWraps`, `UnsupportedConditionsCompileToNothing` and `ConditionParenthesesBalanced` |
| Compiler.CompileAll | Sources/SQL/Compiler/Compiler.swift:33-34 | one token list per fragment, list `i` compiling fragment `i` |
| Compiler.CompileConditions | Sources/SQL/Compiler/Compiler.swift:200 | one token list per condition, list `i` compiling condition `i` |
| Compiler.JoinKeyword | Sources/SQL/Compiler/Compiler.swift:89-100 | `joinType`; `JoinKeywordsDistinct` states that each kind gets its own keyword |
| Compiler.AliasTokens | Sources/SQL/Compiler/Compiler.swift:79-81 | `AS alias` with an alias, nothing without |
| Compiler.ColumnTokens | Sources/SQL/Compiler/Compiler.swift:64-75 | one token, or three with an alias; the first is the qualified name of `name` in `table`; then a lower-case `as` and the alias |
| Compiler.TableTokens | Sources/SQL/Compiler/Compiler.swift:77-83 | `[name]`, or `[name, "AS", alias]` with an alias |
| Compiler.OffsetLimit | Sources/SQL/Compiler/Compiler.swift:222-232 | the input is kept as a prefix; `LIMIT n` is appended only for a `.limit` argument and comes right after the input; `OFFSET n` only for an `.offset` argument and comes last |
| Compiler.CompilePartsWithDivider | Sources/SQL/Compiler/Compiler.swift:40-50 | the loop produces the parts' tokens with exactly one divider between consecutive parts |
| Compiler.CompilePartsWithDividerBy | Sources/SQL/Compiler/Compiler.swift:52-62 | the generic loop produces `compileFunc` of each part, with one divider between consecutive parts |
| Compiler.CompileColumn | Sources/SQL/Compiler/Compiler.swift:64-75 | the step-by-step `column` builds exactly the column tokens |
| Compiler.CompileTable | Sources/SQL/Compiler/Compiler.swift:77-83 | the step-by-step `table` builds exactly the table tokens |
| Compiler.CompileJoin | Sources/SQL/Compiler/Compiler.swift:102-114 | the step-by-step `join` builds exactly what the dispatch compiles for the join |
| Compiler.CompileSubquery | Sources/SQL/Compiler/Compiler.swift:116-124 | the step-by-step `subquery` builds exactly what the dispatch compiles for the subquery |
| Compiler.AppendOffsetLimit | Sources/SQL/Compiler/Compiler.swift:222-232 | the step-by-step `offsetLimit` builds exactly the `OffsetLimit` tokens |
| Compiler.CompileGroupBy | Sources/SQL/Compiler/Compiler.swift:238-242 | the step-by-step `groupBy` builds exactly what the dispatch compiles for the grouping |
| Compiler.CompileSelect | Sources/SQL/Compiler/Compiler.swift:126-153 | the step-by-step `select`, with its loop over the joins, builds exactly what the dispatch compiles for the select |
| Compiler.DividedStep | Sources/SQL/Compiler/Compiler.swift:43-48 | one more loop step appends the divider and the next part's tokens |
| CompilerProperties.CompileAllConcat | Sources/SQL/Compiler/Compiler.swift:33-34 | compiling a concatenated list is concatenating the compiled lists |
| CompilerProperties.PartsConcatenate | Sources/SQL/Compiler/Compiler.swift:32-38 | `parts` without a divider: no parts give nothing, one part gives its own tokens, and concatenated lists give concatenated tokens |
| CompilerProperties.NestedPartsFlatten | Sources/SQL/Compiler/Compiler.swift:10-11 | nesting two part lists inside a part list equals one list of all their parts |
| CompilerProperties.DividedPartsAt | Sources/SQL/Compiler/Compiler.swift:40-50 | part `i`'s tokens stand at its offset, the first at 0; exactly one divider follows every part but the last; the last ends the output; one part gives just its tokens |
| CompilerProperties.DividedNoParts | Sources/SQL/Compiler/Compiler.swift:40-50 | no parts give no tokens |
| CompilerProperties.DividedPartsDividerCount | Sources/SQL/Compiler/Compiler.swift:40-50 | when no part contains the divider, `n > 0` parts carry exactly `n - 1` dividers |
| CompilerProperties.ConditionsThroughGenericLoop | Sources/SQL/Compiler/Compiler.swift:200 | the generic loop given `compileCondition` produces the conditions' token lists |
| CompilerProperties.SubqueryParenthesised | Sources/SQL/Compiler/Compiler.swift:116-124 | a subquery is always `(`, the inner tokens, `)`, then `AS alias` only with an alias |
| CompilerProperties.JoinLayout | Sources/SQL/Compiler/Compiler.swift:102-114 | the join-kind keywords in order, `JOIN`, the target, `ON`, the left key, `=`, the right key, at exact positions |
| CompilerProperties.JoinKeywordsDistinct | Sources/SQL/Compiler/Compiler.swift:89-100 | distinct join kinds have distinct keywords, and equal kinds equal ones |
| CompilerProperties.GroupByLayout | Sources/SQL/Compiler/Compiler.swift:238-242 | `GROUP BY`, then the fields divided by `,` |
| CompilerProperties.SelectLayout | Sources/SQL/Compiler/Compiler.swift:126-153 | `SELECT`, comma-divided fields, `FROM` and the source, every join in order, `WHERE` and the filter only with a filter, `LIMIT n` only for a limit, `OFFSET n` only for an offset |
| CompilerProperties.OffsetLimitClauses | Sources/SQL/Compiler/Compiler.swift:222-232 | `offsetLimit` appends the limit clause, then the offset clause, each empty unless its argument has the right shape |
| CompilerProperties.RawSqlVerbatim | Sources/SQL/Compiler/Compiler.swift:8-9 | a raw SQL string is emitted verbatim as one token |
| CompilerProperties.SelectComesFirst | Sources/SQL/Compiler/Compiler.swift:131 | a select's output begins with `SELECT` |
| CompilerProperties.SelectIgnoresOrderingGroupingHaving | Sources/SQL/Compiler/Compiler.swift:126-153 | changing the orderings, grouping or having of a select changes nothing in its output |
| CompilerProperties.LimitPrecedesOffset | Sources/SQL/Compiler/Compiler.swift:148-149 | with both, the output ends with `LIMIT n` and then `OFFSET m` |
| CompilerProperties.MisplacedLimitOffsetDropped | Sources/SQL/Compiler/Compiler.swift:224-229 | a limit passed as the offset and an offset passed as the limit add nothing |
| CompilerProperties.StandaloneLimitOffsetCompileToNothing | Sources/SQL/Compiler/Compiler.swift:27-29 | a `limit` or `offset` fragment on its own compiles to no tokens |
| CompilerProperties.AndOrParenthesised | Sources/SQL/Compiler/Compiler.swift:198-208 | `And`/`Or` output begins with `(`, ends with `)`, and in between divides the children by `AND`/`OR` |
| CompilerProperties.AndOrSmall | Sources/SQL/Compiler/Compiler.swift:198-208 | `And`/`Or` of no children gives `( )`, of one child `c` gives `( c )` |
| CompilerProperties.AndChildAt | Sources/SQL/Compiler/Compiler.swift:198-202 | child `i` of an `And` stands at its offset after `(`, followed by `AND` except for the last, which is followed by the closing `)` |
| CompilerProperties.NotWraps | Sources/SQL/Compiler/Compiler.swift:209-214 | `Not(c)` is exactly `NOT ( c )` |
| CompilerProperties.ComparisonTokens | Sources/SQL/Compiler/Compiler.swift:161-183 | a comparison is the key's tokens, one operator token, then the operand's tokens |
| CompilerProperties.BuiltComparisonTokens | Sources/SQL/Compiler/Compiler.swift:161-183 | a comparison built by an operator compiles to the left field's tokens, the operator, and the literal or the other column |
| CompilerProperties.UnsupportedConditionsCompileToNothing | Sources/SQL/Compiler/Compiler.swift:215-216 | `In`, `NotIn` and `Like` compile to no tokens, so `Not(In …)` is `NOT ( )` |
| CompilerProperties.ConditionParenthesesBalanced | Sources/SQL/Compiler/Compiler.swift:160-220 | when the keys and operands compared inside a condition lower to balanced fragments, the compiled condition has as many `(` as `)` |
| CompilerExamples.SampleLowering | Sources/SQL/Compiler/Compiler.swift:161-167 | under the sample lowering, keys and field operands compile to their qualified name and literals to the placeholder |
| CompilerExamples.PlainComparisonsBalanced | Sources/SQL/Compiler/Compiler.swift:160-220 | under the sample lowering, `And([a = b, Not(b < a)])` compiles to balanced parentheses, through the balance lemma |
| CompilerExamples.SimpleSelect | Sources/SQL/Compiler/Compiler.swift:126-153 | two fields of `users` from `users` give `SELECT users.id , users.name FROM users` |
| CompilerExamples.FilteredSelect | Sources/SQL/Compiler/Compiler.swift:143-146 | a filter on `users.id` adds `WHERE users.id = ?` |
| CompilerExamples.CompoundFilter | Sources/SQL/Compiler/Compiler.swift:198-208 | `And([a = ?, Or([b = ?, b = ?])])` gives `( a = ? AND ( b = ? OR b = ? ) )` |
| CompilerExamples.LeftJoin | Sources/SQL/Compiler/Compiler.swift:102-114 | a left join of `orders` on `users.id = orders.user_id` gives `LEFT JOIN orders ON users.id = orders.user_id` |
| CompilerExamples.LimitThenOffset | Sources/SQL/Compiler/Compiler.swift:222-232 | limit 10 with offset 20 gives `LIMIT 10` then `OFFSET 20` |

## Left out

- The `print` side effect of the dispatch's default branch is not modelled; only its empty result is.
- `bind`, `ordersBy(…)` and `returning` are empty stubs with no behaviour.
- `QueryComponents` and its `isolate()` are defined outside the modelled files. The model keeps the text and values, and isolation is an opaque wrapper.
- The placeholder text (`valuePlaceholder`) has no fixed spelling in the model. It is an abstract constant string.
- `SQLData` and `.sqlData` conversion are foreign. `SqlData` is an abstract type.
- Swift's `String.hashValue` is foreign. The hash is a parameter of `HashValue` and `Equal`.
- Fields.DeclaredField.HashValue: has no ensures of its own; what `==` means is stated by the equality lemmas.
- The `queryComponent` conversion of condition keys and operands is not part of this model. The compiler takes it as a parameter that yields condition-free fragments. Keys and operands that lower to fragments containing a condition are not modelled.
- The compiler tracks no bound values, because the compiler code produces none.
- `In`, `NotIn` and `Like` produce no SQL, because their compiler code is commented out.
- `select` produces no `ORDER BY`, `GROUP BY` or `HAVING`, because its code produces none.
- Joining tokens into final SQL text, and executing it through a driver, connection or row mapping, is I/O outside the modelled code.
- The `FieldType` protocol's `RawRepresentable`/`Hashable` machinery is not modelled. A field case is a plain `rawValue` string.
- The `Table` protocol's static members become fields of a `Table` record.
- `tableName` of a field is a `var` in Swift but never reassigned in the modelled code. It is an immutable datatype field.
- `QueryComponent` may have cases beyond those the compiler matches on. Only those cases, plus `limit` and `offset`, are modelled.
- `Condition`, `QueryComponent` and `Join.JoinType` are not defined in the modelled files. They are reconstructed from the patterns the code matches on.
