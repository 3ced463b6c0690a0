/**
 * The token compiler: lowers a query fragment tree, or a condition, into the
 * ordered list of tokens that, joined with spaces, is the SQL text.
 *
 * `Compile` and `CompileCondition` are the structural recursion of the
 * compiler's dispatch. The clause assemblers, which build their result by
 * appending to a local list, are given twice: as the functions the recursion
 * uses, and as methods that append step by step and are proved to produce
 * exactly what the functions describe.
 *
 * A condition's key and operand are turned into fragments by the lowering
 * `low` before they are compiled.
 */
module Compiler {
  import opened Wrappers
  import opened Sequences
  import opened Decimal
  import opened Fields
  import opened Conditions
  import opened Components

  /** The chunks with one `divider` token between consecutive chunks. */
  function Divided(chunks: seq<seq<string>>, divider: string): seq<string>
  {
    Interleave(chunks, [divider])
  }

  /** `compile(query:)`. Cases it does not handle (`limit`, `offset`) compile to nothing. */
  function Compile(low: Lowering, q: QueryComponent): seq<string>
    decreases Rank(q), q, 2
  {
    match q
    case Sql(str) => [str]
    case Parts(parts) => Flatten(CompileAll(low, parts))
    case Select(fields, from, joins, filter, _, offset, limit, _, _) =>
      var head := ["SELECT"] + Divided(CompileAll(low, fields), ",") + ["FROM"] + Compile(low, from)
                  + Flatten(CompileAll(low, joins));
      var filtered := if filter.Some? then head + ["WHERE"] + Compile(low, filter.value) else head;
      if offset.Some? || limit.Some? then OffsetLimit(filtered, offset, limit) else filtered
    case Column(name, table, alias) => ColumnTokens(name, table, alias)
    case Table(name, alias) => TableTokens(name, alias)
    case Subquery(query, alias) => ["("] + Compile(low, query) + [")"] + AliasTokens(alias)
    case GroupBy(fields) => ["GROUP BY"] + Divided(CompileAll(low, fields), ",")
    case Join(types, with, leftKey, rightKey) =>
      Apply(JoinKeyword, types) + ["JOIN"] + Compile(low, with) + ["ON"] + Compile(low, leftKey)
      + ["="] + Compile(low, rightKey)
    case Cond(c) => CompileCondition(low, c)
    case Limit(_) => []
    case Offset(_) => []
  }

  /** Each fragment of the list compiled on its own, in order. */
  function CompileAll(low: Lowering, qs: seq<QueryComponent>): (r: seq<seq<string>>)
    ensures |r| == |qs|
    ensures forall i :: 0 <= i < |qs| ==> r[i] == Compile(low, qs[i])
    decreases RankAll(qs), qs, 1
  {
    if |qs| == 0 then [] else CompileAll(low, qs[..|qs| - 1]) + [Compile(low, qs[|qs| - 1])]
  }

  /** `compileCondition`. `Like`, `In` and `NotIn` compile to nothing. */
  function CompileCondition(low: Lowering, c: Condition): seq<string>
    decreases 1, c, 2
  {
    match c
    case Equals(key, value) => Compile(low, low.field(key)) + ["="] + Compile(low, low.operand(value))
    case GreaterThan(key, value) => Compile(low, low.field(key)) + [">"] + Compile(low, low.operand(value))
    case GreaterThanOrEquals(key, value) => Compile(low, low.field(key)) + [">="] + Compile(low, low.operand(value))
    case LessThan(key, value) => Compile(low, low.field(key)) + ["<"] + Compile(low, low.operand(value))
    case LessThanOrEquals(key, value) => Compile(low, low.field(key)) + ["<="] + Compile(low, low.operand(value))
    case And(conditions) => ["("] + Divided(CompileConditions(low, conditions), "AND") + [")"]
    case Or(conditions) => ["("] + Divided(CompileConditions(low, conditions), "OR") + [")"]
    case Not(cond) => ["NOT", "("] + CompileCondition(low, cond) + [")"]
    case Like(_, _) => []
    case In(_, _) => []
    case NotIn(_, _) => []
  }

  /** Each condition of the list compiled on its own, in order. */
  function CompileConditions(low: Lowering, cs: seq<Condition>): (r: seq<seq<string>>)
    ensures |r| == |cs|
    ensures forall i :: 0 <= i < |cs| ==> r[i] == CompileCondition(low, cs[i])
    decreases 1, cs, 1
  {
    if |cs| == 0 then [] else CompileConditions(low, cs[..|cs| - 1]) + [CompileCondition(low, cs[|cs| - 1])]
  }

  /** The operator token of a comparison. */
  function OperatorToken(op: Comparator): string
  {
    match op
    case Eq => "="
    case Gt => ">"
    case Ge => ">="
    case Lt => "<"
    case Le => "<="
  }

  /** `joinType`: the keyword of a join kind. */
  function JoinKeyword(t: JoinType): string
  {
    match t
    case Inner => "INNER"
    case Left => "LEFT"
    case Outer => "OUTER"
    case Right => "RIGHT"
  }

  /** The optional `AS alias` of tables and subqueries. */
  function AliasTokens(alias: Option<string>): (r: seq<string>)
    ensures alias.None? ==> r == []
    ensures alias.Some? ==> r == ["AS", alias.value]
  {
    if alias.Some? then ["AS", alias.value] else []
  }

  /** `column`: the column's qualified name, then a lower-case `as alias` if there is an alias. */
  function ColumnTokens(name: string, table: Option<string>, alias: Option<string>): (r: seq<string>)
    ensures |r| == if alias.Some? then 3 else 1
    ensures r[0] == DeclaredField(name, table).QualifiedName()
    ensures alias.Some? ==> r[1] == "as" && r[2] == alias.value
  {
    var first := if table.Some? then table.value + "." + name else name;
    if alias.Some? then [first, "as", alias.value] else [first]
  }

  /** `table`: the table's name, then `AS alias` if there is an alias. */
  function TableTokens(name: string, alias: Option<string>): (r: seq<string>)
    ensures |r| == if alias.Some? then 3 else 1
    ensures r[0] == name
    ensures alias.Some? ==> r[1] == "AS" && r[2] == alias.value
  {
    [name] + AliasTokens(alias)
  }

  /** The argument has the `limit` shape. */
  predicate IsLimit(limit: Option<QueryComponent>)
  {
    limit.Some? && limit.value.Limit?
  }

  /** The argument has the `offset` shape. */
  predicate IsOffset(offset: Option<QueryComponent>)
  {
    offset.Some? && offset.value.Offset?
  }

  /**
   * `offsetLimit`: the select tokens kept as they are, then `LIMIT n` if the
   * limit argument is a limit, then `OFFSET n` if the offset argument is an
   * offset; arguments of any other shape add nothing.
   */
  function OffsetLimit(selectQuery: seq<string>, offset: Option<QueryComponent>, limit: Option<QueryComponent>)
    : (r: seq<string>)
    ensures |r| == |selectQuery| + (if IsLimit(limit) then 1 else 0) + (if IsOffset(offset) then 1 else 0)
    ensures r[..|selectQuery|] == selectQuery
    ensures IsLimit(limit) ==> r[|selectQuery|] == "LIMIT " + IntString(limit.value.count)
    ensures IsOffset(offset) ==> r[|r| - 1] == "OFFSET " + IntString(offset.value.count)
  {
    var withLimit := if IsLimit(limit) then selectQuery + ["LIMIT " + IntString(limit.value.count)] else selectQuery;
    if IsOffset(offset) then withLimit + ["OFFSET " + IntString(offset.value.count)] else withLimit
  }

  // ----- The assemblers, step by step ------------------------------------

  /** Divided of the first `k` chunks, in the shape the divider loop leaves it after `k` steps. */
  lemma DividedStep(chunks: seq<seq<string>>, divider: string, k: nat)
    requires 0 < k < |chunks|
    ensures Divided(chunks[..k + 1], divider) == Divided(chunks[..k], divider) + [divider] + chunks[k]
  {
    assert chunks[..k + 1][..k] == chunks[..k];
  }

  /** `compileParts(_:withDivider:)`: each part's tokens, with the divider after every part but the last. */
  method CompilePartsWithDivider(low: Lowering, parts: seq<QueryComponent>, divider: string)
    returns (tokens: seq<string>)
    ensures tokens == Divided(CompileAll(low, parts), divider)
  {
    ghost var chunks := CompileAll(low, parts);
    tokens := [];
    var lastIndex := |parts| - 1;
    for index := 0 to |parts|
      invariant index == 0 ==> tokens == []
      invariant 0 < index ==> tokens == Divided(chunks[..index], divider) + (if index != |parts| then [divider] else [])
    {
      if index > 0 {
        DividedStep(chunks, divider, index);
      } else {
        assert chunks[..1] == [chunks[0]];
      }
      tokens := tokens + Compile(low, parts[index]);
      if index != lastIndex {
        tokens := tokens + [divider];
      }
    }
    assert chunks[..|parts|] == chunks;
  }

  /** The generic `compileParts(_:withDivider:compileFunc:)`: the same loop over any elements and compile function. */
  method CompilePartsWithDividerBy<T>(parts: seq<T>, divider: string, compileFunc: T -> seq<string>)
    returns (tokens: seq<string>)
    ensures tokens == Divided(Apply(compileFunc, parts), divider)
  {
    ghost var chunks := Apply(compileFunc, parts);
    tokens := [];
    var lastIndex := |parts| - 1;
    for index := 0 to |parts|
      invariant index == 0 ==> tokens == []
      invariant 0 < index ==> tokens == Divided(chunks[..index], divider) + (if index != |parts| then [divider] else [])
    {
      if index > 0 {
        DividedStep(chunks, divider, index);
      } else {
        assert chunks[..1] == [chunks[0]];
      }
      tokens := tokens + compileFunc(parts[index]);
      if index != lastIndex {
        tokens := tokens + [divider];
      }
    }
    assert chunks[..|parts|] == chunks;
  }

  /** `column`. */
  method CompileColumn(name: string, table: Option<string>, alias: Option<string>) returns (tokens: seq<string>)
    ensures tokens == ColumnTokens(name, table, alias)
  {
    tokens := [];
    if table.Some? {
      tokens := tokens + [table.value + "." + name];
    } else {
      tokens := tokens + [name];
    }
    if alias.Some? {
      tokens := tokens + ["as", alias.value];
    }
  }

  /** `table`. */
  method CompileTable(name: string, alias: Option<string>) returns (tokens: seq<string>)
    ensures tokens == TableTokens(name, alias)
  {
    tokens := [name];
    if alias.Some? {
      tokens := tokens + ["AS", alias.value];
    }
  }

  /** `join`. */
  method CompileJoin(low: Lowering, types: seq<JoinType>, with: QueryComponent, leftKey: QueryComponent,
                     rightKey: QueryComponent) returns (tokens: seq<string>)
    ensures tokens == Compile(low, Join(types, with, leftKey, rightKey))
  {
    var keywords, target, left, right := Apply(JoinKeyword, types), Compile(low, with), Compile(low, leftKey),
                                         Compile(low, rightKey);
    tokens := [];
    tokens := tokens + keywords;
    assert tokens == keywords;
    tokens := tokens + ["JOIN"];
    tokens := tokens + target;
    tokens := tokens + ["ON"];
    tokens := tokens + left;
    tokens := tokens + ["="];
    tokens := tokens + right;
    JoinUnfolds(low, types, with, leftKey, rightKey);
  }

  /** The `And` and `Or` cases of `compileCondition`, one step unfolded. */
  lemma CombinatorUnfolds(low: Lowering, cs: seq<Condition>)
    ensures CompileCondition(low, And(cs)) == ["("] + Divided(CompileConditions(low, cs), "AND") + [")"]
    ensures CompileCondition(low, Or(cs)) == ["("] + Divided(CompileConditions(low, cs), "OR") + [")"]
  {
  }

  /** The dispatch's join case, one step unfolded. */
  lemma JoinUnfolds(low: Lowering, types: seq<JoinType>, with: QueryComponent, leftKey: QueryComponent,
                    rightKey: QueryComponent)
    ensures Compile(low, Join(types, with, leftKey, rightKey))
            == Apply(JoinKeyword, types) + ["JOIN"] + Compile(low, with) + ["ON"] + Compile(low, leftKey)
               + ["="] + Compile(low, rightKey)
  {
  }

  /** `subquery`. */
  method CompileSubquery(low: Lowering, query: QueryComponent, alias: Option<string>) returns (tokens: seq<string>)
    ensures tokens == Compile(low, Subquery(query, alias))
  {
    tokens := ["("];
    tokens := tokens + Compile(low, query);
    tokens := tokens + [")"];
    if alias.Some? {
      tokens := tokens + ["AS", alias.value];
    }
  }

  /** `offsetLimit`. */
  method AppendOffsetLimit(selectQuery: seq<string>, offset: Option<QueryComponent>, limit: Option<QueryComponent>)
    returns (tokens: seq<string>)
    ensures tokens == OffsetLimit(selectQuery, offset, limit)
  {
    tokens := selectQuery;
    if limit.Some? && limit.value.Limit? {
      tokens := tokens + ["LIMIT " + IntString(limit.value.count)];
    }
    if offset.Some? && offset.value.Offset? {
      tokens := tokens + ["OFFSET " + IntString(offset.value.count)];
    }
  }

  /** `groupBy`. */
  method CompileGroupBy(low: Lowering, fields: seq<QueryComponent>) returns (tokens: seq<string>)
    ensures tokens == Compile(low, GroupBy(fields))
  {
    tokens := ["GROUP BY"];
    var fieldTokens := CompilePartsWithDivider(low, fields, ",");
    tokens := tokens + fieldTokens;
  }

  /** `select`: the ordering, grouping and having arguments are accepted and not used. */
  method CompileSelect(low: Lowering, fields: seq<QueryComponent>, from: QueryComponent, joins: seq<QueryComponent>,
                       filter: Option<QueryComponent>, ordersBy: seq<QueryComponent>, offset: Option<QueryComponent>,
                       limit: Option<QueryComponent>, groupBy: Option<QueryComponent>, having: Option<QueryComponent>)
    returns (tokens: seq<string>)
    ensures tokens == Compile(low, Select(fields, from, joins, filter, ordersBy, offset, limit, groupBy, having))
  {
    tokens := ["SELECT"];
    var fieldTokens := CompilePartsWithDivider(low, fields, ",");
    tokens := tokens + fieldTokens;
    tokens := tokens + ["FROM"];
    var fromTokens := Compile(low, from);
    tokens := tokens + fromTokens;
    ghost var head := tokens;
    ghost var joinChunks := CompileAll(low, joins);
    for i := 0 to |joins|
      invariant tokens == head + Flatten(joinChunks[..i])
    {
      assert joinChunks[..i + 1][..i] == joinChunks[..i];
      tokens := tokens + Compile(low, joins[i]);
    }
    assert joinChunks[..|joins|] == joinChunks;
    if filter.Some? {
      var filterTokens := Compile(low, filter.value);
      tokens := tokens + ["WHERE"];
      tokens := tokens + filterTokens;
    }
    SelectUnfolds(low, fields, from, joins, filter, ordersBy, offset, limit, groupBy, having);
    if offset.Some? || limit.Some? {
      tokens := AppendOffsetLimit(tokens, offset, limit);
    }
  }

  /** The dispatch's select case, one step unfolded. */
  lemma SelectUnfolds(low: Lowering, fields: seq<QueryComponent>, from: QueryComponent, joins: seq<QueryComponent>,
                      filter: Option<QueryComponent>, ordersBy: seq<QueryComponent>, offset: Option<QueryComponent>,
                      limit: Option<QueryComponent>, groupBy: Option<QueryComponent>, having: Option<QueryComponent>)
    ensures var head := ["SELECT"] + Divided(CompileAll(low, fields), ",") + ["FROM"] + Compile(low, from)
                        + Flatten(CompileAll(low, joins));
            var filtered := if filter.Some? then head + ["WHERE"] + Compile(low, filter.value) else head;
            Compile(low, Select(fields, from, joins, filter, ordersBy, offset, limit, groupBy, having))
            == if offset.Some? || limit.Some? then OffsetLimit(filtered, offset, limit) else filtered
  {
  }
}
