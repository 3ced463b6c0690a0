/**
 * What the token compiler guarantees: where dividers go, what is always
 * parenthesised, which keyword comes first, and which clauses of a `SELECT`
 * appear, in what order.
 */
module CompilerProperties {
  import opened Wrappers
  import opened Sequences
  import opened Decimal
  import opened Fields
  import opened Conditions
  import opened Components
  import opened Compiler

  // ----- Parts -----------------------------------------------------------

  lemma CompileAllConcat(low: Lowering, a: seq<QueryComponent>, b: seq<QueryComponent>)
    ensures CompileAll(low, a + b) == CompileAll(low, a) + CompileAll(low, b)
  {
    assert forall i :: 0 <= i < |a + b| ==> (a + b)[i] == if i < |a| then a[i] else b[i - |a|];
  }

  /**
   * `compileParts` without a divider is the plain concatenation of the parts'
   * tokens: nothing for no parts, exactly the part's tokens for one, and
   * concatenation of two lists compiles to the concatenation of their tokens.
   */
  lemma PartsConcatenate(low: Lowering, a: seq<QueryComponent>, b: seq<QueryComponent>, x: QueryComponent)
    ensures Compile(low, Parts([])) == []
    ensures Compile(low, Parts([x])) == Compile(low, x)
    ensures Compile(low, Parts(a + b)) == Compile(low, Parts(a)) + Compile(low, Parts(b))
  {
    assert CompileAll(low, [x]) == [Compile(low, x)];
    assert [Compile(low, x)][..0] == [];
    CompileAllConcat(low, a, b);
    FlattenConcat(CompileAll(low, a), CompileAll(low, b));
  }

  /** Nesting a list of parts inside another adds nothing. */
  lemma NestedPartsFlatten(low: Lowering, a: seq<QueryComponent>, b: seq<QueryComponent>)
    ensures Compile(low, Parts([Parts(a), Parts(b)])) == Compile(low, Parts(a + b))
  {
    PartsConcatenate(low, a, b, Parts(a));
    var x, y := Compile(low, Parts(a)), Compile(low, Parts(b));
    assert CompileAll(low, [Parts(a), Parts(b)]) == [x] + [y];
    FlattenConcat([x], [y]);
    assert Flatten([x]) == x by {
      assert [x][..0] == [];
    }
    assert Flatten([y]) == y by {
      assert [y][..0] == [];
    }
  }

  // ----- Parts with a divider --------------------------------------------

  /**
   * `compileParts(_:withDivider:)`: no parts give no tokens and one part gives
   * exactly its own tokens; in general part `i`'s tokens stand at
   * `Start(chunks, [d], i)`, the first at position 0, exactly one divider
   * follows every part but the last, and the last part ends the output.
   */
  lemma DividedPartsAt(low: Lowering, parts: seq<QueryComponent>, d: string, i: nat)
    requires i < |parts|
    ensures var chunks := CompileAll(low, parts);
            var r := Divided(chunks, d);
            var lo := Start(chunks, [d], i);
            && (|parts| == 1 ==> r == Compile(low, parts[0]))
            && (i == 0 ==> lo == 0)
            && lo + |chunks[i]| <= |r|
            && r[lo..lo + |chunks[i]|] == Compile(low, parts[i])
            && (i + 1 < |parts| ==>
                  lo + |chunks[i]| < |r| && r[lo + |chunks[i]|] == d && Start(chunks, [d], i + 1) == lo + |chunks[i]| + 1)
            && (i + 1 == |parts| ==> lo + |chunks[i]| == |r|)
  {
    DividedChunkAt(CompileAll(low, parts), d, i);
  }

  /** The positional facts of `DividedPartsAt`, stated on plain chunks. */
  lemma DividedChunkAt(chunks: seq<seq<string>>, d: string, i: nat)
    requires i < |chunks|
    ensures var r := Divided(chunks, d);
            var lo := Start(chunks, [d], i);
            && (|chunks| == 1 ==> r == chunks[0])
            && (i == 0 ==> lo == 0)
            && lo + |chunks[i]| <= |r|
            && r[lo..lo + |chunks[i]|] == chunks[i]
            && (i + 1 < |chunks| ==>
                  lo + |chunks[i]| < |r| && r[lo + |chunks[i]|] == d && Start(chunks, [d], i + 1) == lo + |chunks[i]| + 1)
            && (i + 1 == |chunks| ==> lo + |chunks[i]| == |r|)
  {
    InterleaveChunkAt(chunks, [d], i);
    if i + 1 < |chunks| {
      InterleaveSeparatorAt(chunks, [d], i);
    }
  }

  lemma DividedNoParts(low: Lowering, d: string)
    ensures Divided(CompileAll(low, []), d) == []
  {
  }

  /** When no part's own tokens contain the divider, n > 0 parts are separated by exactly n - 1 dividers. */
  lemma DividedPartsDividerCount(low: Lowering, parts: seq<QueryComponent>, d: string)
    requires forall i :: 0 <= i < |parts| ==> Count(Compile(low, parts[i]), d) == 0
    ensures Count(Divided(CompileAll(low, parts), d), d) == if |parts| == 0 then 0 else |parts| - 1
  {
    DividerCount(CompileAll(low, parts), d);
  }

  /** The generic divider loop, given `compileCondition`, lists exactly the conditions' tokens. */
  lemma ConditionsThroughGenericLoop(low: Lowering, cs: seq<Condition>)
    ensures Apply((c: Condition) => CompileCondition(low, c), cs) == CompileConditions(low, cs)
  {
  }

  // ----- Tables, subqueries, joins, grouping -----------------------------

  /** The slices of `( inner ) tail`. */
  lemma ParenthesisedSlices(inner: seq<string>, tail: seq<string>)
    ensures var r := ["("] + inner + [")"] + tail;
            var n := |inner|;
            && |r| == n + 2 + |tail|
            && r[0] == "(" && r[1..n + 1] == inner && r[n + 1] == ")" && r[n + 2..] == tail
  {
    var r := ["("] + inner + [")"] + tail;
    assert r == ["("] + (inner + ([")"] + tail));
  }

  /** A subquery is always parenthesised: `(`, the inner tokens, `)`, then `AS alias` if aliased. */
  lemma SubqueryParenthesised(low: Lowering, query: QueryComponent, alias: Option<string>)
    ensures var r := Compile(low, Subquery(query, alias));
            var n := |Compile(low, query)|;
            && |r| == n + 2 + (if alias.Some? then 2 else 0)
            && r[0] == "(" && r[1..n + 1] == Compile(low, query) && r[n + 1] == ")"
            && r[n + 2..] == (if alias.Some? then ["AS", alias.value] else [])
  {
    var inner := Compile(low, query);
    assert Compile(low, Subquery(query, alias)) == ["("] + inner + [")"] + AliasTokens(alias);
    ParenthesisedSlices(inner, AliasTokens(alias));
  }

  lemma Prefix(a: seq<string>, b: seq<string>)
    ensures |a + b| == |a| + |b| && (a + b)[..|a|] == a && (a + b)[|a|..] == b
  {
  }

  /** Whatever holds of a prefix `p` of `r` holds of the same slice of `r`. */
  lemma SliceInPrefix(r: seq<string>, p: seq<string>, i: nat, j: nat)
    requires |p| <= |r| && r[..|p|] == p && i <= j <= |p|
    ensures r[i..j] == p[i..j]
    ensures j < |p| ==> r[j] == p[j]
  {
    forall k | 0 <= k < |p| ensures r[k] == p[k] {
      assert r[..|p|][k] == r[k];
    }
    assert forall k :: 0 <= k < j - i ==> r[i..j][k] == r[i + k] && p[i..j][k] == p[i + k];
  }

  /** The slices of `kw JOIN w ON lk = rk`. */
  lemma JoinSlices(kw: seq<string>, w: seq<string>, lk: seq<string>, rk: seq<string>)
    ensures var r := kw + ["JOIN"] + w + ["ON"] + lk + ["="] + rk;
            var t := |kw|;
            && |r| == t + |w| + |lk| + |rk| + 3
            && r[..t] == kw
            && r[t] == "JOIN"
            && r[t + 1..t + 1 + |w|] == w
            && r[t + 1 + |w|] == "ON"
            && r[t + 2 + |w|..t + 2 + |w| + |lk|] == lk
            && r[t + 2 + |w| + |lk|] == "="
            && r[t + 3 + |w| + |lk|..] == rk
  {
    var p1 := kw + ["JOIN"];
    var p2 := p1 + w;
    var p3 := p2 + ["ON"];
    var p4 := p3 + lk;
    var p5 := p4 + ["="];
    var r := p5 + rk;
    Prefix(kw, ["JOIN"]);
    Prefix(p1, w);
    Prefix(p2, ["ON"]);
    Prefix(p3, lk);
    Prefix(p4, ["="]);
    Prefix(p5, rk);
    // every p_k is a prefix of r
    SliceInPrefix(r, p5, 0, |p4|);
    SliceInPrefix(r, p4, 0, |p3|);
    SliceInPrefix(r, p3, 0, |p2|);
    SliceInPrefix(r, p2, 0, |p1|);
    SliceInPrefix(r, p1, 0, |kw|);
    // the pieces
    SliceInPrefix(r, p5, |p4|, |p4|);
    SliceInPrefix(r, p4, |p3|, |p4|);
    SliceInPrefix(r, p3, |p2|, |p2|);
    SliceInPrefix(r, p2, |p1|, |p2|);
    SliceInPrefix(r, p1, |kw|, |kw|);
  }

  /**
   * A join lists its kind keywords in the given order, then `JOIN`, the target,
   * `ON`, the left key, `=` and the right key.
   */
  lemma JoinLayout(low: Lowering, types: seq<JoinType>, with: QueryComponent, leftKey: QueryComponent,
                   rightKey: QueryComponent)
    ensures var r := Compile(low, Join(types, with, leftKey, rightKey));
            var t, w, lk, rk := |types|, Compile(low, with), Compile(low, leftKey), Compile(low, rightKey);
            && |r| == t + |w| + |lk| + |rk| + 3
            && (forall i :: 0 <= i < t ==> r[i] == JoinKeyword(types[i]))
            && r[t] == "JOIN"
            && r[t + 1..t + 1 + |w|] == w
            && r[t + 1 + |w|] == "ON"
            && r[t + 2 + |w|..t + 2 + |w| + |lk|] == lk
            && r[t + 2 + |w| + |lk|] == "="
            && r[t + 3 + |w| + |lk|..] == rk
  {
    var w, lk, rk := Compile(low, with), Compile(low, leftKey), Compile(low, rightKey);
    JoinUnfolds(low, types, with, leftKey, rightKey);
    JoinTokens(types, w, lk, rk);
    assert Compile(low, Join(types, with, leftKey, rightKey))
        == Apply(JoinKeyword, types) + ["JOIN"] + w + ["ON"] + lk + ["="] + rk;
  }

  /** The layout of a join's tokens, stated on plain sequences. */
  lemma JoinTokens(types: seq<JoinType>, w: seq<string>, lk: seq<string>, rk: seq<string>)
    ensures var r := Apply(JoinKeyword, types) + ["JOIN"] + w + ["ON"] + lk + ["="] + rk;
            var t := |types|;
            && |r| == t + |w| + |lk| + |rk| + 3
            && (forall i :: 0 <= i < t ==> r[i] == JoinKeyword(types[i]))
            && r[t] == "JOIN"
            && r[t + 1..t + 1 + |w|] == w
            && r[t + 1 + |w|] == "ON"
            && r[t + 2 + |w|..t + 2 + |w| + |lk|] == lk
            && r[t + 2 + |w| + |lk|] == "="
            && r[t + 3 + |w| + |lk|..] == rk
  {
    var kw := Apply(JoinKeyword, types);
    JoinSlices(kw, w, lk, rk);
    var r := kw + ["JOIN"] + w + ["ON"] + lk + ["="] + rk;
    forall i | 0 <= i < |types| ensures r[i] == JoinKeyword(types[i]) {
      assert r[i] == r[..|kw|][i];
    }
  }

  /** Join kinds map to distinct keywords. */
  lemma JoinKeywordsDistinct(a: JoinType, b: JoinType)
    ensures JoinKeyword(a) == JoinKeyword(b) <==> a == b
  {
  }

  /** `GROUP BY` comes first, then the fields separated by commas. */
  lemma GroupByLayout(low: Lowering, fields: seq<QueryComponent>)
    ensures var r := Compile(low, GroupBy(fields));
            r[0] == "GROUP BY" && r[1..] == Divided(CompileAll(low, fields), ",")
  {
  }

  // ----- SELECT ----------------------------------------------------------

  ghost function WhereClause(low: Lowering, filter: Option<QueryComponent>): seq<string>
  {
    if filter.Some? then ["WHERE"] + Compile(low, filter.value) else []
  }

  ghost function LimitClause(limit: Option<QueryComponent>): seq<string>
  {
    if IsLimit(limit) then ["LIMIT " + IntString(limit.value.count)] else []
  }

  ghost function OffsetClause(offset: Option<QueryComponent>): seq<string>
  {
    if IsOffset(offset) then ["OFFSET " + IntString(offset.value.count)] else []
  }

  /**
   * The clauses of a `SELECT`, in their fixed order: `SELECT` and the fields
   * separated by commas, `FROM` and the source, every join in list order,
   * `WHERE` and the filter only if there is a filter, then `LIMIT n` only for
   * a limit-shaped limit and `OFFSET n` only for an offset-shaped offset.
   */
  lemma SelectLayout(low: Lowering, fields: seq<QueryComponent>, from: QueryComponent, joins: seq<QueryComponent>,
                     filter: Option<QueryComponent>, ordersBy: seq<QueryComponent>, offset: Option<QueryComponent>,
                     limit: Option<QueryComponent>, groupBy: Option<QueryComponent>, having: Option<QueryComponent>)
    ensures Compile(low, Select(fields, from, joins, filter, ordersBy, offset, limit, groupBy, having))
            == ["SELECT"] + Divided(CompileAll(low, fields), ",") + ["FROM"] + Compile(low, from)
               + Flatten(CompileAll(low, joins)) + WhereClause(low, filter) + LimitClause(limit) + OffsetClause(offset)
  {
    var head := ["SELECT"] + Divided(CompileAll(low, fields), ",") + ["FROM"] + Compile(low, from)
                + Flatten(CompileAll(low, joins));
    var filtered := if filter.Some? then head + ["WHERE"] + Compile(low, filter.value) else head;
    assert filtered == head + WhereClause(low, filter);
    var r := Compile(low, Select(fields, from, joins, filter, ordersBy, offset, limit, groupBy, having));
    assert r == if offset.Some? || limit.Some? then OffsetLimit(filtered, offset, limit) else filtered;
    OffsetLimitClauses(filtered, offset, limit);
  }

  lemma OffsetLimitClauses(s: seq<string>, offset: Option<QueryComponent>, limit: Option<QueryComponent>)
    ensures OffsetLimit(s, offset, limit) == s + LimitClause(limit) + OffsetClause(offset)
    ensures offset.None? && limit.None? ==> s == s + LimitClause(limit) + OffsetClause(offset)
  {
  }

  /** A raw SQL fragment is emitted verbatim, as one token. */
  lemma RawSqlVerbatim(low: Lowering, str: string)
    ensures Compile(low, Sql(str)) == [str]
  {
  }

  /** The output of a `SELECT` always begins with the `SELECT` keyword. */
  lemma SelectComesFirst(low: Lowering, q: QueryComponent)
    requires q.Select?
    ensures |Compile(low, q)| > 0 && Compile(low, q)[0] == "SELECT"
  {
    SelectLayout(low, q.fields, q.from, q.joins, q.filter, q.ordersBy, q.offset, q.limit, q.groupBy, q.having);
  }

  /** Orderings, grouping and having are ignored: changing them changes nothing in the output. */
  lemma SelectIgnoresOrderingGroupingHaving(
    low: Lowering, fields: seq<QueryComponent>, from: QueryComponent, joins: seq<QueryComponent>,
    filter: Option<QueryComponent>, offset: Option<QueryComponent>, limit: Option<QueryComponent>,
    ordersBy: seq<QueryComponent>, groupBy: Option<QueryComponent>, having: Option<QueryComponent>,
    ordersBy': seq<QueryComponent>, groupBy': Option<QueryComponent>, having': Option<QueryComponent>)
    ensures Compile(low, Select(fields, from, joins, filter, ordersBy, offset, limit, groupBy, having))
         == Compile(low, Select(fields, from, joins, filter, ordersBy', offset, limit, groupBy', having'))
  {
  }

  /** With both a limit and an offset, the output ends with `LIMIT n` and then `OFFSET m`, never the other way. */
  lemma LimitPrecedesOffset(low: Lowering, fields: seq<QueryComponent>, from: QueryComponent, joins: seq<QueryComponent>,
                            filter: Option<QueryComponent>, ordersBy: seq<QueryComponent>, n: int, m: int,
                            groupBy: Option<QueryComponent>, having: Option<QueryComponent>)
    ensures var r := Compile(low, Select(fields, from, joins, filter, ordersBy, Some(Offset(m)), Some(Limit(n)), groupBy, having));
            |r| >= 2 && r[|r| - 2] == "LIMIT " + IntString(n) && r[|r| - 1] == "OFFSET " + IntString(m)
  {
    SelectLayout(low, fields, from, joins, filter, ordersBy, Some(Offset(m)), Some(Limit(n)), groupBy, having);
  }

  /** A limit passed as the offset, or an offset passed as the limit, is dropped. */
  lemma MisplacedLimitOffsetDropped(low: Lowering, fields: seq<QueryComponent>, from: QueryComponent,
                                    joins: seq<QueryComponent>, filter: Option<QueryComponent>,
                                    ordersBy: seq<QueryComponent>, n: int, m: int,
                                    groupBy: Option<QueryComponent>, having: Option<QueryComponent>)
    ensures Compile(low, Select(fields, from, joins, filter, ordersBy, Some(Limit(n)), Some(Offset(m)), groupBy, having))
         == Compile(low, Select(fields, from, joins, filter, ordersBy, None, None, groupBy, having))
  {
  }

  /** Outside a `SELECT`, `limit` and `offset` fragments fall to the default case and compile to nothing. */
  lemma StandaloneLimitOffsetCompileToNothing(low: Lowering, n: int)
    ensures Compile(low, Limit(n)) == [] && Compile(low, Offset(n)) == []
  {
  }

  // ----- Conditions ------------------------------------------------------

  /**
   * `And` and `Or` are always parenthesised, with their divider between
   * consecutive children; no children give `( )`, one child gives `( c )`.
   */
  lemma AndOrParenthesised(low: Lowering, cs: seq<Condition>)
    ensures var r := CompileCondition(low, And(cs));
            |r| >= 2 && r[0] == "(" && r[|r| - 1] == ")" && r[1..|r| - 1] == Divided(CompileConditions(low, cs), "AND")
    ensures var r := CompileCondition(low, Or(cs));
            |r| >= 2 && r[0] == "(" && r[|r| - 1] == ")" && r[1..|r| - 1] == Divided(CompileConditions(low, cs), "OR")
  {
    var chunks := CompileConditions(low, cs);
    assert CompileCondition(low, And(cs)) == ["("] + Divided(chunks, "AND") + [")"];
    assert CompileCondition(low, Or(cs)) == ["("] + Divided(chunks, "OR") + [")"];
    WrappedDivided(chunks, "AND");
    WrappedDivided(chunks, "OR");
  }

  /** No children give `( )`; one child `c` gives `( c )`. */
  lemma AndOrSmall(low: Lowering, x: Condition)
    ensures CompileCondition(low, And([])) == ["(", ")"] && CompileCondition(low, Or([])) == ["(", ")"]
    ensures CompileCondition(low, And([x])) == ["("] + CompileCondition(low, x) + [")"]
    ensures CompileCondition(low, Or([x])) == ["("] + CompileCondition(low, x) + [")"]
  {
    var one := CompileConditions(low, [x]);
    assert one == [CompileCondition(low, x)];
    WrappedDivided(one, "AND");
    WrappedDivided(one, "OR");
    assert CompileConditions(low, []) == [];
  }

  /** `( chunks divided by d )`: bracketed on both sides, the divided chunks in between. */
  lemma WrappedDivided(chunks: seq<seq<string>>, d: string)
    ensures var r := ["("] + Divided(chunks, d) + [")"];
            |r| >= 2 && r[0] == "(" && r[|r| - 1] == ")" && r[1..|r| - 1] == Divided(chunks, d)
    ensures |chunks| == 1 ==> Divided(chunks, d) == chunks[0]
    ensures |chunks| == 0 ==> Divided(chunks, d) == []
  {
  }

  /** Child `i` of an `And` stands right after `(` and the earlier children, each followed by one `AND`. */
  lemma AndChildAt(low: Lowering, cs: seq<Condition>, i: nat)
    requires i < |cs|
    ensures var chunks := CompileConditions(low, cs);
            var r := CompileCondition(low, And(cs));
            var lo := 1 + Start(chunks, ["AND"], i);
            && lo + |chunks[i]| < |r|
            && r[lo..lo + |chunks[i]|] == CompileCondition(low, cs[i])
            && (i + 1 < |cs| ==> r[lo + |chunks[i]|] == "AND")
            && (i + 1 == |cs| ==> lo + |chunks[i]| == |r| - 1)
  {
    var chunks := CompileConditions(low, cs);
    CombinatorUnfolds(low, cs);
    WrappedChunkAt(chunks, "AND", i);
    assert chunks[i] == CompileCondition(low, cs[i]);
  }

  /** Inside `( … )`, chunk `i` of a divided list stands one place after its position in the list. */
  lemma WrappedChunkAt(chunks: seq<seq<string>>, d: string, i: nat)
    requires i < |chunks|
    ensures var r := ["("] + Divided(chunks, d) + [")"];
            var lo := 1 + Start(chunks, [d], i);
            && lo + |chunks[i]| < |r|
            && r[lo..lo + |chunks[i]|] == chunks[i]
            && (i + 1 < |chunks| ==> r[lo + |chunks[i]|] == d)
            && (i + 1 == |chunks| ==> lo + |chunks[i]| == |r| - 1)
  {
    var inner := Divided(chunks, d);
    var lo := Start(chunks, [d], i);
    var n := |chunks[i]|;
    InterleaveChunkAt(chunks, [d], i);
    if i + 1 < |chunks| {
      InterleaveSeparatorAt(chunks, [d], i);
      assert inner[lo + n] == d by {
        assert inner[lo + n..Start(chunks, [d], i + 1)] == [d];
      }
    }
    WrappedSlice(inner, lo, lo + n);
  }

  /** A slice of `s` reappears one place later in `( s )`. */
  lemma WrappedSlice(s: seq<string>, lo: nat, hi: nat)
    requires lo <= hi <= |s|
    ensures (["("] + s + [")"])[lo + 1..hi + 1] == s[lo..hi]
    ensures hi < |s| ==> (["("] + s + [")"])[hi + 1] == s[hi]
    ensures |["("] + s + [")"]| == |s| + 2
  {
  }

  /** `Not(c)` is exactly `NOT ( c )`. */
  lemma NotWraps(low: Lowering, c: Condition)
    ensures CompileCondition(low, Not(c)) == ["NOT", "("] + CompileCondition(low, c) + [")"]
  {
  }

  /** A comparison is its key's tokens, one operator token, then its operand's tokens. */
  lemma ComparisonTokens(low: Lowering, c: Condition)
    requires c.IsComparison()
    ensures var k := Compile(low, low.field(c.key));
            var r := CompileCondition(low, c);
            && r == k + [OperatorToken(ComparatorOf(c))] + Compile(low, low.operand(c.operand))
            && r[|k|] == OperatorToken(ComparatorOf(c))
  {
  }

  /**
   * A condition built by an operator compiles to the left-hand field's
   * tokens, the operator, and the right-hand side's: the literal through
   * `Value`, a column through `Property`.
   */
  lemma BuiltComparisonTokens(low: Lowering, op: Comparator, lhs: DeclaredField, v: Option<SqlData>, rhs: DeclaredField)
    ensures CompileCondition(low, CompareValue(op, lhs, v))
            == Compile(low, low.field(lhs)) + [OperatorToken(op)] + Compile(low, low.operand(Value(v)))
    ensures CompileCondition(low, CompareField(op, lhs, rhs))
            == Compile(low, low.field(lhs)) + [OperatorToken(op)] + Compile(low, low.operand(Property(rhs)))
  {
    ComparisonTokens(low, CompareValue(op, lhs, v));
    ComparisonTokens(low, CompareField(op, lhs, rhs));
  }

  /** `Like`, `In` and `NotIn` fall to the default case and compile to nothing, wherever they are built. */
  lemma UnsupportedConditionsCompileToNothing(low: Lowering, f: DeclaredField, values: seq<Option<SqlData>>,
                                              pattern: Option<SqlData>)
    ensures CompileCondition(low, ContainedIn(f, values)) == []
    ensures CompileCondition(low, NotContainedIn(f, values)) == []
    ensures CompileCondition(low, LikeValue(f, pattern)) == []
    ensures CompileCondition(low, Not(ContainedIn(f, values))) == ["NOT", "(", ")"]
  {
  }

  // ----- Balanced parentheses --------------------------------------------

  ghost predicate Balanced(s: seq<string>)
  {
    Count(s, "(") == Count(s, ")")
  }

  /**
   * Every key and operand that occurs in a comparison of `c` lowers to a
   * fragment with balanced parentheses. `Like`, `In` and `NotIn` compile to
   * nothing, so their key and values are not looked at.
   */
  ghost predicate OperandsBalancedIn(low: Lowering, c: Condition)
    decreases c
  {
    match c
    case And(cs) => forall i :: 0 <= i < |cs| ==> OperandsBalancedIn(low, cs[i])
    case Or(cs) => forall i :: 0 <= i < |cs| ==> OperandsBalancedIn(low, cs[i])
    case Not(x) => OperandsBalancedIn(low, x)
    case Like(_, _) => true
    case In(_, _) => true
    case NotIn(_, _) => true
    case _ => Balanced(Compile(low, low.field(c.key))) && Balanced(Compile(low, low.operand(c.operand)))
  }

  lemma CountToken(t: string, x: string)
    ensures Count([t], x) == if t == x then 1 else 0
  {
    assert [t][..0] == [];
  }

  lemma BalancedConcat(a: seq<string>, b: seq<string>)
    requires Balanced(a) && Balanced(b)
    ensures Balanced(a + b)
  {
    CountConcat(a, b, "(");
    CountConcat(a, b, ")");
  }

  lemma BalancedToken(t: string)
    requires t != "(" && t != ")"
    ensures Balanced([t])
  {
    CountToken(t, "(");
    CountToken(t, ")");
  }

  /** `( s )` is balanced when `s` is. */
  lemma BalancedWrap(s: seq<string>)
    requires Balanced(s)
    ensures Balanced(["("] + s + [")"])
  {
    CountConcat(["("] + s, [")"], "(");
    CountConcat(["("] + s, [")"], ")");
    CountConcat(["("], s, "(");
    CountConcat(["("], s, ")");
    CountToken("(", "(");
    CountToken("(", ")");
    CountToken(")", "(");
    CountToken(")", ")");
  }

  lemma {:induction false} BalancedChunks(chunks: seq<seq<string>>)
    requires forall i :: 0 <= i < |chunks| ==> Balanced(chunks[i])
    ensures CountAll(chunks, "(") == CountAll(chunks, ")")
    decreases |chunks|
  {
    if |chunks| > 0 {
      BalancedChunks(chunks[..|chunks| - 1]);
    }
  }

  lemma BalancedDivided(chunks: seq<seq<string>>, d: string)
    requires d != "(" && d != ")"
    requires forall i :: 0 <= i < |chunks| ==> Balanced(chunks[i])
    ensures Balanced(Divided(chunks, d))
  {
    BalancedChunks(chunks);
    CountInterleave(chunks, d, "(");
    CountInterleave(chunks, d, ")");
  }

  /** `( c1 d c2 d … )` is balanced when every chunk is. */
  lemma CombinatorBalanced(chunks: seq<seq<string>>, d: string)
    requires d != "(" && d != ")"
    requires forall i :: 0 <= i < |chunks| ==> Balanced(chunks[i])
    ensures Balanced(["("] + Divided(chunks, d) + [")"])
  {
    BalancedDivided(chunks, d);
    BalancedWrap(Divided(chunks, d));
  }

  /** An `And` or `Or` of balanced children is balanced. */
  lemma AndOrBalanced(low: Lowering, cs: seq<Condition>)
    requires forall i :: 0 <= i < |cs| ==> Balanced(CompileCondition(low, cs[i]))
    ensures Balanced(CompileCondition(low, And(cs)))
    ensures Balanced(CompileCondition(low, Or(cs)))
  {
    var chunks := CompileConditions(low, cs);
    CombinatorBalanced(chunks, "AND");
    CombinatorBalanced(chunks, "OR");
    assert CompileCondition(low, And(cs)) == ["("] + Divided(chunks, "AND") + [")"];
    assert CompileCondition(low, Or(cs)) == ["("] + Divided(chunks, "OR") + [")"];
  }

  /** `NOT ( s )` is balanced when `s` is. */
  lemma NotBalanced(s: seq<string>)
    requires Balanced(s)
    ensures Balanced(["NOT", "("] + s + [")"])
  {
    BalancedWrap(s);
    BalancedToken("NOT");
    BalancedConcat(["NOT"], ["("] + s + [")"]);
    assert ["NOT", "("] + s + [")"] == ["NOT"] + (["("] + s + [")"]);
  }

  /**
   * When the keys and operands a condition compares lower to balanced fragments, the compiled condition
   * has as many `(` as `)`: combinators only ever add matching pairs.
   */
  lemma {:induction false} ConditionParenthesesBalanced(low: Lowering, c: Condition)
    requires OperandsBalancedIn(low, c)
    ensures Balanced(CompileCondition(low, c))
    decreases c
  {
    match c
    case Equals(key, value) => ComparisonBalanced(low, key, "=", value);
    case GreaterThan(key, value) => ComparisonBalanced(low, key, ">", value);
    case GreaterThanOrEquals(key, value) => ComparisonBalanced(low, key, ">=", value);
    case LessThan(key, value) => ComparisonBalanced(low, key, "<", value);
    case LessThanOrEquals(key, value) => ComparisonBalanced(low, key, "<=", value);
    case And(cs) =>
      forall i | 0 <= i < |cs| ensures Balanced(CompileCondition(low, cs[i])) {
        ConditionParenthesesBalanced(low, cs[i]);
      }
      AndOrBalanced(low, cs);
    case Or(cs) =>
      forall i | 0 <= i < |cs| ensures Balanced(CompileCondition(low, cs[i])) {
        ConditionParenthesesBalanced(low, cs[i]);
      }
      AndOrBalanced(low, cs);
    case Not(x) =>
      ConditionParenthesesBalanced(low, x);
      NotBalanced(CompileCondition(low, x));
    case Like(_, _) =>
    case In(_, _) =>
    case NotIn(_, _) =>
  }

  lemma ComparisonBalanced(low: Lowering, key: DeclaredField, op: string, value: Operand)
    requires Balanced(Compile(low, low.field(key))) && Balanced(Compile(low, low.operand(value)))
    requires op != "(" && op != ")"
    ensures Balanced(Compile(low, low.field(key)) + [op] + Compile(low, low.operand(value)))
  {
    BalancedToken(op);
    BalancedConcat(Compile(low, low.field(key)), [op]);
    BalancedConcat(Compile(low, low.field(key)) + [op], Compile(low, low.operand(value)));
  }
}
