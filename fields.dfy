/**
 * Field references (`DeclaredField`): a column name, optionally owned by a
 * table, with its derived qualified name and alias, its equality, and the
 * renderers that turn lists of fields into select lists, `SET` lists and
 * placeholder lists.
 */
module Fields {
  import opened Wrappers
  import opened Sequences

  /** A portable scalar value to be bound as a parameter; its conversion from domain values is not modelled. */
  type SqlData(!new)

  /** The placeholder text standing for one bound value in rendered SQL; its spelling is not fixed here. */
  const ValuePlaceholder: string

  /** A field enumeration case of a table: only its raw string value matters. */
  datatype FieldType = FieldType(rawValue: string)

  datatype DeclaredField = DeclaredField(unqualifiedName: string, tableName: Option<string>)
  {
    /** `table.name`, or the bare name when no table is attached. */
    function QualifiedName(): (r: string)
      ensures tableName.None? ==> r == unqualifiedName
      ensures tableName.Some? ==> |r| == |tableName.value| + 1 + |unqualifiedName|
      ensures tableName.Some? ==> r[..|tableName.value|] == tableName.value && r[|tableName.value|] == '.'
      ensures r[|r| - |unqualifiedName|..] == unqualifiedName
    {
      match tableName
      case None => unqualifiedName
      case Some(t) => t + "." + unqualifiedName
    }

    /** `table__name`, or the bare name when no table is attached. */
    function Alias(): (r: string)
      ensures tableName.None? ==> r == unqualifiedName
      ensures tableName.Some? ==> |r| == |tableName.value| + 2 + |unqualifiedName|
      ensures tableName.Some? ==> r[..|tableName.value|] == tableName.value
                                  && r[|tableName.value|..|tableName.value| + 2] == "__"
      ensures r[|r| - |unqualifiedName|..] == unqualifiedName
    {
      match tableName
      case None => unqualifiedName
      case Some(t) => t + "__" + unqualifiedName
    }

    /** The textual description of a field is its qualified name. */
    function Description(): (r: string)
      ensures r == QualifiedName()
    {
      QualifiedName()
    }

    /** `hashValue`: the string hash `hash` (Swift's `String.hashValue`) of the qualified name. */
    function HashValue(hash: string -> int): int
    {
      hash(QualifiedName())
    }

    /** `==` on fields compares their hash values. */
    predicate Equal(hash: string -> int, other: DeclaredField)
      ensures QualifiedName() == other.QualifiedName() ==> Equal(hash, other)
    {
      HashValue(hash) == other.HashValue(hash)
    }

    /** The name written into a rendered list: qualified or not, as asked. */
    function RenderedName(useQualified: bool): string
    {
      if useQualified then QualifiedName() else unqualifiedName
    }
  }

  /** The free function `field(_:)`: a field with no table. */
  function Field(name: string): (f: DeclaredField)
    ensures f.unqualifiedName == name && f.tableName.None?
    ensures f.QualifiedName() == name && f.Alias() == name
  {
    DeclaredField(name, None)
  }

  ghost predicate Injective(hash: string -> int)
  {
    forall s, t :: hash(s) == hash(t) ==> s == t
  }

  /** The qualified name and the alias coincide exactly when the field has no table. */
  lemma QualifiedNameIsAliasIffNoTable(f: DeclaredField)
    ensures f.QualifiedName() == f.Alias() <==> f.tableName.None?
  {
    if f.tableName.Some? {
      assert |f.QualifiedName()| != |f.Alias()|;
    }
  }

  /** Equality sees nothing but the qualified names: equal names make equal fields, under every hash. */
  lemma EqualDependsOnlyOnQualifiedName(hash: string -> int, a: DeclaredField, a': DeclaredField,
                                        b: DeclaredField, b': DeclaredField)
    requires a.QualifiedName() == a'.QualifiedName() && b.QualifiedName() == b'.QualifiedName()
    ensures a.Equal(hash, b) == a'.Equal(hash, b')
    ensures a.Equal(hash, a')
  {
  }

  /** With a collision-free hash, fields are equal exactly when their qualified names are. */
  lemma EqualIffSameQualifiedName(hash: string -> int, a: DeclaredField, b: DeclaredField)
    requires Injective(hash)
    ensures a.Equal(hash, b) <==> a.QualifiedName() == b.QualifiedName()
  {
  }

  /** Equality ignores how the qualified name is split: `a.b` with no table equals `b` in table `a`. */
  lemma SplitIsInvisibleToEquality(hash: string -> int)
    ensures DeclaredField("a.b", None).Equal(hash, DeclaredField("b", Some("a")))
    ensures DeclaredField("a.b", None) != DeclaredField("b", Some("a"))
  {
    assert DeclaredField("b", Some("a")).QualifiedName() == "a" + "." + "b";
    assert "a" + "." + "b" == "a.b";
  }

  /** Equality compares hashes, so two distinct qualified names whose hashes collide compare equal. */
  lemma CollidingHashesCompareEqual(hash: string -> int, a: DeclaredField, b: DeclaredField)
    requires hash(a.QualifiedName()) == hash(b.QualifiedName())
    ensures a.Equal(hash, b)
  {
  }

  // ----- Rendering ---------------------------------------------------------

  /**
   * `QueryComponents`: SQL text with the values bound to its placeholders, in
   * order; `isolate()` wraps one so that it is rendered as a unit. The
   * wrapper is kept opaque.
   */
  datatype QueryComponents =
    | QueryComponents(text: string, values: seq<Option<SqlData>>)
    | Isolated(inner: QueryComponents)

  /** One entry of a select list: the name, then ` AS alias` when aliasing is on and the alias differs. */
  function SelectEntry(f: DeclaredField, useQualified: bool, aliasing: bool): string
  {
    var str := f.RenderedName(useQualified);
    if aliasing && f.QualifiedName() != f.Alias() then str + " AS " + f.Alias() else str
  }

  /** The select-list entries of the fields, in order. */
  function SelectEntries(fields: seq<DeclaredField>, useQualified: bool, aliasing: bool): (r: seq<string>)
    ensures |r| == |fields|
    ensures forall i :: 0 <= i < |fields| ==> r[i] == SelectEntry(fields[i], useQualified, aliasing)
  {
    Apply((f: DeclaredField) => SelectEntry(f, useQualified, aliasing), fields)
  }

  /** `queryComponentsForSelectingFields`: the entries joined by `, `, with no bound values. */
  function SelectingFields(fields: seq<DeclaredField>, useQualified: bool, aliasing: bool, isolate: bool)
    : (r: QueryComponents)
    ensures r.Isolated? == isolate
    ensures var plain := if isolate then r.inner else r;
            plain.QueryComponents? && plain.values == []
  {
    var text := Interleave(SelectEntries(fields, useQualified, aliasing), ", ");
    if isolate then Isolated(QueryComponents(text, [])) else QueryComponents(text, [])
  }

  /**
   * Entry `i` of a select list stands at its place in the text and is field
   * `i`'s entry, followed by `, ` unless it is the last, which ends the text;
   * `EntryForm` says what that entry is.
   */
  lemma SelectingFieldsAt(fields: seq<DeclaredField>, useQualified: bool, aliasing: bool, isolate: bool, i: nat)
    requires i < |fields|
    ensures var r := SelectingFields(fields, useQualified, aliasing, isolate);
            var text := (if isolate then r.inner else r).text;
            var entries := SelectEntries(fields, useQualified, aliasing);
            var lo := Start(entries, ", ", i);
            && lo + |entries[i]| <= |text|
            && text[lo..lo + |entries[i]|] == SelectEntry(fields[i], useQualified, aliasing)
            && (i + 1 < |fields| ==>
                  Start(entries, ", ", i + 1) <= |text| && text[lo + |entries[i]|..Start(entries, ", ", i + 1)] == ", ")
            && (i + 1 == |fields| ==> lo + |entries[i]| == |text|)
  {
    var r, entries := SelectingFields(fields, useQualified, aliasing, isolate), SelectEntries(fields, useQualified, aliasing);
    assert (if isolate then r.inner else r).text == Interleave(entries, ", ");
    EntryAt(entries, i);
  }

  /**
   * A select entry is the (qualified or bare) name, with ` AS alias` added
   * exactly when aliasing is on and the field belongs to a table.
   */
  lemma EntryForm(f: DeclaredField, useQualified: bool, aliasing: bool)
    ensures SelectEntry(f, useQualified, aliasing)
            == if aliasing && f.tableName.Some? then f.RenderedName(useQualified) + " AS " + f.Alias()
               else f.RenderedName(useQualified)
  {
    if aliasing {
      AliasSuffixIffTable(f, useQualified);
    }
  }

  /**
   * Entry `i` of a `, `-joined list stands at its offset, `, ` follows it
   * when another entry comes next, and the text ends with the last entry.
   */
  lemma EntryAt(entries: seq<string>, i: nat)
    requires i < |entries|
    ensures var text, lo := Interleave(entries, ", "), Start(entries, ", ", i);
            && lo + |entries[i]| <= |text|
            && text[lo..lo + |entries[i]|] == entries[i]
            && (i + 1 < |entries| ==>
                  Start(entries, ", ", i + 1) <= |text| && text[lo + |entries[i]|..Start(entries, ", ", i + 1)] == ", ")
            && (i + 1 == |entries| ==> lo + |entries[i]| == |text|)
  {
    InterleaveChunkAt(entries, ", ", i);
    if i + 1 < |entries| {
      InterleaveSeparatorAt(entries, ", ", i);
    }
  }

  /** With aliasing on, a field gets an ` AS alias` suffix exactly when it belongs to a table. */
  lemma AliasSuffixIffTable(f: DeclaredField, useQualified: bool)
    ensures f.tableName.Some? ==> SelectEntry(f, useQualified, true) == f.RenderedName(useQualified) + " AS " + f.Alias()
    ensures f.tableName.None? ==> SelectEntry(f, useQualified, true) == f.unqualifiedName
    ensures SelectEntry(f, useQualified, false) == f.RenderedName(useQualified)
  {
    QualifiedNameIsAliasIffNoTable(f);
  }

  /** One entry of a `SET` list: the name, ` = ` and the placeholder. */
  function SettingEntry(pair: (DeclaredField, Option<SqlData>), useQualified: bool): string
  {
    pair.0.RenderedName(useQualified) + " = " + ValuePlaceholder
  }

  /** The `SET` entries of the pairs, in order. */
  function SettingEntries(pairs: seq<(DeclaredField, Option<SqlData>)>, useQualified: bool): (r: seq<string>)
    ensures |r| == |pairs|
    ensures forall i :: 0 <= i < |pairs| ==> r[i] == SettingEntry(pairs[i], useQualified)
  {
    Apply((p: (DeclaredField, Option<SqlData>)) => SettingEntry(p, useQualified), pairs)
  }

  /** The values of the pairs, in order. */
  function PairValues(pairs: seq<(DeclaredField, Option<SqlData>)>): (r: seq<Option<SqlData>>)
    ensures |r| == |pairs|
    ensures forall i :: 0 <= i < |pairs| ==> r[i] == pairs[i].1
  {
    Apply((p: (DeclaredField, Option<SqlData>)) => p.1, pairs)
  }

  /** `queryComponentsForSettingValues`: one `name = placeholder` per pair, joined by `, `, binding the pairs' values. */
  function SettingValues(pairs: seq<(DeclaredField, Option<SqlData>)>, useQualified: bool): (r: QueryComponents)
    ensures r.QueryComponents?
    ensures |r.values| == |pairs|
    ensures forall i :: 0 <= i < |pairs| ==> r.values[i] == pairs[i].1
  {
    QueryComponents(Interleave(SettingEntries(pairs, useQualified), ", "), PairValues(pairs))
  }

  /**
   * In a `SET` list, entry `i` stands at its place in the text and is
   * `name = placeholder` for pair `i`, followed by `, ` unless it is the last,
   * which ends the text; and value `i` is the value of pair `i`:
   * placeholders and bound values line up.
   */
  lemma SettingValuesAligned(pairs: seq<(DeclaredField, Option<SqlData>)>, useQualified: bool, i: nat)
    requires i < |pairs|
    ensures var r := SettingValues(pairs, useQualified);
            var entries := SettingEntries(pairs, useQualified);
            var lo := Start(entries, ", ", i);
            && lo + |entries[i]| <= |r.text|
            && r.text[lo..lo + |entries[i]|] == SettingEntry(pairs[i], useQualified)
            && (i + 1 < |pairs| ==>
                  Start(entries, ", ", i + 1) <= |r.text| && r.text[lo + |entries[i]|..Start(entries, ", ", i + 1)] == ", ")
            && (i + 1 == |pairs| ==> lo + |entries[i]| == |r.text|)
            && r.values[i] == pairs[i].1
  {
    var r, entries := SettingValues(pairs, useQualified), SettingEntries(pairs, useQualified);
    assert r.text == Interleave(entries, ", ");
    EntryAt(entries, i);
  }

  /** The text built by `queryComponentsForValuePlaceHolders`: `n` placeholders joined by `, `. */
  function Placeholders(n: nat): string
  {
    Interleave(Repeat(ValuePlaceholder, n), ", ")
  }

  /** `queryComponentsForValuePlaceHolders`: one placeholder per pair and the pairs' values, isolated if asked. */
  method ValuePlaceHolders(pairs: seq<(DeclaredField, Option<SqlData>)>, isolate: bool) returns (r: QueryComponents)
    ensures r.Isolated? == isolate
    ensures var plain := if isolate then r.inner else r;
            plain.QueryComponents? && plain.text == Placeholders(|pairs|)
            && |plain.values| == |pairs| && forall i :: 0 <= i < |pairs| ==> plain.values[i] == pairs[i].1
  {
    var strings: seq<string> := [];
    for i := 0 to |pairs|
      invariant strings == Repeat(ValuePlaceholder, i)
    {
      strings := strings + [ValuePlaceholder];
    }
    var text := Interleave(strings, ", ");
    var components := QueryComponents(text, PairValues(pairs));
    r := if isolate then Isolated(components) else components;
  }

  /** The placeholder text for n > 0 values is n placeholders and n - 1 two-character separators long. */
  lemma {:induction false} PlaceholdersLength(n: nat)
    requires n > 0
    ensures |Placeholders(n)| == n * |ValuePlaceholder| + 2 * (n - 1)
  {
    var chunks := Repeat(ValuePlaceholder, n);
    InterleaveLength(chunks, ", ");
    StartOfRepeat(n - 1, n);
    TotalLengthRepeat(ValuePlaceholder, n);
    assert n * |ValuePlaceholder| == (n - 1) * |ValuePlaceholder| + |ValuePlaceholder|;
  }

  lemma {:induction false} StartOfRepeat(i: nat, n: nat)
    requires i <= n
    ensures Start(Repeat(ValuePlaceholder, n), ", ", i) == i * (|ValuePlaceholder| + 2)
  {
    if i > 0 {
      StartOfRepeat(i - 1, n);
    }
  }
}
