/**
 * Sort orders (`Order`): ascending or descending over anything that renders
 * itself as SQL text. An order is itself renderable, so orders nest.
 */
module Orders {

  /** Something with a SQL rendering: any text-rendering value, or an order. */
  datatype Representable =
    | Statement(sql: string)
    | Ordering(order: Order)
  {
    function SqlString(): string
    {
      match this
      case Statement(s) => s
      case Ordering(o) => o.SqlString()
    }
  }

  datatype Order = Asc(of: Representable) | Desc(of: Representable)
  {
    /** The inner rendering followed by ` ASC` or ` DESC`. */
    function SqlString(): (r: string)
      ensures |r| == |of.SqlString()| + (if Asc? then 4 else 5)
      ensures r[..|of.SqlString()|] == of.SqlString()
      ensures r[|of.SqlString()|..] == if Asc? then " ASC" else " DESC"
    {
      match this
      case Asc(x) => x.SqlString() + " ASC"
      case Desc(x) => x.SqlString() + " DESC"
    }
  }

  /** No ascending rendering is ever a descending one, whatever the two inner values are. */
  lemma AscNeverRendersAsDesc(x: Representable, y: Representable)
    ensures Asc(x).SqlString() != Desc(y).SqlString()
  {
    var a := Asc(x).SqlString();
    var d := Desc(y).SqlString();
    assert a[|a| - 4] == ' ';
    assert d[|d| - 4] == 'D';
  }

  /** A rendering determines the direction and the inner rendering. */
  lemma RenderingInjective(o: Order, o': Order)
    requires o.SqlString() == o'.SqlString()
    ensures o.Asc? == o'.Asc?
    ensures o.of.SqlString() == o'.of.SqlString()
  {
    if o.Asc? != o'.Asc? {
      if o.Asc? {
        AscNeverRendersAsDesc(o.of, o'.of);
      } else {
        AscNeverRendersAsDesc(o'.of, o.of);
      }
    }
  }

  /** Orders nest: `asc(desc(r))` renders as `r DESC ASC`. */
  lemma NestedOrders(s: string)
    ensures Asc(Ordering(Desc(Statement(s)))).SqlString() == s + " DESC ASC"
  {
  }
}
