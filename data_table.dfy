/** The searchable table of `src/components/DataTable.tsx`: the
    case-insensitive filter over every field of a row, the three-way cell
    rule, the header and the loading and empty placeholder rows. A row is
    seen as its fields, each with its key and its value already turned into
    text, in `Object.values` order. */
module DataTable {
  import opened Wrappers
  import Text

  datatype Field = Field(key: string, text: string)
  datatype Item = Item(fields: seq<Field>)

  /** What a cell shows: text, or markup produced by a page's renderer. */
  datatype Node = TextNode(text: string) | Markup(tag: string, children: seq<Node>)

  /** A column's accessor: a field name, or a function of the row. */
  datatype Accessor = Key(key: string) | Derive(derive: Item -> Node)

  datatype Column = Column(header: string, accessor: Accessor, cell: Option<Item -> Node>)

  datatype BodyRow =
    | Placeholder(text: string, colSpan: nat)
    | DataRow(cells: seq<Node>, action: Option<Node>)

  const LoadingText := "Loading..."
  const EmptyText := "No data found"
  const ActionsHeader := "Actions"

  /** `Object.values(item).some(v => String(v).toLowerCase().includes(term.toLowerCase()))`. */
  predicate Matches(item: Item, term: string) {
    exists i | 0 <= i < |item.fields| :: Text.Contains(Text.Lower(item.fields[i].text), Text.Lower(term))
  }

  /** `data.filter(...)`: the rows that match, in their original order. */
  function Filter(data: seq<Item>, term: string): (r: seq<Item>)
    ensures |r| <= |data|
    ensures forall x :: x in r <==> x in data && Matches(x, term)
  {
    if data == [] then []
    else (if Matches(data[0], term) then [data[0]] else []) + Filter(data[1..], term)
  }

  /** `xs` is `ys` with some elements left out, the rest in order. */
  ghost predicate Subsequence<T>(xs: seq<T>, ys: seq<T>)
    decreases |ys|
  {
    if xs == [] then true
    else if ys == [] then false
    else (xs[0] == ys[0] && Subsequence(xs[1..], ys[1..])) || Subsequence(xs, ys[1..])
  }

  lemma {:induction false} FilterIsSubsequence(data: seq<Item>, term: string)
    ensures Subsequence(Filter(data, term), data)
  {
    if data != [] {
      FilterIsSubsequence(data[1..], term);
      var rest := Filter(data[1..], term);
      if Matches(data[0], term) {
        assert Filter(data, term) == [data[0]] + rest;
        assert ([data[0]] + rest)[1..] == rest;
      } else {
        assert Filter(data, term) == rest;
        if rest != [] {
          assert Subsequence(rest, data[1..]);
        }
      }
    }
  }

  /** Every matching row is kept as often as it occurs, duplicates
      included; every other row is dropped. */
  lemma {:induction false} FilterCounts(data: seq<Item>, term: string)
    ensures forall x :: multiset(Filter(data, term))[x] == if Matches(x, term) then multiset(data)[x] else 0
  {
    if data != [] {
      FilterCounts(data[1..], term);
      assert data == [data[0]] + data[1..];
      assert multiset(data) == multiset([data[0]]) + multiset(data[1..]);
    }
  }

  /** Filtering again with the same term changes nothing. */
  lemma {:induction false} FilterIdempotent(data: seq<Item>, term: string)
    ensures Filter(Filter(data, term), term) == Filter(data, term)
  {
    if data != [] {
      FilterIdempotent(data[1..], term);
      FilterAllMatch(Filter(data, term), term);
    }
  }

  /** A list whose every row matches is kept whole. */
  lemma {:induction false} FilterAllMatch(data: seq<Item>, term: string)
    requires forall i | 0 <= i < |data| :: Matches(data[i], term)
    ensures Filter(data, term) == data
  {
    if data != [] {
      assert Matches(data[0], term);
      FilterAllMatch(data[1..], term);
    }
  }

  /** Every row with at least one field contains the empty term, and a row
      without fields matches nothing. */
  lemma MatchesEmptyTerm(item: Item)
    ensures Matches(item, "") <==> |item.fields| > 0
  {
    if |item.fields| > 0 {
      Text.ContainsEmpty(Text.Lower(item.fields[0].text));
    }
  }

  /** The empty term keeps exactly the rows that have a field. */
  lemma {:induction false} FilterEmptyTerm(data: seq<Item>)
    ensures forall x :: x in Filter(data, "") <==> x in data && |x.fields| > 0
    ensures (forall i | 0 <= i < |data| :: |data[i].fields| > 0) ==> Filter(data, "") == data
  {
    forall x | x in data ensures Matches(x, "") <==> |x.fields| > 0 {
      MatchesEmptyTerm(x);
    }
    if forall i | 0 <= i < |data| :: |data[i].fields| > 0 {
      forall i | 0 <= i < |data| ensures Matches(data[i], "") {
        MatchesEmptyTerm(data[i]);
      }
      FilterAllMatch(data, "");
    }
  }

  /** Two terms that lower-case alike filter alike. */
  lemma {:induction false} FilterSameLowerTerm(data: seq<Item>, t1: string, t2: string)
    requires Text.Lower(t1) == Text.Lower(t2)
    ensures Filter(data, t1) == Filter(data, t2)
  {
    if data != [] {
      FilterSameLowerTerm(data[1..], t1, t2);
    }
  }

  /** The case of the search term does not matter. */
  lemma FilterIgnoresTermCase(data: seq<Item>, term: string)
    ensures Filter(data, Text.Upper(term)) == Filter(data, term)
    ensures Filter(data, Text.Lower(term)) == Filter(data, term)
  {
    Text.LowerOfUpper(term);
    Text.LowerIdempotent(term);
    FilterSameLowerTerm(data, Text.Upper(term), term);
    FilterSameLowerTerm(data, Text.Lower(term), term);
  }

  function UpperFields(fields: seq<Field>): (r: seq<Field>)
    ensures |r| == |fields|
    ensures forall i | 0 <= i < |fields| :: r[i] == Field(fields[i].key, Text.Upper(fields[i].text))
  {
    seq(|fields|, i requires 0 <= i < |fields| => Field(fields[i].key, Text.Upper(fields[i].text)))
  }

  /** The case of the row's values does not matter either. */
  lemma MatchesIgnoresValueCase(item: Item, term: string)
    ensures Matches(Item(UpperFields(item.fields)), term) <==> Matches(item, term)
  {
    var up := Item(UpperFields(item.fields));
    forall i | 0 <= i < |item.fields|
      ensures Text.Lower(up.fields[i].text) == Text.Lower(item.fields[i].text)
    {
      Text.LowerOfUpper(item.fields[i].text);
    }
  }

  /** `String(item[key])`: the first field under that key, `"undefined"` when there is none. */
  function Lookup(fields: seq<Field>, key: string): (s: string)
    ensures (forall i | 0 <= i < |fields| :: fields[i].key != key) ==> s == "undefined"
    ensures forall i | 0 <= i < |fields| && fields[i].key == key && (forall j | 0 <= j < i :: fields[j].key != key) ::
      s == fields[i].text
  {
    if fields == [] then "undefined"
    else if fields[0].key == key then fields[0].text
    else Lookup(fields[1..], key)
  }

  /** `renderCell`: the custom cell first, then a function accessor, then the named field. */
  function RenderCell(item: Item, column: Column): (n: Node)
    ensures column.cell.Some? ==> n == column.cell.value(item)
    ensures column.cell.None? && column.accessor.Derive? ==> n == column.accessor.derive(item)
    ensures column.cell.None? && column.accessor.Key? ==> n == TextNode(Lookup(item.fields, column.accessor.key))
  {
    if column.cell.Some? then column.cell.value(item)
    else match column.accessor
      case Derive(f) => f(item)
      case Key(k) => TextNode(Lookup(item.fields, k))
  }

  /** A custom cell hides the accessor, whatever it is. */
  lemma CellOverridesAccessor(item: Item, header: string, a1: Accessor, a2: Accessor, cell: Item -> Node)
    ensures RenderCell(item, Column(header, a1, Some(cell))) == RenderCell(item, Column(header, a2, Some(cell)))
  {
  }

  /** `columns.length + (actions ? 1 : 0)`. */
  function ColSpan(columns: seq<Column>, hasActions: bool): nat {
    |columns| + if hasActions then 1 else 0
  }

  /** The header row: one heading per column, then "Actions" when a row renderer is given. */
  function Header(columns: seq<Column>, actions: Option<Item -> Node>): (h: seq<string>)
    ensures |h| == ColSpan(columns, actions.Some?)
    ensures forall i | 0 <= i < |columns| :: h[i] == columns[i].header
    ensures actions.Some? <==> |h| > |columns|
    ensures actions.Some? ==> h[|columns|] == ActionsHeader
  {
    seq(|columns|, i requires 0 <= i < |columns| => columns[i].header)
    + if actions.Some? then [ActionsHeader] else []
  }

  function RowOf(item: Item, columns: seq<Column>, actions: Option<Item -> Node>): (row: BodyRow)
    ensures row.DataRow? && |row.cells| == |columns|
    ensures forall i | 0 <= i < |columns| :: row.cells[i] == RenderCell(item, columns[i])
    ensures row.action.Some? <==> actions.Some?
    ensures actions.Some? ==> row.action == Some(actions.value(item))
  {
    DataRow(seq(|columns|, i requires 0 <= i < |columns| => RenderCell(item, columns[i])),
            if actions.Some? then Some(actions.value(item)) else None)
  }

  /** The table body for the data, the columns, the search term, the loading flag and the optional row actions. */
  function Body(data: seq<Item>, columns: seq<Column>, term: string, isLoading: bool,
                actions: Option<Item -> Node>): (rows: seq<BodyRow>)
    ensures isLoading ==> rows == [Placeholder(LoadingText, ColSpan(columns, actions.Some?))]
    ensures !isLoading && Filter(data, term) == [] ==>
      rows == [Placeholder(EmptyText, ColSpan(columns, actions.Some?))]
    ensures !isLoading && Filter(data, term) != [] ==>
      && |rows| == |Filter(data, term)|
      && forall i | 0 <= i < |rows| :: rows[i] == RowOf(Filter(data, term)[i], columns, actions)
  {
    var span := ColSpan(columns, actions.Some?);
    if isLoading then [Placeholder(LoadingText, span)]
    else
      var shown := Filter(data, term);
      if shown == [] then [Placeholder(EmptyText, span)]
      else seq(|shown|, i requires 0 <= i < |shown| => RowOf(shown[i], columns, actions))
  }

  /** Every body row is as wide as the header. */
  lemma BodyWidth(data: seq<Item>, columns: seq<Column>, term: string, isLoading: bool,
                  actions: Option<Item -> Node>)
    ensures forall r | r in Body(data, columns, term, isLoading, actions) ::
      (if r.Placeholder? then r.colSpan else |r.cells| + (if r.action.Some? then 1 else 0))
      == |Header(columns, actions)|
  {
  }

  function CentralBranch(): Item {
    Item([Field("id", "1"), Field("name", "Central"), Field("email", "c@x.com"), Field("location", "Downtown")])
  }

  lemma CentralMatchesDowntown()
    ensures Matches(CentralBranch(), "downtown")
  {
    Text.LowerNoCapitals("downtown");
    var d := "Downtown";
    assert Text.Lower(d) == "downtown" by {
      assert forall i | 0 <= i < |d| :: Text.Lower(d)[i] == "downtown"[i];
    }
    assert Text.OccursAt(Text.Lower(d), "downtown", 0);
    assert CentralBranch().fields[3].text == d;
  }

  lemma CentralMissesUptown()
    ensures !Matches(CentralBranch(), "uptown")
  {
    Text.LowerNoCapitals("uptown");
    var item := CentralBranch();
    forall i | 0 <= i < 4 ensures !Text.Contains(Text.Lower(item.fields[i].text), "uptown") {
      var low := Text.Lower(item.fields[i].text);
      assert forall k | 0 <= k < |low| :: low[k] != 'u';
      if Text.Contains(low, "uptown") {
        Text.ContainsFirstChar(low, "uptown");
      }
    }
  }

  /** One row: kept exactly when it matches. */
  lemma FilterSingle(item: Item, term: string)
    ensures Filter([item], term) == if Matches(item, term) then [item] else []
  {
    assert [item][1..] == [];
  }

  lemma DowntownCase()
    ensures Text.Lower("DOWNTOWN") == Text.Lower("downtown")
  {
    var t := "DOWNTOWN";
    var u := "downtown";
    forall i | 0 <= i < |t| ensures Text.Lower(t)[i] == Text.Lower(u)[i] {
    }
  }

  /** The scenario of a single branch row searched by its location. */
  lemma BranchSearchExample()
    ensures Filter([CentralBranch()], "downtown") == [CentralBranch()]
    ensures Filter([CentralBranch()], "DOWNTOWN") == [CentralBranch()]
    ensures Filter([CentralBranch()], "uptown") == []
  {
    CentralMatchesDowntown();
    CentralMissesUptown();
    FilterSingle(CentralBranch(), "downtown");
    FilterSingle(CentralBranch(), "uptown");
    DowntownCase();
    FilterSameLowerTerm([CentralBranch()], "DOWNTOWN", "downtown");
  }
}
