/**
 * The Starter Items list table (inc/admin-columns.php): three custom columns
 * inserted after Title with the Date column dropped, two sortable columns,
 * the orderby rewrite that sorts them by post meta, and the Display Order
 * cell's fallback.
 */
module AdminColumns {
  import opened Wrappers
  import opened Php
  import opened OrderedMaps

  type Columns = seq<(string, string)>

  const PriceColumn: string := "weave_starter_price"
  const CategoryColumn: string := "weave_starter_category"
  const OrderColumn: string := "weave_starter_order"

  /** The inserted columns with their labels (translation is not modelled). */
  const CustomColumns: Columns := [(PriceColumn, "Price"), (CategoryColumn, "Category"), (OrderColumn, "Order")]
  const CustomKeys: set<string> := {PriceColumn, CategoryColumn, OrderColumn}

  /** One pass of the loop in `add_custom_columns`: copy the column, and after Title insert the custom ones. */
  function Step(acc: Columns, column: (string, string)): Columns {
    var copied := Set(acc, column.0, column.1);
    if column.0 == "title" then
      Set(Set(Set(copied, PriceColumn, "Price"), CategoryColumn, "Category"), OrderColumn, "Order")
    else copied
  }

  /** `$new_columns` after the loop has visited `columns`, in order. */
  function Build(columns: Columns): Columns {
    if columns == [] then [] else Step(Build(columns[..|columns| - 1]), columns[|columns| - 1])
  }

  /** The filter's result: the built columns with 'date' unset. */
  function AddedColumns(columns: Columns): Columns {
    Unset(Build(columns), "date")
  }

  /** `add_custom_columns`. */
  method AddCustomColumns(columns: Columns) returns (r: Columns)
    ensures r == AddedColumns(columns)
  {
    var newColumns: Columns := [];
    for i := 0 to |columns|
      invariant newColumns == Build(columns[..i])
    {
      var (key, value) := columns[i];
      assert columns[..i + 1][..i] == columns[..i];
      newColumns := Set(newColumns, key, value);
      if key == "title" {
        newColumns := Set(newColumns, PriceColumn, "Price");
        newColumns := Set(newColumns, CategoryColumn, "Category");
        newColumns := Set(newColumns, OrderColumn, "Order");
      }
    }
    assert columns[..|columns|] == columns;
    r := Unset(newColumns, "date");
  }

  // ---------------------------------------------------------------------
  // What the built columns look like when no input column clashes with a custom one

  /** A column followed by the custom ones when it is Title. */
  function ExpandOne(column: (string, string)): Columns {
    [column] + (if column.0 == "title" then CustomColumns else [])
  }

  /** Each column in order, with the custom ones right after Title. */
  function Expand(columns: Columns): Columns {
    if columns == [] then [] else ExpandOne(columns[0]) + Expand(columns[1..])
  }

  lemma {:induction false} ExpandAppend(a: Columns, b: Columns)
    ensures Expand(a + b) == Expand(a) + Expand(b)
  {
    if a == [] {
      assert a + b == b;
    } else {
      assert (a + b)[0] == a[0];
      assert (a + b)[1..] == a[1..] + b;
      ExpandAppend(a[1..], b);
    }
  }

  lemma {:induction false} KeysOfExpand(columns: Columns, x: string)
    ensures x in Keys(Expand(columns)) <==> x in Keys(columns) || (x in CustomKeys && "title" in Keys(columns))
  {
    if columns != [] {
      KeysOfExpand(columns[1..], x);
      KeysAppend(ExpandOne(columns[0]), Expand(columns[1..]));
      assert Keys(columns) == [columns[0].0] + Keys(columns[1..]);
      assert Keys(CustomColumns) == [PriceColumn, CategoryColumn, OrderColumn];
      KeysAppend([columns[0]], if columns[0].0 == "title" then CustomColumns else []);
    }
  }

  /** No input column is one of the custom ones. */
  predicate NoCustomKeys(columns: Columns) {
    forall i :: 0 <= i < |columns| ==> columns[i].0 !in CustomKeys
  }

  lemma CustomKeysDistinct()
    ensures PriceColumn != CategoryColumn && PriceColumn != OrderColumn && CategoryColumn != OrderColumn
    ensures "title" !in CustomKeys && "date" !in CustomKeys && "date" != "title"
  {
    assert PriceColumn[14] == 'p' && OrderColumn[14] == 'o';
  }

  /** Setting a key that is not there appends it. */
  lemma {:induction false} SetAppends(m: Columns, k: string, v: string)
    requires k !in Keys(m)
    ensures Set(m, k, v) == m + [(k, v)]
    ensures forall x :: x in Keys(m + [(k, v)]) <==> x in Keys(m) || x == k
  {
    KeysAppend(m, [(k, v)]);
  }

  /** Inserting the custom columns into an array that has none of them appends them. */
  lemma {:induction false} InsertCustomAppends(m: Columns)
    requires PriceColumn !in Keys(m) && CategoryColumn !in Keys(m) && OrderColumn !in Keys(m)
    ensures Set(Set(Set(m, PriceColumn, "Price"), CategoryColumn, "Category"), OrderColumn, "Order") == m + CustomColumns
  {
    CustomKeysDistinct();
    SetAppends(m, PriceColumn, "Price");
    var s1 := m + [(PriceColumn, "Price")];
    SetAppends(s1, CategoryColumn, "Category");
    var s2 := s1 + [(CategoryColumn, "Category")];
    SetAppends(s2, OrderColumn, "Order");
  }

  /** One loop step on an array that holds none of the column's key, nor the custom ones when it is Title. */
  lemma {:induction false} StepAppends(acc: Columns, column: (string, string))
    requires column.0 !in Keys(acc)
    requires column.0 == "title" ==> PriceColumn !in Keys(acc) && CategoryColumn !in Keys(acc) && OrderColumn !in Keys(acc)
    ensures Step(acc, column) == acc + ExpandOne(column)
  {
    SetAppends(acc, column.0, column.1);
    if column.0 == "title" {
      CustomKeysDistinct();
      InsertCustomAppends(acc + [column]);
    }
  }

  /** Without clashes, the loop builds exactly `Expand(columns)`. */
  lemma {:induction false} BuildIsExpand(columns: Columns)
    requires UniqueKeys(columns) && NoCustomKeys(columns)
    ensures Build(columns) == Expand(columns)
  {
    if columns != [] {
      var init := columns[..|columns| - 1];
      var last := columns[|columns| - 1];
      assert columns == init + [last];
      assert forall i :: 0 <= i < |init| ==> init[i] == columns[i];
      BuildIsExpand(init);
      var acc := Expand(init);
      assert last.0 !in Keys(init);
      KeysOfExpand(init, last.0);
      if last.0 == "title" {
        CustomKeysDistinct();
        assert NoCustomKeys(init);
        KeysOfExpand(init, PriceColumn);
        KeysOfExpand(init, CategoryColumn);
        KeysOfExpand(init, OrderColumn);
      }
      StepAppends(acc, last);
      assert Expand([last]) == ExpandOne(last);
      ExpandAppend(init, [last]);
    }
  }

  lemma DropCustomColumns()
    ensures DropKeys(CustomColumns, CustomKeys) == []
    ensures DropKeys(CustomColumns, {"date"}) == CustomColumns
  {
    CustomKeysDistinct();
    DropKeysNone(CustomColumns, {"date"});
    var c := CustomColumns;
    assert c[1..][1..][1..] == [];
    assert DropKeys(c[1..][1..], CustomKeys) == [];
    assert DropKeys(c[1..], CustomKeys) == [];
  }

  /** Removing the custom columns from `Expand(columns)` gives back `columns`. */
  lemma {:induction false} ExpandMinusCustom(columns: Columns)
    requires NoCustomKeys(columns)
    ensures DropKeys(Expand(columns), CustomKeys) == columns
  {
    if columns != [] {
      var c := columns[0];
      assert NoCustomKeys(columns[1..]);
      ExpandMinusCustom(columns[1..]);
      DropKeysAppend(ExpandOne(c), Expand(columns[1..]), CustomKeys);
      DropExpandOne(c);
    }
  }

  lemma DropExpandOne(c: (string, string))
    requires c.0 !in CustomKeys
    ensures DropKeys(ExpandOne(c), CustomKeys) == [c]
  {
    DropCustomColumns();
    DropKeysAppend([c], if c.0 == "title" then CustomColumns else [], CustomKeys);
    assert DropKeys([c], CustomKeys) == [c];
  }

  /** Without Title, nothing is inserted. */
  lemma {:induction false} ExpandWithoutTitle(columns: Columns)
    requires "title" !in Keys(columns)
    ensures Expand(columns) == columns
  {
    if columns != [] {
      assert Keys(columns) == [columns[0].0] + Keys(columns[1..]);
      ExpandWithoutTitle(columns[1..]);
    }
  }

  // ---------------------------------------------------------------------
  // Properties of add_custom_columns

  /** The Date column is never in the result. */
  lemma DateNeverPresent(columns: Columns)
    ensures "date" !in Keys(AddedColumns(columns))
  {
  }

  /** The result, like every PHP array, repeats no key. */
  lemma {:induction false} AddedColumnsUnique(columns: Columns)
    requires UniqueKeys(columns)
    ensures UniqueKeys(AddedColumns(columns))
  {
    BuildUnique(columns);
    DropKeysKeepsUnique(Build(columns), {"date"});
  }

  lemma {:induction false} BuildUnique(columns: Columns)
    ensures UniqueKeys(Build(columns))
  {
    if columns != [] {
      BuildUnique(columns[..|columns| - 1]);
    }
  }

  /**
   * Every input column other than Date is kept, with its label, in its
   * original relative order: taking the custom columns out of the result
   * leaves the input minus Date.
   */
  lemma {:induction false} KeepsOtherColumnsInOrder(columns: Columns)
    requires UniqueKeys(columns) && NoCustomKeys(columns)
    ensures DropKeys(AddedColumns(columns), CustomKeys) == Unset(columns, "date")
  {
    BuildIsExpand(columns);
    DropKeysTwice(Expand(columns), {"date"}, CustomKeys);
    DropKeysTwice(Expand(columns), CustomKeys, {"date"});
    assert {"date"} + CustomKeys == CustomKeys + {"date"};
    ExpandMinusCustom(columns);
  }

  /** With Title present, Price, Category and Order follow it immediately, in that order. */
  lemma {:induction false} CustomColumnsFollowTitle(columns: Columns, t: nat)
    requires UniqueKeys(columns) && NoCustomKeys(columns)
    requires t < |columns| && columns[t].0 == "title"
    ensures exists j :: 0 <= j && j + 4 <= |AddedColumns(columns)|
              && AddedColumns(columns)[j] == columns[t]
              && AddedColumns(columns)[j + 1..j + 4] == CustomColumns
  {
    var title := columns[t];
    var da, db := AddedAroundTitle(columns, t);
    var mid := ExpandOne(title);
    assert mid == [title] + CustomColumns;
    var r := AddedColumns(columns);
    Middle(da, mid, db);
    var j := |da|;
    assert r[j] == mid[0] == title;
    assert r[j + 1..j + 4] == mid[1..] == CustomColumns;
  }

  /** The loop's result splits around the Title column into its expansion and the filtered parts on either side. */
  lemma {:induction false} AddedAroundTitle(columns: Columns, t: nat) returns (da: Columns, db: Columns)
    requires UniqueKeys(columns) && NoCustomKeys(columns)
    requires t < |columns| && columns[t].0 == "title"
    ensures AddedColumns(columns) == da + ExpandOne(columns[t]) + db
  {
    BuildIsExpand(columns);
    var title := columns[t];
    var ea, eb := ExpandAroundTitle(columns, t);
    var mid := ExpandOne(title);
    DropKeysAppend(ea + mid, eb, {"date"});
    DropKeysAppend(ea, mid, {"date"});
    DropDateKeepsTitleGroup(title);
    da, db := DropKeys(ea, {"date"}), DropKeys(eb, {"date"});
  }

  /** Expansion splits around any one column. */
  lemma {:induction false} ExpandAroundTitle(columns: Columns, t: nat) returns (ea: Columns, eb: Columns)
    requires t < |columns|
    ensures Expand(columns) == ea + ExpandOne(columns[t]) + eb
  {
    var title := columns[t];
    var a, b := columns[..t], columns[t + 1..];
    assert columns == a + [title] + b;
    ExpandAppend(a + [title], b);
    ExpandAppend(a, [title]);
    assert Expand([title]) == ExpandOne(title);
    ea, eb := Expand(a), Expand(b);
  }

  lemma DropDateKeepsTitleGroup(title: (string, string))
    requires title.0 == "title"
    ensures DropKeys(ExpandOne(title), {"date"}) == ExpandOne(title)
  {
    CustomKeysDistinct();
    DropKeysNone(ExpandOne(title), {"date"});
  }

  lemma Middle<T>(x: seq<T>, m: seq<T>, y: seq<T>)
    ensures (x + m + y)[|x|..|x| + |m|] == m
  {
  }

  /** Without Title, no custom column is added: the result is the input minus Date. */
  lemma {:induction false} NoTitleNoCustomColumns(columns: Columns)
    requires UniqueKeys(columns) && NoCustomKeys(columns)
    requires "title" !in Keys(columns)
    ensures AddedColumns(columns) == Unset(columns, "date")
  {
    BuildIsExpand(columns);
    ExpandWithoutTitle(columns);
  }

  // ---------------------------------------------------------------------
  // Sorting

  /** `sortable_columns`: Price and Order become sortable by themselves; every other entry stays. */
  method SortableColumns(columns: Columns) returns (r: Columns)
    ensures Lookup(r, PriceColumn) == Some(PriceColumn)
    ensures Lookup(r, OrderColumn) == Some(OrderColumn)
    ensures forall k :: k != PriceColumn && k != OrderColumn ==> Lookup(r, k) == Lookup(columns, k)
    ensures |Keys(columns)| <= |Keys(r)| && Keys(r)[..|columns|] == Keys(columns)
    ensures UniqueKeys(columns) ==> UniqueKeys(r)
  {
    r := columns;
    var before := r;
    r := Set(r, PriceColumn, PriceColumn);
    KeysAppend(before, [(PriceColumn, PriceColumn)]);
    var middle := r;
    r := Set(r, OrderColumn, OrderColumn);
    KeysAppend(middle, [(OrderColumn, OrderColumn)]);
  }

  /** A `WP_Query` as far as the sorting hook sees it: its query variables. */
  class Query {
    var vars: map<string, string>
    const isMainQuery: bool

    constructor (vars0: map<string, string>, isMainQuery: bool)
      ensures vars == vars0 && this.isMainQuery == isMainQuery
    {
      vars := vars0;
      this.isMainQuery := isMainQuery;
    }

    /** `$query->get($var)`: '' when the variable is not set. */
    function Get(name: string): string
      reads this
    {
      if name in vars then vars[name] else ""
    }

    /** `$query->set($var, $value)`. */
    method SetVar(name: string, value: string)
      modifies this
      ensures vars == old(vars)[name := value]
    {
      vars := vars[name := value];
    }
  }

  /** The meta key a sortable column sorts by. */
  function SortMetaKey(orderby: string): (k: Option<string>)
    ensures k.Some? <==> orderby == PriceColumn || orderby == OrderColumn
  {
    if orderby == PriceColumn then Some("_weave_starter_price")
    else if orderby == OrderColumn then Some("_weave_starter_display_order")
    else None
  }

  /**
   * `handle_column_sorting`: on the main admin query, an orderby of Price or
   * Order becomes a numeric sort on the matching meta key; nothing else changes.
   */
  method HandleColumnSorting(query: Query, isAdmin: bool)
    modifies query
    ensures !isAdmin || !query.isMainQuery ==> query.vars == old(query.vars)
    ensures isAdmin && query.isMainQuery ==>
      var orderby := old(query.Get("orderby"));
      query.vars == match SortMetaKey(orderby)
                    case Some(key) => old(query.vars)["meta_key" := key]["orderby" := "meta_value_num"]
                    case None => old(query.vars)
  {
    if !isAdmin || !query.isMainQuery {
      return;
    }
    var orderby := query.Get("orderby");
    if orderby == PriceColumn {
      query.SetVar("meta_key", "_weave_starter_price");
      query.SetVar("orderby", "meta_value_num");
    } else if orderby == OrderColumn {
      query.SetVar("meta_key", "_weave_starter_display_order");
      query.SetVar("orderby", "meta_value_num");
    }
  }

  /** The Display Order cell before escaping: `$order ?: '0'`, so it is never blank. */
  function OrderCell(order: string): (shown: string)
    ensures EmptyString(order) ==> shown == "0"
    ensures !EmptyString(order) ==> shown == order
    ensures shown != ""
  {
    if EmptyString(order) then "0" else order
  }
}
