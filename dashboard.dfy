/**
 * The analytics behind the marketplace dashboard: the stored orders joined
 * with their items, filtered, and aggregated into KPIs, time series, product
 * rankings and the product catalogue. Every query is a function of the two
 * tables. The order in which SQLite produces the joined rows is not
 * specified, so the join lists them by ascending order id.
 */
module Dashboard {
  import opened Wrappers
  import opened Text
  import opened Numerals
  import opened Calendar
  import opened Ingest

  /** `m` is a member of `s` no greater than any other member. */
  predicate IsLeast(m: string, s: set<string>)
  {
    m in s && forall x :: x in s ==> Le(m, x)
  }

  /** Adding `y` to a set whose least element is `m` leaves the lesser of the two least. */
  lemma LeastOfInsert(m: string, rest: set<string>, y: string)
    requires IsLeast(m, rest)
    ensures Le(y, m) ==> IsLeast(y, rest + {y})
    ensures !Le(y, m) ==> IsLeast(m, rest + {y})
  {
    LeReflexive(y);
    LeTotal(m, y);
    if Le(y, m) {
      forall x | x in rest + {y}
        ensures Le(y, x)
      {
        if x != y { LeTransitive(y, m, x); }
      }
    }
  }

  /** A set of texts has a least element in code-point order. */
  lemma {:induction false} LeastExists(s: set<string>)
    requires s != {}
    ensures exists m :: IsLeast(m, s)
    decreases |s|
  {
    var y :| y in s;
    var rest := s - {y};
    assert s == rest + {y};
    if rest == {} {
      LeReflexive(y);
      assert IsLeast(y, s);
    } else {
      LeastExists(rest);
      var m :| IsLeast(m, rest);
      LeastOfInsert(m, rest, y);
      if Le(y, m) {
        assert IsLeast(y, s);
      } else {
        assert IsLeast(m, s);
      }
    }
  }

  /** The texts of `s` in strictly ascending code-point order (SQL `ORDER BY` on text). */
  ghost function SortedKeys(s: set<string>): (r: seq<string>)
    ensures |r| == |s|
    ensures forall x :: x in r <==> x in s
    ensures forall i, j :: 0 <= i < j < |r| ==> Lt(r[i], r[j])
    decreases |s|
  {
    if s == {} then []
    else
      LeastExists(s);
      var m :| IsLeast(m, s);
      var rest := SortedKeys(s - {m});
      assert forall j :: 0 <= j < |rest| ==> rest[j] in s - {m};
      [m] + rest
  }

  /** One row of `pedidos LEFT JOIN itens ON pedido_id`: an order with one of its items, or with none. */
  datatype JoinRow = JoinRow(orderId: string, order: Order, item: Option<Item>)

  /** The items of one order, in table order. */
  function ItemsOf(items: seq<Item>, id: string): (r: seq<Item>)
    ensures forall x :: x in r <==> x in items && x.orderId == id
    decreases |items|
  {
    if items == [] then []
    else
      var rest := ItemsOf(items[1..], id);
      assert forall x :: x in items <==> x == items[0] || x in items[1..];
      if items[0].orderId == id then [items[0]] + rest else rest
  }

  /** Each copy of an item of the order is kept: a re-imported item counts as often as it is stored. */
  lemma {:induction false} ItemsOfCount(items: seq<Item>, id: string, x: Item)
    ensures multiset(ItemsOf(items, id))[x] == if x.orderId == id then multiset(items)[x] else 0
    decreases |items|
  {
    if items != [] {
      assert items == [items[0]] + items[1..];
      ItemsOfCount(items[1..], id, x);
    }
  }

  /** One joined row per item of `mine`, all for the order `id`. */
  function WithItems(id: string, o: Order, mine: seq<Item>): (r: seq<JoinRow>)
    ensures |r| == |mine|
    ensures forall i :: 0 <= i < |r| ==> r[i] == JoinRow(id, o, Some(mine[i]))
    decreases |mine|
  {
    if mine == [] then [] else [JoinRow(id, o, Some(mine[0]))] + WithItems(id, o, mine[1..])
  }

  /** A row of `WithItems` occurs as often as its item occurs in `mine`. */
  lemma {:induction false} WithItemsCount(id: string, o: Order, mine: seq<Item>, row: JoinRow)
    ensures multiset(WithItems(id, o, mine))[row] ==
      if row.orderId == id && row.order == o && row.item.Some? then multiset(mine)[row.item.value] else 0
    decreases |mine|
  {
    if mine != [] {
      assert mine == [mine[0]] + mine[1..];
      WithItemsCount(id, o, mine[1..], row);
    }
  }

  /** The joined rows of one order: one per item, or a single row without an item. */
  function RowsOfOrder(id: string, o: Order, items: seq<Item>): (r: seq<JoinRow>)
    ensures forall row :: row in r <==>
      && row.orderId == id && row.order == o
      && (row.item.None? <==> ItemsOf(items, id) == [])
      && (row.item.Some? ==> row.item.value in items && row.item.value.orderId == id)
  {
    var mine := ItemsOf(items, id);
    if mine == [] then [JoinRow(id, o, None)]
    else
      var rows := WithItems(id, o, mine);
      assert forall row :: row in rows ==> row.item.Some? && row.item.value in mine;
      assert forall x :: x in mine ==> JoinRow(id, o, Some(x)) in rows by {
        forall x | x in mine
          ensures JoinRow(id, o, Some(x)) in rows
        {
          var i :| 0 <= i < |mine| && mine[i] == x;
          assert rows[i] == JoinRow(id, o, Some(x));
        }
      }
      rows
  }

  /**
   * The rows of one order: one per copy of each of its items, or a single
   * item-less row when it has none.
   */
  lemma RowsOfOrderCount(id: string, o: Order, items: seq<Item>, row: JoinRow)
    ensures multiset(RowsOfOrder(id, o, items))[row] ==
      if row.orderId != id || row.order != o then 0
      else if row.item.Some? then (if row.item.value.orderId == id then multiset(items)[row.item.value] else 0)
      else if ItemsOf(items, id) == [] then 1 else 0
  {
    var mine := ItemsOf(items, id);
    if mine != [] {
      WithItemsCount(id, o, mine, row);
      if row.item.Some? {
        ItemsOfCount(items, id, row.item.value);
      }
    }
  }

  /** The joined rows of the orders `keys`, order by order. */
  function JoinKeys(keys: seq<string>, orders: map<string, Order>, items: seq<Item>): (r: seq<JoinRow>)
    requires forall k :: k in keys ==> k in orders
    ensures forall row :: row in r <==> row.orderId in keys && row in RowsOfOrder(row.orderId, orders[row.orderId], items)
    decreases |keys|
  {
    if keys == [] then []
    else
      assert forall k :: k in keys[1..] ==> k in keys;
      RowsOfOrder(keys[0], orders[keys[0]], items) + JoinKeys(keys[1..], orders, items)
  }

  /** With each order listed once, a joined row occurs as often as in its own order's rows. */
  lemma {:induction false} JoinKeysCount(keys: seq<string>, orders: map<string, Order>, items: seq<Item>, row: JoinRow)
    requires forall k :: k in keys ==> k in orders
    requires Distinct(keys)
    ensures multiset(JoinKeys(keys, orders, items))[row] ==
      if row.orderId in keys then multiset(RowsOfOrder(row.orderId, orders[row.orderId], items))[row] else 0
    decreases |keys|
  {
    if keys != [] {
      var rest := keys[1..];
      assert forall k :: k in rest ==> k in keys;
      assert Distinct(rest) by {
        forall i, j | 0 <= i < j < |rest|
          ensures rest[i] != rest[j]
        {
          assert rest[i] == keys[i + 1] && rest[j] == keys[j + 1];
        }
      }
      JoinKeysCount(rest, orders, items, row);
      RowsOfOrderCount(keys[0], orders[keys[0]], items, row);
      if row.orderId == keys[0] {
        assert row.orderId !in rest by {
          forall j | 0 <= j < |rest|
            ensures rest[j] != row.orderId
          {
            assert rest[j] == keys[j + 1];
          }
        }
      } else {
        assert row.orderId in keys <==> row.orderId in rest;
      }
    }
  }

  /** `bi_99food_pedidos p LEFT JOIN bi_99food_itens i ON i.pedido_id = p.pedido_id`. */
  ghost function LeftJoin(t: Tables): seq<JoinRow> {
    JoinKeys(SortedKeys(t.orders.Keys), t.orders, t.items)
  }

  /**
   * A row belongs to the left join exactly when it pairs a stored order with
   * one of that order's items, or with no item when the order has none.
   */
  lemma LeftJoinRows(t: Tables, row: JoinRow)
    ensures row in LeftJoin(t) <==>
      && row.orderId in t.orders && row.order == t.orders[row.orderId]
      && (row.item.None? <==> ItemsOf(t.items, row.orderId) == [])
      && (row.item.Some? ==> row.item.value in t.items && row.item.value.orderId == row.orderId)
  {
  }

  /**
   * The left join holds one row per copy of each stored item whose order is
   * stored, and one item-less row per stored order without items; nothing
   * else.
   */
  lemma LeftJoinCount(t: Tables, row: JoinRow)
    ensures multiset(LeftJoin(t))[row] ==
      if row.orderId !in t.orders || row.order != t.orders[row.orderId] then 0
      else if row.item.Some? then (if row.item.value.orderId == row.orderId then multiset(t.items)[row.item.value] else 0)
      else if ItemsOf(t.items, row.orderId) == [] then 1 else 0
  {
    var keys := SortedKeys(t.orders.Keys);
    AscendingDistinct(keys);
    JoinKeysCount(keys, t.orders, t.items, row);
    if row.orderId in t.orders {
      RowsOfOrderCount(row.orderId, t.orders[row.orderId], t.items, row);
    }
  }

  /**
   * The optional filters: a date range on the order's date and an item
   * name. An empty text means the filter is not given.
   */
  datatype Filters = Filters(start: string, end: string, product: string)

  /** `date(p.data_hora_pedido)`: the date part of the stored timestamp. */
  function Day(row: JoinRow): string {
    DateText(row.order.record.placedAt.date)
  }

  /** The filters are conjunctive; the date bounds are inclusive text comparisons. */
  predicate Selected(row: JoinRow, f: Filters) {
    && (f.start == "" || Le(f.start, Day(row)))
    && (f.end == "" || Le(Day(row), f.end))
    && (f.product == "" || (row.item.Some? && row.item.value.name == f.product))
  }

  /** The `WHERE` clause shared by every dashboard query. */
  function Where(rows: seq<JoinRow>, f: Filters): (r: seq<JoinRow>)
    ensures forall row :: row in r <==> row in rows && Selected(row, f)
    decreases |rows|
  {
    if rows == [] then []
    else
      assert forall row :: row in rows <==> row == rows[0] || row in rows[1..];
      (if Selected(rows[0], f) then [rows[0]] else []) + Where(rows[1..], f)
  }

  /** The filter keeps every copy of a selected row and drops every copy of the others. */
  lemma {:induction false} WhereCount(rows: seq<JoinRow>, f: Filters, row: JoinRow)
    ensures multiset(Where(rows, f))[row] == if Selected(row, f) then multiset(rows)[row] else 0
    decreases |rows|
  {
    if rows != [] {
      assert rows == [rows[0]] + rows[1..];
      WhereCount(rows[1..], f, row);
    }
  }

  /** `COUNT(DISTINCT p.pedido_id)` ranges over this set. */
  function OrderIds(rows: seq<JoinRow>): set<string> {
    set row | row in rows :: row.orderId
  }

  /**
   * An order is counted exactly when it is stored, its date is within the
   * bounds and, under a product filter, it has an item of that name: an
   * order without that item drops out.
   */
  lemma CountedOrders(t: Tables, f: Filters, k: string)
    ensures k in OrderIds(Where(LeftJoin(t), f)) <==>
      && k in t.orders
      && (f.start == "" || Le(f.start, DateText(t.orders[k].record.placedAt.date)))
      && (f.end == "" || Le(DateText(t.orders[k].record.placedAt.date), f.end))
      && (f.product == "" || exists it :: it in t.items && it.orderId == k && it.name == f.product)
  {
    var rows := Where(LeftJoin(t), f);
    if k in OrderIds(rows) {
      var row :| row in rows && row.orderId == k;
      LeftJoinRows(t, row);
    } else if k in t.orders {
      var o := t.orders[k];
      var mine := ItemsOf(t.items, k);
      if f.product == "" {
        var row := if mine == [] then JoinRow(k, o, None) else JoinRow(k, o, Some(mine[0]));
        LeftJoinRows(t, row);
        assert row !in rows;
      } else if exists it :: it in t.items && it.orderId == k && it.name == f.product {
        var it :| it in t.items && it.orderId == k && it.name == f.product;
        assert it in mine;
        var row := JoinRow(k, o, Some(it));
        LeftJoinRows(t, row);
        assert row !in rows;
      }
    }
  }

  /** The revenue an item row adds; a row without an item adds nothing (SQL `SUM` skips `NULL`). */
  function RowRevenue(row: JoinRow): real {
    if row.item.Some? then row.item.value.revenue else 0.0
  }

  function RowUnits(row: JoinRow): real {
    if row.item.Some? then row.item.value.quantity else 0.0
  }

  /** `COALESCE(SUM(...), 0)`. */
  function Sum(rows: seq<JoinRow>, value: JoinRow -> real): real
    decreases |rows|
  {
    if rows == [] then 0.0 else value(rows[0]) + Sum(rows[1..], value)
  }

  /** The rows of one group of a `GROUP BY key`. */
  function Having<K(==)>(rows: seq<JoinRow>, key: JoinRow -> K, k: K): (r: seq<JoinRow>)
    ensures forall row :: row in r <==> row in rows && key(row) == k
    decreases |rows|
  {
    if rows == [] then []
    else
      assert forall row :: row in rows <==> row == rows[0] || row in rows[1..];
      (if key(rows[0]) == k then [rows[0]] else []) + Having(rows[1..], key, k)
  }

  /** A group keeps every copy of the rows with its key. */
  lemma {:induction false} HavingCount<K>(rows: seq<JoinRow>, key: JoinRow -> K, k: K, row: JoinRow)
    ensures multiset(Having(rows, key, k))[row] == if key(row) == k then multiset(rows)[row] else 0
    decreases |rows|
  {
    if rows != [] {
      assert rows == [rows[0]] + rows[1..];
      HavingCount(rows[1..], key, k, row);
    }
  }

  lemma {:induction false} SumConcat(a: seq<JoinRow>, b: seq<JoinRow>, value: JoinRow -> real)
    ensures Sum(a + b, value) == Sum(a, value) + Sum(b, value)
    decreases |a|
  {
    if a != [] {
      assert (a + b)[1..] == a[1..] + b;
      SumConcat(a[1..], b, value);
    } else {
      assert a + b == b;
    }
  }

  /** `GROUP BY key` over the groups `ks`, in that order: each key with the sum of `value` over its rows. */
  function GroupSeries<K(==)>(rows: seq<JoinRow>, key: JoinRow -> K, value: JoinRow -> real, ks: seq<K>): (r: seq<(K, real)>)
    ensures |r| == |ks|
    ensures forall i :: 0 <= i < |ks| ==> r[i] == (ks[i], Sum(Having(rows, key, ks[i]), value))
    decreases |ks|
  {
    if ks == [] then []
    else [(ks[0], Sum(Having(rows, key, ks[0]), value))] + GroupSeries(rows, key, value, ks[1..])
  }

  /** The values of a series added up. */
  function SeriesTotal<K>(s: seq<(K, real)>): real
    decreases |s|
  {
    if s == [] then 0.0 else s[0].1 + SeriesTotal(s[1..])
  }

  predicate Distinct<K(==)>(ks: seq<K>) {
    forall i, j :: 0 <= i < j < |ks| ==> ks[i] != ks[j]
  }

  /** What one row adds to the groups `ks`. */
  function Share<K(==)>(x: JoinRow, key: JoinRow -> K, value: JoinRow -> real, ks: seq<K>): real
    decreases |ks|
  {
    if ks == [] then 0.0 else (if key(x) == ks[0] then value(x) else 0.0) + Share(x, key, value, ks[1..])
  }

  lemma {:induction false} ShareOnce<K>(x: JoinRow, key: JoinRow -> K, value: JoinRow -> real, ks: seq<K>)
    requires Distinct(ks)
    ensures Share(x, key, value, ks) == if key(x) in ks then value(x) else 0.0
    decreases |ks|
  {
    if ks != [] {
      assert Distinct(ks[1..]) by {
        forall i, j | 0 <= i < j < |ks[1..]|
          ensures ks[1..][i] != ks[1..][j]
        {
          assert ks[1..][i] == ks[i + 1] && ks[1..][j] == ks[j + 1];
        }
      }
      ShareOnce(x, key, value, ks[1..]);
      if key(x) == ks[0] {
        assert key(x) !in ks[1..] by {
          forall j | 0 <= j < |ks[1..]|
            ensures ks[1..][j] != key(x)
          {
            assert ks[1..][j] == ks[j + 1];
          }
        }
      } else {
        assert key(x) in ks <==> key(x) in ks[1..];
      }
    }
  }

  lemma {:induction false} SeriesEmpty<K>(key: JoinRow -> K, value: JoinRow -> real, ks: seq<K>)
    ensures SeriesTotal(GroupSeries([], key, value, ks)) == 0.0
    decreases |ks|
  {
    if ks != [] {
      SeriesEmpty(key, value, ks[1..]);
    }
  }

  /** Adding a row in front adds its share to the groups. */
  lemma {:induction false} SeriesCons<K>(x: JoinRow, rest: seq<JoinRow>, key: JoinRow -> K, value: JoinRow -> real, ks: seq<K>)
    ensures SeriesTotal(GroupSeries([x] + rest, key, value, ks))
      == Share(x, key, value, ks) + SeriesTotal(GroupSeries(rest, key, value, ks))
    decreases |ks|
  {
    if ks != [] {
      var k := ks[0];
      var head := if key(x) == k then [x] else [];
      assert ([x] + rest)[1..] == rest;
      assert Having([x] + rest, key, k) == head + Having(rest, key, k);
      SumConcat(head, Having(rest, key, k), value);
      SeriesCons(x, rest, key, value, ks[1..]);
    }
  }

  /**
   * When every row falls in exactly one of the groups, the group values add
   * up to the total over all rows.
   */
  lemma {:induction false} SeriesCoversTotal<K>(rows: seq<JoinRow>, key: JoinRow -> K, value: JoinRow -> real, ks: seq<K>)
    requires Distinct(ks)
    requires forall row :: row in rows ==> key(row) in ks
    ensures SeriesTotal(GroupSeries(rows, key, value, ks)) == Sum(rows, value)
    decreases |rows|
  {
    if rows == [] {
      SeriesEmpty(key, value, ks);
    } else {
      assert rows == [rows[0]] + rows[1..];
      SeriesCons(rows[0], rows[1..], key, value, ks);
      ShareOnce(rows[0], key, value, ks);
      SeriesCoversTotal(rows[1..], key, value, ks);
    }
  }

  /** Texts in strictly ascending order are distinct. */
  lemma AscendingDistinct(ks: seq<string>)
    requires forall i, j :: 0 <= i < j < |ks| ==> Lt(ks[i], ks[j])
    ensures Distinct(ks)
  {
  }

  datatype Kpis = Kpis(revenue: real, orders: nat, unitsSold: real, ticket: real)

  /** `ticket_medio`: revenue per counted order, and 0 when no order is counted. */
  function Ticket(revenue: real, count: nat): (t: real)
    ensures count == 0 ==> t == 0.0
    ensures count > 0 ==> t * count as real == revenue
  {
    if count == 0 then 0.0 else revenue / count as real
  }

  /** The KPI query over the filtered joined rows. */
  function KpisOf(rows: seq<JoinRow>): Kpis {
    var revenue := Sum(rows, RowRevenue);
    var count := |OrderIds(rows)|;
    Kpis(revenue, count, Sum(rows, RowUnits), Ticket(revenue, count))
  }

  /** The revenue of the items whose order id is in `ids`, every stored copy counted. */
  function StoredRevenue(items: seq<Item>, ids: set<string>): real
    decreases |items|
  {
    if items == [] then 0.0
    else (if items[0].orderId in ids then items[0].revenue else 0.0) + StoredRevenue(items[1..], ids)
  }

  function ItemsRevenue(items: seq<Item>): real
    decreases |items|
  {
    if items == [] then 0.0 else items[0].revenue + ItemsRevenue(items[1..])
  }

  /** The revenue of the items of each order of `keys`, added order by order. */
  function KeyedRevenue(keys: seq<string>, items: seq<Item>): real
    decreases |keys|
  {
    if keys == [] then 0.0 else ItemsRevenue(ItemsOf(items, keys[0])) + KeyedRevenue(keys[1..], items)
  }

  /** No filter given: every joined row is selected. */
  lemma {:induction false} WhereUnfiltered(rows: seq<JoinRow>)
    ensures Where(rows, Filters("", "", "")) == rows
    decreases |rows|
  {
    if rows != [] {
      WhereUnfiltered(rows[1..]);
      assert rows == [rows[0]] + rows[1..];
    }
  }

  lemma {:induction false} SumWithItems(id: string, o: Order, mine: seq<Item>)
    ensures Sum(WithItems(id, o, mine), RowRevenue) == ItemsRevenue(mine)
    decreases |mine|
  {
    if mine != [] {
      assert WithItems(id, o, mine)[1..] == WithItems(id, o, mine[1..]);
      SumWithItems(id, o, mine[1..]);
    }
  }

  /** An order's joined rows bring in the revenue of its items; an item-less row brings in nothing. */
  lemma SumRowsOfOrder(id: string, o: Order, items: seq<Item>)
    ensures Sum(RowsOfOrder(id, o, items), RowRevenue) == ItemsRevenue(ItemsOf(items, id))
  {
    if ItemsOf(items, id) != [] {
      SumWithItems(id, o, ItemsOf(items, id));
    }
  }

  lemma {:induction false} SumJoinKeys(keys: seq<string>, orders: map<string, Order>, items: seq<Item>)
    requires forall k :: k in keys ==> k in orders
    ensures Sum(JoinKeys(keys, orders, items), RowRevenue) == KeyedRevenue(keys, items)
    decreases |keys|
  {
    if keys != [] {
      assert forall k :: k in keys[1..] ==> k in keys;
      SumConcat(RowsOfOrder(keys[0], orders[keys[0]], items), JoinKeys(keys[1..], orders, items), RowRevenue);
      SumRowsOfOrder(keys[0], orders[keys[0]], items);
      SumJoinKeys(keys[1..], orders, items);
    }
  }

  lemma {:induction false} KeyedRevenueEmpty(keys: seq<string>)
    ensures KeyedRevenue(keys, []) == 0.0
    decreases |keys|
  {
    if keys != [] {
      KeyedRevenueEmpty(keys[1..]);
    }
  }

  /** An item in front adds its revenue once when its order is among distinct `keys`, and nothing otherwise. */
  lemma {:induction false} KeyedRevenueCons(keys: seq<string>, x: Item, rest: seq<Item>)
    requires Distinct(keys)
    ensures KeyedRevenue(keys, [x] + rest) == (if x.orderId in keys then x.revenue else 0.0) + KeyedRevenue(keys, rest)
    decreases |keys|
  {
    if keys != [] {
      var tail := keys[1..];
      assert Distinct(tail) by {
        forall i, j | 0 <= i < j < |tail|
          ensures tail[i] != tail[j]
        {
          assert tail[i] == keys[i + 1] && tail[j] == keys[j + 1];
        }
      }
      KeyedRevenueCons(tail, x, rest);
      assert ([x] + rest)[1..] == rest;
      if x.orderId == keys[0] {
        assert ItemsOf([x] + rest, keys[0]) == [x] + ItemsOf(rest, keys[0]);
        assert ([x] + ItemsOf(rest, keys[0]))[1..] == ItemsOf(rest, keys[0]);
        assert x.orderId !in tail by {
          forall j | 0 <= j < |tail|
            ensures tail[j] != x.orderId
          {
            assert tail[j] == keys[j + 1];
          }
        }
      } else {
        assert ItemsOf([x] + rest, keys[0]) == ItemsOf(rest, keys[0]);
        assert x.orderId in keys <==> x.orderId in tail;
      }
    }
  }

  lemma {:induction false} KeyedRevenueStored(keys: seq<string>, items: seq<Item>, ids: set<string>)
    requires Distinct(keys)
    requires forall k :: k in keys <==> k in ids
    ensures KeyedRevenue(keys, items) == StoredRevenue(items, ids)
    decreases |items|
  {
    if items == [] {
      KeyedRevenueEmpty(keys);
    } else {
      assert items == [items[0]] + items[1..];
      KeyedRevenueCons(keys, items[0], items[1..]);
      KeyedRevenueStored(keys, items[1..], ids);
    }
  }

  /**
   * Without filters, the revenue figure is the revenue of every stored item
   * whose order is stored, each stored copy counted: the left join loses no
   * item row and invents none.
   */
  lemma UnfilteredRevenue(t: Tables)
    ensures KpisOf(Where(LeftJoin(t), Filters("", "", ""))).revenue == StoredRevenue(t.items, t.orders.Keys)
  {
    var keys := SortedKeys(t.orders.Keys);
    AscendingDistinct(keys);
    WhereUnfiltered(LeftJoin(t));
    SumJoinKeys(keys, t.orders, t.items);
    KeyedRevenueStored(keys, t.items, t.orders.Keys);
  }

  /** The days present among the rows, ascending (`GROUP BY` / `ORDER BY dia`). */
  ghost function Days(rows: seq<JoinRow>): seq<string> {
    SortedKeys(set row | row in rows :: Day(row))
  }

  /** `faturamento_por_dia`. */
  ghost function RevenueByDay(rows: seq<JoinRow>): seq<(string, real)> {
    GroupSeries(rows, Day, RowRevenue, Days(rows))
  }

  /** The day series lists the days in strictly ascending order, so each at most once. */
  lemma RevenueByDayAscending(rows: seq<JoinRow>, i: nat, j: nat)
    requires i < j < |RevenueByDay(rows)|
    ensures Lt(RevenueByDay(rows)[i].0, RevenueByDay(rows)[j].0)
  {
    var ks := Days(rows);
    assert RevenueByDay(rows)[i].0 == ks[i] && RevenueByDay(rows)[j].0 == ks[j];
  }

  /** Every filtered row's day is listed, with the revenue of that day's rows. */
  lemma RevenueByDayCovers(rows: seq<JoinRow>, row: JoinRow)
    requires row in rows
    ensures exists i :: 0 <= i < |RevenueByDay(rows)| && RevenueByDay(rows)[i] == (Day(row), Sum(Having(rows, Day, Day(row)), RowRevenue))
  {
    var ks := Days(rows);
    assert Day(row) in ks;
    var i :| 0 <= i < |ks| && ks[i] == Day(row);
    assert RevenueByDay(rows)[i] == (Day(row), Sum(Having(rows, Day, Day(row)), RowRevenue));
  }

  /** The day series adds up to the revenue KPI. */
  lemma RevenueByDayTotal(rows: seq<JoinRow>)
    ensures SeriesTotal(RevenueByDay(rows)) == KpisOf(rows).revenue
  {
    var ks := Days(rows);
    AscendingDistinct(ks);
    forall row | row in rows
      ensures Day(row) in ks
    {
    }
    SeriesCoversTotal(rows, Day, RowRevenue, ks);
  }

  /** Text order on the days of the series is calendar order on the orders' dates. */
  lemma RevenueByDayChronological(rows: seq<JoinRow>, i: nat, j: nat, a: JoinRow, b: JoinRow)
    requires i < j < |RevenueByDay(rows)|
    requires Day(a) == RevenueByDay(rows)[i].0 && Day(b) == RevenueByDay(rows)[j].0
    ensures Ordinal(a.order.record.placedAt.date) < Ordinal(b.order.record.placedAt.date)
  {
    var da, db := a.order.record.placedAt.date, b.order.record.placedAt.date;
    assert Lt(DateText(da), DateText(db));
    DateOrderIsChronological(da, db);
    DateOrderIsChronological(db, da);
    if Ordinal(da) == Ordinal(db) {
      LeAntisymmetric(DateText(da), DateText(db));
    }
  }

  /** `strftime('%H', ...)`: the hour as two digits. */
  function HourText(row: JoinRow): string {
    Digits(row.order.record.placedAt.hour, 2)
  }

  /** `pedidos_por_hora`: the hours present, ascending, each with its count of distinct orders. */
  ghost function OrdersByHour(rows: seq<JoinRow>): (r: seq<(string, nat)>) {
    var hs := SortedKeys(set row | row in rows :: HourText(row));
    seq(|hs|, i requires 0 <= i < |hs| => (hs[i], |OrderIds(Having(rows, HourText, hs[i]))|))
  }

  /**
   * Every hour listed has at least one order, and the text order of the
   * labels is the numeric order of the hours.
   */
  lemma OrdersByHourFacts(rows: seq<JoinRow>, i: nat, j: nat, a: JoinRow, b: JoinRow)
    requires i < j < |OrdersByHour(rows)|
    requires HourText(a) == OrdersByHour(rows)[i].0 && HourText(b) == OrdersByHour(rows)[j].0
    ensures OrdersByHour(rows)[i].1 >= 1
    ensures a.order.record.placedAt.hour < b.order.record.placedAt.hour
  {
    var hs := SortedKeys(set row | row in rows :: HourText(row));
    var h := hs[i];
    assert h in hs;
    var w :| w in rows && HourText(w) == h;
    assert w.orderId in OrderIds(Having(rows, HourText, h));
    var ha, hb := a.order.record.placedAt.hour, b.order.record.placedAt.hour;
    assert Lt(HourText(a), HourText(b));
    DigitsOrder(ha, hb, 2);
    DigitsOrder(hb, ha, 2);
  }

  /** The label of a `strftime('%w')` weekday: 0 is Sunday, and anything past 5 is Saturday. */
  function WeekdayName(w: nat): string {
    if w == 0 then "Domingo"
    else if w == 1 then "Segunda"
    else if w == 2 then "Ter\U{e7}a"
    else if w == 3 then "Quarta"
    else if w == 4 then "Quinta"
    else if w == 5 then "Sexta"
    else "S\U{e1}bado"
  }

  function WeekdayOf(row: JoinRow): nat {
    Weekday(row.order.record.placedAt.date)
  }

  /** The weekdays some row's order was placed on. */
  function Weekdays(rows: seq<JoinRow>): set<nat> {
    set row | row in rows :: WeekdayOf(row)
  }

  /** The members of `present` from weekday `w` to 6, ascending. */
  function PresentWeekdays(present: set<nat>, w: nat): seq<nat>
    decreases 7 - w
  {
    if w >= 7 then []
    else if w in present then [w] + PresentWeekdays(present, w + 1)
    else PresentWeekdays(present, w + 1)
  }

  /** Every weekday listed from `w` on lies in `w..6` and is present. */
  lemma {:induction false} PresentWeekdaysOccur(present: set<nat>, w: nat, i: nat)
    requires i < |PresentWeekdays(present, w)|
    ensures w <= PresentWeekdays(present, w)[i] < 7 && PresentWeekdays(present, w)[i] in present
    decreases 7 - w
  {
    if w !in present {
      PresentWeekdaysOccur(present, w + 1, i);
    } else if i > 0 {
      PresentWeekdaysOccur(present, w + 1, i - 1);
    }
  }

  /** The weekdays listed from `w` on are at least `w` and strictly ascending. */
  lemma {:induction false} PresentWeekdaysAscending(present: set<nat>, w: nat, i: nat, j: nat)
    requires i < j < |PresentWeekdays(present, w)|
    ensures w <= PresentWeekdays(present, w)[i] < PresentWeekdays(present, w)[j]
    decreases 7 - w
  {
    if w !in present {
      PresentWeekdaysAscending(present, w + 1, i, j);
    } else if i > 0 {
      PresentWeekdaysAscending(present, w + 1, i - 1, j - 1);
    } else {
      PresentWeekdaysOccur(present, w + 1, j - 1);
    }
  }

  /** Every present weekday from `w` on is listed. */
  lemma {:induction false} PresentWeekdaysComplete(present: set<nat>, w: nat, x: nat)
    requires w <= x < 7 && x in present
    ensures x in PresentWeekdays(present, w)
    decreases 7 - w
  {
    if x > w {
      PresentWeekdaysComplete(present, w + 1, x);
    }
  }

  /** A weekday series with its numbers replaced by their labels. */
  function Labelled(g: seq<(nat, real)>): (r: seq<(string, real)>)
    ensures |r| == |g|
    ensures forall i :: 0 <= i < |g| ==> r[i] == (WeekdayName(g[i].0), g[i].1)
    ensures SeriesTotal(r) == SeriesTotal(g)
    decreases |g|
  {
    if g == [] then []
    else
      var rest := Labelled(g[1..]);
      var r := [(WeekdayName(g[0].0), g[0].1)] + rest;
      assert r[1..] == rest;
      r
  }

  /** `vendas_por_dia_semana`: the weekdays present, Sunday first, with their revenue. */
  ghost function RevenueByWeekday(rows: seq<JoinRow>): seq<(string, real)> {
    Labelled(GroupSeries(rows, WeekdayOf, RowRevenue, PresentWeekdays(Weekdays(rows), 0)))
  }

  /** Every weekday present is listed once, Sunday first, and the weekday series adds up to the revenue KPI. */
  lemma RevenueByWeekdayTotal(rows: seq<JoinRow>)
    ensures SeriesTotal(RevenueByWeekday(rows)) == KpisOf(rows).revenue
  {
    var present := Weekdays(rows);
    var ws := PresentWeekdays(present, 0);
    forall row | row in rows
      ensures WeekdayOf(row) in ws
    {
      assert WeekdayOf(row) in present;
      PresentWeekdaysComplete(present, 0, WeekdayOf(row));
    }
    forall i, j | 0 <= i < j < |ws|
      ensures ws[i] != ws[j]
    {
      PresentWeekdaysAscending(present, 0, i, j);
    }
    SeriesCoversTotal(rows, WeekdayOf, RowRevenue, ws);
  }

  /** `JOIN` instead of `LEFT JOIN`: only the rows that carry an item. */
  function InnerJoin(rows: seq<JoinRow>): (r: seq<JoinRow>)
    ensures forall row :: row in r <==> row in rows && row.item.Some?
    decreases |rows|
  {
    if rows == [] then []
    else
      assert forall row :: row in rows <==> row == rows[0] || row in rows[1..];
      (if rows[0].item.Some? then [rows[0]] else []) + InnerJoin(rows[1..])
  }

  /** The inner join keeps every copy of an item row and no item-less row. */
  lemma {:induction false} InnerJoinCount(rows: seq<JoinRow>, row: JoinRow)
    ensures multiset(InnerJoin(rows))[row] == if row.item.Some? then multiset(rows)[row] else 0
    decreases |rows|
  {
    if rows != [] {
      assert rows == [rows[0]] + rows[1..];
      InnerJoinCount(rows[1..], row);
    }
  }

  function ItemName(row: JoinRow): string {
    if row.item.Some? then row.item.value.name else ""
  }

  /** `GROUP BY i.nome_item` over the inner join, names ascending. */
  ghost function ItemGroups(rows: seq<JoinRow>, value: JoinRow -> real): seq<(string, real)> {
    var inner := InnerJoin(rows);
    GroupSeries(inner, ItemName, value, SortedKeys(set row | row in inner :: ItemName(row)))
  }

  predicate NonIncreasing(s: seq<(string, real)>) {
    forall i, j :: 0 <= i < j < |s| ==> s[i].1 >= s[j].1
  }

  /** A value at least every value of a non-increasing series can go in front of it. */
  lemma PrependDesc(x: (string, real), s: seq<(string, real)>)
    requires NonIncreasing(s)
    requires forall y :: y in multiset(s) ==> x.1 >= y.1
    ensures NonIncreasing([x] + s)
  {
    var r := [x] + s;
    forall i, j | 0 <= i < j < |r|
      ensures r[i].1 >= r[j].1
    {
      assert r[j] == s[j - 1];
      if i == 0 {
        assert s[j - 1] in multiset(s);
      } else {
        assert r[i] == s[i - 1];
      }
    }
  }

  /** The head of a non-increasing series holds its largest value. */
  lemma HeadIsLargest(s: seq<(string, real)>)
    requires NonIncreasing(s) && s != []
    ensures forall y :: y in multiset(s) ==> s[0].1 >= y.1
  {
    forall y | y in multiset(s)
      ensures s[0].1 >= y.1
    {
      var j :| 0 <= j < |s| && s[j] == y;
    }
  }

  function InsertDesc(x: (string, real), s: seq<(string, real)>): (r: seq<(string, real)>)
    requires NonIncreasing(s)
    ensures |r| == |s| + 1
    ensures NonIncreasing(r)
    ensures multiset(r) == multiset(s) + multiset{x}
    decreases |s|
  {
    if s == [] then [x]
    else if s[0].1 <= x.1 then
      HeadIsLargest(s);
      PrependDesc(x, s);
      [x] + s
    else
      var rest := InsertDesc(x, s[1..]);
      InsertDescStep(x, s, rest);
      [s[0]] + rest
  }

  lemma InsertDescStep(x: (string, real), s: seq<(string, real)>, rest: seq<(string, real)>)
    requires NonIncreasing(s) && s != [] && s[0].1 > x.1
    requires NonIncreasing(rest) && multiset(rest) == multiset(s[1..]) + multiset{x}
    ensures NonIncreasing([s[0]] + rest)
    ensures multiset([s[0]] + rest) == multiset(s) + multiset{x}
  {
    assert s == [s[0]] + s[1..];
    HeadIsLargest(s);
    forall y | y in multiset(rest)
      ensures s[0].1 >= y.1
    {
      if y != x {
        assert y in multiset(s);
      }
    }
    PrependDesc(s[0], rest);
  }

  /** `ORDER BY valor DESC`; ties keep no particular order. */
  function SortDesc(s: seq<(string, real)>): (r: seq<(string, real)>)
    ensures |r| == |s|
    ensures NonIncreasing(r)
    ensures multiset(r) == multiset(s)
    decreases |s|
  {
    if s == [] then []
    else
      assert s == [s[0]] + s[1..];
      InsertDesc(s[0], SortDesc(s[1..]))
  }

  /** Cutting a non-increasing series leaves out no value larger than one kept. */
  lemma CutKeepsLargest(sorted: seq<(string, real)>, n: nat)
    requires NonIncreasing(sorted) && n <= |sorted|
    ensures forall x, y :: x in sorted && x !in sorted[..n] && y in sorted[..n] ==> x.1 <= y.1
  {
    forall x, y | x in sorted && x !in sorted[..n] && y in sorted[..n]
      ensures x.1 <= y.1
    {
      var j :| 0 <= j < |sorted| && sorted[j] == x;
      var i :| 0 <= i < n && sorted[..n][i] == y;
    }
  }

  /** A reordering has the same members, and a prefix of it holds only members of the original. */
  lemma SameMembers<T>(s: seq<T>, sorted: seq<T>, n: nat)
    requires multiset(sorted) == multiset(s) && n <= |sorted|
    ensures forall x :: x in s ==> x in sorted
    ensures forall x :: x in sorted[..n] ==> x in s
  {
    assert forall x :: x in s <==> x in multiset(sorted);
    assert forall x :: x in sorted[..n] ==> x in sorted;
  }

  /**
   * `ORDER BY ... DESC LIMIT 10`: at most ten groups, values non-increasing,
   * and no group left out has a larger value than one kept.
   */
  function Top10(s: seq<(string, real)>): (r: seq<(string, real)>)
    ensures |r| == if |s| <= 10 then |s| else 10
    ensures NonIncreasing(r)
    ensures forall x :: x in r ==> x in s
    ensures multiset(r) <= multiset(s)
    ensures |s| <= 10 ==> multiset(r) == multiset(s)
    ensures forall x, y :: x in s && x !in r && y in r ==> x.1 <= y.1
  {
    var sorted := SortDesc(s);
    var n := if |sorted| <= 10 then |sorted| else 10;
    CutKeepsLargest(sorted, n);
    SameMembers(s, sorted, n);
    assert sorted == sorted[..n] + sorted[n..];
    sorted[..n]
  }

  /** `ranking_faturamento` or `ranking_quantidade`: the ten largest item groups. */
  ghost function Ranking(rows: seq<JoinRow>, value: JoinRow -> real): seq<(string, real)> {
    Top10(ItemGroups(rows, value))
  }

  /**
   * A ranked name is the name of an item on some filtered joined row (the
   * inner join: orders without items never rank), and its value is the sum
   * over that item's rows.
   */
  lemma RankingEntries(rows: seq<JoinRow>, value: JoinRow -> real, e: (string, real))
    requires e in Ranking(rows, value)
    ensures exists row :: row in rows && row.item.Some? && row.item.value.name == e.0
    ensures e.1 == Sum(Having(InnerJoin(rows), ItemName, e.0), value)
  {
    var inner := InnerJoin(rows);
    var names := SortedKeys(set row | row in inner :: ItemName(row));
    var g := ItemGroups(rows, value);
    assert e in g;
    var i :| 0 <= i < |g| && g[i] == e;
    assert g[i] == (names[i], Sum(Having(inner, ItemName, names[i]), value));
    assert names[i] in names;
  }

  /** `produtos`: every item name in the table, once each, ascending; the filters do not apply. */
  ghost function Catalogue(items: seq<Item>): (r: seq<string>)
    ensures forall n :: n in r <==> exists it :: it in items && it.name == n
    ensures forall i, j :: 0 <= i < j < |r| ==> Lt(r[i], r[j])
  {
    SortedKeys(set it | it in items :: it.name)
  }

  datatype Panel = Panel(
    kpis: Kpis,
    revenueByDay: seq<(string, real)>,
    ordersByHour: seq<(string, nat)>,
    revenueByWeekday: seq<(string, real)>,
    topRevenue: seq<(string, real)>,
    topUnits: seq<(string, real)>,
    catalogue: seq<string>)

  /** `carregar_dashboard_99food`: every query runs on the same filtered left join. */
  ghost function Load(t: Tables, f: Filters): Panel {
    var rows := Where(LeftJoin(t), f);
    Panel(
      KpisOf(rows), RevenueByDay(rows), OrdersByHour(rows), RevenueByWeekday(rows),
      Ranking(rows, RowRevenue), Ranking(rows, RowUnits), Catalogue(t.items))
  }

  /** The day series and the weekday series both add up to the revenue KPI. */
  lemma LoadSeriesTotals(t: Tables, f: Filters)
    ensures SeriesTotal(Load(t, f).revenueByDay) == Load(t, f).kpis.revenue
    ensures SeriesTotal(Load(t, f).revenueByWeekday) == Load(t, f).kpis.revenue
  {
    var rows := Where(LeftJoin(t), f);
    assert Load(t, f).revenueByDay == RevenueByDay(rows);
    assert Load(t, f).revenueByWeekday == RevenueByWeekday(rows);
    assert Load(t, f).kpis == KpisOf(rows);
    RevenueByDayTotal(rows);
    RevenueByWeekdayTotal(rows);
  }

  /**
   * With no stored orders every KPI is 0 and every series and ranking is
   * empty; the catalogue still lists the stored items.
   */
  lemma LoadWithoutOrders(t: Tables, f: Filters)
    requires t.orders == map[]
    ensures Load(t, f) == Panel(Kpis(0.0, 0, 0.0, 0.0), [], [], [], [], [], Catalogue(t.items))
  {
    assert SortedKeys(t.orders.Keys) == [];
    var rows := Where(LeftJoin(t), f);
    assert rows == [];
    assert OrderIds(rows) == {};
    assert (set row | row in rows :: Day(row)) == {};
    assert (set row | row in rows :: HourText(row)) == {};
    assert (set row | row in InnerJoin(rows) :: ItemName(row)) == {};
    assert Weekdays(rows) == {};
    assert PresentWeekdays({}, 0) == [];
  }
}
