/**
 * The administration dashboard's figures: the revenue total over the sample monthly sales,
 * the customer count, the five orders listed as recent, the badge colour of an order status,
 * and the CSV text of the sales export.
 */
module AdminDashboard {
  import opened Wrappers
  import Lists
  import Text
  import Numbers
  import Csv
  import UserSlice
  import UserManagement
  import OrderSlice

  /** One month of the sales chart. */
  datatype SalesPoint = SalesPoint(month: string, sales: int, orders: int)

  /** The sample data the charts, the revenue card and the sales export use. */
  const SalesData: seq<SalesPoint> := [
    SalesPoint("Jan", 45000, 120), SalesPoint("Feb", 52000, 145), SalesPoint("Mar", 48000, 132),
    SalesPoint("Apr", 61000, 168), SalesPoint("May", 55000, 155), SalesPoint("Jun", 67000, 189)]

  /** `salesData.reduce((sum, item) => sum + item.sales, 0)`: the sales added from the left. */
  function Revenue(points: seq<SalesPoint>): (total: int)
    ensures (forall k :: 0 <= k < |points| ==> points[k].sales >= 0) ==> total >= 0
  {
    if points == [] then 0 else Revenue(points[..|points| - 1]) + points[|points| - 1].sales
  }

  /** The total of two runs of months is the sum of their totals. */
  lemma {:induction false} RevenueConcat(a: seq<SalesPoint>, b: seq<SalesPoint>)
    ensures Revenue(a + b) == Revenue(a) + Revenue(b)
  {
    if b != [] {
      assert (a + b)[..|a + b| - 1] == a + b[..|b| - 1];
      RevenueConcat(a, b[..|b| - 1]);
    } else {
      assert a + b == a;
    }
  }

  /** Adding a month's sales raises the total by exactly those sales. */
  lemma RevenueSingle(p: SalesPoint)
    ensures Revenue([p]) == p.sales
  {
    assert [p][..0] == [];
  }

  /** The revenue card shows 328000 for the sample data. */
  lemma SampleRevenue()
    ensures Revenue(SalesData) == 328000
  {
    var s := SalesData;
    RevenueConcat(s[..3], s[3..]);
    assert s[..3] + s[3..] == s;
    RevenueConcat(s[..1], s[1..3]);
    assert s[..1] + s[1..3] == s[..3];
    RevenueConcat([s[1]], [s[2]]);
    assert s[1..3] == [s[1]] + [s[2]];
    RevenueConcat(s[3..4], s[4..]);
    assert s[3..4] + s[4..] == s[3..];
    RevenueConcat([s[4]], [s[5]]);
    assert s[4..] == [s[4]] + [s[5]];
    RevenueSingle(s[0]);
    RevenueSingle(s[1]);
    RevenueSingle(s[2]);
    RevenueSingle(s[3]);
    RevenueSingle(s[4]);
    RevenueSingle(s[5]);
    assert s[..1] == [s[0]] && s[3..4] == [s[3]];
  }

  /** A customer: role exactly 'user'. */
  function IsCustomer(u: UserSlice.User): bool { u.role == Some("user") }

  /** The Total Users card: `users.filter(u => u.role === 'user').length`. */
  function TotalUsers(users: seq<UserSlice.User>): (n: nat)
    ensures n == Lists.CountIf(users, IsCustomer)
  {
    Lists.FilterLength(users, IsCustomer);
    |Lists.Filter(users, IsCustomer)|
  }

  /** The card counts the customers one by one; administrators and users without a role are not
      counted, so the card and the administrators together never exceed the user list. */
  lemma TotalUsersCounts(users: seq<UserSlice.User>)
    ensures TotalUsers(users) == Lists.CountIf(users, IsCustomer)
    ensures TotalUsers(users) + UserManagement.AdminCount(users) <= |users|
    ensures (forall k :: 0 <= k < |users| ==> users[k].role == Some("user")) ==> TotalUsers(users) == |users|
    ensures (forall k :: 0 <= k < |users| ==> users[k].role != Some("user")) ==> TotalUsers(users) == 0
  {
    Lists.FilterLength(users, IsCustomer);
    UserManagement.CountsAreCounts(users);
    RolesExclude(users);
    if forall k :: 0 <= k < |users| ==> users[k].role == Some("user") {
      Lists.FilterKeepingAll(users, IsCustomer);
    }
    if forall k :: 0 <= k < |users| ==> users[k].role != Some("user") {
      Lists.FilterKeepingNone(users, IsCustomer);
    }
  }

  /** No user is both a customer and an administrator. */
  lemma {:induction false} RolesExclude(users: seq<UserSlice.User>)
    ensures Lists.CountIf(users, IsCustomer) + Lists.CountIf(users, UserManagement.IsAdmin) <= |users|
  {
    if users != [] {
      RolesExclude(users[1..]);
    }
  }

  /** `orders.slice(0, 5)`. */
  function RecentOrders(orders: seq<OrderSlice.Order>): (r: seq<OrderSlice.Order>)
    ensures |r| <= 5 && (|orders| >= 5 ==> |r| == 5) && (|orders| < 5 ==> r == orders)
    ensures r == orders[..|r|]
  {
    Lists.Take(orders, 5)
  }

  /** The list shows the first min(5, n) orders in store order. New orders are appended to the
      store, so once five orders exist a new one never reaches the list. */
  lemma RecentOrdersShape(orders: seq<OrderSlice.Order>, order: OrderSlice.Order)
    ensures |RecentOrders(orders)| == if |orders| < 5 then |orders| else 5
    ensures RecentOrders(orders) == orders[..|RecentOrders(orders)|]
    ensures |orders| >= 5 ==> RecentOrders(orders + [order]) == RecentOrders(orders)
    ensures |orders| < 5 ==> RecentOrders(orders + [order]) == orders + [order]
  {
    if |orders| >= 5 {
      assert (orders + [order])[..5] == orders[..5];
    }
  }

  const GreyBadge := "bg-gray-100 text-gray-800"

  /** `getStatusColor` of the dashboard's order list. */
  function OrderStatusColor(status: Option<string>): (c: string)
    ensures c == GreyBadge <==> status !in {Some("delivered"), Some("shipped"), Some("processing"), Some("pending")}
  {
    if status == Some("delivered") then "bg-green-100 text-green-800"
    else if status == Some("shipped") then "bg-blue-100 text-blue-800"
    else if status == Some("processing") then "bg-yellow-100 text-yellow-800"
    else if status == Some("pending") then "bg-red-100 text-red-800"
    else GreyBadge
  }

  /** Each of the four statuses has its own colour, and only other values get grey. */
  lemma OrderStatusColors(status: Option<string>, other: Option<string>)
    ensures OrderStatusColor(status) == GreyBadge <==>
      status !in {Some("delivered"), Some("shipped"), Some("processing"), Some("pending")}
    ensures OrderStatusColor(status) == OrderStatusColor(other) && OrderStatusColor(status) != GreyBadge ==>
      status == other
  {
  }

  /** A month as an exported record, with its numbers written as `toString` writes them. */
  function SalesRow(p: SalesPoint): (row: Csv.Row)
    ensures Csv.Keys(row) == ["month", "sales", "orders"]
    ensures Csv.Values(row) == [p.month, Numbers.IntText(p.sales), Numbers.IntText(p.orders)]
  {
    var row := [("month", p.month), ("sales", Numbers.IntText(p.sales)), ("orders", Numbers.IntText(p.orders))];
    assert row[1..][1..][1..] == [];
    row
  }

  function SalesRows(points: seq<SalesPoint>): (rows: seq<Csv.Row>)
    ensures |rows| == |points| && forall k :: 0 <= k < |points| ==> rows[k] == SalesRow(points[k])
  {
    if points == [] then [] else [SalesRow(points[0])] + SalesRows(points[1..])
  }

  /** `exportToCSV(salesData, ...)`'s content; `None` for no months. */
  function ExportSales(points: seq<SalesPoint>): (r: Option<string>)
    ensures r.None? <==> points == []
    ensures r.Some? ==> Csv.DataUriPrefix <= r.value
  {
    Csv.Content(SalesRows(points))
  }

  /** A written integer holds neither a ',' nor a newline. */
  lemma IntTextIsPlain(n: int)
    ensures ',' !in Numbers.IntText(n) && '\n' !in Numbers.IntText(n)
  {
    var m: nat := if n < 0 then -n else n;
    var u := Numbers.NatText(m);
    assert forall i :: 0 <= i < |u| ==> u[i] != ',' && u[i] != '\n' by {
      forall i | 0 <= i < |u| ensures u[i] != ',' && u[i] != '\n' {
        assert Numbers.DigitOf(u[i], 10).Some?;
      }
    }
  }

  /** The sales export reads back: its lines are the header and one line per month, and each
      month's line splits on ',' into the month and two fields that `parseInt` turns back into
      its sales and order count. */
  lemma ExportSalesReadsBack(points: seq<SalesPoint>, k: nat)
    requires k < |points|
    requires forall j :: 0 <= j < |points| ==> ',' !in points[j].month && '\n' !in points[j].month
    ensures ExportSales(points).Some?
    ensures Text.Split(Csv.Body(SalesRows(points)), '\n') == ["month,sales,orders"] + Csv.Lines(SalesRows(points))
    ensures var fields := Text.Split(Csv.Lines(SalesRows(points))[k], ',');
      && |fields| == 3 && fields[0] == points[k].month
      && Numbers.ParseInt(fields[1]) == Some(points[k].sales)
      && Numbers.ParseInt(fields[2]) == Some(points[k].orders)
  {
    var rows: seq<Csv.Row> := SalesRows(points);
    SalesRowsPlain(points);
    Csv.BodyReadsBack(rows);
    HeaderText();
    Csv.LinesReadBack(rows, k);
    Numbers.ParseIntText(points[k].sales);
    Numbers.ParseIntText(points[k].orders);
  }

  /** A month without ',' or newline is a plain record. */
  lemma SalesRowPlain(p: SalesPoint)
    requires ',' !in p.month && '\n' !in p.month
    ensures Csv.Plain([SalesRow(p)])
  {
    IntTextIsPlain(p.sales);
    IntTextIsPlain(p.orders);
  }

  /** Months without ',' or newline make plain records. */
  lemma {:induction false} SalesRowsPlain(points: seq<SalesPoint>)
    requires forall j :: 0 <= j < |points| ==> ',' !in points[j].month && '\n' !in points[j].month
    ensures Csv.Plain(SalesRows(points))
  {
    if points != [] {
      SalesRowPlain(points[0]);
      SalesRowsPlain(points[1..]);
      assert SalesRows(points) == [SalesRow(points[0])] + SalesRows(points[1..]);
    }
  }

  /** The header line of the sales export. */
  lemma HeaderText()
    ensures Text.Join(["month", "sales", "orders"], ",") == "month,sales,orders"
  {
    assert ["month", "sales", "orders"][1..] == ["sales", "orders"];
    assert ["sales", "orders"][1..] == ["orders"];
  }
}
