/** The period columns of the dashboard tables: `Array.from(new Set(keys)).sort()` over the
    period keys of every row, and the cell a row shows under each period. */
module PeriodColumns {
  import opened Wrappers
  import Json

  /** The default `sort()` order on strings: character by character, a proper prefix
      first. */
  predicate Less(a: string, b: string) {
    if a == [] then b != []
    else if b == [] then false
    else if a[0] != b[0] then a[0] < b[0]
    else Less(a[1..], b[1..])
  }

  lemma {:induction false} LessIrreflexive(a: string)
    ensures !Less(a, a)
  {
    if a != [] {
      LessIrreflexive(a[1..]);
    }
  }

  lemma {:induction false} LessAsymmetric(a: string, b: string)
    ensures Less(a, b) ==> !Less(b, a)
  {
    if a != [] && b != [] && a[0] == b[0] {
      LessAsymmetric(a[1..], b[1..]);
    }
  }

  lemma {:induction false} LessTransitive(a: string, b: string, c: string)
    requires Less(a, b) && Less(b, c)
    ensures Less(a, c)
  {
    if a != [] && b != [] && c != [] && a[0] == b[0] && b[0] == c[0] {
      LessTransitive(a[1..], b[1..], c[1..]);
    }
  }

  /** Any two strings are equal or ordered one way. */
  lemma {:induction false} LessTotal(a: string, b: string)
    ensures a == b || Less(a, b) || Less(b, a)
  {
    if a != [] && b != [] && a[0] == b[0] {
      LessTotal(a[1..], b[1..]);
      assert a == [a[0]] + a[1..] && b == [b[0]] + b[1..];
    }
  }

  /** Ascending with no repeated key. */
  predicate StrictlySorted(xs: seq<string>) {
    forall i, j :: 0 <= i < j < |xs| ==> Less(xs[i], xs[j])
  }

  /** Adding one key to a set of keys kept as a strictly sorted list. */
  function Insert(xs: seq<string>, x: string): (r: seq<string>)
    ensures forall y :: y in r <==> y in xs || y == x
  {
    if xs == [] then [x]
    else if xs[0] == x then xs
    else if Less(x, xs[0]) then [x] + xs
    else [xs[0]] + Insert(xs[1..], x)
  }

  lemma {:induction false} InsertSorted(xs: seq<string>, x: string)
    requires StrictlySorted(xs)
    ensures StrictlySorted(Insert(xs, x))
  {
    if xs != [] && xs[0] != x {
      if Less(x, xs[0]) {
        forall j | 0 < j < |xs|
          ensures Less(x, xs[j])
        {
          LessTransitive(x, xs[0], xs[j]);
        }
      } else {
        LessTotal(x, xs[0]);
        var rest := Insert(xs[1..], x);
        InsertSorted(xs[1..], x);
        forall j | 0 <= j < |rest|
          ensures Less(xs[0], rest[j])
        {
          assert rest[j] in xs[1..] || rest[j] == x;
        }
      }
    }
  }

  /** `Array.from(new Set(keys)).sort()`: every key once, in ascending order. Since the
      keys are distinct, the result does not depend on the order the set met them in. */
  function SortedUnique(keys: seq<string>): (r: seq<string>)
    ensures StrictlySorted(r)
    ensures forall y :: y in r <==> y in keys
    ensures |r| <= |keys|
  {
    if keys == [] then []
    else
      var prev := SortedUnique(keys[..|keys| - 1]);
      InsertSorted(prev, keys[|keys| - 1]);
      assert keys == keys[..|keys| - 1] + [keys[|keys| - 1]];
      InsertLength(prev, keys[|keys| - 1]);
      Insert(prev, keys[|keys| - 1])
  }

  lemma {:induction false} InsertLength(xs: seq<string>, x: string)
    ensures |Insert(xs, x)| <= |xs| + 1
  {
    if xs != [] && xs[0] != x && !Less(x, xs[0]) {
      InsertLength(xs[1..], x);
    }
  }

  /** A strictly sorted list is determined by its members. */
  lemma {:induction false} StrictlySortedUnique(xs: seq<string>, ys: seq<string>)
    requires StrictlySorted(xs) && StrictlySorted(ys)
    requires forall y :: y in xs <==> y in ys
    ensures xs == ys
  {
    if xs != [] || ys != [] {
      if xs != [] {
        assert xs[0] in ys;
      }
      if ys != [] {
        assert ys[0] in xs;
      }
      assert xs != [] && ys != [];
      var i :| 0 <= i < |xs| && xs[i] == ys[0];
      var j :| 0 <= j < |ys| && ys[j] == xs[0];
      assert i == 0 || Less(xs[0], xs[i]);
      assert j == 0 || Less(ys[0], ys[j]);
      LessAsymmetric(xs[0], ys[0]);
      assert xs[0] == ys[0];
      forall y
        ensures y in xs[1..] <==> y in ys[1..]
      {
        if y in xs[1..] {
          var k :| 1 <= k < |xs| && xs[k] == y;
          assert Less(xs[0], y);
          assert y in ys;
        }
        if y in ys[1..] {
          var k :| 1 <= k < |ys| && ys[k] == y;
          assert Less(ys[0], y);
          assert y in xs;
        }
      }
      assert StrictlySorted(xs[1..]) && StrictlySorted(ys[1..]);
      StrictlySortedUnique(xs[1..], ys[1..]);
      assert xs == [xs[0]] + xs[1..] && ys == [ys[0]] + ys[1..];
    }
  }

  /** The columns depend only on which keys occur, not on where or how often. */
  lemma SameKeysSameColumns(a: seq<string>, b: seq<string>)
    requires forall y :: y in a <==> y in b
    ensures SortedUnique(a) == SortedUnique(b)
  {
    StrictlySortedUnique(SortedUnique(a), SortedUnique(b));
  }

  /** What a cell shows: the placeholder `-` or a value. */
  datatype Cell<V> = Dash | Shown(value: V)

  /** `obj[key] ?? '-'` and `obj[key] !== undefined ? obj[key] : '-'`: the placeholder
      exactly when the key is absent; a stored value, 0 included, is shown. */
  function CellOf<V>(obj: seq<Json.Entry<V>>, key: string): (c: Cell<V>)
    ensures c.Dash? <==> key !in Json.Keys(obj)
    ensures c.Shown? ==> Json.Get(obj, key) == Some(c.value)
  {
    match Json.Get(obj, key)
    case None => Dash
    case Some(v) => Shown(v)
  }

  /** A cell showing one field of the stored record. */
  function FieldCell<V, W>(obj: seq<Json.Entry<V>>, key: string, field: V -> W): (c: Cell<W>)
    ensures c.Dash? <==> key !in Json.Keys(obj)
    ensures c.Shown? ==> Json.Get(obj, key).Some? && c.value == field(Json.Get(obj, key).value)
  {
    match Json.Get(obj, key)
    case None => Dash
    case Some(v) => Shown(field(v))
  }
}

/** The route performance table. */
module RoutePerformance {
  import opened Wrappers
  import Json
  import Seqs
  import PeriodColumns

  /** One period's figures for a route. */
  datatype Breakdown = Breakdown(totalDeliveries: int, onTimeDeliveries: int, totalDeliveredQuantity: real)

  datatype RouteData = RouteData(routeId: nat, routeName: string, totalDeliveries: int, onTimeDeliveries: int,
                                 onTimePercent: real, totalDeliveredQuantity: real,
                                 performanceBreakdown: seq<Json.Entry<Breakdown>>)

  datatype Response = Response(period: string, routes: seq<RouteData>)

  function BreakdownKeys(routes: seq<RouteData>): (ks: seq<seq<string>>)
    ensures |ks| == |routes|
    ensures forall i :: 0 <= i < |routes| ==> ks[i] == Json.Keys(routes[i].performanceBreakdown)
  {
    seq(|routes|, i requires 0 <= i < |routes| => Json.Keys(routes[i].performanceBreakdown))
  }

  /** `allPeriods`; `None` is the page before any data arrived. */
  function AllPeriods(data: Option<Response>): (ps: seq<string>)
    ensures PeriodColumns.StrictlySorted(ps)
  {
    match data
    case None => PeriodColumns.SortedUnique([])
    case Some(d) => PeriodColumns.SortedUnique(Seqs.Flatten(BreakdownKeys(d.routes)))
  }

  /** A period is a column exactly when some route has figures for it. */
  lemma PeriodIffSomeRouteHasIt(data: Option<Response>, key: string)
    ensures key in AllPeriods(data) <==>
            data.Some? && exists i :: 0 <= i < |data.value.routes| && key in Json.Keys(data.value.routes[i].performanceBreakdown)
  {
    if data.Some? {
      var ks := BreakdownKeys(data.value.routes);
      Seqs.FlattenMember(ks, key);
      if exists i :: 0 <= i < |ks| && key in ks[i] {
        var i :| 0 <= i < |ks| && key in ks[i];
        assert key in Json.Keys(data.value.routes[i].performanceBreakdown);
      }
    }
  }

  /** No data, or no routes, gives no period columns. */
  lemma NoDataNoPeriods(data: Option<Response>)
    requires data.None? || data.value.routes == []
    ensures AllPeriods(data) == []
  {
    if data.Some? {
      assert Seqs.Flatten(BreakdownKeys(data.value.routes)) == [];
    }
  }

  /** The three cells a route shows under a period: deliveries, on-time deliveries and
      delivered quantity, each `-` exactly when the route has no figures for it. */
  function PeriodCells(route: RouteData, key: string): (cells: (PeriodColumns.Cell<int>, PeriodColumns.Cell<int>, PeriodColumns.Cell<real>))
    ensures var absent := key !in Json.Keys(route.performanceBreakdown);
            (cells.0.Dash? <==> absent) && (cells.1.Dash? <==> absent) && (cells.2.Dash? <==> absent)
    ensures match Json.Get(route.performanceBreakdown, key)
            case None => true
            case Some(b) => cells == (PeriodColumns.Shown(b.totalDeliveries), PeriodColumns.Shown(b.onTimeDeliveries),
                                      PeriodColumns.Shown(b.totalDeliveredQuantity))
  {
    var pb := route.performanceBreakdown;
    (PeriodColumns.FieldCell(pb, key, (b: Breakdown) => b.totalDeliveries),
     PeriodColumns.FieldCell(pb, key, (b: Breakdown) => b.onTimeDeliveries),
     PeriodColumns.FieldCell(pb, key, (b: Breakdown) => b.totalDeliveredQuantity))
  }
}

/** The product movement table. */
module ProductMovementChart {
  import opened Wrappers
  import Json
  import Seqs
  import PeriodColumns

  datatype MovementBreakdown = MovementBreakdown(quantity: seq<Json.Entry<real>>, value: seq<Json.Entry<real>>)

  datatype ProductMovement = ProductMovement(productId: nat, productName: string, totalQuantity: real,
                                             totalValue: real, movementBreakdown: MovementBreakdown)

  datatype Response = Response(period: string, products: seq<ProductMovement>)

  /** Each product's quantity keys followed by its value keys. */
  function ProductKeys(products: seq<ProductMovement>): (ks: seq<seq<string>>)
    ensures |ks| == |products|
    ensures forall i :: 0 <= i < |products| ==>
              ks[i] == Json.Keys(products[i].movementBreakdown.quantity) + Json.Keys(products[i].movementBreakdown.value)
  {
    seq(|products|, i requires 0 <= i < |products| =>
      Json.Keys(products[i].movementBreakdown.quantity) + Json.Keys(products[i].movementBreakdown.value))
  }

  /** Some product has a quantity or a value under `key`. */
  predicate HasKey(products: seq<ProductMovement>, key: string) {
    exists i :: 0 <= i < |products| && (key in Json.Keys(products[i].movementBreakdown.quantity) || key in Json.Keys(products[i].movementBreakdown.value))
  }

  function AllPeriods(data: Option<Response>): (ps: seq<string>)
    ensures PeriodColumns.StrictlySorted(ps)
  {
    match data
    case None => PeriodColumns.SortedUnique([])
    case Some(d) => PeriodColumns.SortedUnique(Seqs.Flatten(ProductKeys(d.products)))
  }

  /** A period is a column exactly when some product has a quantity or a value for it. */
  lemma PeriodIffSomeProductHasIt(data: Option<Response>, key: string)
    ensures key in AllPeriods(data) <==>
            data.Some? && HasKey(data.value.products, key)
  {
    if data.Some? {
      var ks := ProductKeys(data.value.products);
      Seqs.FlattenMember(ks, key);
      if exists i :: 0 <= i < |ks| && key in ks[i] {
        var i :| 0 <= i < |ks| && key in ks[i];
        assert key in Json.Keys(data.value.products[i].movementBreakdown.quantity)
               || key in Json.Keys(data.value.products[i].movementBreakdown.value);
      }
      if HasKey(data.value.products, key) {
        var i :| 0 <= i < |data.value.products| &&
                 (key in Json.Keys(data.value.products[i].movementBreakdown.quantity) || key in Json.Keys(data.value.products[i].movementBreakdown.value));
        assert key in ks[i];
      }
    }
  }

  lemma NoDataNoPeriods(data: Option<Response>)
    requires data.None? || data.value.products == []
    ensures AllPeriods(data) == []
  {
    if data.Some? {
      assert Seqs.Flatten(ProductKeys(data.value.products)) == [];
    }
  }

  /** The quantity and value cells a product shows under a period; a recorded 0 is shown. */
  function PeriodCells(p: ProductMovement, key: string): (cells: (PeriodColumns.Cell<real>, PeriodColumns.Cell<real>))
    ensures cells.0.Dash? <==> key !in Json.Keys(p.movementBreakdown.quantity)
    ensures cells.1.Dash? <==> key !in Json.Keys(p.movementBreakdown.value)
    ensures Json.Get(p.movementBreakdown.quantity, key) == Some(0.0) ==> cells.0 == PeriodColumns.Shown(0.0)
    ensures Json.Get(p.movementBreakdown.value, key) == Some(0.0) ==> cells.1 == PeriodColumns.Shown(0.0)
  {
    (PeriodColumns.CellOf(p.movementBreakdown.quantity, key), PeriodColumns.CellOf(p.movementBreakdown.value, key))
  }
}

/** The top sellers table. */
module TopSellers {
  import opened Wrappers
  import Json
  import Seqs
  import PeriodColumns

  datatype DeliveryBreakdown = DeliveryBreakdown(quantity: seq<Json.Entry<real>>, value: seq<Json.Entry<real>>)

  datatype SellerDelivery = SellerDelivery(sellerId: nat, sellerName: string, totalQuantity: real, totalValue: real,
                                           deliveryBreakdown: DeliveryBreakdown)

  datatype Response = Response(period: string, sellers: seq<SellerDelivery>)

  function SellerKeys(sellers: seq<SellerDelivery>): (ks: seq<seq<string>>)
    ensures |ks| == |sellers|
    ensures forall i :: 0 <= i < |sellers| ==>
              ks[i] == Json.Keys(sellers[i].deliveryBreakdown.quantity) + Json.Keys(sellers[i].deliveryBreakdown.value)
  {
    seq(|sellers|, i requires 0 <= i < |sellers| =>
      Json.Keys(sellers[i].deliveryBreakdown.quantity) + Json.Keys(sellers[i].deliveryBreakdown.value))
  }

  /** Some seller has a quantity or a value under `key`. */
  predicate HasKey(sellers: seq<SellerDelivery>, key: string) {
    exists i :: 0 <= i < |sellers| && (key in Json.Keys(sellers[i].deliveryBreakdown.quantity) || key in Json.Keys(sellers[i].deliveryBreakdown.value))
  }

  function AllPeriods(data: Option<Response>): (ps: seq<string>)
    ensures PeriodColumns.StrictlySorted(ps)
  {
    match data
    case None => PeriodColumns.SortedUnique([])
    case Some(d) => PeriodColumns.SortedUnique(Seqs.Flatten(SellerKeys(d.sellers)))
  }

  /** A period is a column exactly when some seller has a quantity or a value for it. */
  lemma PeriodIffSomeSellerHasIt(data: Option<Response>, key: string)
    ensures key in AllPeriods(data) <==>
            data.Some? && HasKey(data.value.sellers, key)
  {
    if data.Some? {
      var ks := SellerKeys(data.value.sellers);
      Seqs.FlattenMember(ks, key);
      if exists i :: 0 <= i < |ks| && key in ks[i] {
        var i :| 0 <= i < |ks| && key in ks[i];
        assert key in Json.Keys(data.value.sellers[i].deliveryBreakdown.quantity)
               || key in Json.Keys(data.value.sellers[i].deliveryBreakdown.value);
      }
      if HasKey(data.value.sellers, key) {
        var i :| 0 <= i < |data.value.sellers| &&
                 (key in Json.Keys(data.value.sellers[i].deliveryBreakdown.quantity) || key in Json.Keys(data.value.sellers[i].deliveryBreakdown.value));
        assert key in ks[i];
      }
    }
  }

  lemma NoDataNoPeriods(data: Option<Response>)
    requires data.None? || data.value.sellers == []
    ensures AllPeriods(data) == []
  {
    if data.Some? {
      assert Seqs.Flatten(SellerKeys(data.value.sellers)) == [];
    }
  }

  /** The quantity and value cells a seller shows under a period; a recorded 0 is shown. */
  function PeriodCells(s: SellerDelivery, key: string): (cells: (PeriodColumns.Cell<real>, PeriodColumns.Cell<real>))
    ensures cells.0.Dash? <==> key !in Json.Keys(s.deliveryBreakdown.quantity)
    ensures cells.1.Dash? <==> key !in Json.Keys(s.deliveryBreakdown.value)
    ensures Json.Get(s.deliveryBreakdown.quantity, key) == Some(0.0) ==> cells.0 == PeriodColumns.Shown(0.0)
    ensures Json.Get(s.deliveryBreakdown.value, key) == Some(0.0) ==> cells.1 == PeriodColumns.Shown(0.0)
  {
    (PeriodColumns.CellOf(s.deliveryBreakdown.quantity, key), PeriodColumns.CellOf(s.deliveryBreakdown.value, key))
  }
}

/** The balance aging table, which computes its columns once for the header and again for
    every row. */
module BalanceAgingReport {
  import opened Wrappers
  import Json
  import Seqs
  import PeriodColumns

  datatype SellerAging = SellerAging(sellerId: nat, sellerName: string, totalBalance: real,
                                     overdueBreakdown: seq<Json.Entry<real>>)

  function OverdueKeys(sellers: seq<SellerAging>): (ks: seq<seq<string>>)
    ensures |ks| == |sellers|
    ensures forall i :: 0 <= i < |sellers| ==> ks[i] == Json.Keys(sellers[i].overdueBreakdown)
  {
    seq(|sellers|, i requires 0 <= i < |sellers| => Json.Keys(sellers[i].overdueBreakdown))
  }

  /** The header's period columns. */
  function Columns(sellers: seq<SellerAging>): (cs: seq<string>)
    ensures PeriodColumns.StrictlySorted(cs)
  {
    PeriodColumns.SortedUnique(Seqs.Flatten(OverdueKeys(sellers)))
  }

  /** A column appears exactly when some seller has an overdue amount under it. */
  lemma ColumnIffSomeSellerHasIt(sellers: seq<SellerAging>, key: string)
    ensures key in Columns(sellers) <==> exists i :: 0 <= i < |sellers| && key in Json.Keys(sellers[i].overdueBreakdown)
  {
    var ks := OverdueKeys(sellers);
    Seqs.FlattenMember(ks, key);
    if exists i :: 0 <= i < |ks| && key in ks[i] {
      var i :| 0 <= i < |ks| && key in ks[i];
      assert key in Json.Keys(sellers[i].overdueBreakdown);
    }
  }

  /** Listing the sellers in another order gives the same columns. */
  lemma ColumnsIgnoreSellerOrder(a: seq<SellerAging>, b: seq<SellerAging>)
    requires multiset(a) == multiset(b)
    ensures Columns(a) == Columns(b)
  {
    forall key
      ensures key in Seqs.Flatten(OverdueKeys(a)) <==> key in Seqs.Flatten(OverdueKeys(b))
    {
      ColumnIffSomeSellerHasIt(a, key);
      ColumnIffSomeSellerHasIt(b, key);
      Seqs.FlattenMember(OverdueKeys(a), key);
      Seqs.FlattenMember(OverdueKeys(b), key);
      if exists i :: 0 <= i < |a| && key in Json.Keys(a[i].overdueBreakdown) {
        var i :| 0 <= i < |a| && key in Json.Keys(a[i].overdueBreakdown);
        assert a[i] in multiset(b);
        var j :| 0 <= j < |b| && b[j] == a[i];
      }
      if exists j :: 0 <= j < |b| && key in Json.Keys(b[j].overdueBreakdown) {
        var j :| 0 <= j < |b| && key in Json.Keys(b[j].overdueBreakdown);
        assert b[j] in multiset(a);
        var i :| 0 <= i < |a| && a[i] == b[j];
      }
    }
    PeriodColumns.SameKeysSameColumns(Seqs.Flatten(OverdueKeys(a)), Seqs.Flatten(OverdueKeys(b)));
  }

  /** `overdue[key] ? amount : '-'`: the placeholder when the amount is missing or 0. */
  function AgingCell(s: SellerAging, key: string): (c: PeriodColumns.Cell<real>)
    ensures c.Dash? <==> Json.Get(s.overdueBreakdown, key) in {None, Some(0.0)}
    ensures c.Shown? ==> Json.Get(s.overdueBreakdown, key) == Some(c.value) && c.value != 0.0
  {
    match Json.Get(s.overdueBreakdown, key)
    case Some(amount) => if amount != 0.0 then PeriodColumns.Shown(amount) else PeriodColumns.Dash
    case None => PeriodColumns.Dash
  }

  /** A seller's row lines up with the header: the cell at each position is the seller's
      amount under that position's column. */
  function Row(s: SellerAging, sellers: seq<SellerAging>): (cells: seq<PeriodColumns.Cell<real>>)
    ensures |cells| == |Columns(sellers)|
    ensures forall i :: 0 <= i < |cells| ==> cells[i] == AgingCell(s, Columns(sellers)[i])
  {
    var cols := Columns(sellers);
    seq(|cols|, i requires 0 <= i < |cols| => AgingCell(s, cols[i]))
  }

  /** A stored 0 reads differently here than in the movement tables: this table hides it. */
  lemma ZeroIsHiddenHereButShownElsewhere(s: SellerAging, key: string)
    requires Json.Get(s.overdueBreakdown, key) == Some(0.0)
    ensures AgingCell(s, key).Dash?
    ensures PeriodColumns.CellOf(s.overdueBreakdown, key) == PeriodColumns.Shown(0.0)
  {
  }
}
