/** The sales report page: the filtered order query, the per-seller order dialog, the order
    detail view and the route list for the route filter. */
module SalesReport {
  import opened Wrappers
  import Text
  import Json

  datatype SellerOrder = SellerOrder(id: nat, orderNumber: string, deliveryDate: string, status: string,
                                     totalAmount: string)

  datatype Route = Route(id: nat, name: string)

  /** The seller whose orders the dialog shows. */
  datatype SellerRef = SellerRef(name: string, id: nat)

  /** The five filter inputs, as typed. */
  datatype Filters = Filters(fromDate: string, toDate: string, route: string, seller: string, status: string)

  const NoFilters := Filters("", "", "", "", "")

  /** The order list's address up to and including the `?` the filters follow. */
  const OrdersBase := "https://bharatdairy.pythonanywhere.com/apiapp/orders/sales/?"

  const RoutesError := "Could not load routes."
  const OrdersError := "Could not load sales orders."
  const SellerOrdersError := "Could not load sales orders for this seller."
  const OrderDetailsError := "Could not load order details."

  /** `key=value` when the filter is filled in, nothing otherwise; `key` carries its `=`. */
  function Param(key: string, filled: string, value: string): (ps: seq<string>)
    ensures ps == [] <==> filled == ""
  {
    if filled != "" then [key + value] else []
  }

  /** The query parameters, in the fixed order from-date, to-date, route, seller, status;
      only the seller's name goes through `encode` (`encodeURIComponent`). */
  function Params(f: Filters, encode: string -> string): (ps: seq<string>)
    ensures forall i :: 0 <= i < |ps| ==> ps[i] != ""
  {
    Param("delivery_date__gte=", f.fromDate, f.fromDate) + Param("delivery_date__lte=", f.toDate, f.toDate)
    + Param("route=", f.route, f.route) + Param("seller_store=", f.seller, encode(f.seller))
    + Param("status=", f.status, f.status)
  }

  function Filled(s: string): nat {
    if s == "" then 0 else 1
  }

  /** One parameter per filled-in filter. */
  lemma ParamCount(f: Filters, encode: string -> string)
    ensures |Params(f, encode)| == Filled(f.fromDate) + Filled(f.toDate) + Filled(f.route)
                                   + Filled(f.seller) + Filled(f.status)
  {
  }

  /** With no filter filled in, the request goes to the bare address ending in `?`. */
  lemma NoFiltersFetchAll(encode: string -> string)
    ensures OrdersBase + Text.Join(Params(NoFilters, encode), "&") == OrdersBase
  {
    assert Params(NoFilters, encode) == [];
  }

  /** When no filter value (and no encoded seller name) contains `&`, cutting the query at
      `&` gives back exactly the parameters that were joined. */
  lemma QuerySplitsIntoParams(f: Filters, encode: string -> string)
    requires '&' !in f.fromDate && '&' !in f.toDate && '&' !in f.route && '&' !in f.status
    requires '&' !in encode(f.seller)
    requires Params(f, encode) != []
    ensures Text.Split(Text.Join(Params(f, encode), "&"), '&') == Params(f, encode)
  {
    var ps := Params(f, encode);
    forall i | 0 <= i < |ps|
      ensures '&' !in ps[i]
    {
      var a := Param("delivery_date__gte=", f.fromDate, f.fromDate);
      var b := Param("delivery_date__lte=", f.toDate, f.toDate);
      var c := Param("route=", f.route, f.route);
      var d := Param("seller_store=", f.seller, encode(f.seller));
      var e := Param("status=", f.status, f.status);
      assert ps == a + b + c + d + e;
      assert ps[i] in a || ps[i] in b || ps[i] in c || ps[i] in d || ps[i] in e by {
        assert ps[i] in ps;
      }
    }
    Text.SplitJoin(ps, '&');
  }

  /** The seller's name is the only value that goes through the encoder. */
  lemma EncoderOnlyTouchesSeller(f: Filters, e1: string -> string, e2: string -> string)
    requires f.seller == "" || e1(f.seller) == e2(f.seller)
    ensures Params(f, e1) == Params(f, e2)
  {
  }

  /** The seller dialog's request address. */
  function SellerOrdersUrl(id: nat): string {
    "https://bharatdairy.pythonanywhere.com/apiapp/orders/sales/?seller_id=" + Text.DecimalString(id)
  }

  /** The seller's id reads back from the dialog's address. */
  lemma SellerOrdersUrlCarriesId(id: nat)
    ensures var prefix := "https://bharatdairy.pythonanywhere.com/apiapp/orders/sales/?seller_id=";
            |prefix| <= |SellerOrdersUrl(id)| && Text.NumberOf(SellerOrdersUrl(id)[|prefix|..]) == Some(id)
  {
    var prefix := "https://bharatdairy.pythonanywhere.com/apiapp/orders/sales/?seller_id=";
    assert SellerOrdersUrl(id)[|prefix|..] == Text.DecimalString(id);
    Text.NumberOfDecimalString(id);
  }

  class SalesReportPage {
    var sellerModal: Option<SellerRef>
    var sellerOrders: seq<SellerOrder>
    var sellerOrdersError: Option<string>
    var fromDate: string
    var toDate: string
    var route: string
    var seller: string
    var status: string
    /** `None` when the server answered with an object that has no `results`: the page then
        holds that object where the page wants a list. */
    var routes: Option<seq<Route>>
    var routesError: Option<string>
    var orders: seq<SellerOrder>
    var ordersError: Option<string>
    var selectedOrder: Option<SellerOrder>
    var orderDetailsError: Option<string>

    function CurrentFilters(): Filters
      reads this
    {
      Filters(fromDate, toDate, route, seller, status)
    }

    constructor()
      ensures sellerModal.None? && sellerOrders == [] && sellerOrdersError.None?
      ensures CurrentFilters() == NoFilters
      ensures routes == Some([]) && routesError.None? && orders == [] && ordersError.None?
      ensures selectedOrder.None? && orderDetailsError.None?
    {
      sellerModal := None;
      sellerOrders := [];
      sellerOrdersError := None;
      fromDate, toDate, route, seller, status := "", "", "", "", "";
      routes := Some([]);
      routesError := None;
      orders := [];
      ordersError := None;
      selectedOrder := None;
      orderDetailsError := None;
    }

    /** The mount effect `fetchRoutes`; `reply` is `None` when the request fails. */
    method FetchRoutes(reply: Option<Json.ListReply<Route>>)
      modifies this`routes, this`routesError
      ensures reply.Some? ==> routes == Json.ResultsOrBody(reply.value) && routesError.None?
      ensures reply.None? ==> routes == old(routes) && routesError == Some(RoutesError)
    {
      routesError := None;
      if reply.None? {
        routesError := Some(RoutesError);
        return;
      }
      routes := Json.ResultsOrBody(reply.value);
    }

    /** The query string `fetchOrders` assembles from the filter fields, one parameter per
        filled field. */
    method QueryParams(encode: string -> string) returns (params: seq<string>)
      ensures params == Params(CurrentFilters(), encode)
    {
      ghost var f := CurrentFilters();
      params := [];
      if fromDate != "" {
        params := params + ["delivery_date__gte=" + fromDate];
      }
      ghost var ps := Param("delivery_date__gte=", f.fromDate, f.fromDate);
      assert params == ps;
      if toDate != "" {
        params := params + ["delivery_date__lte=" + toDate];
      }
      ps := ps + Param("delivery_date__lte=", f.toDate, f.toDate);
      assert params == ps;
      if route != "" {
        params := params + ["route=" + route];
      }
      ps := ps + Param("route=", f.route, f.route);
      assert params == ps;
      if seller != "" {
        params := params + ["seller_store=" + encode(seller)];
      }
      ps := ps + Param("seller_store=", f.seller, encode(f.seller));
      assert params == ps;
      if status != "" {
        params := params + ["status=" + status];
      }
      ps := ps + Param("status=", f.status, f.status);
    }

    /** `fetchOrders`: the address is built from the filters in their fixed order; on
        success the paginated list replaces the orders, on failure they are kept and the
        error is shown. */
    method FetchOrders(encode: string -> string, reply: Option<Json.ListReply<SellerOrder>>) returns (url: string)
      modifies this`orders, this`ordersError
      ensures url == OrdersBase + Text.Join(Params(CurrentFilters(), encode), "&")
      ensures reply.Some? ==> orders == Json.ResultsOrEmpty(reply.value) && ordersError.None?
      ensures reply.None? ==> orders == old(orders) && ordersError == Some(OrdersError)
    {
      ordersError := None;
      var params := QueryParams(encode);
      url := OrdersBase + Text.Join(params, "&");
      if reply.None? {
        ordersError := Some(OrdersError);
        return;
      }
      orders := Json.ResultsOrEmpty(reply.value);
    }

    /** `handleOpenSellerModal`: the dialog opens on `s` with the previous seller's orders
        cleared, so a failed request shows the error over an empty list. */
    method OpenSellerModal(s: SellerRef, reply: Option<Json.ListReply<SellerOrder>>) returns (url: string)
      modifies this`sellerModal, this`sellerOrders, this`sellerOrdersError
      ensures url == SellerOrdersUrl(s.id)
      ensures sellerModal == Some(s)
      ensures reply.Some? ==> sellerOrders == Json.ResultsOrEmpty(reply.value) && sellerOrdersError.None?
      ensures reply.None? ==> sellerOrders == [] && sellerOrdersError == Some(SellerOrdersError)
    {
      sellerModal := Some(s);
      sellerOrders := [];
      sellerOrdersError := None;
      url := SellerOrdersUrl(s.id);
      if reply.None? {
        sellerOrdersError := Some(SellerOrdersError);
        return;
      }
      sellerOrders := Json.ResultsOrEmpty(reply.value);
    }

    /** `handleViewOrder`: the previous detail is cleared first, so a failure shows none. */
    method ViewOrder(orderId: nat, reply: Option<SellerOrder>) returns (url: string)
      modifies this`selectedOrder, this`orderDetailsError
      ensures url == "https://bharatdairy.pythonanywhere.com/apiapp/orders/sales/" + Text.DecimalString(orderId) + "/"
      ensures selectedOrder == reply
      ensures orderDetailsError == if reply.None? then Some(OrderDetailsError) else None
    {
      selectedOrder := None;
      orderDetailsError := None;
      url := "https://bharatdairy.pythonanywhere.com/apiapp/orders/sales/" + Text.DecimalString(orderId) + "/";
      if reply.None? {
        orderDetailsError := Some(OrderDetailsError);
        return;
      }
      selectedOrder := reply;
    }

    /** The seller dialog's `onOpenChange`: closing it forgets the seller. */
    method SellerModalOpenChange(open: bool)
      modifies this`sellerModal
      ensures sellerModal == if open then old(sellerModal) else None
    {
      if !open {
        sellerModal := None;
      }
    }

    /** The order dialog's `onOpenChange`: closing it forgets the order. */
    method OrderDetailsOpenChange(open: bool)
      modifies this`selectedOrder
      ensures selectedOrder == if open then old(selectedOrder) else None
    {
      if !open {
        selectedOrder := None;
      }
    }
  }
}
