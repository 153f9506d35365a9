/** The search-and-expand behaviour shared by the delivery, loading and sales order lists:
    a search becomes at most one query parameter, the query is added to the list's address
    only when there is one, and one order at a time is expanded. */
module OrderSearch {
  import opened Wrappers
  import Text

  /** `fetchOrders(query)`'s address: `?query` is appended only when there is a query. */
  function FetchUrl(base: string, query: string): string {
    if query != "" then base + "?" + query else base
  }

  /** Cutting the address at `?` gives the base back, and the query when there is one. */
  lemma FetchUrlSplitsAtQuestionMark(base: string, query: string)
    requires '?' !in base && '?' !in query
    ensures Text.Split(FetchUrl(base, query), '?') == if query == "" then [base] else [base, query]
  {
    if query == "" {
      Text.SplitJoin([base], '?');
    } else {
      assert Text.Join([base, query], "?") == base + "?" + query;
      Text.SplitJoin([base, query], '?');
    }
  }

  /** `handleSearch`'s query: none for an empty term, else `name=` and the encoded term. */
  function SearchQuery(name: string, term: string, encode: string -> string): string {
    if term == "" then "" else name + "=" + encode(term)
  }

  /** A search sends a query exactly when the term is not empty, and the query is one
      parameter whose name and value read back when the query is cut at `&` and `=`. */
  lemma SearchQueryIsOneParameter(name: string, term: string, encode: string -> string)
    requires name != "" && '&' !in name && '=' !in name
    requires '&' !in encode(term) && '=' !in encode(term)
    ensures SearchQuery(name, term, encode) == "" <==> term == ""
    ensures term != "" ==>
              Text.Split(SearchQuery(name, term, encode), '&') == [SearchQuery(name, term, encode)]
              && Text.Split(SearchQuery(name, term, encode), '=') == [name, encode(term)]
  {
    if term != "" {
      var q := name + "=" + encode(term);
      assert '&' !in q;
      Text.SplitJoin([q], '&');
      assert Text.Join([name, encode(term)], "=") == q;
      Text.SplitJoin([name, encode(term)], '=');
    }
  }

  /** `toggleExpand`: clicking the expanded order collapses it; clicking any other order
      expands that one instead, so at most one order is ever expanded. */
  function ToggleExpand(prev: Option<nat>, id: nat): (r: Option<nat>)
    ensures r == Some(id) <==> prev != Some(id)
    ensures r != Some(id) ==> r.None?
  {
    if prev == Some(id) then None else Some(id)
  }

  /** Clicking the same order twice leaves it expanded only if it started expanded. */
  lemma ToggleTwice(prev: Option<nat>, id: nat)
    ensures ToggleExpand(ToggleExpand(prev, id), id) == if prev == Some(id) then Some(id) else None
  {
  }
}

/** The delivery-order list. */
module DeliveryOrders {
  import opened Wrappers
  import Text
  import Json
  import OrderSearch

  datatype DeliveryOrder = DeliveryOrder(id: nat, orderNumber: string, routeName: string, deliveryDate: string,
                                         sellerStoreName: string, status: string)

  datatype SearchType = RouteName | DeliveryDate | SellerStoreName

  const Endpoint := "https://bharatdairy.pythonanywhere.com/apiapp/orders/delivery/"

  function ParamName(t: SearchType): (name: string)
    ensures name != "" && '&' !in name && '=' !in name
  {
    match t
    case RouteName => "route_name"
    case DeliveryDate => "delivery_date"
    case SellerStoreName => "seller_store_name"
  }

  class DeliveryOrdersPage {
    var orders: seq<DeliveryOrder>
    var searchTerm: string
    var searchType: SearchType
    var expandedOrderId: Option<nat>

    constructor()
      ensures orders == [] && searchTerm == "" && searchType == RouteName && expandedOrderId.None?
    {
      orders := [];
      searchTerm := "";
      searchType := RouteName;
      expandedOrderId := None;
    }

    /** `handleSearch` followed by `fetchOrders`: the address fetched (none without a
        token), and the orders taken from `reply` (`None` when the request fails). */
    method HandleSearch(token: Option<string>, reply: Option<Json.ListReply<DeliveryOrder>>, encode: string -> string)
      returns (url: Option<string>)
      modifies this`orders
      ensures url == if Text.Present(token)
                     then Some(OrderSearch.FetchUrl(Endpoint, OrderSearch.SearchQuery(ParamName(searchType), searchTerm, encode)))
                     else None
      ensures orders == if Text.Present(token) && reply.Some? then Json.BodyOrResults(reply.value) else old(orders)
    {
      var query := "";
      if searchTerm != "" {
        var name := "";
        match searchType {
          case RouteName => name := "route_name";
          case DeliveryDate => name := "delivery_date";
          case SellerStoreName => name := "seller_store_name";
        }
        query := name + "=" + encode(searchTerm);
      }
      if !Text.Present(token) {
        return None;
      }
      var address := Endpoint;
      if query != "" {
        address := address + "?" + query;
      }
      url := Some(address);
      if reply.Some? {
        var data := reply.value;
        if data.ArrayBody? {
          orders := data.items;
        } else {
          orders := data.results.GetOr([]);
        }
      }
    }

    method ToggleExpand(id: nat)
      modifies this`expandedOrderId
      ensures expandedOrderId == OrderSearch.ToggleExpand(old(expandedOrderId), id)
    {
      expandedOrderId := if expandedOrderId == Some(id) then None else Some(id);
    }
  }
}

/** The loading-order list. */
module LoadingOrders {
  import opened Wrappers
  import Text
  import Json
  import OrderSearch

  datatype LoadingOrder = LoadingOrder(id: nat, orderNumber: string, route: nat, routeName: string,
                                       loadingDate: string, status: string)

  datatype SearchType = RouteName | LoadingDate

  const Endpoint := "https://bharatdairy.pythonanywhere.com/apiapp/orders/loading/"

  function ParamName(t: SearchType): (name: string)
    ensures name != "" && '&' !in name && '=' !in name
  {
    match t
    case RouteName => "route_name"
    case LoadingDate => "loading_date"
  }

  class LoadingOrdersPage {
    var orders: seq<LoadingOrder>
    var searchTerm: string
    var searchType: SearchType
    var expandedOrderId: Option<nat>

    constructor()
      ensures orders == [] && searchTerm == "" && searchType == RouteName && expandedOrderId.None?
    {
      orders := [];
      searchTerm := "";
      searchType := RouteName;
      expandedOrderId := None;
    }

    /** `handleSearch` followed by `fetchOrders`; only a paginated body's list is kept. */
    method HandleSearch(token: Option<string>, reply: Option<Json.ListReply<LoadingOrder>>, encode: string -> string)
      returns (url: Option<string>)
      modifies this`orders
      ensures url == if Text.Present(token)
                     then Some(OrderSearch.FetchUrl(Endpoint, OrderSearch.SearchQuery(ParamName(searchType), searchTerm, encode)))
                     else None
      ensures orders == if Text.Present(token) && reply.Some? then Json.ResultsOrEmpty(reply.value) else old(orders)
    {
      var query := "";
      if searchTerm != "" {
        var name := "";
        match searchType {
          case RouteName => name := "route_name";
          case LoadingDate => name := "loading_date";
        }
        query := name + "=" + encode(searchTerm);
      }
      if !Text.Present(token) {
        return None;
      }
      var address := Endpoint;
      if query != "" {
        address := address + "?" + query;
      }
      url := Some(address);
      if reply.Some? {
        var data := reply.value;
        if data.ObjectBody? && data.results.Some? {
          orders := data.results.value;
        } else {
          orders := [];
        }
      }
    }

    method ToggleExpand(id: nat)
      modifies this`expandedOrderId
      ensures expandedOrderId == OrderSearch.ToggleExpand(old(expandedOrderId), id)
    {
      expandedOrderId := if expandedOrderId == Some(id) then None else Some(id);
    }
  }
}

/** The sales-order list. */
module SalesOrders {
  import opened Wrappers
  import Text
  import Json
  import OrderSearch

  datatype SalesOrder = SalesOrder(id: nat, orderNumber: string, seller: nat, sellerName: string,
                                   deliveryDate: string, status: string)

  datatype SearchType = RouteName | Route | SellerStore | DeliveryDate

  const Endpoint := "https://bharatdairy.pythonanywhere.com/apiapp/orders/sales/"

  function ParamName(t: SearchType): (name: string)
    ensures name != "" && '&' !in name && '=' !in name
  {
    match t
    case RouteName => "route_name"
    case Route => "route"
    case SellerStore => "seller_store"
    case DeliveryDate => "delivery_date"
  }

  /** The four search types name four different parameters. */
  lemma ParamNamesDistinct(a: SearchType, b: SearchType)
    ensures ParamName(a) == ParamName(b) ==> a == b
  {
  }

  class SalesOrdersPage {
    /** `None` stands for `undefined`: the page stores `data.results` as it comes. */
    var orders: Option<seq<SalesOrder>>
    var searchTerm: string
    var searchType: SearchType

    constructor()
      ensures orders == Some([]) && searchTerm == "" && searchType == RouteName
    {
      orders := Some([]);
      searchTerm := "";
      searchType := RouteName;
    }

    /** `handleSearch` followed by `fetchOrders`: on success the orders become the body's
        `results` as they are; on failure they stay as they were. */
    method HandleSearch(token: Option<string>, reply: Option<Json.ListReply<SalesOrder>>, encode: string -> string)
      returns (url: Option<string>)
      modifies this`orders
      ensures url == if Text.Present(token)
                     then Some(OrderSearch.FetchUrl(Endpoint, OrderSearch.SearchQuery(ParamName(searchType), searchTerm, encode)))
                     else None
      ensures orders == if Text.Present(token) && reply.Some? then Json.Results(reply.value) else old(orders)
    {
      var query := "";
      if searchTerm != "" {
        var name := "";
        match searchType {
          case RouteName => name := "route_name";
          case Route => name := "route";
          case SellerStore => name := "seller_store";
          case DeliveryDate => name := "delivery_date";
        }
        query := name + "=" + encode(searchTerm);
      }
      if !Text.Present(token) {
        return None;
      }
      var address := Endpoint;
      if query != "" {
        address := address + "?" + query;
      }
      url := Some(address);
      if reply.Some? {
        orders := Json.Results(reply.value);
      }
    }
  }
}
