/** The sales dashboard: the sellers of a route, their sales orders for a day, creating an
    order from the general price plan, and editing an order's items. Server replies are
    parameters (`None` when the request fails); the token and the HTTP calls are not
    modelled. Quantities are the strings typed into the form, read with `parseFloat`. */
module SalesDashboard {
  import opened Wrappers
  import opened Text
  import Seqs
  import Quantity

  datatype Seller = Seller(id: nat, storeName: string, route: nat, routeName: string)

  /** An order line; `id`, `productName` and `totalAmount` may be absent. */
  datatype OrderItem = OrderItem(id: Option<nat>, product: nat, productName: Option<string>, quantity: string,
                                 unitPrice: string, totalAmount: Option<string>)

  datatype SalesOrder = SalesOrder(id: nat, orderNumber: string, seller: nat, sellerName: string,
                                   deliveryDate: string, totalAmount: Option<string>, status: Option<string>,
                                   items: Option<seq<OrderItem>>)

  /** One entry of the general price plan. */
  datatype ProductPrice = ProductPrice(product: nat, productName: string, price: string)

  datatype Product = Product(id: nat, name: string)

  /** The lines of a create request and of an update request. */
  datatype CreateLine = CreateLine(product: nat, quantity: string, unitPrice: string)
  datatype EditLine = EditLine(id: Option<nat>, product: nat, productName: Option<string>, quantity: string, unitPrice: string)

  datatype CreateRequest = CreateRequest(seller: nat, deliveryDate: string, status: string, items: seq<CreateLine>)
  datatype EditRequest = EditRequest(id: nat, orderNumber: string, seller: nat, sellerName: string, deliveryDate: string,
                                     totalAmount: Option<string>, status: string, items: seq<EditLine>)

  /** `getSellerOrder`: the first order of that seller. */
  function SellerOrder(orders: seq<SalesOrder>, sellerId: nat): Option<SalesOrder> {
    Seqs.Find(orders, (o: SalesOrder) => o.seller == sellerId)
  }

  /** `filteredSellers`: an empty search shows every seller. */
  function FilteredSellers(sellers: seq<Seller>, search: string): seq<Seller> {
    if search == "" then sellers
    else Seqs.Filter(sellers, (s: Seller) => ContainsIgnoringCase(s.storeName, search))
  }

  /** The create form's lines: one per price-plan entry, nothing typed yet. */
  function ItemsFromPrices(prices: seq<ProductPrice>): (items: seq<OrderItem>)
    ensures |items| == |prices|
    ensures forall i :: 0 <= i < |prices| ==>
              items[i].product == prices[i].product && items[i].quantity == "" && items[i].unitPrice == prices[i].price
  {
    seq(|prices|, i requires 0 <= i < |prices| =>
      OrderItem(None, prices[i].product, Some(prices[i].productName), "", prices[i].price, None))
  }

  /** `items.map((item, i) => i === idx ? {...item, quantity: qty} : item)`. */
  function SetQuantity(items: seq<OrderItem>, idx: int, qty: string): seq<OrderItem> {
    Seqs.UpdateAt(items, idx, (it: OrderItem) => it.(quantity := qty))
  }

  /** `i.quantity && parseFloat(i.quantity) > 0`. */
  predicate Submittable(item: OrderItem) {
    item.quantity != "" && Quantity.Parse(item.quantity).Some? && Quantity.Parse(item.quantity).value > 0
  }

  function Submitted(items: seq<OrderItem>): seq<OrderItem> {
    Seqs.Filter(items, Submittable)
  }

  function CreateLines(items: seq<OrderItem>): seq<CreateLine> {
    var kept := Submitted(items);
    seq(|kept|, i requires 0 <= i < |kept| => CreateLine(kept[i].product, kept[i].quantity, kept[i].unitPrice))
  }

  function EditLines(items: seq<OrderItem>): seq<EditLine> {
    var kept := Submitted(items);
    seq(|kept|, i requires 0 <= i < |kept| =>
      EditLine(kept[i].id, kept[i].product, kept[i].productName, kept[i].quantity, kept[i].unitPrice))
  }

  /** The add-product dropdown: products not yet among the edited lines. */
  function AddableProducts(all: seq<Product>, items: seq<OrderItem>): seq<Product> {
    Seqs.Filter(all, (p: Product) => !Seqs.Any(items, (i: OrderItem) => i.product == p.id))
  }

  /** `{...o, ...data}`: every field the reply carries wins; a field it lacks keeps the
      listed order's value. */
  function Merge(o: SalesOrder, data: SalesOrder): SalesOrder {
    SalesOrder(data.id, data.orderNumber, data.seller, data.sellerName, data.deliveryDate,
               if data.totalAmount.Some? then data.totalAmount else o.totalAmount,
               if data.status.Some? then data.status else o.status,
               if data.items.Some? then data.items else o.items)
  }

  function MergeInto(orders: seq<SalesOrder>, data: SalesOrder): seq<SalesOrder> {
    seq(|orders|, i requires 0 <= i < |orders| => if orders[i].id == data.id then Merge(orders[i], data) else orders[i])
  }

  /** `selectedOrder.status || 'draft'`. */
  function StatusOrDraft(status: Option<string>): string {
    if status.Some? && status.value != "" then status.value else "draft"
  }

  /** The add-product guard as written: `!addProductId || !addProductQty ||
      parseFloat(addProductQty) <= 0` returns early. An id of 0 is falsy; a quantity that
      is NaN compares false with 0 and so passes. */
  predicate AddGuardPasses(productId: Option<nat>, qty: string) {
    productId.Some? && productId.value != 0 && qty != ""
    && !(Quantity.Parse(qty).Some? && Quantity.Parse(qty).value <= 0)
  }

  /** Where the price of a product to add comes from: the cached plan, else the plan fetched
      again (`None` when that request fails). `Found("", "")` is a plan without the product. */
  datatype PriceLookup = Found(price: string, name: string) | FetchFailed

  function LookupPrice(cached: seq<ProductPrice>, refetched: Option<seq<ProductPrice>>, product: nat): PriceLookup {
    match Seqs.Find(cached, (p: ProductPrice) => p.product == product)
    case Some(p) => Found(p.price, p.productName)
    case None =>
      match refetched
      case None => FetchFailed
      case Some(plan) =>
        match Seqs.Find(plan, (p: ProductPrice) => p.product == product)
        case Some(p) => Found(p.price, p.productName)
        case None => Found("", "")
  }

  /** What the add guard lets through: a non-zero product id and a non-empty quantity, and
      then exactly a quantity that reads as NaN or as a number above zero. */
  lemma AddGuardCases(productId: Option<nat>, qty: string)
    ensures AddGuardPasses(productId, qty) ==> productId.Some? && productId.value != 0 && qty != ""
    ensures productId.Some? && productId.value != 0 && qty != "" ==>
              (AddGuardPasses(productId, qty) <==> Quantity.Parse(qty).None? || Quantity.Parse(qty).value > 0)
  {
  }

  /** Some entry of the plan prices `product`. */
  predicate HasPrice(plan: seq<ProductPrice>, product: nat) {
    exists i :: 0 <= i < |plan| && plan[i].product == product
  }

  /** The lookup holds the price and name of the plan's FIRST entry for `product`, if any. */
  predicate FirstPrice(plan: seq<ProductPrice>, product: nat, lookup: PriceLookup) {
    forall k :: 0 <= k < |plan| && plan[k].product == product && (forall j :: 0 <= j < k ==> plan[j].product != product) ==>
      lookup == Found(plan[k].price, plan[k].productName)
  }

  /** The cases of the price lookup: the first cached entry wins; without one, a failed
      refetch is the only failure, the refetched plan's first entry comes next, and a plan
      without the product gives empty strings. */
  lemma LookupPriceCases(cached: seq<ProductPrice>, refetched: Option<seq<ProductPrice>>, product: nat)
    ensures LookupPrice(cached, refetched, product).FetchFailed? <==> !HasPrice(cached, product) && refetched.None?
    ensures FirstPrice(cached, product, LookupPrice(cached, refetched, product))
    ensures !HasPrice(cached, product) && refetched.Some? ==>
              FirstPrice(refetched.value, product, LookupPrice(cached, refetched, product))
    ensures !HasPrice(cached, product) && refetched.Some? && !HasPrice(refetched.value, product) ==>
              LookupPrice(cached, refetched, product) == Found("", "")
  {
    FindFirstPrice(cached, product);
    if refetched.Some? {
      FindFirstPrice(refetched.value, product);
    }
  }

  /** `find` by product agrees with the first matching entry, and fails exactly when none matches. */
  lemma FindFirstPrice(plan: seq<ProductPrice>, product: nat)
    ensures Seqs.Find(plan, (p: ProductPrice) => p.product == product).None? <==> !HasPrice(plan, product)
    ensures forall k :: 0 <= k < |plan| && plan[k].product == product && (forall j :: 0 <= j < k ==> plan[j].product != product) ==>
              Seqs.Find(plan, (p: ProductPrice) => p.product == product) == Some(plan[k])
  {
    var f := (p: ProductPrice) => p.product == product;
    forall k | 0 <= k < |plan| && plan[k].product == product && (forall j :: 0 <= j < k ==> plan[j].product != product)
      ensures Seqs.Find(plan, f) == Some(plan[k])
    {
      Seqs.FindFirst(plan, f, k);
    }
  }

  /** The line appended for a product: the plan's name, else the catalogue's, else ''. */
  function AddedItem(product: nat, qty: string, price: string, planName: string, all: seq<Product>): OrderItem {
    var catalogue := match Seqs.Find(all, (p: Product) => p.id == product)
                     case Some(p) => p.name
                     case None => "";
    OrderItem(None, product, Some(Quantity.OrElse(planName, catalogue)), qty, price, None)
  }

  datatype AddOutcome = NotAttempted | PriceFetchFailed | NoPrice | Added

  // ---- Properties ----

  /** `getSellerOrder` finds nothing exactly when the seller has no order, and otherwise the
      first order of that seller. */
  lemma SellerOrderIsFirst(orders: seq<SalesOrder>, sellerId: nat)
    ensures SellerOrder(orders, sellerId).None? <==> forall i :: 0 <= i < |orders| ==> orders[i].seller != sellerId
    ensures SellerOrder(orders, sellerId).Some? ==>
              exists i :: 0 <= i < |orders| && orders[i] == SellerOrder(orders, sellerId).value
                          && orders[i].seller == sellerId && forall j :: 0 <= j < i ==> orders[j].seller != sellerId
  {
  }

  /** The seller search keeps, in order, exactly the sellers whose store name contains the
      term; the empty search keeps all. */
  lemma FilteredSellersAreMatches(sellers: seq<Seller>, search: string)
    ensures Seqs.IsSubsequence(FilteredSellers(sellers, search), sellers)
    ensures forall i :: 0 <= i < |sellers| && ContainsIgnoringCase(sellers[i].storeName, search) ==>
              sellers[i] in FilteredSellers(sellers, search)
    ensures forall s :: s in FilteredSellers(sellers, search) ==> ContainsIgnoringCase(s.storeName, search)
  {
    if search == "" {
      forall s: Seller { EmptyTermMatches(s.storeName); }
      SubsequenceOfItself(sellers);
    } else {
      Seqs.FilterIsSubsequence(sellers, (s: Seller) => ContainsIgnoringCase(s.storeName, search));
    }
  }

  lemma {:induction false} SubsequenceOfItself<T>(s: seq<T>)
    ensures Seqs.IsSubsequence(s, s)
  {
    if s != [] {
      SubsequenceOfItself(s[1..]);
    }
  }

  /** A quantity edit changes that line's quantity and nothing else. */
  lemma SetQuantityChangesOneLine(items: seq<OrderItem>, idx: int, qty: string)
    ensures |SetQuantity(items, idx, qty)| == |items|
    ensures forall i :: 0 <= i < |items| && i != idx ==> SetQuantity(items, idx, qty)[i] == items[i]
    ensures 0 <= idx < |items| ==> SetQuantity(items, idx, qty)[idx] == items[idx].(quantity := qty)
  {
  }

  /** The submitted lines are exactly, and in order, the lines with a positive quantity. */
  lemma SubmittedAreThePositiveLines(items: seq<OrderItem>)
    ensures Seqs.IsSubsequence(Submitted(items), items)
    ensures forall i :: 0 <= i < |Submitted(items)| ==> Submittable(Submitted(items)[i])
    ensures forall i :: 0 <= i < |items| && Submittable(items[i]) ==> items[i] in Submitted(items)
    ensures forall x :: multiset(Submitted(items))[x] == if Submittable(x) then multiset(items)[x] else 0
  {
    Seqs.FilterIsSubsequence(items, Submittable);
    forall x { Seqs.FilterCount(items, Submittable, x); }
  }

  /** A freshly opened create form submits nothing: every quantity is still empty. */
  lemma FreshFormSubmitsNothing(prices: seq<ProductPrice>)
    ensures Submitted(ItemsFromPrices(prices)) == []
  {
    var items := ItemsFromPrices(prices);
    forall x
      ensures multiset(Submitted(items))[x] == 0
    {
      Seqs.FilterCount(items, Submittable, x);
    }
    assert multiset(Submitted(items)) == multiset{};
  }

  /** The dropdown offers a catalogue product exactly when no edited line has its id. */
  lemma AddableProductsExact(all: seq<Product>, items: seq<OrderItem>, p: Product)
    ensures p in AddableProducts(all, items) <==> p in all && forall i :: 0 <= i < |items| ==> items[i].product != p.id
  {
    if p in all && forall i :: 0 <= i < |items| ==> items[i].product != p.id {
      var k :| 0 <= k < |all| && all[k] == p;
    }
  }

  /** Once a product is added it leaves the dropdown. */
  lemma AddedProductLeavesDropdown(all: seq<Product>, items: seq<OrderItem>, item: OrderItem, p: Product)
    requires p.id == item.product
    ensures p !in AddableProducts(all, items + [item])
  {
    AddableProductsExact(all, items + [item], p);
    assert (items + [item])[|items|].product == p.id;
  }

  /** The guard lets an unreadable quantity through, but such a line is dropped again when
      the edit is saved. */
  lemma UnreadableQuantityIsNotSaved(items: seq<OrderItem>, item: OrderItem, id: nat)
    requires id != 0 && item.quantity != "" && Quantity.Parse(item.quantity).None?
    ensures AddGuardPasses(Some(id), item.quantity)
    ensures Submitted(items + [item]) == Submitted(items)
  {
    Seqs.FilterAppend(items, [item], Submittable);
    assert Seqs.Filter([item], Submittable) == [];
  }

  /** A save merges the reply into the orders with its id and leaves the others alone. */
  lemma MergeIntoOnlyMatching(orders: seq<SalesOrder>, data: SalesOrder)
    ensures |MergeInto(orders, data)| == |orders|
    ensures forall i :: 0 <= i < |orders| && orders[i].id != data.id ==> MergeInto(orders, data)[i] == orders[i]
    ensures forall i :: 0 <= i < |orders| && orders[i].id == data.id ==>
              var m := MergeInto(orders, data)[i];
              m.id == data.id && m.orderNumber == data.orderNumber && m.seller == data.seller
              && m.sellerName == data.sellerName && m.deliveryDate == data.deliveryDate
              && (data.totalAmount.Some? ==> m.totalAmount == data.totalAmount)
              && (data.totalAmount.None? ==> m.totalAmount == orders[i].totalAmount)
              && (data.status.Some? ==> m.status == data.status) && (data.status.None? ==> m.status == orders[i].status)
              && (data.items.Some? ==> m.items == data.items) && (data.items.None? ==> m.items == orders[i].items)
  {
  }

  class SalesDashboardPage {
    var sellers: seq<Seller>
    var salesOrders: seq<SalesOrder>
    var sellerSearch: string
    var selectedDate: Option<string>
    var selectedOrder: Option<SalesOrder>
    var createOrderSeller: Option<Seller>
    var productPrices: seq<ProductPrice>
    var orderItems: seq<OrderItem>
    var editMode: bool
    var editOrderItems: seq<OrderItem>
    var editOrderStatus: string
    var allProducts: seq<Product>
    var addProductId: Option<nat>
    var addProductQty: string

    constructor(today: string)
      ensures sellers == [] && salesOrders == [] && sellerSearch == "" && selectedDate == Some(today)
      ensures selectedOrder == None && createOrderSeller == None && productPrices == [] && orderItems == []
      ensures !editMode && editOrderItems == [] && editOrderStatus == "draft" && allProducts == []
      ensures addProductId == None && addProductQty == ""
    {
      sellers, salesOrders, sellerSearch, selectedDate := [], [], "", Some(today);
      selectedOrder, createOrderSeller, productPrices, orderItems := None, None, [], [];
      editMode, editOrderItems, editOrderStatus, allProducts := false, [], "draft", [];
      addProductId, addProductQty := None, "";
    }

    /** `handleSellerClick`: opens the seller's order when there is one. */
    method HandleSellerClick(seller: Seller)
      modifies this`selectedOrder
      ensures SellerOrder(salesOrders, seller.id).Some? ==> selectedOrder == SellerOrder(salesOrders, seller.id)
      ensures SellerOrder(salesOrders, seller.id).None? ==> selectedOrder == old(selectedOrder)
    {
      var order := SellerOrder(salesOrders, seller.id);
      if order.Some? {
        selectedOrder := order;
      }
    }

    /** A click on a seller's row: its order opens when it has one, otherwise the create
        dialog opens for the seller. */
    method SellerRowClick(seller: Seller)
      modifies this`selectedOrder, this`createOrderSeller
      ensures SellerOrder(salesOrders, seller.id).Some? ==>
                selectedOrder == SellerOrder(salesOrders, seller.id) && createOrderSeller == old(createOrderSeller)
      ensures SellerOrder(salesOrders, seller.id).None? ==>
                createOrderSeller == Some(seller) && selectedOrder == old(selectedOrder)
    {
      if SellerOrder(salesOrders, seller.id).Some? {
        HandleSellerClick(seller);
      } else {
        createOrderSeller := Some(seller);
      }
    }

    /** The order dialog's `onOpenChange`: edit mode always ends, and closing forgets the order. */
    method OrderDialogOpenChange(open: bool)
      modifies this`editMode, this`selectedOrder
      ensures !editMode
      ensures selectedOrder == if open then old(selectedOrder) else None
    {
      editMode := false;
      if !open {
        selectedOrder := None;
      }
    }

    /** The Edit and Cancel buttons of the order dialog. */
    method SetEditMode(on: bool)
      modifies this`editMode
      ensures editMode == on
    {
      editMode := on;
    }

    /** The create dialog's `onOpenChange` and its Cancel button: closing forgets the seller. */
    method CreateDialogOpenChange(open: bool)
      modifies this`createOrderSeller
      ensures createOrderSeller == if open then old(createOrderSeller) else None
    {
      if !open {
        createOrderSeller := None;
      }
    }

    /** The price-plan effect of the create dialog, which runs only once a seller is chosen;
        `prices` is the plan's `product_prices` (an absent list is empty), `None` when the
        request fails. */
    method LoadGeneralPrices(prices: Option<seq<ProductPrice>>)
      modifies this`productPrices, this`orderItems
      ensures createOrderSeller.Some? && prices.Some? ==>
                productPrices == prices.value && orderItems == ItemsFromPrices(prices.value)
      ensures !(createOrderSeller.Some? && prices.Some?) ==>
                productPrices == old(productPrices) && orderItems == old(orderItems)
    {
      if createOrderSeller.Some? && prices.Some? {
        productPrices := prices.value;
        orderItems := ItemsFromPrices(prices.value);
      }
    }

    /** `handleItemQtyChange`. */
    method HandleItemQtyChange(idx: int, qty: string)
      modifies this`orderItems
      ensures orderItems == SetQuantity(old(orderItems), idx, qty)
    {
      orderItems := SetQuantity(orderItems, idx, qty);
    }

    /** `handleCreateOrder`: `sent` is the request body, `None` when nothing is sent. */
    method HandleCreateOrder(reply: Option<SalesOrder>) returns (sent: Option<CreateRequest>)
      modifies this`selectedOrder, this`createOrderSeller, this`salesOrders
      ensures old(createOrderSeller).None? || selectedDate.None? || Submitted(orderItems) == [] ==>
                sent == None && selectedOrder == old(selectedOrder) && createOrderSeller == old(createOrderSeller)
                && salesOrders == old(salesOrders)
      ensures old(createOrderSeller).Some? && selectedDate.Some? && Submitted(orderItems) != [] ==>
                sent == Some(CreateRequest(old(createOrderSeller).value.id, selectedDate.value, "draft", CreateLines(orderItems)))
                && (reply.Some? ==> selectedOrder == reply && createOrderSeller == None && salesOrders == old(salesOrders) + [reply.value])
                && (reply.None? ==> selectedOrder == old(selectedOrder) && createOrderSeller == old(createOrderSeller)
                                    && salesOrders == old(salesOrders))
    {
      if createOrderSeller.None? || selectedDate.None? {
        return None;
      }
      var lines := CreateLines(orderItems);
      if |lines| == 0 {
        return None;
      }
      sent := Some(CreateRequest(createOrderSeller.value.id, selectedDate.value, "draft", lines));
      if reply.Some? {
        selectedOrder := reply;
        createOrderSeller := None;
        salesOrders := salesOrders + [reply.value];
      }
    }

    /** The effect that copies the selected order into the edit form. */
    method SyncEditForm()
      modifies this`editOrderItems, this`editOrderStatus
      ensures editMode && selectedOrder.Some? ==>
                editOrderItems == selectedOrder.value.items.GetOr([])
                && editOrderStatus == StatusOrDraft(selectedOrder.value.status)
      ensures !(editMode && selectedOrder.Some?) ==>
                editOrderItems == old(editOrderItems) && editOrderStatus == old(editOrderStatus)
    {
      if editMode && selectedOrder.Some? {
        editOrderItems := selectedOrder.value.items.GetOr([]);
        editOrderStatus := StatusOrDraft(selectedOrder.value.status);
      }
    }

    /** `handleEditItemQtyChange`. */
    method HandleEditItemQtyChange(idx: int, qty: string)
      modifies this`editOrderItems
      ensures editOrderItems == SetQuantity(old(editOrderItems), idx, qty)
    {
      editOrderItems := SetQuantity(editOrderItems, idx, qty);
    }

    /** `handleSaveEdit`: the order's own fields, the edited status and the positive lines. */
    method HandleSaveEdit(reply: Option<SalesOrder>) returns (sent: Option<EditRequest>)
      modifies this`selectedOrder, this`editMode, this`salesOrders
      ensures old(selectedOrder).None? || Submitted(editOrderItems) == [] ==>
                sent == None && selectedOrder == old(selectedOrder) && editMode == old(editMode) && salesOrders == old(salesOrders)
      ensures old(selectedOrder).Some? && Submitted(editOrderItems) != [] ==>
                var o := old(selectedOrder).value;
                sent == Some(EditRequest(o.id, o.orderNumber, o.seller, o.sellerName, o.deliveryDate, o.totalAmount,
                                         editOrderStatus, EditLines(editOrderItems)))
                && (reply.Some? ==> selectedOrder == reply && !editMode && salesOrders == MergeInto(old(salesOrders), reply.value))
                && (reply.None? ==> selectedOrder == old(selectedOrder) && editMode == old(editMode) && salesOrders == old(salesOrders))
    {
      if selectedOrder.None? {
        return None;
      }
      var lines := EditLines(editOrderItems);
      if |lines| == 0 {
        return None;
      }
      var o := selectedOrder.value;
      sent := Some(EditRequest(o.id, o.orderNumber, o.seller, o.sellerName, o.deliveryDate, o.totalAmount, editOrderStatus, lines));
      if reply.Some? {
        selectedOrder := reply;
        editMode := false;
        salesOrders := MergeInto(salesOrders, reply.value);
      }
    }

    /** The two early returns of `handleAddProductToOrder`: no product or quantity chosen,
        or a quantity that reads as a number not above zero. */
    method CheckAddGuard() returns (ok: bool)
      ensures ok == AddGuardPasses(addProductId, addProductQty)
    {
      if addProductId.None? || addProductId.value == 0 || addProductQty == "" {
        return false;
      }
      var q := Quantity.Parse(addProductQty);
      ok := !(q.Some? && q.value <= 0);
    }

    /** The price lookup of `handleAddProductToOrder`: the cached plan first, else the plan
        fetched again; a plan without the product gives an empty price and name. */
    method ResolvePrice(product: nat, refetched: Option<seq<ProductPrice>>) returns (lookup: PriceLookup)
      ensures lookup == LookupPrice(productPrices, refetched, product)
    {
      var cached := Seqs.Find(productPrices, (p: ProductPrice) => p.product == product);
      if cached.Some? {
        return Found(cached.value.price, cached.value.productName);
      }
      if refetched.None? {
        return FetchFailed;
      }
      var found := Seqs.Find(refetched.value, (p: ProductPrice) => p.product == product);
      if found.Some? {
        return Found(found.value.price, found.value.productName);
      }
      return Found("", "");
    }

    /** `handleAddProductToOrder`; `refetched` is the price plan fetched again when the cached
        one lacks the product. */
    method HandleAddProductToOrder(refetched: Option<seq<ProductPrice>>) returns (outcome: AddOutcome)
      modifies this`editOrderItems, this`addProductId, this`addProductQty
      ensures outcome != Added ==>
                editOrderItems == old(editOrderItems) && addProductId == old(addProductId) && addProductQty == old(addProductQty)
      ensures outcome == NotAttempted <==> !AddGuardPasses(old(addProductId), old(addProductQty))
      ensures AddGuardPasses(old(addProductId), old(addProductQty)) ==>
                match LookupPrice(productPrices, refetched, old(addProductId).value)
                case FetchFailed => outcome == PriceFetchFailed
                case Found(price, name) =>
                  if price == "" then outcome == NoPrice
                  else outcome == Added
                       && editOrderItems == old(editOrderItems) + [AddedItem(old(addProductId).value, old(addProductQty), price, name, allProducts)]
                       && addProductId == None && addProductQty == ""
    {
      var ok := CheckAddGuard();
      if !ok {
        return NotAttempted;
      }
      var product := addProductId.value;
      var lookup := ResolvePrice(product, refetched);
      if lookup.FetchFailed? {
        return PriceFetchFailed;
      }
      if lookup.price == "" {
        return NoPrice;
      }
      editOrderItems := editOrderItems + [AddedItem(product, addProductQty, lookup.price, lookup.name, allProducts)];
      addProductId := None;
      addProductQty := "";
      outcome := Added;
    }
  }
}
