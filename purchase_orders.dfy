/** The line items of a purchase order, shared by the purchase-order page and the
    purchase-order dialog: a line's total is its sales quantity plus its extra quantity,
    written with three decimals. */
module PurchaseOrderItems {
  import opened Wrappers
  import opened Text
  import Seqs
  import Quantity

  /** A line; `id` is present only for a line of an order being edited. */
  datatype Item = Item(id: Option<nat>, productId: string, productName: string, salesQuantity: string,
                       extraQuantity: string, remainingQuantity: string, totalQuantity: string)

  datatype Product = Product(id: string, name: string, code: string, category: string, price: string)

  datatype AddProductForm = AddProductForm(productId: string, salesQuantity: string, extraQuantity: string,
                                           remainingQuantity: string)

  const EmptyAddForm := AddProductForm("", "", "", "")

  datatype DeliveryTeam = DeliveryTeam(id: nat, name: string, route: nat, routeName: string, distributor: nat,
                                       distributorName: string)

  /** The existing-order check's answer (`exists`); `items` is read only when the order exists. */
  datatype ExistingOrder = ExistingOrder(found: bool, orderId: Option<nat>, items: seq<Item>)

  const NoExistingOrder := ExistingOrder(false, None, [])

  /** A line of the create request: the six fields of the item, unchanged. */
  datatype CreateLine = CreateLine(productId: string, productName: string, salesQuantity: string,
                                   extraQuantity: string, remainingQuantity: string, totalQuantity: string)

  /** The create request; `Number(...)` of a form string may be NaN (`None`). */
  datatype CreateRequest = CreateRequest(route: Option<nat>, deliveryTeam: Option<nat>, deliveryDate: string,
                                         notes: string, items: seq<CreateLine>)

  /** `(parseFloat(sales) + parseFloat(extra || '0')).toFixed(3)`. */
  function LineTotal(sales: string, extra: string): string {
    Quantity.SumText(sales, Quantity.OrElse(extra, "0"))
  }

  /** `handleExtraQtyChange` on the list. */
  function WithExtraQuantity(items: seq<Item>, idx: int, value: string): seq<Item> {
    Seqs.UpdateAt(items, idx, (it: Item) => it.(extraQuantity := value, totalQuantity := LineTotal(it.salesQuantity, value)))
  }

  /** The line `handleAddProduct` appends for a catalogue product. */
  function NewItem(prod: Product, form: AddProductForm): Item {
    Item(None, prod.id, prod.name,
         Quantity.OrElse(form.salesQuantity, "0.000"),
         Quantity.OrElse(form.extraQuantity, "0.000"),
         Quantity.OrElse(form.remainingQuantity, "0.000"),
         Quantity.SumText(Quantity.OrElse(form.salesQuantity, "0"), Quantity.OrElse(form.extraQuantity, "0")))
  }

  /** `handleAddProduct` on the list: a product id not in the catalogue adds nothing. */
  function AddProduct(items: seq<Item>, products: seq<Product>, form: AddProductForm): seq<Item> {
    match Seqs.Find(products, (p: Product) => p.id == form.productId)
    case None => items
    case Some(prod) => items + [NewItem(prod, form)]
  }

  /** `availableProducts`. */
  function AvailableProducts(products: seq<Product>, items: seq<Item>): seq<Product> {
    Seqs.Filter(products, (p: Product) => !Seqs.Any(items, (it: Item) => it.productId == p.id))
  }

  /** The submit guard: route, team and date chosen, notes not blank, at least one line. */
  predicate CanSubmit(route: string, team: string, date: Option<string>, notes: string, items: seq<Item>) {
    route != "" && team != "" && date.Some? && Trim(notes) != "" && |items| != 0
  }

  function CreateLines(items: seq<Item>): seq<CreateLine> {
    seq(|items|, i requires 0 <= i < |items| =>
      CreateLine(items[i].productId, items[i].productName, items[i].salesQuantity, items[i].extraQuantity,
                 items[i].remainingQuantity, items[i].totalQuantity))
  }

  function CreateRequestOf(route: string, team: string, date: string, notes: string, items: seq<Item>): CreateRequest {
    CreateRequest(NumberOf(route), NumberOf(team), date, notes, CreateLines(items))
  }

  // ---- Properties ----

  /** Typing an extra quantity changes that line only: its extra quantity becomes the typed
      text and its total reads back as sales plus extra (an empty extra counting as 0). */
  lemma ExtraQuantityChangesOneLine(items: seq<Item>, idx: int, value: string)
    ensures |WithExtraQuantity(items, idx, value)| == |items|
    ensures forall i :: 0 <= i < |items| && i != idx ==> WithExtraQuantity(items, idx, value)[i] == items[i]
    ensures 0 <= idx < |items| ==>
              var it := WithExtraQuantity(items, idx, value)[idx];
              var sales, extra := Quantity.Parse(items[idx].salesQuantity), Quantity.Parse(Quantity.OrElse(value, "0"));
              it == items[idx].(extraQuantity := value, totalQuantity := it.totalQuantity)
              && (sales.Some? && extra.Some? ==> Quantity.Parse(it.totalQuantity) == Some(sales.value + extra.value))
  {
    if 0 <= idx < |items| {
      Quantity.SumTextMeansSum(items[idx].salesQuantity, Quantity.OrElse(value, "0"));
    }
  }

  /** An unknown product adds nothing; a known one adds exactly one line, whose blank
      quantities read '0.000' and whose total reads back as sales plus extra. */
  lemma AddProductCases(items: seq<Item>, products: seq<Product>, form: AddProductForm)
    ensures (forall i :: 0 <= i < |products| ==> products[i].id != form.productId) ==>
              AddProduct(items, products, form) == items
    ensures (exists i :: 0 <= i < |products| && products[i].id == form.productId) ==>
              var r := AddProduct(items, products, form);
              var it := r[|r| - 1];
              var sales, extra := Quantity.Parse(Quantity.OrElse(form.salesQuantity, "0")),
                                  Quantity.Parse(Quantity.OrElse(form.extraQuantity, "0"));
              |r| == |items| + 1 && r[..|items|] == items && it.productId == form.productId
              && (form.salesQuantity == "" ==> it.salesQuantity == "0.000")
              && (form.extraQuantity == "" ==> it.extraQuantity == "0.000")
              && (form.remainingQuantity == "" ==> it.remainingQuantity == "0.000")
              && (sales.Some? && extra.Some? ==> Quantity.Parse(it.totalQuantity) == Some(sales.value + extra.value))
  {
    Quantity.SumTextMeansSum(Quantity.OrElse(form.salesQuantity, "0"), Quantity.OrElse(form.extraQuantity, "0"));
  }

  /** The remaining quantity is not part of a new line's total. */
  lemma RemainingNotInTotal(prod: Product, form: AddProductForm, remaining: string)
    ensures NewItem(prod, form).totalQuantity == NewItem(prod, form.(remainingQuantity := remaining)).totalQuantity
  {
  }

  /** A product is offered exactly when it is in the catalogue and no line has its id. */
  lemma AvailableProductsExact(products: seq<Product>, items: seq<Item>, p: Product)
    ensures p in AvailableProducts(products, items) <==>
              p in products && forall i :: 0 <= i < |items| ==> items[i].productId != p.id
  {
    if p in products && forall i :: 0 <= i < |items| ==> items[i].productId != p.id {
      var k :| 0 <= k < |products| && products[k] == p;
    }
  }

  /** A product just added is no longer offered. */
  lemma AddedProductIsNotOffered(items: seq<Item>, products: seq<Product>, form: AddProductForm, p: Product)
    requires p.id == form.productId && p in products
    ensures p !in AvailableProducts(products, AddProduct(items, products, form))
  {
    var r := AddProduct(items, products, form);
    AvailableProductsExact(products, r, p);
    assert r[|r| - 1].productId == p.id;
  }

  /** Whitespace-only notes block the submission exactly like empty ones. */
  lemma CanSubmitMeansFilled(route: string, team: string, date: Option<string>, notes: string, items: seq<Item>)
    ensures CanSubmit(route, team, date, notes, items) <==>
              route != "" && team != "" && date.Some? && !IsBlank(notes) && items != []
  {
    TrimEmptyIffBlank(notes);
  }

  /** The create request lists the lines in order, each with its six fields unchanged. */
  lemma CreateLinesCopyItems(items: seq<Item>)
    ensures |CreateLines(items)| == |items|
    ensures forall i :: 0 <= i < |items| ==>
              var l, it := CreateLines(items)[i], items[i];
              l.productId == it.productId && l.productName == it.productName && l.salesQuantity == it.salesQuantity
              && l.extraQuantity == it.extraQuantity && l.remainingQuantity == it.remainingQuantity
              && l.totalQuantity == it.totalQuantity
  {
  }

  /** `teams.filter(team => !selectedRoute || team.route.toString() === selectedRoute)`. */
  function TeamsFor(teams: seq<DeliveryTeam>, selectedRoute: string): seq<DeliveryTeam> {
    Seqs.Filter(teams, (t: DeliveryTeam) => selectedRoute == "" || DecimalString(t.route) == selectedRoute)
  }

  /** With no route chosen every team is offered; otherwise exactly the teams of that route. */
  lemma TeamsForRoute(teams: seq<DeliveryTeam>, route: nat, t: DeliveryTeam)
    ensures TeamsFor(teams, "") == teams
    ensures t in TeamsFor(teams, DecimalString(route)) <==> t in teams && t.route == route
  {
    Seqs.FilterKeepsAll(teams, (t: DeliveryTeam) => "" == "" || DecimalString(t.route) == "");
    DecimalStringInjective(t.route, route);
    if t in teams && t.route == route {
      var k :| 0 <= k < |teams| && teams[k] == t;
    }
  }
}

/** The purchase-order page. */
module CreatePurchaseOrder {
  import opened Wrappers
  import opened Text
  import opened PurchaseOrderItems

  class CreatePurchaseOrderPage {
    var products: seq<Product>
    var selectedRoute: string
    var selectedTeam: string
    var deliveryDate: Option<string>
    var notes: string
    var items: seq<Item>
    var existingOrder: ExistingOrder
    var addProductOpen: bool
    var addProductForm: AddProductForm

    constructor(products: seq<Product>)
      ensures this.products == products && selectedRoute == "" && selectedTeam == "" && deliveryDate == None
      ensures notes == "" && items == [] && existingOrder == NoExistingOrder && !addProductOpen
      ensures addProductForm == EmptyAddForm
    {
      this.products := products;
      selectedRoute, selectedTeam, deliveryDate, notes := "", "", None, "";
      items, existingOrder, addProductOpen, addProductForm := [], NoExistingOrder, false, EmptyAddForm;
    }

    /** The effect on route, team and date: with all three chosen, the existing order's
        lines or else the route's sales summary; otherwise no lines and no existing order.
        `check` and `summary` are the two replies, `None` when a request fails. */
    method SelectionChanged(check: Option<ExistingOrder>, summary: Option<seq<Item>>)
      modifies this`items, this`existingOrder
      ensures !(selectedRoute != "" && selectedTeam != "" && deliveryDate.Some?) ==>
                items == [] && existingOrder == NoExistingOrder
      ensures selectedRoute != "" && selectedTeam != "" && deliveryDate.Some? ==>
                match check
                case None => items == old(items) && existingOrder == old(existingOrder)
                case Some(d) =>
                  existingOrder == d
                  && (d.found ==> items == d.items)
                  && (!d.found ==> items == summary.GetOr(old(items)))
    {
      if selectedRoute != "" && selectedTeam != "" && deliveryDate.Some? {
        if check.Some? {
          existingOrder := check.value;
          if check.value.found {
            items := check.value.items;
          } else if summary.Some? {
            items := summary.value;
          }
        }
      } else {
        items := [];
        existingOrder := NoExistingOrder;
      }
    }

    method HandleExtraQtyChange(idx: int, value: string)
      modifies this`items
      ensures items == WithExtraQuantity(old(items), idx, value)
    {
      items := WithExtraQuantity(items, idx, value);
    }

    method HandleAddProduct()
      modifies this`items, this`addProductOpen, this`addProductForm
      ensures items == AddProduct(old(items), products, old(addProductForm))
      ensures items == old(items) ==> addProductOpen == old(addProductOpen) && addProductForm == old(addProductForm)
      ensures items != old(items) ==> !addProductOpen && addProductForm == EmptyAddForm
    {
      var next := AddProduct(items, products, addProductForm);
      if |next| == |items| {
        return;
      }
      items := next;
      addProductOpen := false;
      addProductForm := EmptyAddForm;
    }

    /** `handleSubmit`: `sent` is the request, `None` when the guard or the token check
        stops it; `ok` says whether the server accepted it. A success clears the form. */
    method HandleSubmit(token: Option<string>, ok: bool) returns (sent: Option<CreateRequest>)
      modifies this`selectedRoute, this`selectedTeam, this`deliveryDate, this`notes, this`items, this`existingOrder
      ensures !CanSubmit(old(selectedRoute), old(selectedTeam), old(deliveryDate), old(notes), old(items)) || !Present(token) ==>
                sent == None
      ensures CanSubmit(old(selectedRoute), old(selectedTeam), old(deliveryDate), old(notes), old(items)) && Present(token) ==>
                sent == Some(CreateRequestOf(old(selectedRoute), old(selectedTeam), old(deliveryDate).value, old(notes), old(items)))
      ensures sent.Some? && ok ==>
                selectedRoute == "" && selectedTeam == "" && deliveryDate == None && notes == "" && items == []
                && existingOrder == NoExistingOrder
      ensures sent.None? || !ok ==>
                selectedRoute == old(selectedRoute) && selectedTeam == old(selectedTeam) && deliveryDate == old(deliveryDate)
                && notes == old(notes) && items == old(items) && existingOrder == old(existingOrder)
    {
      if !CanSubmit(selectedRoute, selectedTeam, deliveryDate, notes, items) {
        return None;
      }
      if !Present(token) {
        return None;
      }
      sent := Some(CreateRequestOf(selectedRoute, selectedTeam, deliveryDate.value, notes, items));
      if ok {
        selectedRoute, selectedTeam, deliveryDate, notes := "", "", None, "";
        items, existingOrder := [], NoExistingOrder;
      }
    }
  }
}

/** The purchase-order dialog, which also edits an existing order. */
module CreatePurchaseOrderModal {
  import opened Wrappers
  import opened Text
  import opened PurchaseOrderItems

  /** A line of an order as the server sends it for editing. */
  datatype EditItem = EditItem(id: nat, product: nat, productName: string, salesOrderQuantity: string,
                               extraQuantity: string, remainingQuantity: string, totalQuantity: string)

  datatype PurchaseOrderEdit = PurchaseOrderEdit(id: nat, orderNumber: string, route: nat, deliveryTeam: nat,
                                                 deliveryDate: string, notes: string, status: string, items: seq<EditItem>)

  /** A line of the update request; `product` is `Number(product_id)`, NaN as `None`. */
  datatype EditLine = EditLine(id: Option<nat>, product: Option<nat>, productName: string, salesOrderQuantity: string,
                               extraQuantity: string, remainingQuantity: string, totalQuantity: string)

  datatype EditRequest = EditRequest(id: nat, orderNumber: string, route: nat, deliveryTeam: Option<nat>,
                                     deliveryDate: string, notes: string, status: string, items: seq<EditLine>)

  datatype Request = Put(edit: EditRequest) | Post(create: CreateRequest)

  /** The edit initialisation of one line. */
  function FromEditItem(e: EditItem): Item {
    Item(Some(e.id), DecimalString(e.product), e.productName, e.salesOrderQuantity, e.extraQuantity,
         e.remainingQuantity, e.totalQuantity)
  }

  function FromEditItems(es: seq<EditItem>): (items: seq<Item>)
    ensures |items| == |es|
    ensures forall i :: 0 <= i < |es| ==> items[i] == FromEditItem(es[i])
  {
    seq(|es|, i requires 0 <= i < |es| => FromEditItem(es[i]))
  }

  /** A line of the update request. */
  function ToEditLine(it: Item): EditLine {
    EditLine(it.id, NumberOf(it.productId), it.productName, it.salesQuantity, it.extraQuantity,
             it.remainingQuantity, it.totalQuantity)
  }

  function EditRequestOf(order: PurchaseOrderEdit, team: string, notes: string, items: seq<Item>): EditRequest {
    EditRequest(order.id, order.orderNumber, order.route, NumberOf(team), order.deliveryDate, notes, order.status,
                seq(|items|, i requires 0 <= i < |items| => ToEditLine(items[i])))
  }

  /** The server's line written back as a request line, field for field. */
  function AsEditLine(e: EditItem): EditLine {
    EditLine(Some(e.id), Some(e.product), e.productName, e.salesOrderQuantity, e.extraQuantity,
             e.remainingQuantity, e.totalQuantity)
  }

  /** An unedited line goes back to the server as it came. */
  lemma EditLineRoundTrip(e: EditItem)
    ensures ToEditLine(FromEditItem(e)) == AsEditLine(e)
  {
    NumberOfDecimalString(e.product);
  }

  /** Submitting the edit form as initialised sends the order back unchanged. */
  lemma UnchangedEditResubmitsOrder(order: PurchaseOrderEdit)
    ensures var r := EditRequestOf(order, DecimalString(order.deliveryTeam), order.notes, FromEditItems(order.items));
            r.id == order.id && r.orderNumber == order.orderNumber && r.route == order.route
            && r.deliveryTeam == Some(order.deliveryTeam) && r.deliveryDate == order.deliveryDate
            && r.notes == order.notes && r.status == order.status
            && |r.items| == |order.items|
            && forall i :: 0 <= i < |order.items| ==> r.items[i] == AsEditLine(order.items[i])
  {
    NumberOfDecimalString(order.deliveryTeam);
    forall i | 0 <= i < |order.items| {
      EditLineRoundTrip(order.items[i]);
    }
  }

  /** Whatever the form holds, an update keeps the order's id, number, route, date and
      status; only the team, the notes and the lines come from the form. */
  lemma EditRequestKeepsOrderFields(order: PurchaseOrderEdit, team: string, notes: string, items: seq<Item>)
    ensures var r := EditRequestOf(order, team, notes, items);
            r.id == order.id && r.orderNumber == order.orderNumber && r.route == order.route
            && r.deliveryDate == order.deliveryDate && r.status == order.status
            && r.deliveryTeam == NumberOf(team) && r.notes == notes && |r.items| == |items|
  {
  }

  class PurchaseOrderDialog {
    var open: bool
    var editingOrder: Option<PurchaseOrderEdit>
    var products: seq<Product>
    var selectedRoute: string
    var selectedTeam: string
    var deliveryDate: Option<string>
    var notes: string
    var items: seq<Item>
    var existingOrder: ExistingOrder
    var addProductOpen: bool
    var addProductForm: AddProductForm

    constructor(open: bool, editingOrder: Option<PurchaseOrderEdit>, products: seq<Product>)
      ensures this.open == open && this.editingOrder == editingOrder && this.products == products
      ensures selectedRoute == "" && selectedTeam == "" && deliveryDate == None && notes == ""
      ensures items == [] && existingOrder == NoExistingOrder && !addProductOpen && addProductForm == EmptyAddForm
    {
      this.open, this.editingOrder, this.products := open, editingOrder, products;
      selectedRoute, selectedTeam, deliveryDate, notes := "", "", None, "";
      items, existingOrder, addProductOpen, addProductForm := [], NoExistingOrder, false, EmptyAddForm;
    }

    /** The selection effect, which runs only while creating in an open dialog. */
    method SelectionChanged(check: Option<ExistingOrder>, summary: Option<seq<Item>>)
      modifies this`items, this`existingOrder
      ensures !open || editingOrder.Some? ==> items == old(items) && existingOrder == old(existingOrder)
      ensures open && editingOrder.None? && !(selectedRoute != "" && selectedTeam != "" && deliveryDate.Some?) ==>
                items == [] && existingOrder == NoExistingOrder
      ensures open && editingOrder.None? && selectedRoute != "" && selectedTeam != "" && deliveryDate.Some? ==>
                match check
                case None => items == old(items) && existingOrder == old(existingOrder)
                case Some(d) =>
                  existingOrder == d
                  && (d.found ==> items == d.items)
                  && (!d.found ==> items == summary.GetOr(old(items)))
    {
      if !open || editingOrder.Some? {
        return;
      }
      if selectedRoute != "" && selectedTeam != "" && deliveryDate.Some? {
        if check.Some? {
          existingOrder := check.value;
          if check.value.found {
            items := check.value.items;
          } else if summary.Some? {
            items := summary.value;
          }
        }
      } else {
        items := [];
        existingOrder := NoExistingOrder;
      }
    }

    /** The edit initialisation effect: the form takes the order's route, team, date, notes
        and lines. */
    method InitForEdit()
      modifies this`selectedRoute, this`selectedTeam, this`deliveryDate, this`notes, this`items
      ensures editingOrder.Some? && open ==>
                var o := editingOrder.value;
                selectedRoute == DecimalString(o.route) && selectedTeam == DecimalString(o.deliveryTeam)
                && deliveryDate == Some(o.deliveryDate) && notes == o.notes && items == FromEditItems(o.items)
      ensures !(editingOrder.Some? && open) ==>
                selectedRoute == old(selectedRoute) && selectedTeam == old(selectedTeam)
                && deliveryDate == old(deliveryDate) && notes == old(notes) && items == old(items)
    {
      if editingOrder.Some? && open {
        var o := editingOrder.value;
        selectedRoute := DecimalString(o.route);
        selectedTeam := DecimalString(o.deliveryTeam);
        deliveryDate := Some(o.deliveryDate);
        notes := o.notes;
        items := FromEditItems(o.items);
      }
    }

    method HandleExtraQtyChange(idx: int, value: string)
      modifies this`items
      ensures items == WithExtraQuantity(old(items), idx, value)
    {
      items := WithExtraQuantity(items, idx, value);
    }

    method HandleAddProduct()
      modifies this`items, this`addProductOpen, this`addProductForm
      ensures items == AddProduct(old(items), products, old(addProductForm))
      ensures items == old(items) ==> addProductOpen == old(addProductOpen) && addProductForm == old(addProductForm)
      ensures items != old(items) ==> !addProductOpen && addProductForm == EmptyAddForm
    {
      var next := AddProduct(items, products, addProductForm);
      if |next| == |items| {
        return;
      }
      items := next;
      addProductOpen := false;
      addProductForm := EmptyAddForm;
    }

    /** `handleSubmit`: an update when editing, a creation otherwise; a success clears the
        form. */
    method HandleSubmit(token: Option<string>, ok: bool) returns (sent: Option<Request>)
      modifies this`selectedRoute, this`selectedTeam, this`deliveryDate, this`notes, this`items, this`existingOrder
      ensures !CanSubmit(old(selectedRoute), old(selectedTeam), old(deliveryDate), old(notes), old(items)) || !Present(token) ==>
                sent == None
      ensures CanSubmit(old(selectedRoute), old(selectedTeam), old(deliveryDate), old(notes), old(items)) && Present(token) ==>
                sent == Some(if editingOrder.Some?
                             then Put(EditRequestOf(editingOrder.value, old(selectedTeam), old(notes), old(items)))
                             else Post(CreateRequestOf(old(selectedRoute), old(selectedTeam), old(deliveryDate).value, old(notes), old(items))))
      ensures sent.Some? && ok ==>
                selectedRoute == "" && selectedTeam == "" && deliveryDate == None && notes == "" && items == []
                && existingOrder == NoExistingOrder
      ensures sent.None? || !ok ==>
                selectedRoute == old(selectedRoute) && selectedTeam == old(selectedTeam) && deliveryDate == old(deliveryDate)
                && notes == old(notes) && items == old(items) && existingOrder == old(existingOrder)
    {
      if !CanSubmit(selectedRoute, selectedTeam, deliveryDate, notes, items) {
        return None;
      }
      if !Present(token) {
        return None;
      }
      if editingOrder.Some? {
        sent := Some(Put(EditRequestOf(editingOrder.value, selectedTeam, notes, items)));
      } else {
        sent := Some(Post(CreateRequestOf(selectedRoute, selectedTeam, deliveryDate.value, notes, items)));
      }
      if ok {
        selectedRoute, selectedTeam, deliveryDate, notes := "", "", None, "";
        items, existingOrder := [], NoExistingOrder;
      }
    }

    /** The effect that clears the form when the dialog closes. */
    method ResetOnClose()
      modifies this`selectedRoute, this`selectedTeam, this`deliveryDate, this`notes, this`items, this`existingOrder
      ensures !open ==>
                selectedRoute == "" && selectedTeam == "" && deliveryDate == None && notes == "" && items == []
                && existingOrder == NoExistingOrder
      ensures open ==>
                selectedRoute == old(selectedRoute) && selectedTeam == old(selectedTeam) && deliveryDate == old(deliveryDate)
                && notes == old(notes) && items == old(items) && existingOrder == old(existingOrder)
    {
      if !open {
        selectedRoute, selectedTeam, deliveryDate, notes := "", "", None, "";
        items, existingOrder := [], NoExistingOrder;
      }
    }
  }
}
