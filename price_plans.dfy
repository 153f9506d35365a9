/** The price-plan page: general plans (one price per product) and seller plans (one price
    per seller and product), created, edited and deleted in the browser. Prices are kept in
    thousandths; the plan id of a new plan (`Date.now()`) is a parameter. */
module PricePlans {
  import opened Wrappers
  import opened Text
  import Seqs
  import Quantity

  /** A plan with `sellerId == None` is a general plan. */
  datatype PricePlan = PricePlan(id: string, sellerId: Option<string>, productId: string, price: int)
  datatype Product = Product(id: string, name: string, unit: string)
  datatype Seller = Seller(id: string, name: string, routeId: string, isPublic: bool)
  datatype FormValues = FormValues(sellerId: Option<string>, productId: string, price: string)
  datatype Tab = GeneralTab | SellerTab

  /** The two lists the page keeps. */
  datatype Tables = Tables(general: seq<PricePlan>, seller: seq<PricePlan>)

  datatype Rejection = InvalidPrice | GeneralPlanExists | SellerPlanExists
  datatype Submission = Rejected(why: Rejection) | Accepted(tables: Tables)

  /** The key a general plan must not share. */
  function ProductKey(p: PricePlan): string {
    p.productId
  }

  /** The key a seller plan must not share. */
  function SellerProductKey(p: PricePlan): (Option<string>, string) {
    (p.sellerId, p.productId)
  }

  /** The uniqueness the creation checks enforce. */
  predicate Unique(t: Tables) {
    Seqs.DistinctBy(t.general, ProductKey) && Seqs.DistinctBy(t.seller, SellerProductKey)
  }

  predicate IdsUnique(plans: seq<PricePlan>) {
    Seqs.DistinctBy(plans, (p: PricePlan) => p.id)
  }

  /** A price the form accepts: a number greater than zero. */
  predicate ValidPrice(text: string) {
    Quantity.Parse(text).Some? && Quantity.Parse(text).value > 0
  }

  /** The plan built from the form: it keeps the id of the plan being edited. */
  function NewPlan(editing: Option<PricePlan>, data: FormValues, freshId: string): PricePlan
    requires ValidPrice(data.price)
  {
    PricePlan(if editing.Some? then editing.value.id else freshId, data.sellerId, data.productId,
              Quantity.Parse(data.price).value)
  }

  /** An edit replaces every plan carrying the edited plan's id, in the list the edited
      plan came from. Nothing checks the new product or seller against the other plans. */
  function Update(t: Tables, editing: PricePlan, plan: PricePlan): Tables {
    if editing.sellerId.None?
    then t.(general := Seqs.ReplaceWhere(t.general, (p: PricePlan) => p.id == editing.id, plan))
    else t.(seller := Seqs.ReplaceWhere(t.seller, (p: PricePlan) => p.id == editing.id, plan))
  }

  function Delete(t: Tables, plan: PricePlan): Tables {
    if plan.sellerId.None?
    then t.(general := Seqs.Filter(t.general, (p: PricePlan) => p.id != plan.id))
    else t.(seller := Seqs.Filter(t.seller, (p: PricePlan) => p.id != plan.id))
  }

  /** Whether a creation would clash with an existing plan of its list. */
  predicate Clashes(t: Tables, data: FormValues) {
    if data.sellerId.None?
    then Seqs.Any(t.general, (p: PricePlan) => p.productId == data.productId)
    else Seqs.Any(t.seller, (p: PricePlan) => p.sellerId == data.sellerId && p.productId == data.productId)
  }

  /** `onSubmit` on the two lists. */
  function Submit(t: Tables, editing: Option<PricePlan>, data: FormValues, freshId: string): Submission {
    if !ValidPrice(data.price) then Rejected(InvalidPrice)
    else
      var plan := NewPlan(editing, data, freshId);
      if editing.Some? then Accepted(Update(t, editing.value, plan))
      else if data.sellerId.None? then
        if Clashes(t, data) then Rejected(GeneralPlanExists) else Accepted(t.(general := t.general + [plan]))
      else
        if Clashes(t, data) then Rejected(SellerPlanExists) else Accepted(t.(seller := t.seller + [plan]))
  }

  /** The form the dialog shows: the edited plan, or an empty form whose seller is `null`
      on the general tab and the empty string on the seller tab. */
  function FormFor(editing: Option<PricePlan>, tab: Tab): FormValues {
    match editing
    case Some(e) => FormValues(e.sellerId, e.productId, Quantity.ToString(e.price))
    case None => FormValues(if tab == GeneralTab then None else Some(""), "", "")
  }

  /** `getProductName`. */
  function ProductName(products: seq<Product>, productId: string): string {
    match Seqs.Find(products, (p: Product) => p.id == productId)
    case Some(p) => p.name
    case None => "Unknown Product"
  }

  /** `getSellerName`. */
  function SellerName(sellers: seq<Seller>, sellerId: Option<string>): string {
    if sellerId.None? then "General Price Plan"
    else
      match Seqs.Find(sellers, (s: Seller) => s.id == sellerId.value)
      case Some(s) => s.name
      case None => "Unknown Seller"
  }

  /** `filteredGeneralPlans`: the product name contains the search term. */
  function FilteredGeneralPlans(plans: seq<PricePlan>, products: seq<Product>, term: string): seq<PricePlan> {
    Seqs.Filter(plans, (p: PricePlan) => ContainsIgnoringCase(ProductName(products, p.productId), term))
  }

  /** `filteredSellerPlans`: the product name or, for a plan whose seller id is truthy (not
      `null`, not empty), the seller name contains the search term. */
  predicate SellerPlanMatches(p: PricePlan, products: seq<Product>, sellers: seq<Seller>, term: string) {
    ContainsIgnoringCase(ProductName(products, p.productId), term)
    || (p.sellerId.Some? && p.sellerId.value != "" && ContainsIgnoringCase(SellerName(sellers, p.sellerId), term))
  }

  function FilteredSellerPlans(plans: seq<PricePlan>, products: seq<Product>, sellers: seq<Seller>, term: string): seq<PricePlan> {
    Seqs.Filter(plans, (p: PricePlan) => SellerPlanMatches(p, products, sellers, term))
  }

  // ---- Properties of the page logic ----

  /** A price that does not parse, or is zero or negative, is refused and nothing else is. */
  lemma SubmitChecksPriceFirst(t: Tables, editing: Option<PricePlan>, data: FormValues, freshId: string)
    ensures Submit(t, editing, data, freshId) == Rejected(InvalidPrice) <==> !ValidPrice(data.price)
  {
  }

  /** A creation with a valid price is accepted exactly when no plan of its list has the
      same product (general) or the same seller and product (seller plan); it then adds the
      one new plan at the end of that list and leaves the other list alone. */
  lemma CreateAddsOnePlanUnlessItClashes(t: Tables, data: FormValues, freshId: string)
    requires ValidPrice(data.price)
    ensures Submit(t, None, data, freshId).Accepted? <==> !Clashes(t, data)
    ensures !Clashes(t, data) ==>
              var plan := PricePlan(freshId, data.sellerId, data.productId, Quantity.Parse(data.price).value);
              Submit(t, None, data, freshId).tables ==
                if data.sellerId.None? then t.(general := t.general + [plan]) else t.(seller := t.seller + [plan])
  {
  }

  /** Creating a plan never breaks the one-plan-per-key rule. */
  lemma CreateKeepsPlansUnique(t: Tables, data: FormValues, freshId: string)
    requires Unique(t)
    requires Submit(t, None, data, freshId).Accepted?
    ensures Unique(Submit(t, None, data, freshId).tables)
  {
    var plan := NewPlan(None, data, freshId);
    if data.sellerId.None? {
      assert forall i :: 0 <= i < |t.general| ==> ProductKey(t.general[i]) != ProductKey(plan);
      Seqs.DistinctByAppend(t.general, plan, ProductKey);
    } else {
      assert forall i :: 0 <= i < |t.seller| ==> SellerProductKey(t.seller[i]) != SellerProductKey(plan);
      Seqs.DistinctByAppend(t.seller, plan, SellerProductKey);
    }
  }

  /** An edit keeps the plan's id, replaces exactly the plans with that id in the edited
      plan's list, and leaves the other list alone. */
  lemma UpdateReplacesById(t: Tables, e: PricePlan, data: FormValues, freshId: string)
    requires ValidPrice(data.price)
    ensures var r := Submit(t, Some(e), data, freshId);
            var plan := PricePlan(e.id, data.sellerId, data.productId, Quantity.Parse(data.price).value);
            var (before, after) := if e.sellerId.None? then (t.general, r.tables.general) else (t.seller, r.tables.seller);
            r.Accepted?
            && (if e.sellerId.None? then r.tables.seller == t.seller else r.tables.general == t.general)
            && |after| == |before|
            && forall i :: 0 <= i < |before| ==> after[i] == if before[i].id == e.id then plan else before[i]
  {
  }

  /** An edit that keeps the product and seller of a listed plan keeps the lists unique,
      provided plan ids are unique. */
  lemma UpdateKeepingKeyKeepsPlansUnique(t: Tables, e: PricePlan, data: FormValues, freshId: string)
    requires Unique(t) && IdsUnique(t.general) && IdsUnique(t.seller)
    requires e in (if e.sellerId.None? then t.general else t.seller)
    requires data.sellerId == e.sellerId && data.productId == e.productId
    requires ValidPrice(data.price)
    ensures Unique(Submit(t, Some(e), data, freshId).tables)
  {
    var plan := NewPlan(Some(e), data, freshId);
    var before := if e.sellerId.None? then t.general else t.seller;
    var after := if e.sellerId.None? then Update(t, e, plan).general else Update(t, e, plan).seller;
    var k :| 0 <= k < |before| && before[k] == e;
    assert forall i :: 0 <= i < |before| && before[i].id == e.id ==> i == k;
    assert forall i :: 0 <= i < |before| ==> after[i] == if i == k then plan else before[i];
    assert forall i :: 0 <= i < |before| ==> ProductKey(after[i]) == ProductKey(before[i]);
    assert forall i :: 0 <= i < |before| ==> SellerProductKey(after[i]) == SellerProductKey(before[i]);
  }

  /** The edit form lets the product change and nothing checks it: editing the plan for
      product 1 to product 2 leaves two general plans for product 2. */
  lemma UpdateCanDuplicateAProduct()
    ensures var a := PricePlan("1", None, "1", 2500);
            var b := PricePlan("2", None, "2", 1750);
            var t := Tables([a, b], []);
            var r := Submit(t, Some(a), FormValues(None, "2", "3"), "");
            Unique(t) && r.Accepted? && !Unique(r.tables)
  {
    var a := PricePlan("1", None, "1", 2500);
    var b := PricePlan("2", None, "2", 1750);
    var t := Tables([a, b], []);
    assert Quantity.Parse("3") == Some(3000) by {
      assert Seqs.FindIndex("3", (c: char) => c == '.') == None;
      assert DigitsValue("3"[..0]) == 0;
    }
    var r := Submit(t, Some(a), FormValues(None, "2", "3"), "");
    assert r.tables.general == [PricePlan("1", None, "2", 3000), b];
    assert ProductKey(r.tables.general[0]) == ProductKey(r.tables.general[1]);
  }

  /** Submitting the edit form unchanged puts back the same plan, so the lists do not change
      (when ids are unique and the plan's price is positive). */
  lemma UnchangedEditIsNoOp(t: Tables, e: PricePlan, tab: Tab, freshId: string)
    requires IdsUnique(t.general) && IdsUnique(t.seller)
    requires e in (if e.sellerId.None? then t.general else t.seller)
    requires e.price > 0
    ensures Submit(t, Some(e), FormFor(Some(e), tab), freshId) == Accepted(t)
  {
    Quantity.ParseToString(e.price);
    var before := if e.sellerId.None? then t.general else t.seller;
    var k :| 0 <= k < |before| && before[k] == e;
    assert forall i :: 0 <= i < |before| && before[i].id == e.id ==> before[i] == e;
    var after := if e.sellerId.None? then Submit(t, Some(e), FormFor(Some(e), tab), freshId).tables.general
                 else Submit(t, Some(e), FormFor(Some(e), tab), freshId).tables.seller;
    assert after == before;
  }

  /** Removing by id from one list: nothing with the id is left, everything else stays, in
      order, and a key that was unique stays unique. */
  lemma RemoveByIdKeepsOthers(before: seq<PricePlan>, id: string)
    ensures var after := Seqs.Filter(before, (p: PricePlan) => p.id != id);
            (forall i :: 0 <= i < |after| ==> after[i].id != id)
            && (forall i :: 0 <= i < |before| && before[i].id != id ==> before[i] in after)
            && Seqs.IsSubsequence(after, before)
            && (Seqs.DistinctBy(before, ProductKey) ==> Seqs.DistinctBy(after, ProductKey))
            && (Seqs.DistinctBy(before, SellerProductKey) ==> Seqs.DistinctBy(after, SellerProductKey))
  {
    var keep := (p: PricePlan) => p.id != id;
    Seqs.FilterIsSubsequence(before, keep);
    if Seqs.DistinctBy(before, ProductKey) {
      Seqs.FilterDistinctBy(before, keep, ProductKey);
    }
    if Seqs.DistinctBy(before, SellerProductKey) {
      Seqs.FilterDistinctBy(before, keep, SellerProductKey);
    }
  }

  /** A delete removes the plan from its own list only and keeps the lists unique. */
  lemma DeleteRemovesPlan(t: Tables, plan: PricePlan)
    ensures plan.sellerId.None? ==> Delete(t, plan).seller == t.seller
    ensures plan.sellerId.Some? ==> Delete(t, plan).general == t.general
    ensures Unique(t) ==> Unique(Delete(t, plan))
  {
    RemoveByIdKeepsOthers(t.general, plan.id);
    RemoveByIdKeepsOthers(t.seller, plan.id);
  }

  /** `getProductName` gives the name of the first product with that id, and "Unknown
      Product" exactly when there is none. */
  lemma ProductNameFound(products: seq<Product>, productId: string)
    ensures (forall i :: 0 <= i < |products| ==> products[i].id != productId) ==>
              ProductName(products, productId) == "Unknown Product"
    ensures (exists i :: 0 <= i < |products| && products[i].id == productId) ==>
              exists i :: 0 <= i < |products| && products[i].id == productId && products[i].name == ProductName(products, productId)
  {
  }

  /** `getSellerName` of a seller id gives the name of a seller with that id, or "Unknown
      Seller" when no seller has it; `null` names the general plan. */
  lemma SellerNameFound(sellers: seq<Seller>, sellerId: Option<string>)
    ensures sellerId.None? ==> SellerName(sellers, sellerId) == "General Price Plan"
    ensures sellerId.Some? && (forall i :: 0 <= i < |sellers| ==> sellers[i].id != sellerId.value) ==>
              SellerName(sellers, sellerId) == "Unknown Seller"
    ensures sellerId.Some? && (exists i :: 0 <= i < |sellers| && sellers[i].id == sellerId.value) ==>
              exists i :: 0 <= i < |sellers| && sellers[i].id == sellerId.value && sellers[i].name == SellerName(sellers, sellerId)
  {
  }

  /** An empty search shows every plan of both lists. */
  lemma EmptySearchShowsAll(t: Tables, products: seq<Product>, sellers: seq<Seller>)
    ensures FilteredGeneralPlans(t.general, products, "") == t.general
    ensures FilteredSellerPlans(t.seller, products, sellers, "") == t.seller
  {
    forall p: PricePlan { EmptyTermMatches(ProductName(products, p.productId)); }
    Seqs.FilterKeepsAll(t.general, (p: PricePlan) => ContainsIgnoringCase(ProductName(products, p.productId), ""));
    Seqs.FilterKeepsAll(t.seller, (p: PricePlan) => SellerPlanMatches(p, products, sellers, ""));
  }

  /** A seller plan is found by its seller's name unless its seller id is empty. */
  lemma SellerPlanFoundBySellerName(p: PricePlan, products: seq<Product>, sellers: seq<Seller>)
    requires p.sellerId.Some?
    ensures SellerPlanMatches(p, products, sellers, SellerName(sellers, p.sellerId)) <== p.sellerId.value != ""
  {
    FieldMatchesItself(SellerName(sellers, p.sellerId));
  }

  class PricePlansPage {
    var general: seq<PricePlan>
    var sellerPlans: seq<PricePlan>
    var products: seq<Product>
    var sellers: seq<Seller>
    var openDialog: bool
    var editing: Option<PricePlan>
    var activeTab: Tab
    var searchTerm: string
    var form: FormValues

    /** The page after its data has arrived. */
    constructor(general: seq<PricePlan>, sellerPlans: seq<PricePlan>, products: seq<Product>, sellers: seq<Seller>)
      ensures this.general == general && this.sellerPlans == sellerPlans
      ensures this.products == products && this.sellers == sellers
      ensures !openDialog && editing == None && activeTab == GeneralTab && searchTerm == ""
      ensures form == FormValues(None, "", "")
    {
      this.general := general;
      this.sellerPlans := sellerPlans;
      this.products := products;
      this.sellers := sellers;
      openDialog := false;
      editing := None;
      activeTab := GeneralTab;
      searchTerm := "";
      form := FormValues(None, "", "");
    }

    /** The edit button of a row: the plan, its tab and the open dialog. */
    method StartEdit(plan: PricePlan, tab: Tab)
      modifies this`editing, this`activeTab, this`openDialog
      ensures editing == Some(plan) && activeTab == tab && openDialog
    {
      editing := Some(plan);
      activeTab := tab;
      openDialog := true;
    }

    /** The dialog's cancel button: it also resets the form to its default values. */
    method Cancel()
      modifies this`editing, this`openDialog, this`form
      ensures editing == None && !openDialog
      ensures form == FormValues(None, "", "")
    {
      openDialog := false;
      editing := None;
      form := FormValues(None, "", "");
    }

    /** The effect that fills the form whenever the edited plan or the tab changes. */
    method SyncForm()
      modifies this`form
      ensures form == FormFor(editing, activeTab)
    {
      if editing.Some? {
        form := FormValues(editing.value.sellerId, editing.value.productId, Quantity.ToString(editing.value.price));
      } else {
        form := FormValues(if activeTab == GeneralTab then None else Some(""), "", "");
      }
    }

    /** `onSubmit`: a rejection changes nothing; an accepted submission updates the lists,
        closes the dialog and ends the edit. */
    method OnSubmit(data: FormValues, freshId: string) returns (rejected: Option<Rejection>)
      modifies this`general, this`sellerPlans, this`openDialog, this`editing, this`form
      ensures match Submit(Tables(old(general), old(sellerPlans)), old(editing), data, freshId)
              case Rejected(why) =>
                rejected == Some(why) && general == old(general) && sellerPlans == old(sellerPlans)
                && openDialog == old(openDialog) && editing == old(editing) && form == old(form)
              case Accepted(t) =>
                rejected == None && general == t.general && sellerPlans == t.seller
                && !openDialog && editing == None && form == FormValues(None, "", "")
    {
      var price := Quantity.Parse(data.price);
      if price.None? || price.value <= 0 {
        return Some(InvalidPrice);
      }
      var plan := PricePlan(if editing.Some? then editing.value.id else freshId, data.sellerId, data.productId, price.value);
      if editing.Some? {
        var id := editing.value.id;
        if editing.value.sellerId.None? {
          general := Seqs.ReplaceWhere(general, (p: PricePlan) => p.id == id, plan);
        } else {
          sellerPlans := Seqs.ReplaceWhere(sellerPlans, (p: PricePlan) => p.id == id, plan);
        }
      } else if data.sellerId.None? {
        if Seqs.Any(general, (p: PricePlan) => p.productId == data.productId) {
          return Some(GeneralPlanExists);
        }
        general := general + [plan];
      } else {
        if Seqs.Any(sellerPlans, (p: PricePlan) => p.sellerId == data.sellerId && p.productId == data.productId) {
          return Some(SellerPlanExists);
        }
        sellerPlans := sellerPlans + [plan];
      }
      openDialog := false;
      editing := None;
      form := FormValues(None, "", "");
      rejected := None;
    }

    /** `handleDelete`. */
    method HandleDelete(plan: PricePlan)
      modifies this`general, this`sellerPlans
      ensures Tables(general, sellerPlans) == Delete(Tables(old(general), old(sellerPlans)), plan)
    {
      if plan.sellerId.None? {
        general := Seqs.Filter(general, (p: PricePlan) => p.id != plan.id);
      } else {
        sellerPlans := Seqs.Filter(sellerPlans, (p: PricePlan) => p.id != plan.id);
      }
    }
  }
}
