/** The product catalogue page: products grouped under their category name, a search that
    filters inside each group and drops the groups it empties, local deletion, and the save
    payload built from the form. */
module Products {
  import opened Wrappers
  import Seqs
  import Text

  datatype Product = Product(id: nat, code: string, name: string, category: nat, categoryName: string,
                             isLiquid: bool, unitSize: string, isActive: bool)

  datatype Category = Category(id: nat, name: string, code: string)

  /** The dialog's form; `category` is `''` (`None`) until a category is chosen. */
  datatype FormValues = FormValues(code: string, name: string, category: Option<nat>, isLiquid: bool,
                                   unit: string, isActive: bool)

  datatype Payload = Payload(code: string, name: string, category: nat, categoryName: string,
                             isLiquid: bool, unitSize: string, isActive: bool)

  /** One entry of the grouped record: a category name and its products. */
  datatype Group = Group(category: string, products: seq<Product>)

  // ---------------------------------------------------------------------------------------
  // Grouping by category name

  /** The keys of the grouped record, in the order their first product appears. */
  function CategoryKeys(ps: seq<Product>): (ks: seq<string>)
    ensures forall i, j :: 0 <= i < j < |ks| ==> ks[i] != ks[j]
    ensures forall c :: c in ks <==> exists p :: p in ps && p.categoryName == c
  {
    if ps == [] then []
    else
      var init := ps[..|ps| - 1];
      var c := ps[|ps| - 1].categoryName;
      assert ps == init + [ps[|ps| - 1]];
      var ks := CategoryKeys(init);
      if c in ks then ks else ks + [c]
  }

  function InCategory(c: string): Product -> bool {
    (p: Product) => p.categoryName == c
  }

  /** The products filed under `c`, in list order. */
  function GroupOf(ps: seq<Product>, c: string): seq<Product> {
    Seqs.Filter(ps, InCategory(c))
  }

  /** `groupedProducts`: one group per category name, holding that category's products. */
  function Grouping(ps: seq<Product>): seq<Group> {
    var ks := CategoryKeys(ps);
    seq(|ks|, i requires 0 <= i < |ks| => Group(ks[i], GroupOf(ps, ks[i])))
  }

  /** One more product extends the products of its own category and no other. */
  lemma GroupOfSnoc(ps: seq<Product>, p: Product, c: string)
    ensures GroupOf(ps + [p], c) == if p.categoryName == c then GroupOf(ps, c) + [p] else GroupOf(ps, c)
  {
    Seqs.FilterAppend(ps, [p], InCategory(c));
    assert Seqs.Filter([p], InCategory(c)) == if p.categoryName == c then [p] else [];
  }

  /** One more product joins the group of its category when that category has one. */
  lemma GroupingSnocJoins(ps: seq<Product>, p: Product, k: nat)
    requires k < |Grouping(ps)| && Grouping(ps)[k].category == p.categoryName
    ensures Grouping(ps + [p]) == Grouping(ps)[k := Group(p.categoryName, Grouping(ps)[k].products + [p])]
  {
    var qs := ps + [p];
    assert qs[..|qs| - 1] == ps;
    var ks := CategoryKeys(ps);
    assert CategoryKeys(qs) == ks;
    var gs := Grouping(ps);
    var hs := Grouping(qs);
    var want := gs[k := Group(p.categoryName, gs[k].products + [p])];
    forall j | 0 <= j < |ks|
      ensures hs[j] == want[j]
    {
      GroupOfSnoc(ps, p, ks[j]);
      assert j != k ==> ks[j] != ks[k];
    }
    assert |hs| == |want|;
  }

  /** A category name that has no key has no products. */
  lemma GroupOfAbsent(ps: seq<Product>, c: string)
    requires c !in CategoryKeys(ps)
    ensures GroupOf(ps, c) == []
  {
    forall k | 0 <= k < |ps|
      ensures !InCategory(c)(ps[k])
    {
      assert ps[k] in ps;
    }
    Seqs.FilterNone(ps, InCategory(c));
  }

  /** A product of a category not seen before adds that category's key at the end. */
  lemma KeysSnocNew(ps: seq<Product>, p: Product)
    requires p.categoryName !in CategoryKeys(ps)
    ensures CategoryKeys(ps + [p]) == CategoryKeys(ps) + [p.categoryName]
  {
    var qs := ps + [p];
    assert qs[..|qs| - 1] == ps;
  }

  /** One more product whose category has no group opens a new group at the end. */
  lemma GroupingSnocOpens(ps: seq<Product>, p: Product)
    requires forall k :: 0 <= k < |Grouping(ps)| ==> Grouping(ps)[k].category != p.categoryName
    ensures Grouping(ps + [p]) == Grouping(ps) + [Group(p.categoryName, [p])]
  {
    var c := p.categoryName;
    var ks := CategoryKeys(ps);
    forall k | 0 <= k < |ks|
      ensures ks[k] != c
    {
      assert Grouping(ps)[k].category == ks[k];
    }
    KeysSnocNew(ps, p);
    GroupOfAbsent(ps, c);
    var gs := Grouping(ps);
    var hs := Grouping(ps + [p]);
    var want := gs + [Group(c, [p])];
    forall j | 0 <= j < |ks| + 1
      ensures hs[j] == want[j]
    {
      if j < |ks| {
        GroupOfSnoc(ps, p, ks[j]);
      } else {
        GroupOfSnoc(ps, p, c);
      }
    }
    assert |hs| == |want|;
  }

  /** `groupedProducts`: the reduce that creates a category's array on first sight and
      pushes each product into it. */
  method GroupProducts(ps: seq<Product>) returns (groups: seq<Group>)
    ensures groups == Grouping(ps)
  {
    groups := [];
    var i := 0;
    while i < |ps|
      invariant 0 <= i <= |ps|
      invariant groups == Grouping(ps[..i])
    {
      var p := ps[i];
      assert ps[..i + 1] == ps[..i] + [p];
      var found := Seqs.FindIndex(groups, (g: Group) => g.category == p.categoryName);
      if found.Some? {
        var k := found.value;
        GroupingSnocJoins(ps[..i], p, k);
        groups := groups[k := Group(p.categoryName, groups[k].products + [p])];
      } else {
        GroupingSnocOpens(ps[..i], p);
        groups := groups + [Group(p.categoryName, [p])];
      }
      i := i + 1;
    }
    assert ps[..i] == ps;
  }

  /** Every group has a distinct category, is not empty, and holds only products of the
      list filed under its category, in their original relative order. */
  lemma GroupsAreCategories(ps: seq<Product>)
    ensures var gs := Grouping(ps);
            (forall i, j :: 0 <= i < j < |gs| ==> gs[i].category != gs[j].category)
            && forall i :: 0 <= i < |gs| ==>
                 |gs[i].products| > 0 && Seqs.IsSubsequence(gs[i].products, ps)
                 && forall q :: q in gs[i].products ==> q in ps && q.categoryName == gs[i].category
  {
    var gs := Grouping(ps);
    var ks := CategoryKeys(ps);
    forall i | 0 <= i < |gs|
      ensures |gs[i].products| > 0 && Seqs.IsSubsequence(gs[i].products, ps)
    {
      assert ks[i] in ks;
      var p :| p in ps && p.categoryName == ks[i];
      var k :| 0 <= k < |ps| && ps[k] == p;
      assert InCategory(ks[i])(ps[k]);
      Seqs.FilterIsSubsequence(ps, InCategory(ks[i]));
    }
  }

  /** Every product of the list sits in the group of its own category. */
  lemma ProductInItsGroup(ps: seq<Product>, q: Product)
    requires q in ps
    ensures exists i :: 0 <= i < |Grouping(ps)| && Grouping(ps)[i].category == q.categoryName
                        && q in Grouping(ps)[i].products
  {
    var ks := CategoryKeys(ps);
    assert q.categoryName in ks;
    var i :| 0 <= i < |ks| && ks[i] == q.categoryName;
    var k :| 0 <= k < |ps| && ps[k] == q;
    assert InCategory(ks[i])(ps[k]);
    assert q in Grouping(ps)[i].products;
  }

  /** The products of all groups, group after group. */
  function AllProducts(gs: seq<Group>): seq<Product> {
    if gs == [] then [] else gs[0].products + AllProducts(gs[1..])
  }

  /** Some group of `gs` has category `c`. */
  ghost predicate HasGroup(gs: seq<Group>, c: string) {
    exists i :: 0 <= i < |gs| && gs[i].category == c
  }

  lemma HasGroupCons(gs: seq<Group>, c: string)
    requires gs != []
    ensures HasGroup(gs, c) <==> gs[0].category == c || HasGroup(gs[1..], c)
  {
    if HasGroup(gs, c) && gs[0].category != c {
      var i :| 0 <= i < |gs| && gs[i].category == c;
      assert gs[1..][i - 1] == gs[i];
    }
    if HasGroup(gs[1..], c) {
      var i :| 0 <= i < |gs[1..]| && gs[1..][i].category == c;
      assert gs[i + 1] == gs[1..][i];
    }
  }

  /** Counting one product over groups that each hold their category's products of `ps`:
      it is counted as often as in `ps` when its category has a group, else never. */
  lemma {:induction false} CountInGroups(ps: seq<Product>, gs: seq<Group>, x: Product)
    requires forall i :: 0 <= i < |gs| ==> gs[i].products == GroupOf(ps, gs[i].category)
    requires forall i, j :: 0 <= i < j < |gs| ==> gs[i].category != gs[j].category
    ensures multiset(AllProducts(gs))[x] == if HasGroup(gs, x.categoryName) then multiset(ps)[x] else 0
  {
    if gs != [] {
      var c := x.categoryName;
      var rest := gs[1..];
      forall i | 0 <= i < |rest|
        ensures rest[i] == gs[i + 1]
      {
      }
      CountInGroups(ps, rest, x);
      Seqs.FilterCount(ps, InCategory(gs[0].category), x);
      HasGroupCons(gs, c);
      if gs[0].category == c {
        forall i | 0 <= i < |rest|
          ensures rest[i].category != c
        {
          assert rest[i] == gs[i + 1];
        }
      }
    }
  }

  /** Together the groups hold exactly the product list: nothing lost, nothing doubled. */
  lemma GroupingIsPermutation(ps: seq<Product>)
    ensures multiset(AllProducts(Grouping(ps))) == multiset(ps)
  {
    var gs := Grouping(ps);
    GroupsAreCategories(ps);
    forall x
      ensures multiset(AllProducts(gs))[x] == multiset(ps)[x]
    {
      CountInGroups(ps, gs, x);
      if x in ps {
        ProductInItsGroup(ps, x);
      }
    }
  }

  // ---------------------------------------------------------------------------------------
  // Search

  /** The search test: name, code or unit size contains the term, ignoring letter case. */
  predicate ProductMatches(p: Product, term: string) {
    Text.ContainsIgnoringCase(p.name, term) || Text.ContainsIgnoringCase(p.code, term)
    || Text.ContainsIgnoringCase(p.unitSize, term)
  }

  function Matcher(term: string): Product -> bool {
    (p: Product) => ProductMatches(p, term)
  }

  /** `filteredGroupedProducts`: each group keeps its matching products, and a group left
      with none is dropped. */
  function FilteredGroups(gs: seq<Group>, term: string): (r: seq<Group>)
    ensures |r| <= |gs|
    ensures forall i :: 0 <= i < |r| ==> |r[i].products| > 0
  {
    if gs == [] then []
    else
      var last := gs[|gs| - 1];
      var kept := Seqs.Filter(last.products, Matcher(term));
      FilteredGroups(gs[..|gs| - 1], term) + (if |kept| > 0 then [Group(last.category, kept)] else [])
  }

  /** `filteredGroupedProducts` as the reduce over the record's entries. */
  method FilterGroups(gs: seq<Group>, term: string) returns (shown: seq<Group>)
    ensures shown == FilteredGroups(gs, term)
  {
    shown := [];
    var i := 0;
    while i < |gs|
      invariant 0 <= i <= |gs|
      invariant shown == FilteredGroups(gs[..i], term)
    {
      assert gs[..i + 1][..i] == gs[..i];
      var filtered := Seqs.Filter(gs[i].products, Matcher(term));
      if |filtered| > 0 {
        shown := shown + [Group(gs[i].category, filtered)];
      }
      i := i + 1;
    }
    assert gs[..i] == gs;
  }

  /** Product `q` sits in a group whose category is `c`. */
  ghost predicate InGroup(gs: seq<Group>, c: string, q: Product) {
    exists i :: 0 <= i < |gs| && gs[i].category == c && q in gs[i].products
  }

  lemma InGroupOfAppend(a: seq<Group>, b: seq<Group>, c: string, q: Product)
    requires InGroup(a + b, c, q)
    ensures InGroup(a, c, q) || InGroup(b, c, q)
  {
    var ab := a + b;
    var i :| 0 <= i < |ab| && ab[i].category == c && q in ab[i].products;
    if i < |a| {
      assert ab[i] == a[i];
    } else {
      assert ab[i] == b[i - |a|];
    }
  }

  lemma InGroupAppend(a: seq<Group>, b: seq<Group>, c: string, q: Product)
    ensures InGroup(a + b, c, q) <==> InGroup(a, c, q) || InGroup(b, c, q)
  {
    var ab := a + b;
    if InGroup(ab, c, q) {
      InGroupOfAppend(a, b, c, q);
    }
    if InGroup(a, c, q) {
      var i :| 0 <= i < |a| && a[i].category == c && q in a[i].products;
      assert ab[i] == a[i];
    }
    if InGroup(b, c, q) {
      var i :| 0 <= i < |b| && b[i].category == c && q in b[i].products;
      assert ab[|a| + i] == b[i];
    }
  }

  lemma InGroupSingle(g: Group, c: string, q: Product)
    ensures InGroup([g], c, q) <==> g.category == c && q in g.products
  {
    if g.category == c && q in g.products {
      assert [g][0] == g;
    }
  }

  /** A product is shown under a category exactly when it matches the search and was in
      that category's group before filtering. */
  lemma {:induction false} FilteredGroupsMembership(gs: seq<Group>, term: string, c: string, q: Product)
    ensures InGroup(FilteredGroups(gs, term), c, q) <==> ProductMatches(q, term) && InGroup(gs, c, q)
  {
    if gs != [] {
      var init := gs[..|gs| - 1];
      var last := gs[|gs| - 1];
      var kept := Seqs.Filter(last.products, Matcher(term));
      var tail := if |kept| > 0 then [Group(last.category, kept)] else [];
      FilteredGroupsMembership(init, term, c, q);
      assert FilteredGroups(gs, term) == FilteredGroups(init, term) + tail;
      InGroupAppend(FilteredGroups(init, term), tail, c, q);
      assert gs == init + [last];
      InGroupAppend(init, [last], c, q);
      InGroupSingle(last, c, q);
      Seqs.FilterMember(last.products, Matcher(term), q);
      if |kept| > 0 {
        InGroupSingle(Group(last.category, kept), c, q);
      } else {
        assert q !in kept;
      }
    }
  }

  /** On the page: a product of the list is shown, under its own category, exactly when
      it matches the search. */
  lemma ShownIffMatches(ps: seq<Product>, term: string, q: Product)
    requires q in ps
    ensures InGroup(FilteredGroups(Grouping(ps), term), q.categoryName, q) <==> ProductMatches(q, term)
  {
    ProductInItsGroup(ps, q);
    FilteredGroupsMembership(Grouping(ps), term, q.categoryName, q);
  }

  /** With an empty search every product of a group matches. */
  lemma EmptySearchKeepsProducts(ps: seq<Product>)
    ensures Seqs.Filter(ps, Matcher("")) == ps
  {
    forall k | 0 <= k < |ps|
      ensures Matcher("")(ps[k])
    {
      Text.EmptyTermMatches(ps[k].name);
    }
    Seqs.FilterKeepsAll(ps, Matcher(""));
  }

  /** With an empty search every non-empty group is shown unchanged. */
  lemma {:induction false} EmptySearchKeepsGroups(gs: seq<Group>)
    requires forall i :: 0 <= i < |gs| ==> |gs[i].products| > 0
    ensures FilteredGroups(gs, "") == gs
  {
    if gs != [] {
      var init := gs[..|gs| - 1];
      var last := gs[|gs| - 1];
      forall i | 0 <= i < |init|
        ensures |init[i].products| > 0
      {
        assert init[i] == gs[i];
      }
      EmptySearchKeepsGroups(init);
      EmptySearchKeepsProducts(last.products);
      assert FilteredGroups(gs, "") == init + [Group(last.category, last.products)];
      Seqs.SplitLast(gs);
    }
  }

  /** With an empty search the page shows the whole grouping. */
  lemma EmptySearchShowsGrouping(ps: seq<Product>)
    ensures FilteredGroups(Grouping(ps), "") == Grouping(ps)
  {
    GroupsAreCategories(ps);
    EmptySearchKeepsGroups(Grouping(ps));
  }

  // ---------------------------------------------------------------------------------------
  // Deletion and the save payload

  /** `prev.filter(product => product.id !== id)`. */
  function WithoutProduct(ps: seq<Product>, id: nat): (r: seq<Product>)
    ensures forall q :: q in r <==> q in ps && q.id != id
  {
    Seqs.Filter(ps, (p: Product) => p.id != id)
  }

  /** Deletion removes every product with that id, keeps every other one as often as it
      occurred, and keeps their order. */
  lemma DeleteRemovesExactly(ps: seq<Product>, id: nat)
    ensures Seqs.IsSubsequence(WithoutProduct(ps, id), ps)
    ensures forall x :: multiset(WithoutProduct(ps, id))[x] == if x.id == id then 0 else multiset(ps)[x]
  {
    Seqs.FilterIsSubsequence(ps, (p: Product) => p.id != id);
    forall x
      ensures multiset(WithoutProduct(ps, id))[x] == if x.id == id then 0 else multiset(ps)[x]
    {
      Seqs.FilterCount(ps, (p: Product) => p.id != id, x);
    }
  }

  /** `Number(data.category)`: the empty choice is 0. */
  function CategoryNumber(choice: Option<nat>): nat {
    choice.GetOr(0)
  }

  /** The save payload: the chosen category's id and the name of the first category with
      that id, or `''` when there is none. */
  function PayloadOf(data: FormValues, categories: seq<Category>): (r: Payload)
    ensures r.categoryName != "" ==>
              exists i :: 0 <= i < |categories| && categories[i].id == r.category && categories[i].name == r.categoryName
    ensures (forall i :: 0 <= i < |categories| ==> categories[i].id != r.category) ==> r.categoryName == ""
    ensures r.code == data.code && r.name == data.name && r.isLiquid == data.isLiquid
            && r.unitSize == data.unit && r.isActive == data.isActive
  {
    var selected := Seqs.Find(categories, (c: Category) => c.id == CategoryNumber(data.category));
    Payload(data.code, data.name, CategoryNumber(data.category),
            if selected.Some? then selected.value.name else "",
            data.isLiquid, data.unit, data.isActive)
  }

  function CategoryId(c: Category): nat {
    c.id
  }

  /** When category ids are distinct, the payload names the chosen category. */
  lemma PayloadNamesChosenCategory(data: FormValues, categories: seq<Category>, k: nat)
    requires Seqs.DistinctBy(categories, CategoryId)
    requires k < |categories| && data.category == Some(categories[k].id)
    ensures PayloadOf(data, categories).category == categories[k].id
    ensures PayloadOf(data, categories).categoryName == categories[k].name
  {
    var selected := Seqs.Find(categories, (c: Category) => c.id == CategoryNumber(data.category));
    var i :| 0 <= i < |categories| && categories[i] == selected.value
             && categories[i].id == CategoryNumber(data.category);
  }

  /** The form the dialog shows: the edited product's values, or the defaults. */
  function FormFor(editing: Option<Product>): (f: FormValues)
    ensures editing.None? ==>
              f.code == "" && f.name == "" && f.category.None? && !f.isLiquid && f.unit == "" && f.isActive
    ensures editing.Some? ==>
              f.code == editing.value.code && f.name == editing.value.name
              && f.category == Some(editing.value.category) && f.isLiquid == editing.value.isLiquid
              && f.unit == editing.value.unitSize && f.isActive == editing.value.isActive
  {
    match editing
    case Some(p) => FormValues(p.code, p.name, Some(p.category), p.isLiquid, p.unitSize, p.isActive)
    case None => FormValues("", "", None, false, "", true)
  }

  /** Saving an edited product without touching the form sends its own values back. */
  lemma UnchangedEditResubmitsProduct(p: Product, categories: seq<Category>)
    ensures var r := PayloadOf(FormFor(Some(p)), categories);
            r.code == p.code && r.name == p.name && r.category == p.category && r.isLiquid == p.isLiquid
            && r.unitSize == p.unitSize && r.isActive == p.isActive
  {
  }

  /** Saving a new product with no category chosen sends category 0. */
  lemma UnchosenCategoryIsZero(data: FormValues, categories: seq<Category>)
    requires data.category.None?
    ensures PayloadOf(data, categories).category == 0
  {
  }

  class ProductsPage {
    var products: seq<Product>
    var categories: seq<Category>
    var openDialog: bool
    var editingProduct: Option<Product>
    var searchTerm: string
    var form: FormValues

    constructor()
      ensures products == [] && categories == [] && !openDialog && editingProduct.None?
      ensures searchTerm == "" && form == FormFor(None)
    {
      products := [];
      categories := [];
      openDialog := false;
      editingProduct := None;
      searchTerm := "";
      form := FormFor(None);
    }

    /** The edit button on a row. */
    method StartEdit(p: Product)
      modifies this`editingProduct, this`openDialog
      ensures editingProduct == Some(p) && openDialog
    {
      editingProduct := Some(p);
      openDialog := true;
    }

    /** The effect that fills the form from the edited product or resets it. */
    method SyncForm()
      modifies this`form
      ensures form == FormFor(editingProduct)
    {
      form := FormFor(editingProduct);
    }

    /** `handleDelete`: local removal, no server call. */
    method HandleDelete(id: nat)
      modifies this`products
      ensures products == WithoutProduct(old(products), id)
    {
      products := Seqs.Filter(products, (p: Product) => p.id != id);
    }

    /** `onSubmit`. `token` is the stored access token, `ok` the save reply's status and
        `refreshed` the list the follow-up fetch returns (`None` when it fails). The payload
        is returned when a request is sent. */
    method OnSubmit(data: FormValues, token: Option<string>, ok: bool, refreshed: Option<seq<Product>>)
      returns (sent: Option<Payload>)
      modifies this`products, this`openDialog, this`editingProduct, this`form
      ensures Text.Present(token) <==> sent.Some?
      ensures sent.Some? ==> sent.value == PayloadOf(data, categories)
      ensures !(Text.Present(token) && ok) ==>
                products == old(products) && openDialog == old(openDialog)
                && editingProduct == old(editingProduct) && form == old(form)
      ensures Text.Present(token) && ok ==>
                !openDialog && editingProduct.None? && form == FormFor(None)
                && products == (if refreshed.Some? then refreshed.value else old(products))
    {
      var payload := PayloadOf(data, categories);
      if !Text.Present(token) {
        return None;
      }
      sent := Some(payload);
      if !ok {
        return;
      }
      openDialog := false;
      editingProduct := None;
      form := FormFor(None);
      if refreshed.Some? {
        products := refreshed.value;
      }
    }
  }
}
