/** The seller administration page: the search over sellers (including their numeric id),
    local deletion, the save payload, the list update after the server's reply, and the
    page-by-page navigation of the server's paginated list. */
module Sellers {
  import opened Wrappers
  import Seqs
  import Text
  import ListUpdates

  datatype Seller = Seller(id: nat, storeName: string, firstName: string, lastName: string, mobileno: string,
                           route: nat, routeName: string, storeAddress: string)

  datatype RouteOption = RouteOption(id: nat, name: string, code: string)

  /** The dialog's form; `route` is `''` (`None`) until a route is chosen. */
  datatype FormValues = FormValues(route: Option<nat>, storeName: string, firstName: string, lastName: string,
                                   mobileno: string, storeAddress: string)

  /** The request body: the form with the route as a number, the route's name and no
      coordinates (`lat`/`lan` are always `null`, so they are not fields here). */
  datatype Payload = Payload(route: nat, routeName: string, storeName: string, firstName: string, lastName: string,
                             mobileno: string, storeAddress: string)

  /** One page of the server's list. */
  datatype PageReply = PageReply(results: seq<Seller>, count: nat, next: Option<string>, previous: Option<string>)

  function SellerId(s: Seller): nat {
    s.id
  }

  /** The search test: five text fields ignoring letter case, or the id's digits. */
  predicate SellerMatches(s: Seller, term: string) {
    var t := Text.Lower(term);
    Text.Includes(Text.Lower(s.storeName), t) || Text.Includes(Text.Lower(s.firstName), t)
    || Text.Includes(Text.Lower(s.lastName), t) || Text.Includes(Text.Lower(s.routeName), t)
    || Text.Includes(Text.Lower(s.storeAddress), t) || Text.Includes(Text.DecimalString(s.id), t)
  }

  /** `filteredSellers`. */
  function FilteredSellers(sellers: seq<Seller>, term: string): (r: seq<Seller>)
    ensures forall i :: 0 <= i < |r| ==> r[i] in sellers && SellerMatches(r[i], term)
    ensures forall i :: 0 <= i < |sellers| && SellerMatches(sellers[i], term) ==> sellers[i] in r
  {
    Seqs.Filter(sellers, (s: Seller) => SellerMatches(s, term))
  }

  /** Searching for a seller's id in decimal finds that seller. */
  lemma SellerFoundById(sellers: seq<Seller>, k: nat)
    requires k < |sellers|
    ensures sellers[k] in FilteredSellers(sellers, Text.DecimalString(sellers[k].id))
  {
    var d := Text.DecimalString(sellers[k].id);
    assert Text.Lower(d) == d by {
      forall i | 0 <= i < |d|
        ensures Text.LowerChar(d[i]) == d[i]
      {
        assert Text.IsDigit(d[i]);
      }
    }
    assert d[0..] == d;
    assert Text.StartsWith(d[0..], d);
  }

  /** An empty search shows every seller. */
  lemma EmptySearchShowsAllSellers(sellers: seq<Seller>)
    ensures FilteredSellers(sellers, "") == sellers
  {
    forall i | 0 <= i < |sellers|
      ensures SellerMatches(sellers[i], "")
    {
      Text.EmptyTermMatches(sellers[i].storeName);
    }
    Seqs.FilterKeepsAll(sellers, (s: Seller) => SellerMatches(s, ""));
  }

  /** The payload: the route id as a number (`''` is 0), the first route with that id's
      name or `''`, and the text fields as typed. */
  function PayloadOf(data: FormValues, routes: seq<RouteOption>): (p: Payload)
    ensures p.route == data.route.GetOr(0)
    ensures p.routeName != "" ==> exists i :: 0 <= i < |routes| && routes[i].id == p.route && routes[i].name == p.routeName
    ensures (forall i :: 0 <= i < |routes| ==> routes[i].id != p.route) ==> p.routeName == ""
    ensures p.storeName == data.storeName && p.firstName == data.firstName && p.lastName == data.lastName
            && p.mobileno == data.mobileno && p.storeAddress == data.storeAddress
  {
    var route := data.route.GetOr(0);
    var selected := Seqs.Find(routes, (r: RouteOption) => r.id == route);
    Payload(route, if selected.Some? then selected.value.name else "", data.storeName, data.firstName,
            data.lastName, data.mobileno, data.storeAddress)
  }

  /** The form the dialog shows for the seller being edited, or the defaults. */
  function FormFor(editing: Option<Seller>): (f: FormValues)
    ensures editing.None? ==>
              f.route.None? && f.storeName == "" && f.firstName == "" && f.lastName == ""
              && f.mobileno == "" && f.storeAddress == ""
    ensures editing.Some? ==>
              f.route == Some(editing.value.route) && f.storeName == editing.value.storeName
              && f.firstName == editing.value.firstName && f.lastName == editing.value.lastName
              && f.mobileno == editing.value.mobileno && f.storeAddress == editing.value.storeAddress
  {
    match editing
    case Some(s) => FormValues(Some(s.route), s.storeName, s.firstName, s.lastName, s.mobileno, s.storeAddress)
    case None => FormValues(None, "", "", "", "", "")
  }

  /** Saving an edited seller unchanged resends its own route and fields. */
  lemma UnchangedEditResubmitsSeller(s: Seller, routes: seq<RouteOption>)
    ensures var p := PayloadOf(FormFor(Some(s)), routes);
            p.route == s.route && p.storeName == s.storeName && p.firstName == s.firstName
            && p.lastName == s.lastName && p.mobileno == s.mobileno && p.storeAddress == s.storeAddress
  {
  }

  class SellersPage {
    var sellers: seq<Seller>
    var routes: seq<RouteOption>
    var openDialog: bool
    var editingSeller: Option<Seller>
    var searchTerm: string
    var form: FormValues
    var page: int
    var count: nat
    var next: Option<string>
    var previous: Option<string>

    constructor()
      ensures sellers == [] && routes == [] && !openDialog && editingSeller.None? && searchTerm == ""
      ensures form == FormFor(None) && page == 1 && count == 0 && next.None? && previous.None?
    {
      sellers := [];
      routes := [];
      openDialog := false;
      editingSeller := None;
      searchTerm := "";
      form := FormFor(None);
      page := 1;
      count := 0;
      next := None;
      previous := None;
    }

    /** The edit button on a row. */
    method StartEdit(s: Seller)
      modifies this`editingSeller, this`openDialog
      ensures editingSeller == Some(s) && openDialog
    {
      editingSeller := Some(s);
      openDialog := true;
    }

    /** The effect that fills the form from the edited seller or resets it. */
    method SyncForm()
      modifies this`form
      ensures form == FormFor(editingSeller)
    {
      form := FormFor(editingSeller);
    }

    /** The effect that loads the current page; `reply` is `None` when the request fails. */
    method LoadPage(token: Option<string>, reply: Option<PageReply>)
      modifies this`sellers, this`count, this`next, this`previous
      ensures Text.Present(token) && reply.Some? ==>
                sellers == reply.value.results && count == reply.value.count
                && next == reply.value.next && previous == reply.value.previous
      ensures !(Text.Present(token) && reply.Some?) ==>
                sellers == old(sellers) && count == old(count) && next == old(next) && previous == old(previous)
    {
      if !Text.Present(token) || reply.None? {
        return;
      }
      sellers := reply.value.results;
      count := reply.value.count;
      next := reply.value.next;
      previous := reply.value.previous;
    }

    /** The Previous button: disabled unless the server reported a previous page. */
    method PreviousPage()
      modifies this`page
      ensures page == if Text.Present(previous) then old(page) - 1 else old(page)
    {
      if Text.Present(previous) {
        page := page - 1;
      }
    }

    /** The Next button: disabled unless the server reported a next page. */
    method NextPage()
      modifies this`page
      ensures page == if Text.Present(next) then old(page) + 1 else old(page)
    {
      if Text.Present(next) {
        page := page + 1;
      }
    }

    /** `handleDelete`: local removal, no server call. */
    method HandleDelete(id: nat)
      modifies this`sellers
      ensures sellers == ListUpdates.RemoveById(old(sellers), SellerId, id)
    {
      sellers := ListUpdates.RemoveById(sellers, SellerId, id);
    }

    /** `onSubmit`. `reply` is the server's record, `None` when the request fails. The
        payload is returned when a request is sent. */
    method OnSubmit(data: FormValues, token: Option<string>, reply: Option<Seller>) returns (sent: Option<Payload>)
      modifies this`sellers, this`openDialog, this`editingSeller, this`form
      ensures sent.Some? <==> Text.Present(token)
      ensures sent.Some? ==> sent.value == PayloadOf(data, routes)
      ensures sent.Some? && reply.Some? ==>
                !openDialog && editingSeller.None? && form == FormFor(None)
                && sellers == match old(editingSeller)
                              case Some(e) => ListUpdates.ReplaceById(old(sellers), SellerId, e.id, reply.value)
                              case None => old(sellers) + [reply.value]
      ensures !(sent.Some? && reply.Some?) ==>
                sellers == old(sellers) && openDialog == old(openDialog)
                && editingSeller == old(editingSeller) && form == old(form)
    {
      if !Text.Present(token) {
        return None;
      }
      var payload := PayloadOf(data, routes);
      sent := Some(payload);
      if reply.None? {
        return;
      }
      if editingSeller.Some? {
        sellers := ListUpdates.ReplaceById(sellers, SellerId, editingSeller.value.id, reply.value);
      } else {
        sellers := sellers + [reply.value];
      }
      openDialog := false;
      editingSeller := None;
      form := FormFor(None);
    }
  }
}
