/** The delivery-route administration page: the search over routes, and the route list
    kept in step with the server's answers to create, update and delete. */
module RoutesManagement {
  import opened Wrappers
  import Seqs
  import Text
  import ListUpdates

  datatype Route = Route(id: nat, name: string, code: string)

  datatype RouteForm = RouteForm(name: string, code: string)

  function RouteId(r: Route): nat {
    r.id
  }

  predicate RouteMatches(r: Route, term: string) {
    Text.ContainsIgnoringCase(r.name, term) || Text.ContainsIgnoringCase(r.code, term)
  }

  /** `filteredRoutes`: the routes whose name or code contains the term, ignoring case. */
  function FilteredRoutes(routes: seq<Route>, term: string): (r: seq<Route>)
    ensures forall i :: 0 <= i < |r| ==> r[i] in routes && RouteMatches(r[i], term)
    ensures forall i :: 0 <= i < |routes| && RouteMatches(routes[i], term) ==> routes[i] in r
  {
    Seqs.Filter(routes, (r: Route) => RouteMatches(r, term))
  }

  /** An empty search shows every route, in order. */
  lemma EmptySearchShowsAllRoutes(routes: seq<Route>)
    ensures FilteredRoutes(routes, "") == routes
  {
    forall i | 0 <= i < |routes|
      ensures RouteMatches(routes[i], "")
    {
      Text.EmptyTermMatches(routes[i].name);
    }
    Seqs.FilterKeepsAll(routes, (r: Route) => RouteMatches(r, ""));
  }

  /** A route is found by its own code. */
  lemma RouteFoundByCode(routes: seq<Route>, k: nat)
    requires k < |routes|
    ensures routes[k] in FilteredRoutes(routes, routes[k].code)
  {
    Text.FieldMatchesItself(routes[k].code);
  }

  function FormFor(editing: Option<Route>): (f: RouteForm)
    ensures editing.Some? ==> f.name == editing.value.name && f.code == editing.value.code
    ensures editing.None? ==> f == RouteForm("", "")
  {
    match editing
    case Some(r) => RouteForm(r.name, r.code)
    case None => RouteForm("", "")
  }

  class RoutesPage {
    var routes: seq<Route>
    var openDialog: bool
    var editingRoute: Option<Route>
    var searchTerm: string
    var form: RouteForm

    constructor()
      ensures routes == [] && !openDialog && editingRoute.None? && searchTerm == "" && form == FormFor(None)
    {
      routes := [];
      openDialog := false;
      editingRoute := None;
      searchTerm := "";
      form := FormFor(None);
    }

    /** The edit button on a row. */
    method StartEdit(r: Route)
      modifies this`editingRoute, this`openDialog
      ensures editingRoute == Some(r) && openDialog
    {
      editingRoute := Some(r);
      openDialog := true;
    }

    /** The effect that fills the form from the edited route or resets it. */
    method SyncForm()
      modifies this`form
      ensures form == FormFor(editingRoute)
    {
      form := FormFor(editingRoute);
    }

    /** `onSubmit`: without a token nothing is sent; `reply` is the server's record, `None`
        when the request fails. Returns whether a request was sent. */
    method OnSubmit(data: RouteForm, token: Option<string>, reply: Option<Route>) returns (sent: bool)
      modifies this`routes, this`openDialog, this`editingRoute, this`form
      ensures sent <==> Text.Present(token)
      ensures sent && reply.Some? ==>
                !openDialog && editingRoute.None? && form == FormFor(None)
                && routes == match old(editingRoute)
                             case Some(e) => ListUpdates.ReplaceById(old(routes), RouteId, e.id, reply.value)
                             case None => old(routes) + [reply.value]
      ensures !(sent && reply.Some?) ==>
                routes == old(routes) && openDialog == old(openDialog)
                && editingRoute == old(editingRoute) && form == old(form)
    {
      if !Text.Present(token) {
        return false;
      }
      sent := true;
      if reply.None? {
        return;
      }
      if editingRoute.Some? {
        routes := ListUpdates.ReplaceById(routes, RouteId, editingRoute.value.id, reply.value);
      } else {
        routes := routes + [reply.value];
      }
      openDialog := false;
      editingRoute := None;
      form := FormFor(None);
    }

    /** `handleDelete`: the route leaves the list only after the server confirms (`ok`). */
    method HandleDelete(id: nat, token: Option<string>, ok: bool) returns (sent: bool)
      modifies this`routes
      ensures sent <==> Text.Present(token)
      ensures routes == if sent && ok then ListUpdates.RemoveById(old(routes), RouteId, id) else old(routes)
    {
      if !Text.Present(token) {
        return false;
      }
      sent := true;
      if ok {
        routes := ListUpdates.RemoveById(routes, RouteId, id);
      }
    }
  }
}
