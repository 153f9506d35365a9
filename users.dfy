/** The user administration page: the search over user records, the edit dialog's prefill
    and the edit payload, which carries a password only when one is typed. */
module Users {
  import opened Wrappers
  import Seqs
  import Text

  datatype User = User(id: nat, username: string, email: string, firstName: string, lastName: string,
                       role: string, mobileNumber: Option<string>)

  datatype RoleOption = RoleOption(value: string, title: string)

  datatype EditForm = EditForm(firstName: string, lastName: string, role: string, password: string)

  const BlankEditForm := EditForm("", "", "", "")

  /** The edit request body; `password` is absent unless a new one was typed. */
  datatype EditPayload = EditPayload(firstName: string, lastName: string, role: string, password: Option<string>)

  /** The search test over the six displayed fields; a missing mobile number reads as `''`. */
  predicate UserMatches(u: User, term: string) {
    Text.ContainsIgnoringCase(u.username, term) || Text.ContainsIgnoringCase(u.email, term)
    || Text.ContainsIgnoringCase(u.firstName, term) || Text.ContainsIgnoringCase(u.lastName, term)
    || Text.ContainsIgnoringCase(u.role, term) || Text.ContainsIgnoringCase(u.mobileNumber.GetOr(""), term)
  }

  /** `filteredUsers`: the users that match, in list order, and every user that matches. */
  function FilteredUsers(users: seq<User>, term: string): (r: seq<User>)
    ensures forall i :: 0 <= i < |r| ==> r[i] in users && UserMatches(r[i], term)
    ensures forall i :: 0 <= i < |users| && UserMatches(users[i], term) ==> users[i] in r
  {
    Seqs.Filter(users, (u: User) => UserMatches(u, term))
  }

  /** The result keeps the users' order. */
  lemma FilteredUsersKeepOrder(users: seq<User>, term: string)
    ensures Seqs.IsSubsequence(FilteredUsers(users, term), users)
  {
    Seqs.FilterIsSubsequence(users, (u: User) => UserMatches(u, term));
  }

  /** An empty search shows every user. */
  lemma EmptySearchShowsAllUsers(users: seq<User>)
    ensures FilteredUsers(users, "") == users
  {
    forall i | 0 <= i < |users|
      ensures UserMatches(users[i], "")
    {
      Text.EmptyTermMatches(users[i].username);
    }
    Seqs.FilterKeepsAll(users, (u: User) => UserMatches(u, ""));
  }

  /** A user is found by its own user name, in any letter case of the search. */
  lemma UserFoundByUsername(users: seq<User>, k: nat)
    requires k < |users|
    ensures users[k] in FilteredUsers(users, users[k].username)
  {
    Text.FieldMatchesItself(users[k].username);
  }

  /** The edit dialog's values for `u`: its names and role, and an empty password. */
  function Prefill(u: User): (f: EditForm)
    ensures f.password == ""
  {
    EditForm(u.firstName, u.lastName, u.role, "")
  }

  /** The edit payload: names and role always, the password only when it is not empty. */
  function EditPayloadOf(values: EditForm): (p: EditPayload)
    ensures p.firstName == values.firstName && p.lastName == values.lastName && p.role == values.role
    ensures p.password.Some? <==> values.password != ""
    ensures p.password.Some? ==> p.password.value == values.password
  {
    var payload := EditPayload(values.firstName, values.lastName, values.role, None);
    if values.password != "" then payload.(password := Some(values.password)) else payload
  }

  /** Saving the prefilled dialog unchanged resends the user's names and role and leaves
      the password alone. */
  lemma UnchangedEditKeepsPassword(u: User)
    ensures EditPayloadOf(Prefill(u)) == EditPayload(u.firstName, u.lastName, u.role, None)
  {
  }

  class UsersPage {
    var users: seq<User>
    var searchTerm: string
    var roles: seq<RoleOption>
    var editDialogOpen: bool
    var editUser: Option<User>
    var editForm: EditForm

    constructor()
      ensures users == [] && searchTerm == "" && roles == [] && !editDialogOpen
      ensures editUser.None? && editForm == BlankEditForm
    {
      users := [];
      searchTerm := "";
      roles := [];
      editDialogOpen := false;
      editUser := None;
      editForm := BlankEditForm;
    }

    /** `handleEditDialogOpen`. When opening with no roles loaded, the roles are fetched
        first (`rolesReply`); without a token the handler stops there, before the prefill.
        Closing clears the edited user and the form. */
    method HandleEditDialogOpen(open: bool, user: Option<User>, token: Option<string>,
                                rolesReply: Option<seq<RoleOption>>)
      modifies this`editDialogOpen, this`roles, this`editUser, this`editForm
      ensures editDialogOpen == open
      ensures roles == if open && |old(roles)| == 0 && Text.Present(token) && rolesReply.Some?
                       then rolesReply.value else old(roles)
      ensures var stopped := open && |old(roles)| == 0 && !Text.Present(token);
              (open && user.Some? && !stopped ==> editUser == user && editForm == Prefill(user.value))
              && (open && (user.None? || stopped) ==> editUser == old(editUser) && editForm == old(editForm))
              && (!open ==> editUser.None? && editForm == BlankEditForm)
    {
      editDialogOpen := open;
      if open && |roles| == 0 {
        if !Text.Present(token) {
          return;
        }
        if rolesReply.Some? {
          roles := rolesReply.value;
        }
      }
      if open && user.Some? {
        editUser := user;
        editForm := Prefill(user.value);
      }
      if !open {
        editUser := None;
        editForm := BlankEditForm;
      }
    }

    /** `handleEditFormSubmit`. Returns the edited user's id and the payload when a request
        is sent; `ok` is the reply's status and `refreshed` what the follow-up fetch of the
        user list returns. */
    method HandleEditFormSubmit(values: EditForm, token: Option<string>, ok: bool, refreshed: Option<seq<User>>)
      returns (sent: Option<(nat, EditPayload)>)
      modifies this`users, this`editDialogOpen, this`editUser, this`editForm
      ensures sent.Some? <==> old(editUser).Some? && Text.Present(token)
      ensures sent.Some? ==> sent.value == (old(editUser).value.id, EditPayloadOf(values))
      ensures sent.Some? && ok ==>
                !editDialogOpen && editUser.None? && editForm == BlankEditForm
                && users == (if refreshed.Some? then refreshed.value else old(users))
      ensures !(sent.Some? && ok) ==>
                users == old(users) && editDialogOpen == old(editDialogOpen)
                && editUser == old(editUser) && editForm == old(editForm)
    {
      if editUser.None? || !Text.Present(token) {
        return None;
      }
      sent := Some((editUser.value.id, EditPayloadOf(values)));
      if !ok {
        return;
      }
      editDialogOpen := false;
      editUser := None;
      editForm := BlankEditForm;
      if refreshed.Some? {
        users := refreshed.value;
      }
    }
  }
}
