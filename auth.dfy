/** The authentication context: the signed-in user, the start-up loading flag and the two
    browser-storage entries (`user`, `token`) that keep a session across reloads. The login
    request's answer and the JSON encoding of a user are parameters; the HTTP call, the
    `Authorization` header default and the console are not modelled. */
module AuthContext {
  import opened Wrappers
  import Seqs

  datatype Role = Admin | Sales | Delivery

  datatype User = User(id: string, name: string, role: Role, token: Option<string>)

  /** `hasRole` takes one role or an array of roles. */
  datatype RoleQuery = OneRole(role: Role) | AnyRole(roles: seq<Role>)

  const UserKey: string := "user"
  const TokenKey: string := "token"

  /** `hasRole(roles)`: false when nobody is signed in; an array asks for any of its roles. */
  function HasRole(user: Option<User>, query: RoleQuery): (r: bool)
    ensures r ==> user.Some?
    ensures r <==> user.Some? && match query
                                 case OneRole(q) => user.value.role == q
                                 case AnyRole(qs) => user.value.role in qs
  {
    if user.None? then false
    else
      match query
      case AnyRole(roles) => Seqs.Any(roles, (q: Role) => q == user.value.role)
      case OneRole(q) => user.value.role == q
  }

  /** `isAuthenticated: !!user`. */
  predicate IsAuthenticated(user: Option<User>) {
    user.Some?
  }

  /** Asking for one role is asking for the one-element array of it. */
  lemma OneRoleIsSingletonArray(user: Option<User>, r: Role)
    ensures HasRole(user, OneRole(r)) == HasRole(user, AnyRole([r]))
  {
  }

  /** What the start-up effect finds in storage: nothing to restore, a user, or a stored
      user text that `JSON.parse` rejects (the effect then throws before clearing the
      loading flag). */
  datatype Restore = NoSession | Restored(user: User) | Unreadable

  /** The start-up effect: both entries must be present and non-empty; the stored token
      replaces whatever token the stored user text carried. */
  function RestoreFrom(storage: map<string, string>, decode: string -> Option<User>): Restore {
    if UserKey in storage && storage[UserKey] != "" && TokenKey in storage && storage[TokenKey] != "" then
      match decode(storage[UserKey])
      case Some(u) => Restored(u.(token := Some(storage[TokenKey])))
      case None => Unreadable
    else NoSession
  }

  /** Storage after a successful login: the user as JSON text and the token. */
  function LoginStorage(storage: map<string, string>, u: User, token: string, encode: User -> string): (r: map<string, string>)
    ensures r.Keys == storage.Keys + {UserKey, TokenKey}
    ensures r[UserKey] == encode(u) && r[TokenKey] == token
    ensures forall k :: k in storage && k != UserKey && k != TokenKey ==> r[k] == storage[k]
  {
    storage[UserKey := encode(u)][TokenKey := token]
  }

  /** A reload after a login restores the signed-in user with the login's token, provided
      the JSON text of the user reads back as the same user and the token is not empty. */
  lemma LoginThenRestore(storage: map<string, string>, u: User, token: string,
                         encode: User -> string, decode: string -> Option<User>)
    requires decode(encode(u)) == Some(u)
    requires encode(u) != "" && token != ""
    ensures RestoreFrom(LoginStorage(storage, u, token, encode), decode) == Restored(u.(token := Some(token)))
  {
  }

  /** An empty token from the server is stored but falsy, so a reload signs the user out. */
  lemma EmptyTokenIsNotRestored(storage: map<string, string>, u: User, encode: User -> string,
                                decode: string -> Option<User>)
    ensures RestoreFrom(LoginStorage(storage, u, "", encode), decode) == NoSession
  {
  }

  /** After a logout nothing is restored on reload. */
  lemma LogoutThenRestore(storage: map<string, string>, decode: string -> Option<User>)
    ensures RestoreFrom(storage - {UserKey, TokenKey}, decode) == NoSession
  {
  }

  class Session {
    var user: Option<User>
    var loading: bool
    var storage: map<string, string>

    /** The provider as first rendered: nobody signed in, still loading. */
    constructor(storage: map<string, string>)
      ensures user == None && loading && this.storage == storage
    {
      user := None;
      loading := true;
      this.storage := storage;
    }

    /** The mount effect. */
    method RestoreSession(decode: string -> Option<User>)
      modifies this`user, this`loading
      ensures match RestoreFrom(storage, decode)
              case NoSession => user == old(user) && !loading
              case Restored(u) => user == Some(u) && !loading
              case Unreadable => user == old(user) && loading == old(loading)
    {
      if UserKey in storage && storage[UserKey] != "" && TokenKey in storage && storage[TokenKey] != "" {
        var parsed := decode(storage[UserKey]);
        if parsed.None? {
          return;
        }
        user := Some(parsed.value.(token := Some(storage[TokenKey])));
      }
      loading := false;
    }

    /** `login`: `reply` is the server's `{user, token}`, `None` when the request fails (the
        error is rethrown, reported here as `ok == false`). */
    method Login(reply: Option<(User, string)>, encode: User -> string) returns (ok: bool)
      modifies this`user, this`loading, this`storage
      ensures ok <==> reply.Some?
      ensures reply.Some? ==>
                storage == LoginStorage(old(storage), reply.value.0, reply.value.1, encode)
                && user == Some(reply.value.0.(token := Some(reply.value.1)))
      ensures reply.None? ==> storage == old(storage) && user == old(user)
      ensures !loading
    {
      loading := true;
      if reply.None? {
        loading := false;
        return false;
      }
      var (u, token) := reply.value;
      storage := storage[UserKey := encode(u)];
      storage := storage[TokenKey := token];
      user := Some(u.(token := Some(token)));
      loading := false;
      ok := true;
    }

    /** `logout`: both entries go and nobody holds any role any more. */
    method Logout()
      modifies this`user, this`storage
      ensures user == None && storage == old(storage) - {UserKey, TokenKey}
      ensures !IsAuthenticated(user) && forall q :: !HasRole(user, q)
    {
      storage := storage - {UserKey, TokenKey};
      user := None;
    }
  }
}
