/** The admin portal's sign-in form (admin-portal/components/Login.tsx). A
    failed login does not stop the admin: a permissive stand-in account is
    stored instead. */
module AdminLogin {
  import opened Common
  import opened Browser
  import opened Sessions

  /** The admin user the portal stores. */
  datatype AdminAccount = AdminAccount(email: string, role: string, firstName: string, lastName: string, fallback: bool)

  const FallbackToken := "dev-fallback-token"

  /** The stand-in account: the typed e-mail, role `'ADMIN'`, marked as a
      fallback. */
  function FallbackAdmin(email: string): (u: AdminAccount)
    ensures u.email == email && u.role == "ADMIN" && u.fallback
  {
    AdminAccount(email, "ADMIN", "Fallback", "Admin", true)
  }

  class LoginForm {
    var email: string
    var password: string
    var loading: bool
    /** How many times `onLogin` has been called. */
    var loginCalls: nat

    constructor ()
      ensures email == "" && password == "" && !loading && loginCalls == 0
    {
      email := "";
      password := "";
      loading := false;
      loginCalls := 0;
    }

    /** `handleSubmit`: a successful login stores the returned token and
        user; a failed one stores the fallback token and stand-in account.
        Either way `onLogin` is called once and loading ends. When the
        stored values are non-empty, the next `ensureAdminSession` uses
        them without logging in. */
    method HandleSubmit(store: Storage, login: (string, string) -> LoginReply<AdminAccount>, show: AdminAccount -> string)
      modifies this, store
      ensures var reply := login(old(email), old(password));
        && (reply.LoginOk? ==> store.items == old(store.items)[AdminTokenKey := reply.accessToken][AdminUserKey := show(reply.user)])
        && (reply.LoginFailed? ==> store.items == old(store.items)[AdminTokenKey := FallbackToken][AdminUserKey := show(FallbackAdmin(old(email)))])
      ensures var reply := login(old(email), old(password));
        (reply.LoginOk? ==> reply.accessToken != "") && (forall u :: show(u) != "") ==>
          Cached(store.items, AdminTokenKey, AdminUserKey)
      ensures loginCalls == old(loginCalls) + 1 && !loading
      ensures email == old(email) && password == old(password)
    {
      loading := true;
      var reply := login(email, password);
      match reply {
        case LoginOk(token, user) =>
          store.SetItem(AdminTokenKey, token);
          store.SetItem(AdminUserKey, show(user));
        case LoginFailed =>
          store.SetItem(AdminTokenKey, FallbackToken);
          store.SetItem(AdminUserKey, show(FallbackAdmin(email)));
      }
      loginCalls := loginCalls + 1;
      loading := false;
    }
  }
}
