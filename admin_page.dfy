/**
 * The admin page's access gate: a stored user, then the allow-list, then a row in
 * `admin_users`; only when all three hold is the prashad manager shown.
 */
module AdminPage {
  import opened Options
  import opened Tables
  import AdminConfig

  /** The stored `user` object. */
  datatype User = User(email: string, authenticated: bool)

  /** What the page renders. */
  datatype View = LoadingView | AccessDenied | ManagerView(userEmail: string)

  /** `.eq("email", email)` returns at least one row: the comparison is exact. */
  predicate AdminRowExists(rows: map<string, AdminUser>, email: string) {
    exists id :: id in rows && rows[id].email == email
  }

  /** The render decision for a state of the page. */
  function ViewOf(user: Option<User>, isAdmin: bool, loading: bool): (v: View)
    ensures v.LoadingView? <==> loading
    ensures v.ManagerView? <==> !loading && user.Some? && isAdmin
    ensures v.ManagerView? ==> v.userEmail == user.value.email
  {
    if loading then LoadingView
    else if user.None? || !isAdmin then AccessDenied
    else ManagerView(user.value.email)
  }

  /** What the page ends up showing once `checkAuth` has run, given the stored user, the table
      and whether the table query reports an error. */
  function Outcome(stored: Option<User>, rows: map<string, AdminUser>, queryFails: bool): View {
    if stored.None? then LoadingView
    else ViewOf(stored, AdminConfig.IsAuthorizedAdmin(stored.value.email)
                        && !queryFails && AdminRowExists(rows, stored.value.email), false)
  }

  /** The manager is shown exactly to a stored user who is on the allow-list (ignoring case)
      and has a row in `admin_users` with exactly that address. */
  lemma ManagerIff(stored: Option<User>, rows: map<string, AdminUser>, queryFails: bool)
    ensures Outcome(stored, rows, queryFails).ManagerView? <==>
      && stored.Some? && !queryFails
      && (exists i :: 0 <= i < |AdminConfig.AuthorizedAdmins|
            && AdminConfig.SameIgnoringCase(stored.value.email, AdminConfig.AuthorizedAdmins[i]))
      && AdminRowExists(rows, stored.value.email)
  {
    if stored.Some? {
      AdminConfig.AuthorizedIffListedIgnoringCase(stored.value.email);
    }
  }

  /** Without a stored user the page never leaves its loading state. */
  lemma NoUserStaysLoading(rows: map<string, AdminUser>, queryFails: bool)
    ensures Outcome(None, rows, queryFails) == LoadingView
  {
  }

  /** The two checks disagree on case: an address that equals a listed one up to letter case
      passes the allow-list, yet without a row spelled exactly that way it is denied, even
      when the table holds the listed spelling. */
  lemma RowMustMatchCase(rows: map<string, AdminUser>, typed: string, i: nat)
    requires i < |AdminConfig.AuthorizedAdmins| && AdminConfig.SameIgnoringCase(typed, AdminConfig.AuthorizedAdmins[i])
    requires AdminRowExists(rows, AdminConfig.AuthorizedAdmins[i])
    requires forall id :: id in rows ==> rows[id].email != typed
    ensures AdminConfig.IsAuthorizedAdmin(typed)
    ensures Outcome(Some(User(typed, true)), rows, false) == AccessDenied
  {
    AdminConfig.AuthorizedIffListedIgnoringCase(typed);
  }

  class Page {
    var user: Option<User>
    var isAdmin: bool
    var loading: bool
    /** The route given to `router.push`, if any. */
    var redirectedTo: Option<string>

    constructor ()
      ensures user.None? && !isAdmin && loading && redirectedTo.None?
    {
      user := None;
      isAdmin := false;
      loading := true;
      redirectedTo := None;
    }

    function View(): View
      reads this
    {
      ViewOf(user, isAdmin, loading)
    }

    /**
     * `checkAuth`. `stored` is the parsed `localStorage` user (`None` when there is none),
     * `queryFails` says whether the table query returns no data; `queried` says whether the
     * table was queried at all.
     */
    method CheckAuth(db: Database, stored: Option<User>, queryFails: bool) returns (queried: bool)
      modifies this
      ensures stored.None? ==>
        && !queried && redirectedTo == Some("/auth/login")
        && user == old(user) && isAdmin == old(isAdmin) && loading == old(loading)
      ensures stored.Some? ==>
        && user == stored && !loading && redirectedTo == old(redirectedTo)
        && queried == AdminConfig.IsAuthorizedAdmin(stored.value.email)
        && isAdmin == (queried && !queryFails && AdminRowExists(db.adminUsers, stored.value.email))
      ensures old(View()) == LoadingView ==> View() == Outcome(stored, db.adminUsers, queryFails)
    {
      if stored.None? {
        redirectedTo := Some("/auth/login");
        return false;
      }
      var parsed := stored.value;
      user := Some(parsed);
      if !AdminConfig.IsAuthorizedAdmin(parsed.email) {
        isAdmin := false;
        loading := false;
        return false;
      }
      if queryFails {
        isAdmin := false;
      } else {
        isAdmin := AdminRowExists(db.adminUsers, parsed.email);
      }
      loading := false;
      return true;
    }
  }
}
