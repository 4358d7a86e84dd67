/**
 * The administrator profile page: the email pattern `^[^\s@]+@[^\s@]+\.[^\s@]+$` and the save
 * handler that writes the `admin_users` row and the stored user object.
 */
module AdminProfile {
  import opened Options
  import opened Tables
  import JsString

  // ---------------------------------------------------------------- the email pattern

  /** Every character is matched by `[^\s@]`. */
  predicate NoSpaceOrAt(t: string) {
    forall k :: 0 <= k < |t| ==> !JsString.IsWhitespace(t[k]) && t[k] != '@'
  }

  /**
   * `emailRegex.test(s)`: the anchored pattern matches when `s` splits at an `@` (index `i`)
   * and a later `.` (index `j`) into three non-empty runs of `[^\s@]`.
   */
  predicate EmailMatches(s: string) {
    exists i, j :: 0 < i && i + 1 < j && j + 1 < |s| && s[i] == '@' && s[j] == '.'
      && NoSpaceOrAt(s[..i]) && NoSpaceOrAt(s[i + 1..j]) && NoSpaceOrAt(s[j + 1..])
  }

  /** `s` has exactly one `@`, at index `a`. */
  predicate OnlyAtSignAt(s: string, a: int) {
    0 <= a < |s| && s[a] == '@' && forall k :: 0 <= k < |s| && s[k] == '@' ==> k == a
  }

  /** The same language in plain words: no whitespace, exactly one `@` with something before
      it, and after it a `.` that is neither the first nor the last character. */
  predicate WellShapedEmail(s: string) {
    (forall k :: 0 <= k < |s| ==> !JsString.IsWhitespace(s[k]))
    && exists a :: 0 < a < |s| && OnlyAtSignAt(s, a) && exists p :: a + 1 < p < |s| - 1 && s[p] == '.'
  }

  lemma NoSpaceOrAtAt(t: string, k: int)
    requires NoSpaceOrAt(t) && 0 <= k < |t|
    ensures !JsString.IsWhitespace(t[k]) && t[k] != '@'
  {
  }

  /** A match gives the plain-words shape. */
  lemma MatchIsWellShaped(s: string, i: int, j: int)
    requires 0 < i && i + 1 < j && j + 1 < |s| && s[i] == '@' && s[j] == '.'
    requires NoSpaceOrAt(s[..i]) && NoSpaceOrAt(s[i + 1..j]) && NoSpaceOrAt(s[j + 1..])
    ensures WellShapedEmail(s)
  {
    forall k | 0 <= k < |s|
      ensures !JsString.IsWhitespace(s[k]) && (s[k] == '@' ==> k == i)
    {
      if k < i {
        NoSpaceOrAtAt(s[..i], k);
      } else if i < k < j {
        NoSpaceOrAtAt(s[i + 1..j], k - i - 1);
      } else if j < k {
        NoSpaceOrAtAt(s[j + 1..], k - j - 1);
      }
    }
    assert OnlyAtSignAt(s, i);
    assert i + 1 < j < |s| - 1 && s[j] == '.';
  }

  /** A stretch of `s` free of whitespace and `@` is a run of `[^\s@]`. */
  lemma RunOfSlice(s: string, lo: int, hi: int)
    requires 0 <= lo <= hi <= |s|
    requires forall k :: lo <= k < hi ==> !JsString.IsWhitespace(s[k]) && s[k] != '@'
    ensures NoSpaceOrAt(s[lo..hi])
  {
    forall k | 0 <= k < hi - lo
      ensures !JsString.IsWhitespace(s[lo..hi][k]) && s[lo..hi][k] != '@'
    {
      assert s[lo..hi][k] == s[lo + k];
    }
  }

  /** The plain-words shape gives a match. */
  lemma WellShapedMatches(s: string, a: int, p: int)
    requires forall k :: 0 <= k < |s| ==> !JsString.IsWhitespace(s[k])
    requires 0 < a && OnlyAtSignAt(s, a) && a + 1 < p < |s| - 1 && s[p] == '.'
    ensures EmailMatches(s)
  {
    RunOfSlice(s, 0, a);
    RunOfSlice(s, a + 1, p);
    RunOfSlice(s, p + 1, |s|);
    assert s[..a] == s[0..a];
    assert s[p + 1..] == s[p + 1..|s|];
  }

  /** The pattern accepts exactly the well-shaped addresses. */
  lemma EmailMatchesIff(s: string)
    ensures EmailMatches(s) <==> WellShapedEmail(s)
  {
    if EmailMatches(s) {
      var i, j :| 0 < i && i + 1 < j && j + 1 < |s| && s[i] == '@' && s[j] == '.'
        && NoSpaceOrAt(s[..i]) && NoSpaceOrAt(s[i + 1..j]) && NoSpaceOrAt(s[j + 1..]);
      MatchIsWellShaped(s, i, j);
    }
    if WellShapedEmail(s) {
      var a :| 0 < a < |s| && OnlyAtSignAt(s, a) && exists p :: a + 1 < p < |s| - 1 && s[p] == '.';
      var p :| a + 1 < p < |s| - 1 && s[p] == '.';
      WellShapedMatches(s, a, p);
    }
  }

  /** The listed administrator address passes. */
  lemma ListedAddressMatches()
    ensures EmailMatches("admin@temple.com")
  {
    var s := "admin@temple.com";
    assert forall k :: 0 <= k < |s| ==> !JsString.IsWhitespace(s[k]);
    assert OnlyAtSignAt(s, 5);
    WellShapedMatches(s, 5, 12);
  }

  /** A domain without a dot does not. */
  lemma DotlessDomainFails()
    ensures !EmailMatches("admin@temple")
  {
    EmailMatchesIff("admin@temple");
  }

  /** A second `@` does not. */
  lemma SecondAtSignFails()
    ensures !EmailMatches("a@b@c.com")
  {
    var t := "a@b@c.com";
    assert t[1] == '@' && t[3] == '@';
    EmailMatchesIff(t);
  }

  // ---------------------------------------------------------------- the page

  /** `AdminProfile`: the row being edited. */
  datatype Profile = Profile(id: string, email: string, name: string, phoneNumber: string)

  /** A toast's title and description; `NoToast` before the first one. */
  datatype Toast = NoToast | Toast(title: string, description: string)

  /** The update `{email, name, phone_number}` built from the edited profile. */
  function SavedRow(p: Profile): AdminUser -> AdminUser {
    (u: AdminUser) => u.(email := p.email, name := p.name, phoneNumber := p.phoneNumber)
  }

  /** `parsedUser.email = email`: the stored object, a map from field name to value, keeps
      every other field. */
  function WithEmail(user: map<string, string>, email: string): (r: map<string, string>)
    ensures r.Keys == user.Keys + {"email"} && r["email"] == email
    ensures forall k :: k in user && k != "email" ==> r[k] == user[k]
  {
    user["email" := email]
  }

  /** Saving writes the edited fields into that one row and nothing else. */
  lemma SaveTouchesOneRow(rows: map<string, AdminUser>, p: Profile)
    ensures var after := UpdateWhere(rows, p.id, SavedRow(p));
      && after.Keys == rows.Keys
      && (p.id in rows ==> after[p.id] == AdminUser(p.email, p.name, p.phoneNumber))
      && (forall k :: k in rows && k != p.id ==> after[k] == rows[k])
  {
  }

  /** `parsedUser.email` as the query sends it: a missing field is the text `"undefined"`. */
  function StoredEmail(user: map<string, string>): string {
    if "email" in user then user["email"] else "undefined"
  }

  /** `.eq("email", email).single()` returns data: exactly one row has that address. */
  predicate SingleRowFor(rows: map<string, AdminUser>, email: string) {
    exists id :: id in rows && rows[id].email == email
      && forall k :: k in rows && rows[k].email == email ==> k == id
  }

  /** Saving the profile as it was loaded, without edits, writes the row back unchanged. */
  lemma UneditedSaveKeepsRow(rows: map<string, AdminUser>, p: Profile)
    requires p.id in rows && rows[p.id] == AdminUser(p.email, p.name, p.phoneNumber)
    ensures UpdateWhere(rows, p.id, SavedRow(p)) == rows
  {
  }

  class ProfilePage {
    var profile: Option<Profile>
    var loading: bool
    var saving: bool
    var isAdmin: bool
    var toast: Toast
    /** `localStorage` `user`, parsed. */
    var storedUser: Option<map<string, string>>
    /** The route given to `router.push`, if any. */
    var redirectedTo: Option<string>

    constructor (storedUser: Option<map<string, string>>)
      ensures profile.None? && loading && !saving && !isAdmin && toast == NoToast
      ensures this.storedUser == storedUser && redirectedTo.None?
    {
      profile := None;
      loading := true;
      saving := false;
      isAdmin := false;
      toast := NoToast;
      this.storedUser := storedUser;
      redirectedTo := None;
    }

    /** `checkAuthAndFetchProfile`: with no stored user, go to the login page; with no single
        `admin_users` row for the stored address, go to the coupons page; otherwise that row
        becomes the profile being edited. `readFails` says whether the query returned an
        error; its `data` is null, so the page redirects as for a missing row. */
    method CheckAuthAndFetchProfile(db: Database, readFails: bool)
      modifies this`profile, this`loading, this`isAdmin, this`redirectedTo
      ensures storedUser.None? ==>
        && redirectedTo == Some("/auth/login")
        && profile == old(profile) && loading == old(loading) && isAdmin == old(isAdmin)
      ensures storedUser.Some? && (readFails || !SingleRowFor(db.adminUsers, StoredEmail(storedUser.value))) ==>
        && redirectedTo == Some("/coupons")
        && profile == old(profile) && loading == old(loading) && isAdmin == old(isAdmin)
      ensures storedUser.Some? && !readFails && SingleRowFor(db.adminUsers, StoredEmail(storedUser.value)) ==>
        && redirectedTo == old(redirectedTo) && isAdmin && !loading && profile.Some?
        && var p := profile.value;
           && p.id in db.adminUsers && db.adminUsers[p.id] == AdminUser(p.email, p.name, p.phoneNumber)
           && p.email == StoredEmail(storedUser.value)
    {
      if storedUser.None? {
        redirectedTo := Some("/auth/login");
        return;
      }
      var email := StoredEmail(storedUser.value);
      if readFails || !SingleRowFor(db.adminUsers, email) {
        redirectedTo := Some("/coupons");
        return;
      }
      var id :| id in db.adminUsers && db.adminUsers[id].email == email
        && forall k :: k in db.adminUsers && db.adminUsers[k].email == email ==> k == id;
      var row := db.adminUsers[id];
      isAdmin := true;
      profile := Some(Profile(id, row.email, row.name, row.phoneNumber));
      loading := false;
    }

    /** The three inputs' `onChange`; they are rendered only once a profile is loaded. */
    method EditEmail(email: string)
      requires profile.Some?
      modifies this`profile
      ensures profile == Some(old(profile).value.(email := email))
    {
      profile := Some(profile.value.(email := email));
    }

    method EditName(name: string)
      requires profile.Some?
      modifies this`profile
      ensures profile == Some(old(profile).value.(name := name))
    {
      profile := Some(profile.value.(name := name));
    }

    method EditPhoneNumber(phoneNumber: string)
      requires profile.Some?
      modifies this`profile
      ensures profile == Some(old(profile).value.(phoneNumber := phoneNumber))
    {
      profile := Some(profile.value.(phoneNumber := phoneNumber));
    }

    /** `handleSave`; `updateFails` says whether the update returns an error. */
    method HandleSave(db: Database, updateFails: bool)
      modifies db`adminUsers, this`saving, this`toast, this`storedUser
      ensures profile.None? ==>
        db.adminUsers == old(db.adminUsers) && saving == old(saving)
        && toast == old(toast) && storedUser == old(storedUser)
      ensures profile.Some? && !EmailMatches(profile.value.email) ==>
        && db.adminUsers == old(db.adminUsers) && saving == old(saving) && storedUser == old(storedUser)
        && toast == Toast("Invalid Email", "Please enter a valid email address.")
      ensures profile.Some? && EmailMatches(profile.value.email) && updateFails ==>
        && db.adminUsers == old(db.adminUsers) && !saving && storedUser == old(storedUser)
        && toast == Toast("Error", "Failed to update profile. Please try again.")
      ensures profile.Some? && EmailMatches(profile.value.email) && !updateFails ==>
        && db.adminUsers == UpdateWhere(old(db.adminUsers), profile.value.id, SavedRow(profile.value))
        && !saving
        && storedUser == (if old(storedUser).Some? then Some(WithEmail(old(storedUser).value, profile.value.email))
                          else None)
        && toast == Toast("Profile Updated", "Your profile has been updated successfully.")
    {
      if profile.None? {
        return;
      }
      var p := profile.value;
      if !EmailMatches(p.email) {
        toast := Toast("Invalid Email", "Please enter a valid email address.");
        return;
      }
      saving := true;
      if updateFails {
        toast := Toast("Error", "Failed to update profile. Please try again.");
      } else {
        db.adminUsers := UpdateWhere(db.adminUsers, p.id, SavedRow(p));
        if storedUser.Some? {
          storedUser := Some(WithEmail(storedUser.value, p.email));
        }
        toast := Toast("Profile Updated", "Your profile has been updated successfully.");
      }
      saving := false;
    }
  }
}
