/** `lib/admin-config.ts`: the allow-list of administrator addresses and its case-insensitive test. */
module AdminConfig {
  import JsString

  /** `AUTHORIZED_ADMINS`. */
  const AuthorizedAdmins: seq<string> := ["sanjeev77830@gmail.com", "admin@temple.com"]

  /** `AUTHORIZED_ADMINS.includes(email.toLowerCase())`. */
  predicate IsAuthorizedAdmin(email: string) {
    JsString.ToLower(email) in AuthorizedAdmins
  }

  /** `a` and `b` are equal up to the case of ASCII letters. */
  predicate SameIgnoringCase(a: string, b: string) {
    |a| == |b| && forall i :: 0 <= i < |a| ==> JsString.LowerChar(a[i]) == JsString.LowerChar(b[i])
  }

  predicate IsLowerCase(s: string) {
    forall i :: 0 <= i < |s| ==> !JsString.IsUpper(s[i])
  }

  /** Both listed addresses are written in lower case. */
  lemma ListIsLowerCase()
    ensures |AuthorizedAdmins| == 2
    ensures forall i :: 0 <= i < |AuthorizedAdmins| ==> IsLowerCase(AuthorizedAdmins[i])
  {
  }

  /** An address is authorised exactly when it equals a listed one up to letter case. */
  lemma AuthorizedIffListedIgnoringCase(email: string)
    ensures IsAuthorizedAdmin(email) <==>
      exists i :: 0 <= i < |AuthorizedAdmins| && SameIgnoringCase(email, AuthorizedAdmins[i])
  {
    var lower := JsString.ToLower(email);
    ListIsLowerCase();
    forall i | 0 <= i < |AuthorizedAdmins|
      ensures lower == AuthorizedAdmins[i] <==> SameIgnoringCase(email, AuthorizedAdmins[i])
    {
      var a := AuthorizedAdmins[i];
      JsString.ToLowerOfLower(a);
      if SameIgnoringCase(email, a) {
        assert forall j :: 0 <= j < |a| ==> lower[j] == JsString.ToLower(a)[j];
      }
    }
  }

  /** Every listed address is authorised. */
  lemma ListedAdminsAreAuthorized(i: nat)
    requires i < |AuthorizedAdmins|
    ensures IsAuthorizedAdmin(AuthorizedAdmins[i])
  {
    ListIsLowerCase();
    JsString.ToLowerOfLower(AuthorizedAdmins[i]);
  }

  /** The test does not see letter case. */
  lemma AuthorizationIgnoresCase(email: string)
    ensures IsAuthorizedAdmin(email) == IsAuthorizedAdmin(JsString.ToLower(email))
  {
    JsString.ToLowerIdempotent(email);
  }

  /** The empty address, and anything of another length than the two listed, is rejected. */
  lemma OtherLengthsRejected(email: string)
    requires |email| != |AuthorizedAdmins[0]| && |email| != |AuthorizedAdmins[1]|
    ensures !IsAuthorizedAdmin(email)
  {
  }
}
