/**
 * `POST /api/admin/request-otp` and `POST /api/admin/verify-otp`: a six-digit code for an
 * allow-listed address, kept five minutes in the store the two routes share.
 */
module AdminOtp {
  import opened Options
  import opened Http
  import opened OtpStore
  import opened AdminConfig
  import JsString

  /** `5 * 60 * 1000`: an administrator code lives five minutes. */
  const AdminTtl: int := 5 * 60 * 1000

  /** `Math.floor(100000 + r * 900000)` for `r = Math.random()`, in exact arithmetic. */
  function CodeNumber(r: real): (n: nat)
    requires 0.0 <= r < 1.0
    ensures 100000 <= n <= 999999
  {
    (100000.0 + r * 900000.0).Floor
  }

  /** `.toString()` of that number. */
  function AdminCode(r: real): string
    requires 0.0 <= r < 1.0
  {
    JsString.Decimal(CodeNumber(r))
  }

  /** The code is six decimal digits that read back as a number from 100000 to 999999. */
  lemma AdminCodeIsSixDigits(r: real)
    requires 0.0 <= r < 1.0
    ensures |AdminCode(r)| == 6 && JsString.AllDigits(AdminCode(r))
    ensures JsString.DecimalValue(AdminCode(r)) == CodeNumber(r)
    ensures 100000 <= JsString.DecimalValue(AdminCode(r)) <= 999999
  {
    assert JsString.Pow10(5) == 100000 by {
      assert JsString.Pow10(2) == 100;
      assert JsString.Pow10(4) == 10000;
    }
    assert JsString.Pow10(6) == 1000000;
    JsString.DecimalLength(CodeNumber(r), 6);
    JsString.DecimalRoundTrip(CodeNumber(r));
  }

  /** The answer of verify to each outcome of the check. */
  function VerifyReply(c: Check): (r: Reply<Done>)
    ensures r.Ok? <==> c == Verified
    ensures r.Error? ==> r.status == 400
  {
    match c
    case NotFound => Error(400, "OTP not found or expired")
    case Expired => Error(400, "OTP expired")
    case Mismatch => Error(400, "Invalid OTP")
    case Verified => Ok(Done)
  }

  /**
   * request-otp. `email` is `None` when the body is not JSON; `r` and `now` stand for
   * `Math.random()` and `Date.now()`. The code is stored under the address as received.
   */
  method RequestOtp(store: Store, email: Option<string>, r: real, now: int) returns (reply: Reply<Done>)
    requires 0.0 <= r < 1.0
    modifies store
    ensures email.None? ==>
      reply == Error(500, "Internal server error") && store.entries == old(store.entries)
    ensures email.Some? && (email.value == "" || !IsAuthorizedAdmin(email.value)) ==>
      reply == Error(403, "Unauthorized") && store.entries == old(store.entries)
    ensures email.Some? && email.value != "" && IsAuthorizedAdmin(email.value) ==>
      reply == Ok(Done) && store.entries == Issued(old(store.entries), email.value, AdminCode(r), now, AdminTtl)
  {
    if email.None? {
      return Error(500, "Internal server error");
    }
    if email.value == "" || !IsAuthorizedAdmin(email.value) {
      return Error(403, "Unauthorized");
    }
    var otp := AdminCode(r);
    var expires := now + AdminTtl;
    store.Set(email.value, Entry(otp, expires));
    return Ok(Done);
  }

  /** verify-otp. `body` is `None` when the request is not JSON; `now` stands for `Date.now()`. */
  method VerifyOtp(store: Store, body: Option<CodeRequest>, now: int) returns (reply: Reply<Done>)
    modifies store
    ensures body.None? ==>
      reply == Error(500, "Internal server error") && store.entries == old(store.entries)
    ensures body.Some? && (body.value.email == "" || body.value.otp == "" || !IsAuthorizedAdmin(body.value.email)) ==>
      reply == Error(400, "Invalid request") && store.entries == old(store.entries)
    ensures body.Some? && body.value.email != "" && body.value.otp != "" && IsAuthorizedAdmin(body.value.email) ==>
      && reply == VerifyReply(CheckCode(old(store.entries), body.value.email, body.value.otp, now))
      && store.entries == AfterCheck(old(store.entries), body.value.email, body.value.otp, now)
  {
    if body.None? {
      return Error(500, "Internal server error");
    }
    var req := body.value;
    if req.email == "" || req.otp == "" || !IsAuthorizedAdmin(req.email) {
      return Error(400, "Invalid request");
    }
    var c := store.Consume(req.email, req.otp, now);
    return VerifyReply(c);
  }

  /** A code issued for an address verifies once within five minutes; a replay is refused. */
  lemma AdminRoundTrip(entries: map<string, Entry>, email: string, r: real, now: int, at: int, again: int)
    requires 0.0 <= r < 1.0 && now <= at <= now + AdminTtl
    ensures var issued := Issued(entries, email, AdminCode(r), now, AdminTtl);
      && VerifyReply(CheckCode(issued, email, AdminCode(r), at)) == Ok(Done)
      && VerifyReply(CheckCode(AfterCheck(issued, email, AdminCode(r), at), email, AdminCode(r), again))
         == Error(400, "OTP not found or expired")
  {
  }

  /** Six minutes after issue the code is expired and removed. */
  lemma AdminCodeExpires(entries: map<string, Entry>, email: string, r: real, now: int)
    requires 0.0 <= r < 1.0
    ensures var issued := Issued(entries, email, AdminCode(r), now, AdminTtl);
      && VerifyReply(CheckCode(issued, email, AdminCode(r), now + 6 * 60 * 1000)) == Error(400, "OTP expired")
      && email !in AfterCheck(issued, email, AdminCode(r), now + 6 * 60 * 1000)
  {
  }

  /** The store key is the address as typed: a code requested as `typed` passes the same
      allow-list test as any spelling differing only in letter case, yet is not found when
      verified under that other spelling. */
  lemma StoreKeyKeepsCase(entries: map<string, Entry>, typed: string, other: string, otp: string, now: int, at: int)
    requires SameIgnoringCase(typed, other) && typed != other && other !in entries
    ensures IsAuthorizedAdmin(typed) == IsAuthorizedAdmin(other)
    ensures CheckCode(Issued(entries, typed, otp, now, AdminTtl), other, otp, at) == NotFound
  {
    assert JsString.ToLower(typed) == JsString.ToLower(other);
  }
}
