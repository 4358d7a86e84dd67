/**
 * `POST /api/auth/otp` issues a login code into the route's own store and mails it;
 * `PUT /api/auth/otp` checks and consumes it.
 */
module LoginOtp {
  import opened Options
  import opened Http
  import opened OtpStore
  import JsString

  /** `10 * 60 * 1000`: a login code lives ten minutes. */
  const LoginTtl: int := 10 * 60 * 1000

  /** `Math.random().toString().slice(2, 10)`, given the text of the random number. */
  function GenerateOtp(randomText: string): (otp: string)
    ensures |otp| <= 8
  {
    JsString.Slice(randomText, 2, 10)
  }

  /** For the usual form `0.` followed by at least eight digits, the code is those first eight
      digits; a shorter fraction (such as `0.5`) gives a shorter code. */
  lemma GenerateOtpDigits(digits: string)
    requires JsString.AllDigits(digits)
    ensures |digits| >= 8 ==> GenerateOtp("0." + digits) == digits[..8]
    ensures |digits| < 8 ==> GenerateOtp("0." + digits) == digits
    ensures JsString.AllDigits(GenerateOtp("0." + digits))
  {
    var text := "0." + digits;
    if |digits| >= 8 {
      assert text[2..10] == digits[..8];
    } else {
      assert text[2..|text|] == digits;
    }
  }

  /** `user: { email, authenticated: true }`. */
  datatype LoginUser = LoginUser(email: string, authenticated: bool)

  /** The answer of PUT to each outcome of the check. */
  function PutReply(c: Check, email: string): (r: Reply<LoginUser>)
    ensures r.Ok? <==> c == Verified
    ensures r.Ok? ==> r.body == LoginUser(email, true)
    ensures r.Error? ==> r.status == 400
  {
    match c
    case NotFound => Error(400, "OTP not found")
    case Expired => Error(400, "OTP expired")
    case Mismatch => Error(400, "Invalid OTP")
    case Verified => Ok(LoginUser(email, true))
  }

  /**
   * `POST`. `configured` says whether `RESEND_API_KEY` is set; `email` is `None` when the body
   * is not JSON; `randomText` and `now` stand for `Math.random()` and `Date.now()`;
   * `send(email, otp)` is the success flag `sendOTPEmail` returns.
   */
  method Post(store: Store, configured: bool, email: Option<string>, randomText: string, now: int,
              send: (string, string) -> bool) returns (reply: Reply<Done>)
    modifies store
    ensures !configured ==>
      reply == Error(500, "Email service not configured") && store.entries == old(store.entries)
    ensures configured && email.None? ==>
      reply == Error(500, "Internal server error") && store.entries == old(store.entries)
    ensures configured && email == Some("") ==>
      reply == Error(400, "Email is required") && store.entries == old(store.entries)
    ensures configured && email.Some? && email.value != "" ==>
      var otp := GenerateOtp(randomText);
      && store.entries == Issued(old(store.entries), email.value, otp, now, LoginTtl)
      && reply == (if send(email.value, otp) then Ok(Done) else Error(500, "Failed to send OTP"))
  {
    if !configured {
      return Error(500, "Email service not configured");
    }
    if email.None? {
      return Error(500, "Internal server error");
    }
    if email.value == "" {
      return Error(400, "Email is required");
    }
    var otp := GenerateOtp(randomText);
    var expires := now + LoginTtl;
    store.Set(email.value, Entry(otp, expires));
    var sent := send(email.value, otp);
    if !sent {
      return Error(500, "Failed to send OTP");
    }
    return Ok(Done);
  }

  /** `PUT`. `body` is `None` when the request is not JSON; `now` stands for `Date.now()`. */
  method Put(store: Store, body: Option<CodeRequest>, now: int) returns (reply: Reply<LoginUser>)
    modifies store
    ensures body.None? ==>
      reply == Error(500, "Internal server error") && store.entries == old(store.entries)
    ensures body.Some? && (body.value.email == "" || body.value.otp == "") ==>
      reply == Error(400, "Email and OTP are required") && store.entries == old(store.entries)
    ensures body.Some? && body.value.email != "" && body.value.otp != "" ==>
      && reply == PutReply(CheckCode(old(store.entries), body.value.email, body.value.otp, now), body.value.email)
      && store.entries == AfterCheck(old(store.entries), body.value.email, body.value.otp, now)
  {
    if body.None? {
      return Error(500, "Internal server error");
    }
    var req := body.value;
    if req.email == "" || req.otp == "" {
      return Error(400, "Email and OTP are required");
    }
    var c := store.Consume(req.email, req.otp, now);
    return PutReply(c, req.email);
  }

  /** A code mailed at `now` logs the user in once, at any time up to ten minutes later; the
      same code then finds nothing. */
  lemma LoginRoundTrip(entries: map<string, Entry>, email: string, randomText: string, now: int, at: int, again: int)
    requires now <= at <= now + LoginTtl
    ensures var issued := Issued(entries, email, GenerateOtp(randomText), now, LoginTtl);
      var otp := GenerateOtp(randomText);
      && PutReply(CheckCode(issued, email, otp, at), email) == Ok(LoginUser(email, true))
      && PutReply(CheckCode(AfterCheck(issued, email, otp, at), email, otp, again), email) == Error(400, "OTP not found")
  {
  }

  /** A code asked for again replaces the first one: the first code is then refused while the
      second is live. */
  lemma ReissueRevokesEarlierCode(entries: map<string, Entry>, email: string, first: string, second: string,
                                  now: int, later: int, at: int)
    requires first != second && at <= later + LoginTtl
    ensures var twice := Issued(Issued(entries, email, first, now, LoginTtl), email, second, later, LoginTtl);
      PutReply(CheckCode(twice, email, first, at), email) == Error(400, "Invalid OTP")
  {
  }
}
