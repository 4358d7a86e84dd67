/**
 * The two code stores as they live in one server process: the login route's module-local map
 * and the `global.otpStore` that request-otp and verify-otp share. They are different objects.
 */
module OtpServer {
  import opened Options
  import opened Http
  import opened OtpStore
  import LoginOtp
  import AdminOtp
  import AdminConfig

  class Server {
    const loginStore: Store
    const adminStore: Store

    ghost predicate Valid()
      reads this
    {
      loginStore != adminStore
    }

    /** Both maps start empty when the modules are first loaded. */
    constructor ()
      ensures Valid() && fresh(loginStore) && fresh(adminStore)
      ensures loginStore.entries == map[] && adminStore.entries == map[]
    {
      loginStore := new Store();
      adminStore := new Store();
    }

    method LoginPost(configured: bool, email: Option<string>, randomText: string, now: int,
                     send: (string, string) -> bool) returns (reply: Reply<Done>)
      requires Valid()
      modifies loginStore
      ensures adminStore.entries == old(adminStore.entries)
      ensures !(configured && email.Some? && email.value != "") ==>
        loginStore.entries == old(loginStore.entries) && reply.Error?
      ensures configured && email.Some? && email.value != "" ==>
        var otp := LoginOtp.GenerateOtp(randomText);
        && loginStore.entries == Issued(old(loginStore.entries), email.value, otp, now, LoginOtp.LoginTtl)
        && (reply.Ok? <==> send(email.value, otp))
    {
      reply := LoginOtp.Post(loginStore, configured, email, randomText, now, send);
    }

    method LoginPut(body: Option<CodeRequest>, now: int) returns (reply: Reply<LoginOtp.LoginUser>)
      requires Valid()
      modifies loginStore
      ensures adminStore.entries == old(adminStore.entries)
      ensures !(body.Some? && body.value.email != "" && body.value.otp != "") ==>
        loginStore.entries == old(loginStore.entries) && reply.Error?
      ensures body.Some? && body.value.email != "" && body.value.otp != "" ==>
        && loginStore.entries == AfterCheck(old(loginStore.entries), body.value.email, body.value.otp, now)
        && reply == LoginOtp.PutReply(CheckCode(old(loginStore.entries), body.value.email, body.value.otp, now), body.value.email)
    {
      reply := LoginOtp.Put(loginStore, body, now);
    }

    method AdminRequest(email: Option<string>, r: real, now: int) returns (reply: Reply<Done>)
      requires Valid() && 0.0 <= r < 1.0
      modifies adminStore
      ensures loginStore.entries == old(loginStore.entries)
      ensures !(email.Some? && email.value != "" && AdminConfig.IsAuthorizedAdmin(email.value)) ==>
        adminStore.entries == old(adminStore.entries) && reply.Error?
      ensures email.Some? && email.value != "" && AdminConfig.IsAuthorizedAdmin(email.value) ==>
        && adminStore.entries == Issued(old(adminStore.entries), email.value, AdminOtp.AdminCode(r), now, AdminOtp.AdminTtl)
        && reply == Ok(Done)
    {
      reply := AdminOtp.RequestOtp(adminStore, email, r, now);
    }

    method AdminVerify(body: Option<CodeRequest>, now: int) returns (reply: Reply<Done>)
      requires Valid()
      modifies adminStore
      ensures loginStore.entries == old(loginStore.entries)
      ensures !(body.Some? && body.value.email != "" && body.value.otp != "" && AdminConfig.IsAuthorizedAdmin(body.value.email)) ==>
        adminStore.entries == old(adminStore.entries) && reply.Error?
      ensures body.Some? && body.value.email != "" && body.value.otp != "" && AdminConfig.IsAuthorizedAdmin(body.value.email) ==>
        && adminStore.entries == AfterCheck(old(adminStore.entries), body.value.email, body.value.otp, now)
        && reply == AdminOtp.VerifyReply(CheckCode(old(adminStore.entries), body.value.email, body.value.otp, now))
    {
      reply := AdminOtp.VerifyOtp(adminStore, body, now);
    }
  }
}
