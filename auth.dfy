/**
 * The authentication endpoints: register, login, refresh, verify-email,
 * resend-verification, forgot-password and reset-password. Each handler is a method
 * running the same sequence of table operations as the endpoint and is proved equal to a
 * function of the account tables; the functions are then composed to state what a
 * sequence of requests achieves. Issued JWTs are represented by their subject, queued
 * emails by a `Mail` result, UUIDs, the clock, hashing and password checking by inputs.
 */
module Auth {
  import opened Wrappers
  import opened Text
  import opened Database
  import opened Verification
  import opened UserCrud

  /** An email the handler queues for sending. */
  datatype Mail = VerificationMail(to: string, token: string) | ResetMail(to: string, token: string)

  /** A response body: the created user, a token pair (by subject) with the user, a
      message, or an error detail. */
  datatype Body =
    | Created(id: int, user: UserRow)
    | Tokens(subject: string, user: UserRow)
    | Message(text: string)
    | Detail(text: string)

  datatype Reply = Reply(status: int, body: Body)

  /** What `verify_token(refresh_token, "refresh")` yields: nothing, or the claims' `sub`. */
  datatype Claims = Rejected | Accepted(sub: Option<string>)

  const ForgotPasswordMessage: string := "If the email exists, a password reset link has been sent"

  // ---- register ----

  function RegisterSpec(a: Accounts, u: UserCreate, token: string, now: int, hash: string -> string)
    : (r: (Accounts, Reply, Option<Mail>))
    ensures UserIdByEmail(a.users, u.email).Some? ==> r.0 == a && r.1.status == 400 && r.2.None?
    ensures UserIdByEmail(a.users, u.email).None? ==>
              r.1.status == 201 && r.0.users == a.users + [NewUser(u, hash)] &&
              r.2 == Some(VerificationMail(u.email, token)) &&
              UnusedOf(r.0.emailVerifications, |a.users| + 1) == 1
  {
    if UserIdByEmail(a.users, u.email).Some? then
      (a, Reply(400, Detail("Email already registered")), None)
    else
      var id := |a.users| + 1;
      var tokens := Issue(a.emailVerifications, id, token, now + EmailTokenLifetime);
      IssueLeavesOneUnused(a.emailVerifications, id, token, now + EmailTokenLifetime);
      (a.(users := a.users + [NewUser(u, hash)], emailVerifications := tokens),
       Reply(201, Created(id, NewUser(u, hash))),
       Some(VerificationMail(u.email, token)))
  }

  method Register(db: Session, u: UserCreate, token: string, now: int, hash: string -> string)
    returns (reply: Reply, mail: Option<Mail>)
    modifies db
    ensures (db.AccountTables(), reply, mail) == RegisterSpec(old(db.AccountTables()), u, token, now, hash)
    ensures db.CourseTables() == old(db.CourseTables())
  {
    if UserIdByEmail(db.users, u.email).Some? {
      reply := Reply(400, Detail("Email already registered"));
      mail := None;
      return;
    }
    var id := CreateUser(db, u, hash);
    var verification := CreateEmailVerification(db, id, token, now);
    mail := Some(VerificationMail(u.email, verification.token));
    reply := Reply(201, Created(id, db.users[id - 1]));
  }

  /** Registering the same email twice creates one account: the second attempt is a 400
      that changes nothing and sends nothing. */
  lemma SecondRegistrationRejected(a: Accounts, u: UserCreate, v: UserCreate, t1: string, t2: string, now: int, later: int,
                                   hash: string -> string)
    requires v.email == u.email
    ensures var a1 := RegisterSpec(a, u, t1, now, hash).0;
            RegisterSpec(a1, v, t2, later, hash) == (a1, Reply(400, Detail("Email already registered")), None)
  {
    var a1 := RegisterSpec(a, u, t1, now, hash).0;
    if UserIdByEmail(a.users, u.email).None? {
      assert a1.users[|a1.users| - 1].email == u.email;
    }
  }

  // ---- login and refresh ----

  function LoginSpec(a: Accounts, email: string, password: string, now: int, verify: (string, string) -> bool)
    : (r: (Accounts, Reply))
    ensures r.1.status == 200 || r.1.status == 400 || r.1.status == 401
    ensures r.1.status != 200 ==> r.0 == a
    ensures r.1.status == 200 <==> Authenticate(a.users, email, password, verify).Some? &&
                                   a.users[Authenticate(a.users, email, password, verify).value - 1].isActive
    ensures r.1.status == 401 <==> Authenticate(a.users, email, password, verify).None?
  {
    match Authenticate(a.users, email, password, verify)
    case None => (a, Reply(401, Detail("Incorrect email or password")))
    case Some(id) =>
      if !a.users[id - 1].isActive then (a, Reply(400, Detail("Inactive user")))
      else
        var row := a.users[id - 1].(lastLogin := Some(now));
        (a.(users := a.users[id - 1 := row]), Reply(200, Tokens(IntToString(id), row)))
  }

  method Login(db: Session, email: string, password: string, now: int, verify: (string, string) -> bool) returns (reply: Reply)
    modifies db
    ensures (db.AccountTables(), reply) == LoginSpec(old(db.AccountTables()), email, password, now, verify)
    ensures db.CourseTables() == old(db.CourseTables())
  {
    var user := Authenticate(db.users, email, password, verify);
    if user.None? {
      return Reply(401, Detail("Incorrect email or password"));
    }
    var id := user.value;
    if !db.users[id - 1].isActive {
      return Reply(400, Detail("Inactive user"));
    }
    var row := UpdateLastLogin(db, id, now);
    reply := Reply(200, Tokens(IntToString(id), row));
  }

  /** Refreshing reads only: 401 for a rejected token, a missing or empty subject or an
      unknown user, 500 when the subject is not an integer (`int()` raises), else the
      user with tokens for the subject as it was given. */
  function RefreshSpec(a: Accounts, claims: Claims): (r: Reply)
    ensures r.status == 200 <==> claims.Accepted? && claims.sub.Some? && ParseInt(claims.sub.value).Some? &&
                                 1 <= ParseInt(claims.sub.value).value <= |a.users|
    ensures r.status == 200 ==> r.body == Tokens(claims.sub.value, a.users[ParseInt(claims.sub.value).value - 1])
    ensures r.status == 500 <==> claims.Accepted? && Given(claims.sub) && ParseInt(claims.sub.value).None?
    ensures r.status == 200 || r.status == 401 || r.status == 500
  {
    if claims.Rejected? || !Given(claims.sub) then Reply(401, Detail("Invalid refresh token"))
    else match ParseInt(claims.sub.value)
      case None => Reply(500, Detail("Internal Server Error"))
      case Some(id) =>
        if 1 <= id <= |a.users| then Reply(200, Tokens(claims.sub.value, a.users[id - 1]))
        else Reply(401, Detail("User not found"))
  }

  method Refresh(db: Session, claims: Claims) returns (reply: Reply)
    ensures reply == RefreshSpec(db.AccountTables(), claims)
  {
    if claims.Rejected? || claims.sub.None? || |claims.sub.value| == 0 {
      return Reply(401, Detail("Invalid refresh token"));
    }
    var id := ParseInt(claims.sub.value);
    if id.None? {
      return Reply(500, Detail("Internal Server Error"));
    }
    if !(1 <= id.value <= |db.users|) {
      return Reply(401, Detail("User not found"));
    }
    reply := Reply(200, Tokens(claims.sub.value, db.users[id.value - 1]));
  }

  /** The refresh token a login issues refreshes for the same user. */
  lemma LoginThenRefresh(a: Accounts, email: string, password: string, now: int, verify: (string, string) -> bool)
    requires LoginSpec(a, email, password, now, verify).1.status == 200
    ensures var (a1, reply) := LoginSpec(a, email, password, now, verify);
            RefreshSpec(a1, Accepted(Some(reply.body.subject))) == Reply(200, reply.body)
  {
    var id := Authenticate(a.users, email, password, verify).value;
    IntToStringRoundTrip(id);
  }

  /** A newly registered user can log in with the password they chose. */
  lemma RegisterThenLogin(a: Accounts, u: UserCreate, token: string, now: int, later: int,
                          hash: string -> string, verify: (string, string) -> bool)
    requires UserIdByEmail(a.users, u.email).None?
    requires verify(u.password, hash(u.password))
    ensures var a1 := RegisterSpec(a, u, token, now, hash).0;
            LoginSpec(a1, u.email, u.password, later, verify).1.status == 200
  {
    CreatedUserAuthenticates(a.users, u, hash, verify);
  }

  // ---- verify-email and resend-verification ----

  function VerifyEmailSpec(a: Accounts, token: string, now: int): (r: (Accounts, Reply))
    ensures r.1.status == 200 || r.1.status == 400 || r.1.status == 404
    ensures r.1.status != 200 ==> r.0 == a
    ensures r.1.status == 400 <==> Lookup(a.emailVerifications, token, now).None?
    ensures r.1.status == 404 <==> Lookup(a.emailVerifications, token, now).Some? &&
                                   !(1 <= Lookup(a.emailVerifications, token, now).value.userId <= |a.users|)
    ensures r.1.status == 200 ==>
              var id := Lookup(a.emailVerifications, token, now).value.userId;
              1 <= id <= |r.0.users| && r.0.users[id - 1].isVerified &&
              r.0 == a.(users := VerifyUserSpec(a.users, id).0,
                        emailVerifications := Redeem(a.emailVerifications, token, now).0)
  {
    match Lookup(a.emailVerifications, token, now)
    case None => (a, Reply(400, Detail("Invalid or expired verification token")))
    case Some(record) =>
      var (users, user) := VerifyUserSpec(a.users, record.userId);
      if user.None? then (a, Reply(404, Detail("User not found")))
      else
        (a.(users := users, emailVerifications := Redeem(a.emailVerifications, token, now).0),
         Reply(200, Message("Email verified successfully")))
  }

  method VerifyEmail(db: Session, token: string, now: int) returns (reply: Reply)
    modifies db
    ensures (db.AccountTables(), reply) == VerifyEmailSpec(old(db.AccountTables()), token, now)
    ensures db.CourseTables() == old(db.CourseTables())
  {
    var record := Lookup(db.emailVerifications, token, now);
    if record.None? {
      return Reply(400, Detail("Invalid or expired verification token"));
    }
    var user := VerifyUserEmail(db, record.value.userId);
    if user.None? {
      return Reply(404, Detail("User not found"));
    }
    var _ := MarkEmailVerificationUsed(db, token, now);
    reply := Reply(200, Message("Email verified successfully"));
  }

  /** A verification token works once: the same token presented again is a 400. */
  lemma VerifyEmailIsSingleUse(a: Accounts, token: string, now: int, later: int)
    requires UniqueTokens(a.emailVerifications)
    requires VerifyEmailSpec(a, token, now).1.status == 200
    ensures var a1 := VerifyEmailSpec(a, token, now).0;
            VerifyEmailSpec(a1, token, later) == (a1, Reply(400, Detail("Invalid or expired verification token")))
  {
    RedeemIsSingleUse(a.emailVerifications, token, now, later);
  }

  /** The token mailed at registration verifies the new account until it expires. */
  lemma RegisterThenVerify(a: Accounts, u: UserCreate, token: string, now: int, later: int, hash: string -> string)
    requires UserIdByEmail(a.users, u.email).None?
    requires forall x | x in a.emailVerifications :: x.token != token
    requires later < now + EmailTokenLifetime
    ensures var (a1, _, mail) := RegisterSpec(a, u, token, now, hash);
            var (a2, reply) := VerifyEmailSpec(a1, mail.value.token, later);
            reply.status == 200 && a2.users[|a.users|].isVerified
  {
    IssuedTokenRedeemableUntilExpiry(a.emailVerifications, |a.users| + 1, token, now + EmailTokenLifetime, later);
  }

  function ResendSpec(a: Accounts, email: string, token: string, now: int): (r: (Accounts, Reply, Option<Mail>))
    ensures r.1.status == 404 <==> UserIdByEmail(a.users, email).None?
    ensures r.1.status == 400 <==> UserIdByEmail(a.users, email).Some? && a.users[UserIdByEmail(a.users, email).value - 1].isVerified
    ensures r.1.status != 200 ==> r.0 == a && r.2.None?
    ensures r.1.status == 200 ==>
              var id := UserIdByEmail(a.users, email).value;
              r.0 == a.(emailVerifications := Issue(a.emailVerifications, id, token, now + EmailTokenLifetime)) &&
              r.2 == Some(VerificationMail(email, token))
  {
    match UserIdByEmail(a.users, email)
    case None => (a, Reply(404, Detail("User not found")), None)
    case Some(id) =>
      if a.users[id - 1].isVerified then (a, Reply(400, Detail("Email already verified")), None)
      else
        (a.(emailVerifications := Issue(a.emailVerifications, id, token, now + EmailTokenLifetime)),
         Reply(200, Message("Verification email sent")),
         Some(VerificationMail(a.users[id - 1].email, token)))
  }

  method ResendVerification(db: Session, email: string, token: string, now: int) returns (reply: Reply, mail: Option<Mail>)
    modifies db
    ensures (db.AccountTables(), reply, mail) == ResendSpec(old(db.AccountTables()), email, token, now)
    ensures db.CourseTables() == old(db.CourseTables())
  {
    var user := UserIdByEmail(db.users, email);
    if user.None? {
      return Reply(404, Detail("User not found")), None;
    }
    var id := user.value;
    if db.users[id - 1].isVerified {
      return Reply(400, Detail("Email already verified")), None;
    }
    var verification := CreateEmailVerification(db, id, token, now);
    mail := Some(VerificationMail(db.users[id - 1].email, verification.token));
    reply := Reply(200, Message("Verification email sent"));
  }

  /** Resending retires the earlier link: a token only this user held no longer verifies. */
  lemma ResendRetiresEarlierLink(a: Accounts, email: string, token: string, now: int, earlier: string, later: int)
    requires ResendSpec(a, email, token, now).1.status == 200
    requires earlier != token
    requires forall x | x in a.emailVerifications && x.token == earlier :: x.userId == UserIdByEmail(a.users, email).value
    ensures var a1 := ResendSpec(a, email, token, now).0;
            VerifyEmailSpec(a1, earlier, later).1.status == 400
  {
    IssueRetiresEarlierToken(a.emailVerifications, UserIdByEmail(a.users, email).value, token, now + EmailTokenLifetime, earlier, later);
  }

  // ---- forgot-password and reset-password ----

  /** The reply never reveals whether the email exists; only the mail does. */
  function ForgotSpec(a: Accounts, email: string, token: string, now: int): (r: (Accounts, Reply, Option<Mail>))
    ensures r.1 == Reply(200, Message(ForgotPasswordMessage))
    ensures r.2.Some? <==> UserIdByEmail(a.users, email).Some?
    ensures r.0.users == a.users && r.0.emailVerifications == a.emailVerifications
    ensures r.2.Some? ==>
              r.2 == Some(ResetMail(email, token)) &&
              r.0.passwordResets == Issue(a.passwordResets, UserIdByEmail(a.users, email).value, token, now + ResetTokenLifetime)
    ensures r.2.None? ==> r.0 == a
  {
    match UserIdByEmail(a.users, email)
    case None => (a, Reply(200, Message(ForgotPasswordMessage)), None)
    case Some(id) =>
      (a.(passwordResets := Issue(a.passwordResets, id, token, now + ResetTokenLifetime)),
       Reply(200, Message(ForgotPasswordMessage)),
       Some(ResetMail(a.users[id - 1].email, token)))
  }

  method ForgotPassword(db: Session, email: string, token: string, now: int) returns (reply: Reply, mail: Option<Mail>)
    modifies db
    ensures (db.AccountTables(), reply, mail) == ForgotSpec(old(db.AccountTables()), email, token, now)
    ensures db.CourseTables() == old(db.CourseTables())
  {
    var user := UserIdByEmail(db.users, email);
    if user.None? {
      return Reply(200, Message(ForgotPasswordMessage)), None;
    }
    var reset := CreatePasswordReset(db, user.value, token, now);
    mail := Some(ResetMail(db.users[user.value - 1].email, reset.token));
    reply := Reply(200, Message(ForgotPasswordMessage));
  }

  function ResetSpec(a: Accounts, token: string, password: string, now: int, hash: string -> string): (r: (Accounts, Reply))
    ensures r.1.status == 200 || r.1.status == 400 || r.1.status == 404
    ensures r.1.status != 200 ==> r.0 == a
    ensures r.1.status == 400 <==> Lookup(a.passwordResets, token, now).None?
    ensures r.1.status == 404 <==> Lookup(a.passwordResets, token, now).Some? &&
                                   !(1 <= Lookup(a.passwordResets, token, now).value.userId <= |a.users|)
    ensures r.1.status == 200 ==>
              var id := Lookup(a.passwordResets, token, now).value.userId;
              r.0.users == UpdateUserSpec(a.users, id, UserUpdate(None, None, Some(password)), hash).0 &&
              r.0.passwordResets == Redeem(a.passwordResets, token, now).0 &&
              r.0.emailVerifications == a.emailVerifications
  {
    match Lookup(a.passwordResets, token, now)
    case None => (a, Reply(400, Detail("Invalid or expired reset token")))
    case Some(record) =>
      var (users, user) := UpdateUserSpec(a.users, record.userId, UserUpdate(None, None, Some(password)), hash);
      if user.None? then (a, Reply(404, Detail("User not found")))
      else
        (a.(users := users, passwordResets := Redeem(a.passwordResets, token, now).0),
         Reply(200, Message("Password reset successfully")))
  }

  method ResetPassword(db: Session, token: string, password: string, now: int, hash: string -> string) returns (reply: Reply)
    modifies db
    ensures (db.AccountTables(), reply) == ResetSpec(old(db.AccountTables()), token, password, now, hash)
    ensures db.CourseTables() == old(db.CourseTables())
  {
    var record := Lookup(db.passwordResets, token, now);
    if record.None? {
      return Reply(400, Detail("Invalid or expired reset token"));
    }
    var user := UpdateUser(db, record.value.userId, UserUpdate(None, None, Some(password)), hash);
    if user.None? {
      return Reply(404, Detail("User not found"));
    }
    var _ := MarkPasswordResetUsed(db, token, now);
    reply := Reply(200, Message("Password reset successfully"));
  }

  /** A reset token works once. */
  lemma ResetIsSingleUse(a: Accounts, token: string, password: string, now: int, other: string, later: int, hash: string -> string)
    requires UniqueTokens(a.passwordResets)
    requires ResetSpec(a, token, password, now, hash).1.status == 200
    ensures var a1 := ResetSpec(a, token, password, now, hash).0;
            ResetSpec(a1, token, other, later, hash) == (a1, Reply(400, Detail("Invalid or expired reset token")))
  {
    RedeemIsSingleUse(a.passwordResets, token, now, later);
  }

  /** The whole recovery: the mailed link, used within the hour, sets a password that
      then logs the same account in. */
  lemma ForgotResetLogin(a: Accounts, email: string, token: string, now: int, later: int, password: string,
                         hash: string -> string, verify: (string, string) -> bool)
    requires UniqueEmails(a.users)
    requires UserIdByEmail(a.users, email).Some?
    requires forall x | x in a.passwordResets :: x.token != token
    requires later < now + ResetTokenLifetime
    requires verify(password, hash(password))
    ensures var (a1, _, mail) := ForgotSpec(a, email, token, now);
            var (a2, reply) := ResetSpec(a1, mail.value.token, password, later, hash);
            reply.status == 200 && Authenticate(a2.users, email, password, verify) == UserIdByEmail(a.users, email)
  {
    var id := UserIdByEmail(a.users, email).value;
    IssuedTokenRedeemableUntilExpiry(a.passwordResets, id, token, now + ResetTokenLifetime, later);
    NewPasswordAuthenticates(a.users, id, password, hash, verify);
  }
}
