/**
 * The user records: creation, plan and profile updates, password authentication and
 * email verification. Password hashing and checking are parameters (`hash`, `verify`);
 * the model only needs that the stored password is whatever `hash` returns.
 */
module UserCrud {
  import opened Wrappers
  import opened Text
  import opened Database

  /** The plan, activity and verification a new row gets from the column defaults. */
  const DefaultPlan: string := "free"

  /** The registration form. */
  datatype UserCreate = UserCreate(email: string, fullName: string, password: string)

  /** A profile update: `None` is a field the client did not set. */
  datatype UserUpdate = UserUpdate(email: Option<string>, fullName: Option<string>, password: Option<string>)

  /** `get_user_by_email`: the id of the first user with this email. */
  function UserIdByEmail(users: seq<UserRow>, email: string): (r: Option<int>)
    ensures r.Some? ==> 1 <= r.value <= |users| && users[r.value - 1].email == email
    ensures r.Some? ==> forall j | 0 <= j < r.value - 1 :: users[j].email != email
    ensures r.None? <==> forall j | 0 <= j < |users| :: users[j].email != email
  {
    if |users| == 0 then None
    else if users[0].email == email then Some(1)
    else match UserIdByEmail(users[1..], email)
      case Some(k) => Some(k + 1)
      case None => None
  }

  /** No two users share an email (the column is unique). */
  predicate UniqueEmails(users: seq<UserRow>) {
    forall i, j | 0 <= i < j < |users| :: users[i].email != users[j].email
  }

  /** With unique emails, a user's own email finds that user. */
  lemma EmailFindsOwner(users: seq<UserRow>, id: int)
    requires UniqueEmails(users) && 1 <= id <= |users|
    ensures UserIdByEmail(users, users[id - 1].email) == Some(id)
  {
  }

  /** The lookup by email sees only the email column. */
  lemma {:induction false} SameEmailsSameLookup(a: seq<UserRow>, b: seq<UserRow>, email: string)
    requires |a| == |b|
    requires forall j | 0 <= j < |a| :: a[j].email == b[j].email
    ensures UserIdByEmail(a, email) == UserIdByEmail(b, email)
    decreases |a|
  {
    if |a| > 0 && a[0].email != email {
      SameEmailsSameLookup(a[1..], b[1..], email);
    }
  }

  /** Appending a user with a new email leaves every other lookup where it was. */
  lemma {:induction false} LookupAfterAppend(users: seq<UserRow>, row: UserRow, email: string)
    requires UserIdByEmail(users, row.email).None?
    ensures UserIdByEmail(users + [row], email) ==
            if email == row.email then Some(|users| + 1) else UserIdByEmail(users, email)
    decreases |users|
  {
    if |users| > 0 {
      assert (users + [row])[1..] == users[1..] + [row];
      if users[0].email != email {
        LookupAfterAppend(users[1..], row, email);
      }
    }
  }

  // ---- create_user ----

  /** The row `create_user` inserts: the hashed password and the column defaults. */
  function NewUser(u: UserCreate, hash: string -> string): UserRow {
    UserRow(u.email, hash(u.password), u.fullName, true, false, DefaultPlan, None, None, None)
  }

  method CreateUser(db: Session, u: UserCreate, hash: string -> string) returns (id: int)
    modifies db
    ensures id == |old(db.users)| + 1
    ensures db.AccountTables() == old(db.AccountTables()).(users := old(db.users) + [NewUser(u, hash)])
    ensures db.CourseTables() == old(db.CourseTables())
  {
    db.users := db.users + [NewUser(u, hash)];
    id := |db.users|;
  }

  /** Creating a user whose email is new keeps emails unique and makes the email find it. */
  lemma CreateKeepsEmailsUnique(users: seq<UserRow>, u: UserCreate, hash: string -> string)
    requires UniqueEmails(users)
    requires UserIdByEmail(users, u.email).None?
    ensures UniqueEmails(users + [NewUser(u, hash)])
    ensures UserIdByEmail(users + [NewUser(u, hash)], u.email) == Some(|users| + 1)
  {
    LookupAfterAppend(users, NewUser(u, hash), u.email);
  }

  // ---- update_user_plan ----

  /** The row after a plan update: a Stripe id is overwritten only by a non-empty argument. */
  function WithPlan(row: UserRow, plan: string, customerId: Option<string>, subscriptionId: Option<string>): UserRow {
    row.(plan := plan,
         stripeCustomerId := if Given(customerId) then customerId else row.stripeCustomerId,
         stripeSubscriptionId := if Given(subscriptionId) then subscriptionId else row.stripeSubscriptionId)
  }

  /** `update_user_plan`: the users and the updated row, or nothing for an unknown id. */
  function UpdatePlanSpec(users: seq<UserRow>, id: int, plan: string, customerId: Option<string>, subscriptionId: Option<string>)
    : (r: (seq<UserRow>, Option<UserRow>))
    ensures r.1.None? <==> !(1 <= id <= |users|)
    ensures r.1.None? ==> r.0 == users
    ensures r.1.Some? ==> |r.0| == |users| && r.0[id - 1] == r.1.value && r.1.value.plan == plan
    ensures forall j | 0 <= j < |users| && j != id - 1 :: j < |r.0| && r.0[j] == users[j]
  {
    if 1 <= id <= |users| then
      var row := WithPlan(users[id - 1], plan, customerId, subscriptionId);
      (users[id - 1 := row], Some(row))
    else (users, None)
  }

  /** A plan update changes only the plan and the given Stripe ids; an id that is not given
      (None or empty) is never cleared, and every other column keeps its value. */
  lemma PlanUpdateKeepsMissingIds(row: UserRow, plan: string, customerId: Option<string>, subscriptionId: Option<string>)
    ensures !Given(customerId) ==> WithPlan(row, plan, customerId, subscriptionId).stripeCustomerId == row.stripeCustomerId
    ensures !Given(subscriptionId) ==> WithPlan(row, plan, customerId, subscriptionId).stripeSubscriptionId == row.stripeSubscriptionId
    ensures Given(customerId) ==> WithPlan(row, plan, customerId, subscriptionId).stripeCustomerId == customerId
    ensures Given(subscriptionId) ==> WithPlan(row, plan, customerId, subscriptionId).stripeSubscriptionId == subscriptionId
    ensures WithPlan(row, plan, customerId, subscriptionId).(plan := row.plan, stripeCustomerId := row.stripeCustomerId,
              stripeSubscriptionId := row.stripeSubscriptionId) == row
  {
  }

  method UpdateUserPlan(db: Session, id: int, plan: string, customerId: Option<string>, subscriptionId: Option<string>)
    returns (r: Option<UserRow>)
    modifies db
    ensures (db.users, r) == UpdatePlanSpec(old(db.users), id, plan, customerId, subscriptionId)
    ensures db.AccountTables() == old(db.AccountTables()).(users := db.users)
    ensures db.CourseTables() == old(db.CourseTables())
  {
    if !(1 <= id <= |db.users|) {
      return None;
    }
    var row := db.users[id - 1].(plan := plan);
    if Given(customerId) {
      row := row.(stripeCustomerId := customerId);
    }
    if Given(subscriptionId) {
      row := row.(stripeSubscriptionId := subscriptionId);
    }
    db.users := db.users[id - 1 := row];
    r := Some(row);
  }

  // ---- update_user ----

  /** The row after a profile update: set fields overwrite, a set password is stored hashed. */
  function Patch(row: UserRow, update: UserUpdate, hash: string -> string): UserRow {
    row.(email := update.email.GetOr(row.email),
         fullName := update.fullName.GetOr(row.fullName),
         hashedPassword := if update.password.Some? then hash(update.password.value) else row.hashedPassword)
  }

  /** An update changes only the fields it sets, and the password column only ever
      receives a hash: a set password is stored as its hash, an unset one is untouched. */
  lemma PatchChangesOnlySetFields(row: UserRow, update: UserUpdate, hash: string -> string)
    ensures update.email.None? ==> Patch(row, update, hash).email == row.email
    ensures update.fullName.None? ==> Patch(row, update, hash).fullName == row.fullName
    ensures update.password.None? ==> Patch(row, update, hash).hashedPassword == row.hashedPassword
    ensures update.password.Some? ==> Patch(row, update, hash).hashedPassword == hash(update.password.value)
    ensures Patch(row, update, hash).(email := row.email, fullName := row.fullName, hashedPassword := row.hashedPassword) == row
  {
  }

  /** `update_user`: the users and the updated row, or nothing for an unknown id. */
  function UpdateUserSpec(users: seq<UserRow>, id: int, update: UserUpdate, hash: string -> string)
    : (r: (seq<UserRow>, Option<UserRow>))
    ensures r.1.None? <==> !(1 <= id <= |users|)
    ensures r.1.None? ==> r.0 == users
    ensures r.1.Some? ==> |r.0| == |users| && r.0[id - 1] == r.1.value
    ensures forall j | 0 <= j < |users| && j != id - 1 :: j < |r.0| && r.0[j] == users[j]
  {
    if 1 <= id <= |users| then
      var row := Patch(users[id - 1], update, hash);
      (users[id - 1 := row], Some(row))
    else (users, None)
  }

  method UpdateUser(db: Session, id: int, update: UserUpdate, hash: string -> string) returns (r: Option<UserRow>)
    modifies db
    ensures (db.users, r) == UpdateUserSpec(old(db.users), id, update, hash)
    ensures db.AccountTables() == old(db.AccountTables()).(users := db.users)
    ensures db.CourseTables() == old(db.CourseTables())
  {
    if !(1 <= id <= |db.users|) {
      return None;
    }
    var row := db.users[id - 1];
    if update.email.Some? {
      row := row.(email := update.email.value);
    }
    if update.fullName.Some? {
      row := row.(fullName := update.fullName.value);
    }
    if update.password.Some? {
      row := row.(hashedPassword := hash(update.password.value));
    }
    db.users := db.users[id - 1 := row];
    r := Some(row);
  }

  // ---- authenticate_user ----

  /** `authenticate_user`: the id of the user with this email, if the password checks. */
  function Authenticate(users: seq<UserRow>, email: string, password: string, verify: (string, string) -> bool): (r: Option<int>)
    ensures r.Some? ==> 1 <= r.value <= |users| && users[r.value - 1].email == email
    ensures r.Some? ==> verify(password, users[r.value - 1].hashedPassword)
    ensures r.None? <==> UserIdByEmail(users, email).None? ||
                         !verify(password, users[UserIdByEmail(users, email).value - 1].hashedPassword)
  {
    match UserIdByEmail(users, email)
    case None => None
    case Some(id) => if verify(password, users[id - 1].hashedPassword) then Some(id) else None
  }

  /** A user just created authenticates with the password they registered with,
      whenever the password verifier accepts a password against its own hash. */
  lemma CreatedUserAuthenticates(users: seq<UserRow>, u: UserCreate, hash: string -> string, verify: (string, string) -> bool)
    requires UserIdByEmail(users, u.email).None?
    requires verify(u.password, hash(u.password))
    ensures Authenticate(users + [NewUser(u, hash)], u.email, u.password, verify) == Some(|users| + 1)
  {
    LookupAfterAppend(users, NewUser(u, hash), u.email);
  }

  /** After a password change the new password authenticates the same user. */
  lemma NewPasswordAuthenticates(users: seq<UserRow>, id: int, password: string, hash: string -> string, verify: (string, string) -> bool)
    requires UniqueEmails(users) && 1 <= id <= |users|
    requires verify(password, hash(password))
    ensures Authenticate(UpdateUserSpec(users, id, UserUpdate(None, None, Some(password)), hash).0,
                         users[id - 1].email, password, verify) == Some(id)
  {
    var after := UpdateUserSpec(users, id, UserUpdate(None, None, Some(password)), hash).0;
    SameEmailsSameLookup(users, after, users[id - 1].email);
    EmailFindsOwner(users, id);
  }

  // ---- last login and verification ----

  /** `update_last_login` is handed a user row, so the id is known to exist. */
  method UpdateLastLogin(db: Session, id: int, now: int) returns (row: UserRow)
    requires 1 <= id <= |db.users|
    modifies db
    ensures row == old(db.users[id - 1]).(lastLogin := Some(now))
    ensures db.AccountTables() == old(db.AccountTables()).(users := old(db.users)[id - 1 := row])
    ensures db.CourseTables() == old(db.CourseTables())
  {
    row := db.users[id - 1].(lastLogin := Some(now));
    db.users := db.users[id - 1 := row];
  }

  /** `verify_user_email`: the users and the verified row, or nothing for an unknown id. */
  function VerifyUserSpec(users: seq<UserRow>, id: int): (r: (seq<UserRow>, Option<UserRow>))
    ensures r.1.None? <==> !(1 <= id <= |users|)
    ensures r.1.None? ==> r.0 == users
    ensures r.1.Some? ==> |r.0| == |users| && r.0[id - 1] == r.1.value && r.1.value.isVerified
    ensures r.1.Some? ==> r.1.value.(isVerified := users[id - 1].isVerified) == users[id - 1]
    ensures forall j | 0 <= j < |users| && j != id - 1 :: j < |r.0| && r.0[j] == users[j]
  {
    if 1 <= id <= |users| then
      var row := users[id - 1].(isVerified := true);
      (users[id - 1 := row], Some(row))
    else (users, None)
  }

  /** Verifying twice is the same as verifying once. */
  lemma VerifyUserIdempotent(users: seq<UserRow>, id: int)
    ensures VerifyUserSpec(VerifyUserSpec(users, id).0, id) == VerifyUserSpec(users, id)
  {
    if 1 <= id <= |users| {
      var once := VerifyUserSpec(users, id).0;
      assert once[id - 1 := once[id - 1].(isVerified := true)] == once;
    }
  }

  method VerifyUserEmail(db: Session, id: int) returns (r: Option<UserRow>)
    modifies db
    ensures (db.users, r) == VerifyUserSpec(old(db.users), id)
    ensures db.AccountTables() == old(db.AccountTables()).(users := db.users)
    ensures db.CourseTables() == old(db.CourseTables())
  {
    if !(1 <= id <= |db.users|) {
      return None;
    }
    var row := db.users[id - 1].(isVerified := true);
    db.users := db.users[id - 1 := row];
    r := Some(row);
  }
}
