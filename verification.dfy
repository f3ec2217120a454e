/**
 * Email-verification and password-reset tokens. Both tables follow one life cycle:
 * creating a token for a user deletes that user's unused tokens and inserts a fresh one;
 * a lookup finds the first row with that token that is unused and not yet expired;
 * marking a token used flips `isUsed` on the row the lookup found. The token text is an
 * input (a UUID in the program), and so is the clock.
 */
module Verification {
  import opened Wrappers
  import opened Database

  /** Email verification tokens live 24 hours, password reset tokens one hour. */
  const EmailTokenLifetime: int := 24 * MicrosPerHour
  const ResetTokenLifetime: int := MicrosPerHour

  /** The lookup's filter: the token matches, is unused and expires after `now`. */
  predicate Redeemable(r: TokenRow, token: string, now: int) {
    r.token == token && !r.isUsed && r.expiresAt > now
  }

  /** The rows the bulk delete at creation keeps: other users' tokens and used ones. */
  function Survivors(rows: seq<TokenRow>, userId: int): (r: seq<TokenRow>)
    ensures |r| <= |rows|
    ensures forall x :: x in r <==> x in rows && (x.userId != userId || x.isUsed)
  {
    if |rows| == 0 then []
    else
      var init := rows[..|rows| - 1];
      var last := rows[|rows| - 1];
      assert rows == init + [last];
      if last.userId != userId || last.isUsed then Survivors(init, userId) + [last] else Survivors(init, userId)
  }

  /** The table after `create_email_verification` / `create_password_reset`. */
  function Issue(rows: seq<TokenRow>, userId: int, token: string, expiresAt: int): (r: seq<TokenRow>)
    ensures |r| > 0 && r[|r| - 1] == TokenRow(userId, token, expiresAt, false)
    ensures forall x | x in rows && x.isUsed :: x in r
    ensures forall x | x in rows && x.userId != userId :: x in r
    ensures forall x | x in r :: x in rows || x == TokenRow(userId, token, expiresAt, false)
  {
    Survivors(rows, userId) + [TokenRow(userId, token, expiresAt, false)]
  }

  /** The position of the first redeemable row, as `.first()` picks it. */
  function Find(rows: seq<TokenRow>, token: string, now: int): (r: Option<nat>)
    ensures r.Some? ==> r.value < |rows| && Redeemable(rows[r.value], token, now)
    ensures r.Some? ==> forall j | 0 <= j < r.value :: !Redeemable(rows[j], token, now)
    ensures r.None? ==> forall j | 0 <= j < |rows| :: !Redeemable(rows[j], token, now)
  {
    if |rows| == 0 then None
    else if Redeemable(rows[0], token, now) then Some(0)
    else match Find(rows[1..], token, now)
      case Some(i) => Some(i + 1)
      case None => None
  }

  /** `get_email_verification` / `get_password_reset`: the record, if one is redeemable. */
  function Lookup(rows: seq<TokenRow>, token: string, now: int): (r: Option<TokenRow>)
    ensures r.Some? ==> r.value in rows && Redeemable(r.value, token, now)
    ensures r.None? <==> forall x | x in rows :: !Redeemable(x, token, now)
  {
    match Find(rows, token, now)
    case Some(i) => Some(rows[i])
    case None => None
  }

  /** `mark_*_used`: the table and whether a redeemable row was found and spent. */
  function Redeem(rows: seq<TokenRow>, token: string, now: int): (r: (seq<TokenRow>, bool))
    ensures r.1 <==> Lookup(rows, token, now).Some?
    ensures !r.1 ==> r.0 == rows
    ensures |r.0| == |rows|
    ensures r.1 ==> var i := Find(rows, token, now).value;
              r.0[i] == rows[i].(isUsed := true) && r.0[i] == Lookup(rows, token, now).value.(isUsed := true)
    ensures r.1 ==> forall j | 0 <= j < |rows| && j != Find(rows, token, now).value :: r.0[j] == rows[j]
  {
    match Find(rows, token, now)
    case Some(i) => (rows[i := rows[i].(isUsed := true)], true)
    case None => (rows, false)
  }

  // ---- counting a user's tokens ----

  /** How many unused tokens the user holds. */
  function UnusedOf(rows: seq<TokenRow>, userId: int): nat {
    if |rows| == 0 then 0
    else UnusedOf(rows[..|rows| - 1], userId) + (if rows[|rows| - 1].userId == userId && !rows[|rows| - 1].isUsed then 1 else 0)
  }

  /** The user's rows, in table order. */
  function RowsOf(rows: seq<TokenRow>, userId: int): seq<TokenRow> {
    if |rows| == 0 then []
    else RowsOf(rows[..|rows| - 1], userId) + (if rows[|rows| - 1].userId == userId then [rows[|rows| - 1]] else [])
  }

  lemma {:induction false} SurvivorsHoldNoUnused(rows: seq<TokenRow>, userId: int)
    ensures UnusedOf(Survivors(rows, userId), userId) == 0
    decreases |rows|
  {
    if |rows| > 0 {
      var init := rows[..|rows| - 1];
      var last := rows[|rows| - 1];
      SurvivorsHoldNoUnused(init, userId);
      var s := Survivors(init, userId);
      if last.userId != userId || last.isUsed {
        assert (s + [last])[..|s|] == s;
      }
    }
  }

  lemma {:induction false} SurvivorsSpareOthers(rows: seq<TokenRow>, userId: int, other: int)
    requires other != userId
    ensures RowsOf(Survivors(rows, userId), other) == RowsOf(rows, other)
    decreases |rows|
  {
    if |rows| > 0 {
      var init := rows[..|rows| - 1];
      var last := rows[|rows| - 1];
      SurvivorsSpareOthers(init, userId, other);
      var s := Survivors(init, userId);
      if last.userId != userId || last.isUsed {
        assert (s + [last])[..|s|] == s;
      }
    }
  }

  /** After a token is created the user holds exactly one unused token: the new one. */
  lemma IssueLeavesOneUnused(rows: seq<TokenRow>, userId: int, token: string, expiresAt: int)
    ensures UnusedOf(Issue(rows, userId, token, expiresAt), userId) == 1
  {
    var s := Survivors(rows, userId);
    SurvivorsHoldNoUnused(rows, userId);
    assert (s + [TokenRow(userId, token, expiresAt, false)])[..|s|] == s;
  }

  /** Creating a token for one user leaves every other user's tokens as they were. */
  lemma IssueSparesOthers(rows: seq<TokenRow>, userId: int, token: string, expiresAt: int, other: int)
    requires other != userId
    ensures RowsOf(Issue(rows, userId, token, expiresAt), other) == RowsOf(rows, other)
  {
    var s := Survivors(rows, userId);
    SurvivorsSpareOthers(rows, userId, other);
    assert (s + [TokenRow(userId, token, expiresAt, false)])[..|s|] == s;
  }

  /** A freshly created token (a new UUID) is redeemable exactly until it expires. */
  lemma IssuedTokenRedeemableUntilExpiry(rows: seq<TokenRow>, userId: int, token: string, expiresAt: int, now: int)
    requires forall x | x in rows :: x.token != token
    ensures Lookup(Issue(rows, userId, token, expiresAt), token, now) ==
            if now < expiresAt then Some(TokenRow(userId, token, expiresAt, false)) else None
  {
    var r := Issue(rows, userId, token, expiresAt);
    assert r[|r| - 1] in r;
  }

  /** A new token supersedes the user's earlier ones: a token only that user held is dead. */
  lemma IssueRetiresEarlierToken(rows: seq<TokenRow>, userId: int, token: string, expiresAt: int, earlier: string, now: int)
    requires earlier != token
    requires forall x | x in rows && x.token == earlier :: x.userId == userId
    ensures Lookup(Issue(rows, userId, token, expiresAt), earlier, now).None?
  {
  }

  /** No token text appears twice (UUIDs do not repeat). */
  predicate UniqueTokens(rows: seq<TokenRow>) {
    forall i, j | 0 <= i < j < |rows| :: rows[i].token != rows[j].token
  }

  lemma {:induction false} SurvivorsKeepUniqueTokens(rows: seq<TokenRow>, userId: int)
    requires UniqueTokens(rows)
    ensures UniqueTokens(Survivors(rows, userId))
    decreases |rows|
  {
    if |rows| > 0 {
      var init := rows[..|rows| - 1];
      var last := rows[|rows| - 1];
      assert UniqueTokens(init) by {
        forall i, j | 0 <= i < j < |init| ensures init[i].token != init[j].token {
          assert init[i] == rows[i] && init[j] == rows[j];
        }
      }
      SurvivorsKeepUniqueTokens(init, userId);
      var s := Survivors(init, userId);
      if last.userId != userId || last.isUsed {
        forall i | 0 <= i < |s| ensures s[i].token != last.token {
          assert s[i] in init;
          var k :| 0 <= k < |init| && init[k] == s[i];
          assert rows[k] == s[i];
        }
      }
    }
  }

  /** Creating a token with a fresh UUID keeps token texts unique. */
  lemma IssueKeepsUniqueTokens(rows: seq<TokenRow>, userId: int, token: string, expiresAt: int)
    requires UniqueTokens(rows)
    requires forall x | x in rows :: x.token != token
    ensures UniqueTokens(Issue(rows, userId, token, expiresAt))
  {
    SurvivorsKeepUniqueTokens(rows, userId);
    var s := Survivors(rows, userId);
    forall i | 0 <= i < |s| ensures s[i].token != token {
      assert s[i] in rows;
    }
  }

  /** Marking a token used keeps token texts unique. */
  lemma RedeemKeepsUniqueTokens(rows: seq<TokenRow>, token: string, now: int)
    requires UniqueTokens(rows)
    ensures UniqueTokens(Redeem(rows, token, now).0)
  {
  }

  /** A token is single-use: once marked used, no later lookup or mark finds it. */
  lemma RedeemIsSingleUse(rows: seq<TokenRow>, token: string, now: int, later: int)
    requires UniqueTokens(rows)
    requires Redeem(rows, token, now).1
    ensures Lookup(Redeem(rows, token, now).0, token, later).None?
    ensures !Redeem(Redeem(rows, token, now).0, token, later).1
  {
    var i := Find(rows, token, now).value;
    var spent := Redeem(rows, token, now).0;
    forall x | x in spent ensures !Redeemable(x, token, later) {
      var k :| 0 <= k < |spent| && spent[k] == x;
      if k != i {
        assert spent[k] == rows[k];
        assert rows[k].token != rows[i].token by {
          if k < i {} else {}
        }
      }
    }
  }

  // ---- the operations on the session ----

  method CreateEmailVerification(db: Session, userId: int, token: string, now: int) returns (v: TokenRow)
    modifies db
    ensures v == TokenRow(userId, token, now + EmailTokenLifetime, false)
    ensures db.AccountTables() == old(db.AccountTables()).(emailVerifications := Issue(old(db.emailVerifications), userId, token, v.expiresAt))
    ensures db.CourseTables() == old(db.CourseTables())
  {
    db.emailVerifications := Survivors(db.emailVerifications, userId);
    v := TokenRow(userId, token, now + EmailTokenLifetime, false);
    db.emailVerifications := db.emailVerifications + [v];
  }

  method MarkEmailVerificationUsed(db: Session, token: string, now: int) returns (ok: bool)
    modifies db
    ensures (db.emailVerifications, ok) == Redeem(old(db.emailVerifications), token, now)
    ensures db.AccountTables() == old(db.AccountTables()).(emailVerifications := db.emailVerifications)
    ensures db.CourseTables() == old(db.CourseTables())
  {
    var found := Find(db.emailVerifications, token, now);
    if found.None? {
      return false;
    }
    var i := found.value;
    db.emailVerifications := db.emailVerifications[i := db.emailVerifications[i].(isUsed := true)];
    ok := true;
  }

  method CreatePasswordReset(db: Session, userId: int, token: string, now: int) returns (v: TokenRow)
    modifies db
    ensures v == TokenRow(userId, token, now + ResetTokenLifetime, false)
    ensures db.AccountTables() == old(db.AccountTables()).(passwordResets := Issue(old(db.passwordResets), userId, token, v.expiresAt))
    ensures db.CourseTables() == old(db.CourseTables())
  {
    db.passwordResets := Survivors(db.passwordResets, userId);
    v := TokenRow(userId, token, now + ResetTokenLifetime, false);
    db.passwordResets := db.passwordResets + [v];
  }

  method MarkPasswordResetUsed(db: Session, token: string, now: int) returns (ok: bool)
    modifies db
    ensures (db.passwordResets, ok) == Redeem(old(db.passwordResets), token, now)
    ensures db.AccountTables() == old(db.AccountTables()).(passwordResets := db.passwordResets)
    ensures db.CourseTables() == old(db.CourseTables())
  {
    var found := Find(db.passwordResets, token, now);
    if found.None? {
      return false;
    }
    var i := found.value;
    db.passwordResets := db.passwordResets[i := db.passwordResets[i].(isUsed := true)];
    ok := true;
  }
}
