/**
 * Forgotten-password tokens: issue, verify and redeem. Time is whole seconds
 * passed in by the caller; the SHA-256 digest and bcrypt are opaque functions.
 */
module PasswordReset {
  import opened Basics
  import opened Text

  datatype UserRecord = UserRecord(id: string, email: string, passwordHash: string)

  datatype ResetToken = ResetToken(
    id: string, userId: string, tokenHash: string, createdAt: int, expiresAt: int, used: bool)

  datatype AuthStore = AuthStore(users: seq<UserRecord>, tokens: seq<ResetToken>)

  datatype ResetError = PasswordTooShort | InvalidOrExpired | TokenExpired

  const TokenLifetime: int := 3600
  const MinResetPasswordLength: nat := 8

  /** The token a reset link can redeem: same digest, not yet used. */
  function Redeemable(h: string): ResetToken -> bool {
    (t: ResetToken) => t.tokenHash == h && !t.used
  }

  function WithDigest(h: string): ResetToken -> bool {
    (t: ResetToken) => t.tokenHash == h
  }

  /**
   * The lookup lower-cases the given address; the stored address is compared
   * as registration wrote it, which keeps its case.
   */
  function ByEmail(email: string): UserRecord -> bool {
    (u: UserRecord) => u.email == Lower(email)
  }

  function ById(id: string): UserRecord -> bool {
    (u: UserRecord) => u.id == id
  }

  /**
   * `POST /auth/forgot-password`. The reply is the same whether or not the
   * email is registered; only the store tells the two apart.
   */
  function ForgotPassword(st: AuthStore, email: string, tokenId: string, rawToken: string,
                          digest: string -> string, now: int): (r: AuthStore)
    ensures r.users == st.users
    ensures r == st <==> forall i :: 0 <= i < |st.users| ==> st.users[i].email != Lower(email)
    ensures FirstMatch(st.users, ByEmail(email)).Some? ==>
      r.tokens == st.tokens + [ResetToken(tokenId, st.users[FirstMatch(st.users, ByEmail(email)).value].id,
                                          digest(rawToken), now, now + TokenLifetime, false)]
  {
    match FirstMatch(st.users, ByEmail(email))
    case None => st
    case Some(k) =>
      st.(tokens := st.tokens + [ResetToken(tokenId, st.users[k].id, digest(rawToken), now, now + TokenLifetime, false)])
  }

  /**
   * Registration stores the address as typed and the lookup lower-cases only
   * the request, so a user whose stored address has a capital letter never
   * gets a reset token, whatever address they type.
   */
  lemma MixedCaseAddressGetsNoToken(st: AuthStore, email: string, tokenId: string, rawToken: string,
                                    digest: string -> string, now: int)
    requires forall i :: 0 <= i < |st.users| ==> Lower(st.users[i].email) != st.users[i].email
    ensures ForgotPassword(st, email, tokenId, rawToken, digest, now) == st
  {
    LowerIdempotent(email);
  }

  /** `GET /auth/verify-reset-token`: a token past its expiry instant is rejected. */
  function VerifyResetToken(st: AuthStore, rawToken: string, digest: string -> string, now: int): (r: Result<ResetToken, ResetError>)
    ensures r == Err(InvalidOrExpired) <==> forall i :: 0 <= i < |st.tokens| ==> !Redeemable(digest(rawToken))(st.tokens[i])
    ensures r.Ok? ==> r.value in st.tokens && r.value.tokenHash == digest(rawToken) && !r.value.used && now <= r.value.expiresAt
    ensures r != Err(PasswordTooShort)
    // only the first unused token with the digest is looked at: it expires strictly after its expiry instant
    ensures var m := FirstMatch(st.tokens, Redeemable(digest(rawToken)));
      m.Some? ==>
        && (r == Err(TokenExpired) <==> st.tokens[m.value].expiresAt < now)
        && (r.Ok? ==> r.value == st.tokens[m.value])
  {
    match FirstMatch(st.tokens, Redeemable(digest(rawToken)))
    case None => Err(InvalidOrExpired)
    case Some(k) => if st.tokens[k].expiresAt < now then Err(TokenExpired) else Ok(st.tokens[k])
  }

  /** Replace user `k`'s password hash. */
  function SetPassword(users: seq<UserRecord>, k: Option<nat>, hash: string): (r: seq<UserRecord>)
    requires k.Some? ==> k.value < |users|
    ensures |r| == |users|
    ensures forall i :: 0 <= i < |users| && (k.None? || i != k.value) ==> r[i] == users[i]
    ensures k.Some? ==> r[k.value] == users[k.value].(passwordHash := hash)
  {
    if k.None? then users else users[k.value := users[k.value].(passwordHash := hash)]
  }

  /**
   * `POST /auth/reset-password`. The length is checked first; the user is then
   * found by id, and the first token carrying the digest is marked used.
   */
  function ResetPassword(st: AuthStore, rawToken: string, newPassword: string,
                         digest: string -> string, hashPassword: string -> string, now: int): (r: Result<AuthStore, ResetError>)
    ensures |newPassword| < MinResetPasswordLength <==> r == Err(PasswordTooShort)
    ensures |newPassword| >= MinResetPasswordLength ==>
      (r.Ok? <==> VerifyResetToken(st, rawToken, digest, now).Ok?)
      && (r.Err? ==> r.error == VerifyResetToken(st, rawToken, digest, now).error)
    ensures r.Ok? ==>
      var t := VerifyResetToken(st, rawToken, digest, now).value;
      && |r.value.tokens| == |st.tokens|
      && (forall i :: 0 <= i < |st.tokens| && st.tokens[i].tokenHash != digest(rawToken) ==> r.value.tokens[i] == st.tokens[i])
      && (exists j :: 0 <= j < |st.tokens| && st.tokens[j].tokenHash == digest(rawToken)
                      && r.value.tokens[j] == st.tokens[j].(used := true))
      && |r.value.users| == |st.users|
      && (forall i :: 0 <= i < |st.users| && st.users[i].id != t.userId ==> r.value.users[i] == st.users[i])
      && ((exists i :: 0 <= i < |st.users| && st.users[i].id == t.userId) ==>
            exists i :: 0 <= i < |st.users| && r.value.users[i] == st.users[i].(passwordHash := hashPassword(newPassword))
                        && st.users[i].id == t.userId)
  {
    if |newPassword| < MinResetPasswordLength then Err(PasswordTooShort)
    else
      match VerifyResetToken(st, rawToken, digest, now)
      case Err(e) => Err(e)
      case Ok(t) =>
        var k := FirstMatch(st.users, ById(t.userId));
        var users := SetPassword(st.users, k, hashPassword(newPassword));
        var tokens := match FirstMatch(st.tokens, WithDigest(digest(rawToken)))
          case None => st.tokens
          case Some(j) => st.tokens[j := st.tokens[j].(used := true)];
        Ok(AuthStore(users, tokens))
  }

  predicate DistinctDigests(tokens: seq<ResetToken>) {
    forall i, j :: 0 <= i < j < |tokens| ==> tokens[i].tokenHash != tokens[j].tokenHash
  }

  /** With distinct digests a reset link works once: the second use finds no token. */
  lemma SingleUse(st: AuthStore, rawToken: string, pw1: string, pw2: string,
                  digest: string -> string, hashPassword: string -> string, now1: int, now2: int)
    requires DistinctDigests(st.tokens)
    requires ResetPassword(st, rawToken, pw1, digest, hashPassword, now1).Ok?
    requires |pw2| >= MinResetPasswordLength
    ensures ResetPassword(ResetPassword(st, rawToken, pw1, digest, hashPassword, now1).value,
                          rawToken, pw2, digest, hashPassword, now2) == Err(InvalidOrExpired)
  {
    var h := digest(rawToken);
    var st1 := ResetPassword(st, rawToken, pw1, digest, hashPassword, now1).value;
    var j := FirstMatch(st.tokens, Redeemable(h)).value;
    var m := FirstMatch(st.tokens, WithDigest(h)).value;
    assert m == j;
    assert st1.tokens == st.tokens[j := st.tokens[j].(used := true)];
    forall i | 0 <= i < |st1.tokens|
      ensures !Redeemable(h)(st1.tokens[i])
    {
      if i != j {
        assert st1.tokens[i] == st.tokens[i];
        assert st.tokens[i].tokenHash != st.tokens[j].tokenHash;
      }
    }
  }

  /**
   * A freshly issued token, whose digest no earlier token carries, verifies
   * up to and including its expiry instant and is rejected as expired after it.
   */
  lemma IssuedTokenVerifiesUntilExpiry(st: AuthStore, email: string, tokenId: string, rawToken: string,
                                       digest: string -> string, now: int, later: int)
    requires FirstMatch(st.users, ByEmail(email)).Some?
    requires forall i :: 0 <= i < |st.tokens| ==> st.tokens[i].tokenHash != digest(rawToken)
    requires now <= later
    ensures var st1 := ForgotPassword(st, email, tokenId, rawToken, digest, now);
      (later <= now + TokenLifetime ==> VerifyResetToken(st1, rawToken, digest, later).Ok?)
      && (later > now + TokenLifetime ==> VerifyResetToken(st1, rawToken, digest, later) == Err(TokenExpired))
  {
    var st1 := ForgotPassword(st, email, tokenId, rawToken, digest, now);
    var n := |st.tokens|;
    assert Redeemable(digest(rawToken))(st1.tokens[n]);
    forall i | 0 <= i < n
      ensures !Redeemable(digest(rawToken))(st1.tokens[i])
    {
      assert st1.tokens[i] == st.tokens[i];
    }
    assert FirstMatch(st1.tokens, Redeemable(digest(rawToken))) == Some(n);
  }
}
