/**
 * The administrator script that resets the founders' passwords: the strength
 * rule it applies to the new password, and the guarded reset of one account.
 */
module FounderReset {
  import opened Basics
  import opened Text

  datatype Verdict = Verdict(valid: bool, message: string)

  const MinStrongLength: nat := 8
  const TooShortMessage: string := "Password must be at least 8 characters long"
  const MixMessage: string := "Password must contain uppercase, lowercase, and numbers"
  const AcceptedMessage: string := "Password meets requirements"

  /** The temporary password the script installs. */
  const TemporaryPassword: string := "Mainuser@123"

  predicate HasUpper(p: string) { exists i | 0 <= i < |p| :: IsUpperLetter(p[i]) }
  predicate HasLower(p: string) { exists i | 0 <= i < |p| :: IsLowerLetter(p[i]) }
  predicate HasDigit(p: string) { exists i | 0 <= i < |p| :: IsDigit(p[i]) }

  /**
   * `validate_password_strength`. Length first, then the three character
   * classes; the special-character test is computed but never consulted.
   */
  function ValidatePasswordStrength(p: string): (v: Verdict)
    ensures v.valid <==> |p| >= MinStrongLength && HasUpper(p) && HasLower(p) && HasDigit(p)
    ensures |p| < MinStrongLength ==> v == Verdict(false, TooShortMessage)
    ensures |p| >= MinStrongLength && !(HasUpper(p) && HasLower(p) && HasDigit(p)) ==> v == Verdict(false, MixMessage)
    ensures v.valid ==> v.message == AcceptedMessage
  {
    if |p| < MinStrongLength then Verdict(false, TooShortMessage)
    else if !(HasUpper(p) && HasLower(p) && HasDigit(p)) then Verdict(false, MixMessage)
    else Verdict(true, AcceptedMessage)
  }

  /** A letter or a digit: anything else counts as a special character. */
  predicate IsAlphanumeric(c: char) { IsUpperLetter(c) || IsLowerLetter(c) || IsDigit(c) }

  /**
   * No special character is ever required: a password of letters and digits
   * alone is accepted.
   */
  lemma SpecialCharacterNotRequired()
    ensures forall i :: 0 <= i < |"Abcdefg1"| ==> IsAlphanumeric("Abcdefg1"[i])
    ensures ValidatePasswordStrength("Abcdefg1").valid
  {
    assert IsUpperLetter("Abcdefg1"[0]);
    assert IsLowerLetter("Abcdefg1"[1]);
    assert IsDigit("Abcdefg1"[7]);
  }

  /**
   * Special characters play no part in the verdict: swapping any of them
   * for any other special character leaves the verdict as it was.
   */
  lemma SpecialCharactersInterchangeable(p: string, q: string)
    requires |p| == |q|
    requires forall i :: 0 <= i < |p| ==> p[i] == q[i] || (!IsAlphanumeric(p[i]) && !IsAlphanumeric(q[i]))
    ensures ValidatePasswordStrength(p) == ValidatePasswordStrength(q)
  {
  }

  /** The script's own temporary password passes its own rule. */
  lemma TemporaryPasswordIsStrong()
    ensures ValidatePasswordStrength(TemporaryPassword).valid
  {
    assert IsUpperLetter(TemporaryPassword[0]);
    assert IsLowerLetter(TemporaryPassword[1]);
    assert IsDigit(TemporaryPassword[9]);
  }

  datatype AdminUser = AdminUser(
    id: string, email: string, role: Option<string>, passwordHash: string,
    passwordChangedAt: int, passwordResetRequired: bool)

  datatype Session = Session(id: string, userId: string)

  datatype AuditEntry = AuditEntry(
    id: string, userId: string, eventType: string, email: string, performedBy: string, sessionsInvalidated: nat)

  datatype AdminStore = AdminStore(users: seq<AdminUser>, sessions: seq<Session>, audit: seq<AuditEntry>)

  const FounderRole: string := "founder"

  function FindByEmail(users: seq<AdminUser>, email: string): (r: Option<nat>)
    ensures r.None? <==> forall i :: 0 <= i < |users| ==> users[i].email != email
    ensures r.Some? ==>
      && r.value < |users| && users[r.value].email == email
      && forall i :: 0 <= i < r.value ==> users[i].email != email
  {
    FirstMatch(users, (u: AdminUser) => u.email == email)
  }

  function OfOtherUser(userId: string): Session -> bool {
    (s: Session) => s.userId != userId
  }

  /** The sessions that do not belong to `userId`, in order. */
  function Without(sessions: seq<Session>, userId: string): (r: seq<Session>)
    ensures |r| <= |sessions|
    ensures forall s :: s in r <==> s in sessions && s.userId != userId
  {
    Filter(sessions, OfOtherUser(userId))
  }

  /** The guard a reset must pass: a user with that email whose role is founder. */
  predicate ResettableFounder(st: AdminStore, email: string) {
    var k := FindByEmail(st.users, Lower(email));
    k.Some? && st.users[k.value].role == Some(FounderRole)
  }

  /**
   * `reset_founder_password`: on success the hash is replaced, a change is
   * forced at next login, the user's sessions are dropped and one audit entry
   * records how many.
   */
  function ResetFounderPassword(st: AdminStore, email: string, newHash: string, now: int, auditId: string): (r: (bool, AdminStore))
    ensures !ResettableFounder(st, email) ==> r == (false, st)
    ensures ResettableFounder(st, email) ==>
      var k := FindByEmail(st.users, Lower(email)).value;
      var u := st.users[k];
      && r.0
      && |r.1.users| == |st.users|
      && r.1.users[k].passwordHash == newHash && r.1.users[k].passwordResetRequired
      && r.1.users[k].id == u.id && r.1.users[k].role == u.role && r.1.users[k].email == u.email
      && (forall i :: 0 <= i < |st.users| && i != k ==> r.1.users[i] == st.users[i])
      && (forall s :: s in r.1.sessions <==> s in st.sessions && s.userId != u.id)
      && |r.1.sessions| <= |st.sessions|
      && r.1.audit == st.audit + [AuditEntry(auditId, u.id, "admin_password_reset", email, "system_admin",
                                             |st.sessions| - |r.1.sessions|)]
  {
    var k := FindByEmail(st.users, Lower(email));
    if k.None? || st.users[k.value].role != Some(FounderRole) then (false, st)
    else
      var u := st.users[k.value];
      var kept := Without(st.sessions, u.id);
      var users := st.users[k.value := u.(passwordHash := newHash, passwordChangedAt := now, passwordResetRequired := true)];
      (true, AdminStore(users, kept, st.audit + [AuditEntry(auditId, u.id, "admin_password_reset", email,
                                                            "system_admin", |st.sessions| - |kept|)]))
  }

  /** A second reset of the same founder still succeeds and finds no session left to drop. */
  lemma {:induction false} SecondResetDropsNothing(st: AdminStore, email: string, h1: string, h2: string,
                                                   now1: int, now2: int, id1: string, id2: string)
    requires ResettableFounder(st, email)
    ensures var st1 := ResetFounderPassword(st, email, h1, now1, id1).1;
      ResettableFounder(st1, email)
      && ResetFounderPassword(st1, email, h2, now2, id2).0
      && ResetFounderPassword(st1, email, h2, now2, id2).1.sessions == st1.sessions
  {
    var k := FindByEmail(st.users, Lower(email)).value;
    var st1 := ResetFounderPassword(st, email, h1, now1, id1).1;
    assert FindByEmail(st1.users, Lower(email)) == Some(k) by {
      assert forall i :: 0 <= i < k ==> st1.users[i] == st.users[i];
    }
    var uid := st.users[k].id;
    assert forall s :: s in st1.sessions ==> s.userId != uid;
    WithoutNothing(st1.sessions, uid);
  }

  lemma WithoutNothing(sessions: seq<Session>, userId: string)
    requires forall s :: s in sessions ==> s.userId != userId
    ensures Without(sessions, userId) == sessions
  {
    FilterKeepsAll(sessions, OfOtherUser(userId));
  }
}
