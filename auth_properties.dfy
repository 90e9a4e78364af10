/** What the account lifecycle guarantees across calls: what a registration
    leaves behind, who may log in, that a code works once, what a password
    rotation leaves behind, and how the resend guard behaves as written. */
module AccountLifecycle {
  import opened Common
  import opened AuthStore
  import opened AuthService

  /** A registration keeps every identifier fresh for the next insert. */
  lemma RegisteredKeepsValid(t: Tables, p: RegisterPayload, humanId: string, hash: string, emailCode: string,
                             phoneCode: string, now: Time)
    requires t.Valid()
    ensures Registered(t, p, humanId, hash, emailCode, phoneCode, now).Valid()
  {
    var u := RegisteredUser(t, p, humanId, now);
    var t1 := t.InsertUser(u);
    assert UserIds(t1.users) == UserIds(t.users) + [u.id];
    var t2 := t1.InsertPassword(NewPassword(t1.nextId, CreatePasswordParams(u.id, hash, u.id), now));
    assert PasswordIds(t2.passwords) == PasswordIds(t1.passwords) + [t1.nextId];
    var t3 := t2.InsertRequest(CodeRequest(t2.nextId, u.id, emailCode, EmailVerification, now));
    assert RequestIds(t3.requests) == RequestIds(t2.requests) + [t2.nextId];
    var r := t3.InsertRequest(CodeRequest(t3.nextId, u.id, phoneCode, PhoneVerification, now));
    assert RequestIds(r.requests) == RequestIds(t3.requests) + [t3.nextId];
  }

  /** A registration adds one unverified user created by the root actor and
      one active password of that user; sessions and businesses stay as they were. */
  lemma RegisteredRows(t: Tables, p: RegisterPayload, humanId: string, hash: string, emailCode: string,
                       phoneCode: string, now: Time)
    ensures var r := Registered(t, p, humanId, hash, emailCode, phoneCode, now);
            var u := RegisteredUser(t, p, humanId, now);
            && r.users == t.users + [u]
            && u.email == p.email && u.name == p.name && u.phone == p.countryCode + p.phone
            && !u.emailVerified && !u.phoneVerified && u.createdBy == RootUserID
            && r.passwords == t.passwords + [NewPassword(t.nextId + 1, CreatePasswordParams(u.id, hash, u.id), now)]
            && r.sessions == t.sessions && r.businesses == t.businesses && r.businessUsers == t.businessUsers
  {
  }

  /** A registration appends its two codes, the email one first, each of the
      new user, unconsumed and valid for fifteen minutes. */
  lemma RegisteredRequestRows(t: Tables, p: RegisterPayload, humanId: string, hash: string, emailCode: string,
                              phoneCode: string, now: Time)
    ensures var r := Registered(t, p, humanId, hash, emailCode, phoneCode, now);
            var u := RegisteredUser(t, p, humanId, now);
            && r.requests[..|t.requests|] == t.requests
            && |r.requests| == |t.requests| + 2
            && (forall i :: |t.requests| <= i < |r.requests| ==>
                  && r.requests[i].userId == u.id && r.requests[i].consumedAt.None?
                  && r.requests[i].expiresAt == now + VerificationRequestExpiry)
            && r.requests[|t.requests|].kind == EmailVerification && r.requests[|t.requests|].code == emailCode
            && r.requests[|t.requests| + 1].kind == PhoneVerification && r.requests[|t.requests| + 1].code == phoneCode
  {
    var r := Registered(t, p, humanId, hash, emailCode, phoneCode, now);
    assert r.requests[..|t.requests|] == t.requests;
  }

  /** When the email had no account, the new account is the one it now finds. */
  lemma RegisteredAccountFound(t: Tables, p: RegisterPayload, humanId: string, hash: string, emailCode: string,
                               phoneCode: string, now: Time)
    requires t.FindUserByEmail(p.email).None?
    ensures Registered(t, p, humanId, hash, emailCode, phoneCode, now).FindUserByEmail(p.email)
            == Some(RegisteredUser(t, p, humanId, now))
  {
    FirstWithEmailAppend(t.users, RegisteredUser(t, p, humanId, now), p.email);
  }

  /** Both codes are pending right after registration, so `VerifyEmail` and
      `VerifyPhone` find them. */
  lemma RegisteredCodesPending(t: Tables, p: RegisterPayload, humanId: string, hash: string, emailCode: string,
                               phoneCode: string, now: Time)
    ensures var r := Registered(t, p, humanId, hash, emailCode, phoneCode, now);
            var u := RegisteredUser(t, p, humanId, now);
            && r.FindVerificationRequest(u.id, PhoneVerification, now).Some?
            && r.FindVerificationRequest(u.id, PhoneVerification, now).value.code == phoneCode
            && r.FindVerificationRequest(u.id, EmailVerification, now).Some?
            && r.FindVerificationRequest(u.id, EmailVerification, now).value.code == emailCode
  {
    var r := Registered(t, p, humanId, hash, emailCode, phoneCode, now);
    var u := RegisteredUser(t, p, humanId, now);
    var rs := r.requests;
    assert rs[..|rs| - 1][|rs| - 2] == rs[|rs| - 2];
    assert LatestPending(rs, u.id, EmailVerification, now) == LatestPending(rs[..|rs| - 1], u.id, EmailVerification, now);
  }

  /** A fresh account cannot log in: its email is not verified yet. */
  lemma FreshAccountCannotLogIn(t: Tables, p: RegisterPayload, humanId: string, hash: string, emailCode: string,
                                phoneCode: string, now: Time,
                                login: LoginPayload, matches: (string, string) -> bool, faults: set<Step>)
    requires t.FindUserByEmail(p.email).None? && login.email == p.email && FindUser !in faults
    ensures LoginRefusal(Registered(t, p, humanId, hash, emailCode, phoneCode, now), login, matches, faults)
            == Some(UserEmailNotVerifiedErr)
  {
    RegisteredAccountFound(t, p, humanId, hash, emailCode, phoneCode, now);
  }

  /** A login is admitted only for an account row with that email that is not
      deleted, has both contacts verified, is not deactivated, and has an
      active password whose hash matches the one given. */
  lemma LoginAdmitted(t: Tables, p: LoginPayload, matches: (string, string) -> bool, faults: set<Step>)
    requires LoginRefusal(t, p, matches, faults).None?
    ensures exists i :: 0 <= i < |t.users| && t.users[i].email == p.email
                        && t.users[i].deletedAt.None? && t.users[i].deactivatedAt.None?
                        && t.users[i].emailVerified && t.users[i].phoneVerified
                        && exists j :: 0 <= j < |t.passwords| && ActiveOf(t.passwords[j], t.users[i].id)
                                       && matches(t.passwords[j].hash, p.password)
  {
    FirstWithEmailSpec(t.users, p.email);
    var u := t.FindUserByEmail(p.email).value;
    LatestActiveSpec(t.passwords, u.id);
    var i :| 0 <= i < |t.users| && t.users[i] == u;
    var j :| 0 <= j < |t.passwords| && t.passwords[j] == t.FindPasswordByUserId(u.id).value && ActiveOf(t.passwords[j], u.id);
  }

  /** No account row with the email means `UserNotFoundErr`, whatever else holds. */
  lemma LoginUnknownEmail(t: Tables, p: LoginPayload, matches: (string, string) -> bool, faults: set<Step>)
    requires forall i :: 0 <= i < |t.users| ==> t.users[i].email != p.email
    ensures LoginRefusal(t, p, matches, faults) == Some(UserNotFoundErr)
  {
    FirstWithEmailSpec(t.users, p.email);
  }

  /** After verification the account the email finds carries the flag. */
  lemma VerifiedFlagVisible(t: Tables, email: string, kind: VerificationType)
    requires t.FindUserByEmail(email).Some?
    ensures var u := t.FindUserByEmail(email).value;
            var after := VerifiedFlagSet(t, u.id, kind).FindUserByEmail(email);
            && after.Some? && after.value.id == u.id
            && (kind == EmailVerification ==> after.value == u.(emailVerified := true))
            && (kind != EmailVerification ==> after.value == u.(phoneVerified := true))
  {
    var u := t.FindUserByEmail(email).value;
    if kind == EmailVerification {
      FirstWithEmailOfEmailVerified(t.users, u.id, email);
    } else {
      FirstWithEmailOfPhoneVerified(t.users, u.id, email);
    }
  }

  /** A code works once: once consumed, the pending lookup never returns it again. */
  lemma CodeUsedOnce(t: Tables, request: VerificationRequest, at: Time, userId: Uuid, kind: VerificationType, now: Time)
    ensures var after := t.(requests := ConsumedIn(t.requests, request.id, at)).FindVerificationRequest(userId, kind, now);
            after.Some? ==> after.value.id != request.id
  {
    ConsumedNotPending(t.requests, request.id, at, userId, kind, now);
  }

  /** A reset or change whose new-password insert fails after the old
      passwords were retired leaves the account with no active password: its
      next login is refused with `InvalidLoginMethodErr`, whatever is typed. */
  lemma RetiredWithoutReplacementLocksOut(t: Tables, login: LoginPayload, matches: (string, string) -> bool,
                                          faults: set<Step>, now: Time)
    requires FindUser !in faults && t.FindUserByEmail(login.email).Some?
    requires var u := t.FindUserByEmail(login.email).value;
             u.deletedAt.None? && u.emailVerified && u.phoneVerified && u.deactivatedAt.None?
    ensures LoginRefusal(PasswordsRetired(t, t.FindUserByEmail(login.email).value.id, now), login, matches, faults)
            == Some(InvalidLoginMethodErr)
  {
    var userId := t.FindUserByEmail(login.email).value.id;
    var ps := DeletedIn(t.passwords, userId, userId, now);
    assert forall i :: 0 <= i < |ps| ==> !ActiveOf(ps[i], userId);
    LatestActiveSpec(ps, userId);
  }

  /** A rotation retires every active password of the user, leaves the other
      users' rows alone, and makes the new row the user's only active one. */
  lemma RotationInstallsNewPassword(t: Tables, userId: Uuid, hash: string, now: Time)
    requires t.Valid()
    ensures var r := Rotated(t, userId, hash, now);
            var row := NewPassword(t.nextId, CreatePasswordParams(userId, hash, userId), now);
            && r.Valid()
            && r.FindPasswordByUserId(userId) == Some(row)
            && |r.passwords| == |t.passwords| + 1 && r.passwords[|t.passwords|] == row
            && (forall i :: 0 <= i < |t.passwords| ==> !ActiveOf(r.passwords[i], userId))
            && (forall i :: 0 <= i < |t.passwords| && t.passwords[i].userId != userId ==> r.passwords[i] == t.passwords[i])
            && r.users == t.users && r.requests == t.requests && r.sessions == t.sessions
  {
    var t1 := PasswordsRetired(t, userId, now);
    assert PasswordIds(t1.passwords) == PasswordIds(t.passwords);
    assert PasswordIds(Rotated(t, userId, hash, now).passwords) == PasswordIds(t1.passwords) + [t.nextId];
  }

  /** The password just stored is among the last four, so setting it again
      right away is refused with `PasswordAlreadyUsedErr`. */
  lemma RotationBlocksImmediateReuse(t: Tables, userId: Uuid, hash: string, password: string,
                                     matches: (string, string) -> bool, now: Time)
    requires matches(hash, password)
    ensures UsedBefore(Rotated(t, userId, hash, now).FindLastFourPasswords(userId), password, matches)
  {
    var history := Rotated(t, userId, hash, now).FindLastFourPasswords(userId);
    assert history[0].hash == hash;
  }

  /** After a rotation the new password logs the account in, provided the
      account passes the earlier checks. */
  lemma RotatedPasswordLogsIn(t: Tables, hash: string, now: Time, p: LoginPayload,
                              matches: (string, string) -> bool, faults: set<Step>)
    requires t.FindUserByEmail(p.email).Some?
    requires var u := t.FindUserByEmail(p.email).value;
             u.deletedAt.None? && u.emailVerified && u.phoneVerified && u.deactivatedAt.None?
    requires FindUser !in faults && FindPassword !in faults && matches(hash, p.password)
    ensures LoginRefusal(Rotated(t, t.FindUserByEmail(p.email).value.id, hash, now), p, matches, faults).None?
  {
  }

  /** The resend guard as written: a second code may be asked for in the very
      second the first was issued, but not once a minute has passed while it
      is still pending. */
  lemma ResendGuardAsWritten(t: Tables, userId: Uuid, code: string, kind: VerificationType, now: Time, later: Time)
    requires now + VerificationRequestWaitTime < later < now + VerificationRequestExpiry
    ensures var after := t.InsertRequest(CodeRequest(t.nextId, userId, code, kind, now));
            && after.FindVerificationRequest(userId, kind, now).Some?
            && !ResendRefused(after.FindVerificationRequest(userId, kind, now).value, now)
            && after.FindVerificationRequest(userId, kind, later).Some?
            && ResendRefused(after.FindVerificationRequest(userId, kind, later).value, later)
  {
  }

  /** A reuse the loop reports is a match against one of the user's own
      stored hashes (only the four newest are looked at, so the converse does
      not hold). */
  lemma ReuseCheckOverFour(t: Tables, userId: Uuid, password: string, matches: (string, string) -> bool)
    ensures UsedBefore(t.FindLastFourPasswords(userId), password, matches) ==>
              exists i :: 0 <= i < |t.passwords| && t.passwords[i].userId == userId
                          && matches(t.passwords[i].hash, password)
  {
    if UsedBefore(t.FindLastFourPasswords(userId), password, matches) {
      var history := t.FindLastFourPasswords(userId);
      var k :| 0 <= k < |history| && matches(history[k].hash, password);
      NewestOfUserSpec(t.passwords, userId, 4);
      var i :| 0 <= i < |t.passwords| && t.passwords[i] == history[k];
    }
  }
}
