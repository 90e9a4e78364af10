/** The relational store behind the auth service. The SQL of the generated
    queries is not part of this model, so each query is given an explicit
    meaning here:
    - `FindUserByEmail`: the oldest user row with that email, deleted and
      deactivated rows included (the service checks those flags itself);
    - `FindVerificationRequestByUserIdAndType`: the newest request of that
      user and kind that is neither consumed nor expired;
    - `FindPasswordByUserId`: the newest password row that is not deleted;
    - `FindLastFourPasswordsByUserId`: the four newest password rows of the
      user, deleted ones included, newest first;
    - `DeletePassword`: soft-deletes every active password row of the user;
    - `FindBusinessesByUserID`: one row per membership of the user, in
      insertion order, joined with its business.
    Rows get the identifier `nextId` and the creation time `now`. */
module AuthStore {
  import opened Common

  datatype VerificationType = EmailVerification | PhoneVerification | ResetPasswordVerification

  datatype User = User(id: Uuid, humanId: string, name: string, email: string, phone: string,
                       dp: Option<string>, emailVerified: bool, phoneVerified: bool,
                       createdAt: Time, createdBy: Uuid,
                       deactivatedAt: Option<Time>, deletedAt: Option<Time>)

  datatype PasswordRow = PasswordRow(id: Uuid, userId: Uuid, hash: string, createdAt: Time, createdBy: Uuid,
                                     deletedAt: Option<Time>, deletedBy: Option<Uuid>)

  datatype VerificationRequest = VerificationRequest(id: Uuid, userId: Uuid, code: string, kind: VerificationType,
                                                     expiresAt: Time, createdAt: Time, createdBy: Uuid,
                                                     consumedAt: Option<Time>)

  datatype Session = Session(id: Uuid, humanId: string, userId: Uuid, userIp: string, userAgent: string,
                             refreshToken: string, expiresAt: Time, createdAt: Time, createdBy: Uuid)

  datatype Business = Business(id: Uuid, name: string, description: Option<string>, logo: Option<string>,
                               industry: string, primaryCurrency: string, ownerId: Uuid,
                               currencies: seq<string>, createdAt: Time, createdBy: Uuid)

  datatype BusinessUser = BusinessUser(userId: Uuid, businessId: Uuid, role: string, createdAt: Time, createdBy: Uuid)

  // ----- Insert parameters, as the service fills them -----

  datatype CreateUserParams = CreateUserParams(humanId: string, name: string, email: string, phone: string,
                                               emailVerified: bool, createdBy: Uuid)
  datatype CreatePasswordParams = CreatePasswordParams(userId: Uuid, password: string, createdBy: Uuid)
  datatype CreateVerificationRequestParams = CreateVerificationRequestParams(userId: Uuid, code: string,
                                                                             kind: VerificationType,
                                                                             expiresAt: Time, createdBy: Uuid)
  datatype CreateSessionParams = CreateSessionParams(humanId: string, userId: Uuid, userIp: string, userAgent: string,
                                                     refreshToken: string, expiresAt: Time, createdBy: Uuid)
  datatype CreateBusinessParams = CreateBusinessParams(name: string, description: Option<string>, logo: Option<string>,
                                                       industry: string, primaryCurrency: string, ownerId: Uuid,
                                                       currencies: seq<string>, createdBy: Uuid)
  datatype CreateBusinessUserParams = CreateBusinessUserParams(userId: Uuid, businessId: Uuid, role: string, createdBy: Uuid)

  // ----- The rows an insert creates -----

  function NewUser(id: Uuid, p: CreateUserParams, now: Time): (u: User)
    ensures u.id == id && u.email == p.email && u.phone == p.phone && u.createdBy == p.createdBy
    ensures u.emailVerified == p.emailVerified && !u.phoneVerified
    ensures u.deletedAt.None? && u.deactivatedAt.None?
  {
    User(id, p.humanId, p.name, p.email, p.phone, None, p.emailVerified, false, now, p.createdBy, None, None)
  }

  function NewPassword(id: Uuid, p: CreatePasswordParams, now: Time): (r: PasswordRow)
    ensures r.id == id && r.userId == p.userId && r.hash == p.password && r.deletedAt.None?
  {
    PasswordRow(id, p.userId, p.password, now, p.createdBy, None, None)
  }

  function NewRequest(id: Uuid, p: CreateVerificationRequestParams, now: Time): (r: VerificationRequest)
    ensures r.id == id && r.userId == p.userId && r.code == p.code && r.kind == p.kind
    ensures r.expiresAt == p.expiresAt && r.createdAt == now && r.consumedAt.None?
  {
    VerificationRequest(id, p.userId, p.code, p.kind, p.expiresAt, now, p.createdBy, None)
  }

  function NewSession(id: Uuid, p: CreateSessionParams, now: Time): (s: Session)
    ensures s.id == id && s.userId == p.userId && s.refreshToken == p.refreshToken && s.expiresAt == p.expiresAt
  {
    Session(id, p.humanId, p.userId, p.userIp, p.userAgent, p.refreshToken, p.expiresAt, now, p.createdBy)
  }

  function NewBusiness(id: Uuid, p: CreateBusinessParams, now: Time): (b: Business)
    ensures b.id == id && b.name == p.name && b.ownerId == p.ownerId && b.createdBy == p.createdBy
    ensures b.industry == p.industry && b.currencies == p.currencies
  {
    Business(id, p.name, p.description, p.logo, p.industry, p.primaryCurrency, p.ownerId, p.currencies, now, p.createdBy)
  }

  function NewBusinessUser(p: CreateBusinessUserParams, now: Time): (m: BusinessUser)
    ensures m.userId == p.userId && m.businessId == p.businessId && m.role == p.role
  {
    BusinessUser(p.userId, p.businessId, p.role, now, p.createdBy)
  }

  // ----- Query helpers over one table -----

  /** The oldest user row with that email. */
  function FirstWithEmail(us: seq<User>, email: string): Option<User> {
    if us == [] then None
    else if us[0].email == email then Some(us[0])
    else FirstWithEmail(us[1..], email)
  }

  /** The oldest user row with that identifier. */
  function FirstWithId(us: seq<User>, id: Uuid): Option<User> {
    if us == [] then None
    else if us[0].id == id then Some(us[0])
    else FirstWithId(us[1..], id)
  }

  /** A request that `FindVerificationRequestByUserIdAndType` may return at time `now`. */
  predicate Pending(r: VerificationRequest, userId: Uuid, kind: VerificationType, now: Time) {
    r.userId == userId && r.kind == kind && r.consumedAt.None? && now < r.expiresAt
  }

  /** The newest pending request of that user and kind. */
  function LatestPending(rs: seq<VerificationRequest>, userId: Uuid, kind: VerificationType, now: Time): Option<VerificationRequest> {
    if rs == [] then None
    else if Pending(rs[|rs| - 1], userId, kind, now) then Some(rs[|rs| - 1])
    else LatestPending(rs[..|rs| - 1], userId, kind, now)
  }

  /** The newest password row of the user that is not deleted. */
  function LatestActive(ps: seq<PasswordRow>, userId: Uuid): Option<PasswordRow> {
    if ps == [] then None
    else if ps[|ps| - 1].userId == userId && ps[|ps| - 1].deletedAt.None? then Some(ps[|ps| - 1])
    else LatestActive(ps[..|ps| - 1], userId)
  }

  /** The `n` newest password rows of the user, newest first. */
  function NewestOfUser(ps: seq<PasswordRow>, userId: Uuid, n: nat): (r: seq<PasswordRow>)
    ensures |r| <= n
  {
    if ps == [] || n == 0 then []
    else if ps[|ps| - 1].userId == userId then [ps[|ps| - 1]] + NewestOfUser(ps[..|ps| - 1], userId, n - 1)
    else NewestOfUser(ps[..|ps| - 1], userId, n)
  }

  /** The oldest business row with that identifier. */
  function BusinessWithId(bs: seq<Business>, id: Uuid): Option<Business> {
    if bs == [] then None
    else if bs[0].id == id then Some(bs[0])
    else BusinessWithId(bs[1..], id)
  }

  /** The businesses of the user's memberships, in membership order. */
  function BusinessesOf(ms: seq<BusinessUser>, bs: seq<Business>, userId: Uuid): seq<Business> {
    if ms == [] then []
    else
      var rest := BusinessesOf(ms[1..], bs, userId);
      if ms[0].userId == userId && BusinessWithId(bs, ms[0].businessId).Some? then
        [BusinessWithId(bs, ms[0].businessId).value] + rest
      else rest
  }

  /** Every identifier lies strictly between `uuid.Nil` and the next one to hand out. */
  ghost predicate IdsBelow(ids: seq<Uuid>, next: Uuid) {
    forall i :: 0 <= i < |ids| ==> NilUuid < ids[i] < next
  }

  /* One identifier projection per table: the row types are separate
     datatypes with no common supertype, and a single projection taking an
     accessor function would make the verifier compare lambdas instead of
     rows wherever two snapshots' identifiers are equated. */
  function UserIds(us: seq<User>): (ids: seq<Uuid>)
    ensures |ids| == |us| && forall i :: 0 <= i < |us| ==> ids[i] == us[i].id
  {
    seq(|us|, i requires 0 <= i < |us| => us[i].id)
  }

  function PasswordIds(ps: seq<PasswordRow>): (ids: seq<Uuid>)
    ensures |ids| == |ps| && forall i :: 0 <= i < |ps| ==> ids[i] == ps[i].id
  {
    seq(|ps|, i requires 0 <= i < |ps| => ps[i].id)
  }

  function RequestIds(rs: seq<VerificationRequest>): (ids: seq<Uuid>)
    ensures |ids| == |rs| && forall i :: 0 <= i < |rs| ==> ids[i] == rs[i].id
  {
    seq(|rs|, i requires 0 <= i < |rs| => rs[i].id)
  }

  function SessionIds(ss: seq<Session>): (ids: seq<Uuid>)
    ensures |ids| == |ss| && forall i :: 0 <= i < |ss| ==> ids[i] == ss[i].id
  {
    seq(|ss|, i requires 0 <= i < |ss| => ss[i].id)
  }

  function BusinessIds(bs: seq<Business>): (ids: seq<Uuid>)
    ensures |ids| == |bs| && forall i :: 0 <= i < |bs| ==> ids[i] == bs[i].id
  {
    seq(|bs|, i requires 0 <= i < |bs| => bs[i].id)
  }

  /** The whole store as a value. */
  datatype Tables = Tables(users: seq<User>, passwords: seq<PasswordRow>, requests: seq<VerificationRequest>,
                           sessions: seq<Session>, businesses: seq<Business>, businessUsers: seq<BusinessUser>,
                           nextId: Uuid)
  {
    /** Every row's identifier was handed out before, so a new row's is fresh. */
    ghost predicate Valid() {
      && NilUuid < nextId
      && IdsBelow(UserIds(users), nextId)
      && IdsBelow(PasswordIds(passwords), nextId)
      && IdsBelow(RequestIds(requests), nextId)
      && IdsBelow(SessionIds(sessions), nextId)
      && IdsBelow(BusinessIds(businesses), nextId)
    }

    function FindUserByEmail(email: string): Option<User> {
      FirstWithEmail(users, email)
    }

    function FindUserById(id: Uuid): Option<User> {
      FirstWithId(users, id)
    }

    function FindVerificationRequest(userId: Uuid, kind: VerificationType, now: Time): Option<VerificationRequest> {
      LatestPending(requests, userId, kind, now)
    }

    function FindPasswordByUserId(userId: Uuid): Option<PasswordRow> {
      LatestActive(passwords, userId)
    }

    function FindLastFourPasswords(userId: Uuid): (r: seq<PasswordRow>)
      ensures |r| <= 4
    {
      NewestOfUser(passwords, userId, 4)
    }

    function FindBusinessesByUserId(userId: Uuid): seq<Business> {
      BusinessesOf(businessUsers, businesses, userId)
    }

    function InsertUser(u: User): Tables {
      this.(users := users + [u], nextId := nextId + 1)
    }

    function InsertPassword(p: PasswordRow): Tables {
      this.(passwords := passwords + [p], nextId := nextId + 1)
    }

    function InsertRequest(r: VerificationRequest): Tables {
      this.(requests := requests + [r], nextId := nextId + 1)
    }

    function InsertSession(s: Session): Tables {
      this.(sessions := sessions + [s], nextId := nextId + 1)
    }

    function InsertBusiness(b: Business): Tables {
      this.(businesses := businesses + [b], nextId := nextId + 1)
    }

    function InsertBusinessUser(m: BusinessUser): Tables {
      this.(businessUsers := businessUsers + [m])
    }
  }

  const Empty: Tables := Tables([], [], [], [], [], [], 1)

  // ----- In-place updates, as functions of the old table -----

  function EmailVerifiedIn(us: seq<User>, id: Uuid): (r: seq<User>)
    ensures |r| == |us|
    ensures forall i :: 0 <= i < |us| ==> r[i] == if us[i].id == id then us[i].(emailVerified := true) else us[i]
  {
    seq(|us|, i requires 0 <= i < |us| => if us[i].id == id then us[i].(emailVerified := true) else us[i])
  }

  function PhoneVerifiedIn(us: seq<User>, id: Uuid): (r: seq<User>)
    ensures |r| == |us|
    ensures forall i :: 0 <= i < |us| ==> r[i] == if us[i].id == id then us[i].(phoneVerified := true) else us[i]
  {
    seq(|us|, i requires 0 <= i < |us| => if us[i].id == id then us[i].(phoneVerified := true) else us[i])
  }

  function ConsumedIn(rs: seq<VerificationRequest>, id: Uuid, now: Time): (r: seq<VerificationRequest>)
    ensures |r| == |rs|
    ensures forall i :: 0 <= i < |rs| ==> r[i] == if rs[i].id == id then rs[i].(consumedAt := Some(now)) else rs[i]
  {
    seq(|rs|, i requires 0 <= i < |rs| => if rs[i].id == id then rs[i].(consumedAt := Some(now)) else rs[i])
  }

  /** An active password row of the user, and so one `DeletePassword` touches. */
  predicate ActiveOf(p: PasswordRow, userId: Uuid) {
    p.userId == userId && p.deletedAt.None?
  }

  function DeletedIn(ps: seq<PasswordRow>, userId: Uuid, deletedBy: Uuid, now: Time): (r: seq<PasswordRow>)
    ensures |r| == |ps|
    ensures forall i :: 0 <= i < |ps| ==>
              r[i] == if ActiveOf(ps[i], userId) then ps[i].(deletedAt := Some(now), deletedBy := Some(deletedBy)) else ps[i]
  {
    seq(|ps|, i requires 0 <= i < |ps| =>
      if ActiveOf(ps[i], userId) then ps[i].(deletedAt := Some(now), deletedBy := Some(deletedBy)) else ps[i])
  }

  /** The repository: one sequence per table, changed in place by its methods. */
  class Repository {
    var users: seq<User>
    var passwords: seq<PasswordRow>
    var requests: seq<VerificationRequest>
    var sessions: seq<Session>
    var businesses: seq<Business>
    var businessUsers: seq<BusinessUser>
    var nextId: Uuid

    function Snapshot(): Tables
      reads this
    {
      Tables(users, passwords, requests, sessions, businesses, businessUsers, nextId)
    }

    ghost predicate Valid()
      reads this
    {
      Snapshot().Valid()
    }

    constructor ()
      ensures Valid() && Snapshot() == Empty
    {
      users, passwords, requests, sessions, businesses, businessUsers, nextId := [], [], [], [], [], [], 1;
    }

    /** Overwrites every table with `t`. */
    method Load(t: Tables)
      modifies this
      ensures Snapshot() == t
    {
      users, passwords, requests, sessions := t.users, t.passwords, t.requests, t.sessions;
      businesses, businessUsers, nextId := t.businesses, t.businessUsers, t.nextId;
    }

    /** `StartTransaction` with `WithTx`: a private copy that the transaction's
        writes go to; nothing reaches this repository before `Commit`. */
    method StartTransaction() returns (tx: Repository)
      ensures fresh(tx) && tx.Snapshot() == Snapshot()
    {
      tx := new Repository();
      tx.Load(Snapshot());
    }

    /** `tx.Commit`: the transaction's tables become this repository's. */
    method Commit(tx: Repository)
      modifies this
      ensures Snapshot() == old(tx.Snapshot())
    {
      Load(tx.Snapshot());
    }

    method CreateUser(p: CreateUserParams, now: Time) returns (user: User)
      requires Valid()
      modifies this
      ensures Valid()
      ensures user == NewUser(old(nextId), p, now) && Snapshot() == old(Snapshot()).InsertUser(user)
    {
      user := NewUser(nextId, p, now);
      users := users + [user];
      nextId := nextId + 1;
    }

    method CreatePassword(p: CreatePasswordParams, now: Time)
      requires Valid()
      modifies this
      ensures Valid()
      ensures Snapshot() == old(Snapshot()).InsertPassword(NewPassword(old(nextId), p, now))
    {
      passwords := passwords + [NewPassword(nextId, p, now)];
      nextId := nextId + 1;
    }

    method CreateVerificationRequest(p: CreateVerificationRequestParams, now: Time)
      requires Valid()
      modifies this
      ensures Valid()
      ensures Snapshot() == old(Snapshot()).InsertRequest(NewRequest(old(nextId), p, now))
    {
      requests := requests + [NewRequest(nextId, p, now)];
      nextId := nextId + 1;
    }

    method CreateSession(p: CreateSessionParams, now: Time)
      requires Valid()
      modifies this
      ensures Valid()
      ensures Snapshot() == old(Snapshot()).InsertSession(NewSession(old(nextId), p, now))
    {
      sessions := sessions + [NewSession(nextId, p, now)];
      nextId := nextId + 1;
    }

    method CreateBusiness(p: CreateBusinessParams, now: Time) returns (business: Business)
      requires Valid()
      modifies this
      ensures Valid()
      ensures business == NewBusiness(old(nextId), p, now) && Snapshot() == old(Snapshot()).InsertBusiness(business)
    {
      business := NewBusiness(nextId, p, now);
      businesses := businesses + [business];
      nextId := nextId + 1;
    }

    method CreateBusinessUser(p: CreateBusinessUserParams, now: Time) returns (member: BusinessUser)
      requires Valid()
      modifies this
      ensures Valid()
      ensures member == NewBusinessUser(p, now) && Snapshot() == old(Snapshot()).InsertBusinessUser(member)
    {
      member := NewBusinessUser(p, now);
      businessUsers := businessUsers + [member];
    }

    method SetUserEmailVerified(id: Uuid)
      requires Valid()
      modifies this
      ensures Valid()
      ensures Snapshot() == old(Snapshot()).(users := EmailVerifiedIn(old(users), id))
    {
      users := EmailVerifiedIn(users, id);
      assert UserIds(users) == UserIds(old(users));
    }

    method SetUserPhoneVerified(id: Uuid)
      requires Valid()
      modifies this
      ensures Valid()
      ensures Snapshot() == old(Snapshot()).(users := PhoneVerifiedIn(old(users), id))
    {
      users := PhoneVerifiedIn(users, id);
      assert UserIds(users) == UserIds(old(users));
    }

    method SetVerificationRequestConsumedAt(id: Uuid, now: Time)
      requires Valid()
      modifies this
      ensures Valid()
      ensures Snapshot() == old(Snapshot()).(requests := ConsumedIn(old(requests), id, now))
    {
      requests := ConsumedIn(requests, id, now);
      assert RequestIds(requests) == RequestIds(old(requests));
    }

    method DeletePassword(userId: Uuid, deletedBy: Uuid, now: Time)
      requires Valid()
      modifies this
      ensures Valid()
      ensures Snapshot() == old(Snapshot()).(passwords := DeletedIn(old(passwords), userId, deletedBy, now))
    {
      passwords := DeletedIn(passwords, userId, deletedBy, now);
      assert PasswordIds(passwords) == PasswordIds(old(passwords));
    }
  }

  // ----- What the queries return -----

  lemma {:induction false} FirstWithEmailSpec(us: seq<User>, email: string)
    ensures FirstWithEmail(us, email).Some? ==>
              FirstWithEmail(us, email).value in us && FirstWithEmail(us, email).value.email == email
    ensures FirstWithEmail(us, email).None? <==> forall i :: 0 <= i < |us| ==> us[i].email != email
  {
    if us != [] && us[0].email != email {
      FirstWithEmailSpec(us[1..], email);
      assert forall i :: 1 <= i < |us| ==> us[i] == us[1..][i - 1];
    }
  }

  lemma {:induction false} FirstWithIdSpec(us: seq<User>, id: Uuid)
    ensures FirstWithId(us, id).Some? ==> FirstWithId(us, id).value in us && FirstWithId(us, id).value.id == id
    ensures FirstWithId(us, id).None? <==> forall i :: 0 <= i < |us| ==> us[i].id != id
  {
    if us != [] && us[0].id != id {
      FirstWithIdSpec(us[1..], id);
      assert forall i :: 1 <= i < |us| ==> us[i] == us[1..][i - 1];
    }
  }

  /** The pending request found is the newest one: no later row of the
      table is pending for the same user and kind. */
  lemma {:induction false} LatestPendingSpec(rs: seq<VerificationRequest>, userId: Uuid, kind: VerificationType, now: Time)
    ensures LatestPending(rs, userId, kind, now).None? <==> forall i :: 0 <= i < |rs| ==> !Pending(rs[i], userId, kind, now)
    ensures LatestPending(rs, userId, kind, now).Some? ==>
              exists i :: 0 <= i < |rs| && rs[i] == LatestPending(rs, userId, kind, now).value
                          && Pending(rs[i], userId, kind, now)
                          && forall j :: i < j < |rs| ==> !Pending(rs[j], userId, kind, now)
  {
    if rs != [] {
      var last := |rs| - 1;
      if Pending(rs[last], userId, kind, now) {
        assert rs[last] == LatestPending(rs, userId, kind, now).value;
      } else {
        var init := rs[..last];
        LatestPendingSpec(init, userId, kind, now);
        assert forall i :: 0 <= i < |init| ==> init[i] == rs[i];
        assert (forall i :: 0 <= i < |rs| ==> !Pending(rs[i], userId, kind, now))
               <==> (forall i :: 0 <= i < |init| ==> !Pending(init[i], userId, kind, now));
        if LatestPending(init, userId, kind, now).Some? {
          var i :| 0 <= i < |init| && init[i] == LatestPending(init, userId, kind, now).value
                   && Pending(init[i], userId, kind, now)
                   && forall j :: i < j < |init| ==> !Pending(init[j], userId, kind, now);
          assert rs[i] == LatestPending(rs, userId, kind, now).value;
        }
      }
    }
  }

  /** The password found is active, belongs to the user, and no later row of
      the user is active; there is none exactly when the user has no active row. */
  lemma {:induction false} LatestActiveSpec(ps: seq<PasswordRow>, userId: Uuid)
    ensures LatestActive(ps, userId).None? <==> forall i :: 0 <= i < |ps| ==> !ActiveOf(ps[i], userId)
    ensures LatestActive(ps, userId).Some? ==>
              exists i :: 0 <= i < |ps| && ps[i] == LatestActive(ps, userId).value && ActiveOf(ps[i], userId)
                          && forall j :: i < j < |ps| ==> !ActiveOf(ps[j], userId)
  {
    if ps != [] && !ActiveOf(ps[|ps| - 1], userId) {
      var init := ps[..|ps| - 1];
      LatestActiveSpec(init, userId);
      assert forall i :: 0 <= i < |init| ==> init[i] == ps[i];
    }
  }

  /** The newest rows returned are all the user's, taken from the table; when
      fewer than `n` come back, every row of the user came back. */
  lemma {:induction false} NewestOfUserSpec(ps: seq<PasswordRow>, userId: Uuid, n: nat)
    ensures forall k :: 0 <= k < |NewestOfUser(ps, userId, n)| ==>
              NewestOfUser(ps, userId, n)[k] in ps && NewestOfUser(ps, userId, n)[k].userId == userId
    ensures |NewestOfUser(ps, userId, n)| < n ==>
              forall i :: 0 <= i < |ps| && ps[i].userId == userId ==> ps[i] in NewestOfUser(ps, userId, n)
  {
    if ps != [] && n != 0 {
      var init := ps[..|ps| - 1];
      var last := ps[|ps| - 1];
      assert forall i :: 0 <= i < |init| ==> init[i] == ps[i];
      if last.userId == userId {
        NewestOfUserSpec(init, userId, n - 1);
        var r := NewestOfUser(ps, userId, n);
        assert r == [last] + NewestOfUser(init, userId, n - 1);
        assert forall k :: 1 <= k < |r| ==> r[k] == NewestOfUser(init, userId, n - 1)[k - 1];
      } else {
        NewestOfUserSpec(init, userId, n);
      }
    }
  }

  /** Every membership of the user whose business exists contributes that
      business to the listing. */
  lemma {:induction false} BusinessesOfComplete(ms: seq<BusinessUser>, bs: seq<Business>, userId: Uuid, i: nat)
    requires i < |ms| && ms[i].userId == userId && BusinessWithId(bs, ms[i].businessId).Some?
    ensures BusinessWithId(bs, ms[i].businessId).value in BusinessesOf(ms, bs, userId)
  {
    if i > 0 {
      assert ms[1..][i - 1] == ms[i];
      BusinessesOfComplete(ms[1..], bs, userId, i - 1);
    }
  }

  /** Every business listed for a user is a business of one of their memberships. */
  lemma {:induction false} BusinessesOfSpec(ms: seq<BusinessUser>, bs: seq<Business>, userId: Uuid, b: Business)
    ensures b in BusinessesOf(ms, bs, userId) ==>
              b in bs && exists i :: 0 <= i < |ms| && ms[i].userId == userId && ms[i].businessId == b.id
  {
    if ms != [] {
      BusinessesOfSpec(ms[1..], bs, userId, b);
      var found := BusinessWithId(bs, ms[0].businessId);
      if b in BusinessesOf(ms, bs, userId) && !(b in BusinessesOf(ms[1..], bs, userId)) {
        BusinessWithIdSpec(bs, ms[0].businessId);
      } else if b in BusinessesOf(ms[1..], bs, userId) {
        var i :| 0 <= i < |ms[1..]| && ms[1..][i].userId == userId && ms[1..][i].businessId == b.id;
        assert ms[i + 1] == ms[1..][i];
      }
    }
  }

  lemma {:induction false} BusinessWithIdSpec(bs: seq<Business>, id: Uuid)
    ensures BusinessWithId(bs, id).Some? ==> BusinessWithId(bs, id).value in bs && BusinessWithId(bs, id).value.id == id
    ensures BusinessWithId(bs, id).None? <==> forall i :: 0 <= i < |bs| ==> bs[i].id != id
  {
    if bs != [] && bs[0].id != id {
      BusinessWithIdSpec(bs[1..], id);
      assert forall i :: 1 <= i < |bs| ==> bs[i] == bs[1..][i - 1];
    }
  }

  /** A new row gets an identifier no row of the table has. */
  lemma FreshId(t: Tables)
    requires t.Valid()
    ensures forall i :: 0 <= i < |t.users| ==> t.users[i].id != t.nextId
    ensures forall i :: 0 <= i < |t.requests| ==> t.requests[i].id != t.nextId
    ensures forall i :: 0 <= i < |t.passwords| ==> t.passwords[i].id != t.nextId
    ensures forall i :: 0 <= i < |t.businesses| ==> t.businesses[i].id != t.nextId
  {
    assert forall i :: 0 <= i < |t.users| ==> UserIds(t.users)[i] == t.users[i].id;
    assert forall i :: 0 <= i < |t.requests| ==> RequestIds(t.requests)[i] == t.requests[i].id;
    assert forall i :: 0 <= i < |t.passwords| ==> PasswordIds(t.passwords)[i] == t.passwords[i].id;
    assert forall i :: 0 <= i < |t.businesses| ==> BusinessIds(t.businesses)[i] == t.businesses[i].id;
  }

  // ----- How the queries see the writes -----

  /** Appending a user changes the email lookup only when no older row had that email. */
  lemma {:induction false} FirstWithEmailAppend(us: seq<User>, u: User, email: string)
    ensures FirstWithEmail(us + [u], email) ==
              if FirstWithEmail(us, email).Some? then FirstWithEmail(us, email)
              else if u.email == email then Some(u) else None
  {
    if us == [] {
      assert [u][1..] == [];
    } else {
      assert (us + [u])[0] == us[0];
      assert (us + [u])[1..] == us[1..] + [u];
      FirstWithEmailAppend(us[1..], u, email);
    }
  }

  /** Setting the email flag of user `id` shows in the email lookup, and nothing else does. */
  lemma {:induction false} FirstWithEmailOfEmailVerified(us: seq<User>, id: Uuid, email: string)
    ensures FirstWithEmail(EmailVerifiedIn(us, id), email) ==
              match FirstWithEmail(us, email)
              case None => None
              case Some(u) => Some(if u.id == id then u.(emailVerified := true) else u)
  {
    if us != [] {
      assert EmailVerifiedIn(us, id)[1..] == EmailVerifiedIn(us[1..], id);
      FirstWithEmailOfEmailVerified(us[1..], id, email);
    }
  }

  /** The same for the phone flag. */
  lemma {:induction false} FirstWithEmailOfPhoneVerified(us: seq<User>, id: Uuid, email: string)
    ensures FirstWithEmail(PhoneVerifiedIn(us, id), email) ==
              match FirstWithEmail(us, email)
              case None => None
              case Some(u) => Some(if u.id == id then u.(phoneVerified := true) else u)
  {
    if us != [] {
      assert PhoneVerifiedIn(us, id)[1..] == PhoneVerifiedIn(us[1..], id);
      FirstWithEmailOfPhoneVerified(us[1..], id, email);
    }
  }

  /** A consumed request is never found again: after `SetVerificationRequestConsumedAt(id)`
      the pending lookup returns no request with identifier `id`. */
  lemma {:induction false} ConsumedNotPending(rs: seq<VerificationRequest>, id: Uuid, at: Time,
                                              userId: Uuid, kind: VerificationType, now: Time)
    ensures var found := LatestPending(ConsumedIn(rs, id, at), userId, kind, now);
            found.Some? ==> found.value.id != id
  {
    if rs != [] {
      var init := rs[..|rs| - 1];
      assert ConsumedIn(rs, id, at)[..|rs| - 1] == ConsumedIn(init, id, at);
      ConsumedNotPending(init, id, at, userId, kind, now);
    }
  }
}
