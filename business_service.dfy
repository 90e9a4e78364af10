/** The auth service's businesses: creating one with its owner membership,
    listing a user's businesses, and selecting one into a new session. */
module BusinessService {
  import opened Common
  import opened AuthStore
  import opened AuthService
  import opened Events
  import opened Kafka
  import Validation

  const BusinessNotFoundErr := ServiceError(404, "business_001", "business.not_found", "business not found")
  const InvalidBusinessIdErr := ServiceError(400, "business_002", "business.invalid_id", "invalid business id")

  /** The `oneof` list of the `Industry` field's validation tag. */
  const Industries: seq<string> :=
    ["IT", "Healthcare", "Education", "Finance", "Manufacturing", "Retail", "Travel", "Entertainment", "Other"]

  /** The tag parameter the `oneof` error reports: the list, space-separated. */
  const IndustryTag: string := "IT Healthcare Education Finance Manufacturing Retail Travel Entertainment Other"

  /** The role of the creator's membership; it carries no authorization. */
  const OwnerRole: string := "Owner"

  datatype CreateBusinessPayload = CreateBusinessPayload(name: string, description: Option<string>, logo: Option<string>,
                                                         industry: string, primaryCurrency: string, currencies: seq<string>)
  datatype CreateBusinessResponse = CreateBusinessResponse(id: Uuid, name: string, description: Option<string>,
                                                           logo: Option<string>, industry: string, primaryCurrency: string,
                                                           ownerId: Uuid, currencies: seq<string>)
  datatype ListedBusiness = ListedBusiness(name: string, id: Uuid)
  datatype SwitchBusinessPayload = SwitchBusinessPayload(userIp: string, userAgent: string)

  /** The errors of the `Industry` field's tag `required,oneof=…`. The
      validator stops at a field's first failing tag, so the empty industry
      reports `required` alone and any other unlisted one reports `oneof`. */
  function IndustryErrors(industry: string): (errs: seq<Validation.ValidationError>)
    ensures errs == [] <==> industry in Industries
    ensures |errs| == if industry in Industries then 0 else 1
    ensures industry == "" ==> errs == [Validation.ValidationError("industry", Validation.Text(""), "required", "")]
    ensures industry != "" && industry !in Industries ==>
              errs == [Validation.ValidationError("industry", Validation.Text(IndustryTag), "oneof", industry)]
  {
    if industry in Industries then []
    else if industry == "" then [Validation.ValidationError("industry", Validation.Text(""), "required", "")]
    else [Validation.ValidationError("industry", Validation.Text(IndustryTag), "oneof", industry)]
  }

  /** `MangageBusinessEventPayload(business)`: the row as the event carries it. */
  function BusinessEventData(b: Business): (d: MangageBusinessEventPayload)
    ensures d.id == b.id && d.name == b.name && d.ownerId == b.ownerId && d.industry == b.industry
    ensures d.currencies == b.currencies && d.createdBy == b.createdBy
  {
    MangageBusinessEventPayload(b.id, b.name, b.description, b.logo, b.industry, b.primaryCurrency, b.ownerId,
                                b.currencies, b.createdAt, b.createdBy, b.createdAt, None, None, None)
  }

  /** `MangageBusinessUserEventPayload(businessUser)`. */
  function MemberEventData(m: BusinessUser): (d: MangageBusinessUserEventPayload)
    ensures d.userId == m.userId && d.businessId == m.businessId && d.role == m.role
  {
    MangageBusinessUserEventPayload(m.userId, m.businessId, m.role, m.createdAt, m.createdBy, m.createdAt, None, None, None)
  }

  function BusinessParams(initiator: Uuid, p: CreateBusinessPayload): CreateBusinessParams {
    CreateBusinessParams(p.name, p.description, p.logo, p.industry, p.primaryCurrency, initiator, p.currencies, initiator)
  }

  function OwnerParams(initiator: Uuid, b: Business): CreateBusinessUserParams {
    CreateBusinessUserParams(b.ownerId, b.id, OwnerRole, initiator)
  }

  /** The business a creation makes. */
  function CreatedBusiness(t: Tables, initiator: Uuid, p: CreateBusinessPayload, now: Time): Business {
    NewBusiness(t.nextId, BusinessParams(initiator, p), now)
  }

  /** The tables after a committed creation: the business, then its owner membership. */
  function BusinessCreated(t: Tables, initiator: Uuid, p: CreateBusinessPayload, now: Time): Tables {
    var b := CreatedBusiness(t, initiator, p, now);
    t.InsertBusiness(b).InsertBusinessUser(NewBusinessUser(OwnerParams(initiator, b), now))
  }

  /** The `manage-business` event a creation emits, with envelope identifier `id`. */
  function BusinessEvent(t: Tables, initiator: Uuid, p: CreateBusinessPayload, id: Uuid, now: Time): EventPayload<MangageBusinessEventPayload> {
    NewBusinessManageEvent("create", BusinessEventData(CreatedBusiness(t, initiator, p, now)), id, now)
  }

  /** The `manage-business-user` event a creation emits, with envelope identifier `id`. */
  function MemberEvent(t: Tables, initiator: Uuid, p: CreateBusinessPayload, id: Uuid, now: Time): EventPayload<MangageBusinessUserEventPayload> {
    NewBusinessUserManageEvent("create", MemberEventData(NewBusinessUser(OwnerParams(initiator, CreatedBusiness(t, initiator, p, now)), now)), id, now)
  }

  /** Every validation error `Create` reports, in the payload's field order:
      those of `Name`, `Description` and `Logo` (`leading`), then the
      industry's, then those of `PrimaryCurrency` and `Currencies` (`trailing`). */
  function CreateErrors(p: CreateBusinessPayload, leading: seq<Validation.ValidationError>,
                        trailing: seq<Validation.ValidationError>): (errs: seq<Validation.ValidationError>)
    ensures errs == [] <==> leading == [] && p.industry in Industries && trailing == []
    ensures |errs| == |leading| + |trailing| + (if p.industry in Industries then 0 else 1)
    ensures errs[..|leading|] == leading && errs[|errs| - |trailing|..] == trailing
    ensures p.industry !in Industries ==> errs[|leading|] == IndustryErrors(p.industry)[0]
    ensures p.industry in Industries ==> errs == leading + trailing
  {
    leading + IndustryErrors(p.industry) + trailing
  }

  /** Both rows were staged. */
  predicate Staged(faults: set<Step>) {
    StartTx !in faults && CreateBusiness !in faults && CreateBusinessUser !in faults
  }

  /** `Create`: validation first, then the business and its owner membership
      in one transaction, both events emitted BEFORE the commit, and the
      commit last. A failed emission or commit is `InternalError` and rolls
      the rows back, but an event already written stays written. */
  method Create(store: Repository, kafka: EventManager, ids: IdSource, initiator: Uuid, p: CreateBusinessPayload,
                leading: seq<Validation.ValidationError>, trailing: seq<Validation.ValidationError>,
                marshalBusiness: EventPayload<MangageBusinessEventPayload> -> Result<seq<Byte>, string>,
                marshalMember: EventPayload<MangageBusinessUserEventPayload> -> Result<seq<Byte>, string>,
                writeErrors: (Option<string>, Option<string>), faults: set<Step>, now: Time)
    returns (r: Result<CreateBusinessResponse, Failure>)
    requires store.Valid() && ids.Valid()
    modifies store, kafka, ids
    ensures store.Valid() && ids.Valid()
    ensures r.Err? ==> store.Snapshot() == old(store.Snapshot())
    ensures CreateErrors(p, leading, trailing) != [] ==>
              r == Err(Invalid(CreateErrors(p, leading, trailing))) && kafka.written == old(kafka.written)
    ensures CreateErrors(p, leading, trailing) == [] ==>
              CreatedAs(old(store.Snapshot()), store.Snapshot(), old(kafka.written), kafka.written, old(ids.next), initiator, p,
                        marshalBusiness, marshalMember, writeErrors, faults, now, r)
  {
    var errs := CreateErrors(p, leading, trailing);
    if errs != [] {
      return Err(Invalid(errs));
    }
    r := CreateValidated(store, kafka, ids, initiator, p, marshalBusiness, marshalMember, writeErrors, faults, now);
  }

  /** The outcome of a validated `Create` from tables `t` and event log `log`
      to tables `t'` and log `log'`, with event identifiers from `next` on:
      each failure in order, and the events written before the commit. */
  ghost predicate CreatedAs(t: Tables, t': Tables, log: seq<Message>, log': seq<Message>, next: Uuid,
                            initiator: Uuid, p: CreateBusinessPayload,
                            marshalBusiness: EventPayload<MangageBusinessEventPayload> -> Result<seq<Byte>, string>,
                            marshalMember: EventPayload<MangageBusinessUserEventPayload> -> Result<seq<Byte>, string>,
                            writeErrors: (Option<string>, Option<string>), faults: set<Step>, now: Time,
                            r: Result<CreateBusinessResponse, Failure>)
  {
    && (StartTx in faults ==> r == Err(Driver(StartTx)))
    && (StartTx !in faults && CreateBusiness in faults ==> r == Err(Driver(CreateBusiness)))
    && (StartTx !in faults && CreateBusiness !in faults && CreateBusinessUser in faults ==> r == Err(Driver(CreateBusinessUser)))
    && (!Staged(faults) ==> log' == log)
    && (Staged(faults) ==>
          var e1 := BusinessEvent(t, initiator, p, next, now);
          var e2 := MemberEvent(t, initiator, p, next + 1, now);
          var first := marshalBusiness(e1).Ok? && writeErrors.0.None?;
          var second := marshalMember(e2).Ok? && writeErrors.1.None?;
          && (!first ==> r == Err(Service(InternalError)) && log' == log)
          && (first ==>
                && log' == log + [Message("manage-business", marshalBusiness(e1).value)]
                           + (if second then [Message("manage-business-user", marshalMember(e2).value)] else [])
                && (!second || Commit in faults ==> r == Err(Service(InternalError)))
                && (second && Commit !in faults ==>
                      var b := CreatedBusiness(t, initiator, p, now);
                      && t' == BusinessCreated(t, initiator, p, now)
                      && r == Ok(CreateBusinessResponse(b.id, p.name, p.description, p.logo, p.industry,
                                                        p.primaryCurrency, initiator, p.currencies)))))
  }

  /** `Create` after validation, from `StartTransaction` to `Commit`. */
  method CreateValidated(store: Repository, kafka: EventManager, ids: IdSource, initiator: Uuid, p: CreateBusinessPayload,
                         marshalBusiness: EventPayload<MangageBusinessEventPayload> -> Result<seq<Byte>, string>,
                         marshalMember: EventPayload<MangageBusinessUserEventPayload> -> Result<seq<Byte>, string>,
                         writeErrors: (Option<string>, Option<string>), faults: set<Step>, now: Time)
    returns (r: Result<CreateBusinessResponse, Failure>)
    requires store.Valid() && ids.Valid()
    modifies store, kafka, ids
    ensures store.Valid() && ids.Valid()
    ensures r.Err? ==> store.Snapshot() == old(store.Snapshot())
    ensures CreatedAs(old(store.Snapshot()), store.Snapshot(), old(kafka.written), kafka.written, old(ids.next), initiator, p,
                      marshalBusiness, marshalMember, writeErrors, faults, now, r)
  {
    if StartTx in faults {
      return Err(Driver(StartTx));
    }
    var tx := store.StartTransaction();
    var rows := StageBusiness(tx, initiator, p, faults, now);
    if rows.Err? {
      return Err(rows.error);
    }
    ghost var staged := tx.Snapshot();
    var (business, businessUser) := rows.value;
    var emitted := EmitCreation(kafka, ids, business, businessUser, marshalBusiness, marshalMember, writeErrors, now);
    if !emitted || Commit in faults {
      return Err(Service(InternalError));
    }
    assert tx.Snapshot() == staged;
    store.Commit(tx);
    return Ok(CreateBusinessResponse(business.id, business.name, business.description, business.logo, business.industry,
                                     business.primaryCurrency, business.ownerId, business.currencies));
  }

  /** The two inserts `Create` makes through the transaction `tx`. */
  method StageBusiness(tx: Repository, initiator: Uuid, p: CreateBusinessPayload, faults: set<Step>, now: Time)
    returns (r: Result<(Business, BusinessUser), Failure>)
    requires tx.Valid()
    modifies tx
    ensures tx.Valid()
    ensures CreateBusiness in faults ==> r == Err(Driver(CreateBusiness))
    ensures CreateBusiness !in faults && CreateBusinessUser in faults ==> r == Err(Driver(CreateBusinessUser))
    ensures r.Ok? <==> CreateBusiness !in faults && CreateBusinessUser !in faults
    ensures r.Ok? ==>
              var b := CreatedBusiness(old(tx.Snapshot()), initiator, p, now);
              && r.value == (b, NewBusinessUser(OwnerParams(initiator, b), now))
              && tx.Snapshot() == BusinessCreated(old(tx.Snapshot()), initiator, p, now)
  {
    if CreateBusiness in faults {
      return Err(Driver(CreateBusiness));
    }
    var business := tx.CreateBusiness(BusinessParams(initiator, p), now);
    if CreateBusinessUser in faults {
      return Err(Driver(CreateBusinessUser));
    }
    var businessUser := tx.CreateBusinessUser(OwnerParams(initiator, business), now);
    return Ok((business, businessUser));
  }

  /** The two emissions of `Create`, business first; the second is not
      attempted when the first fails. */
  method EmitCreation(kafka: EventManager, ids: IdSource, b: Business, m: BusinessUser,
                      marshalBusiness: EventPayload<MangageBusinessEventPayload> -> Result<seq<Byte>, string>,
                      marshalMember: EventPayload<MangageBusinessUserEventPayload> -> Result<seq<Byte>, string>,
                      writeErrors: (Option<string>, Option<string>), now: Time)
    returns (emitted: bool)
    requires ids.Valid()
    modifies kafka, ids
    ensures ids.Valid()
    ensures var e1 := NewBusinessManageEvent("create", BusinessEventData(b), old(ids.next), now);
            var e2 := NewBusinessUserManageEvent("create", MemberEventData(m), old(ids.next) + 1, now);
            var first := marshalBusiness(e1).Ok? && writeErrors.0.None?;
            var second := marshalMember(e2).Ok? && writeErrors.1.None?;
            && (emitted <==> first && second)
            && (!first ==> kafka.written == old(kafka.written))
            && (first ==> kafka.written == old(kafka.written) + [Message("manage-business", marshalBusiness(e1).value)]
                                           + (if second then [Message("manage-business-user", marshalMember(e2).value)] else []))
  {
    var id1 := ids.New();
    var err := kafka.EmitManageBusinessEvent(NewBusinessManageEvent("create", BusinessEventData(b), id1, now),
                                             marshalBusiness, writeErrors.0);
    if err.Some? {
      return false;
    }
    var id2 := ids.New();
    err := kafka.EmitManageBusinessUserEvent(NewBusinessUserManageEvent("create", MemberEventData(m), id2, now),
                                             marshalMember, writeErrors.1);
    return err.None?;
  }

  /** The listing of a run of businesses: name and identifier, in order. */
  function Listing(bs: seq<Business>): (l: seq<ListedBusiness>)
    ensures |l| == |bs|
  {
    if bs == [] then [] else Listing(bs[..|bs| - 1]) + [ListedBusiness(bs[|bs| - 1].name, bs[|bs| - 1].id)]
  }

  /** `List`: one entry per membership row of the initiator, in repository
      order; a failed lookup returns the empty list with the error. */
  method List(store: Repository, initiator: Uuid, faults: set<Step>)
    returns (listed: seq<ListedBusiness>, err: Option<Failure>)
    ensures FindBusinesses in faults ==> listed == [] && err == Some(Driver(FindBusinesses))
    ensures FindBusinesses !in faults ==>
              err.None? && listed == Listing(store.Snapshot().FindBusinessesByUserId(initiator))
  {
    listed := [];
    if FindBusinesses in faults {
      return [], Some(Driver(FindBusinesses));
    }
    var businesses := store.Snapshot().FindBusinessesByUserId(initiator);
    var i := 0;
    while i < |businesses|
      invariant 0 <= i <= |businesses|
      invariant listed == Listing(businesses[..i])
    {
      assert businesses[..i + 1][..i] == businesses[..i];
      listed := listed + [ListedBusiness(businesses[i].name, businesses[i].id)];
      i := i + 1;
    }
    assert businesses[..i] == businesses;
    return listed, None;
  }

  /** Whether one of the initiator's businesses has the requested identifier. */
  predicate HasBusiness(bs: seq<Business>, businessId: Uuid) {
    exists i :: 0 <= i < |bs| && bs[i].id == businessId
  }

  function SelectSession(user: User, p: SwitchBusinessPayload, humanId: string, refreshToken: string, now: Time): CreateSessionParams {
    CreateSessionParams(humanId, user.id, p.userIp, p.userAgent, refreshToken, now + SessionExpiry, user.id)
  }

  /** `Select`: the business must be one of the initiator's; then a token
      naming the business and a session valid for thirty days. Unlike
      `Login`, a failure to store the session is reported. */
  method Select(store: Repository, initiator: Uuid, businessId: Uuid, p: SwitchBusinessPayload,
                sign: JwtPayload -> Result<AccessToken, string>, refreshToken: Result<string, string>,
                humanId: string, faults: set<Step>, now: Time)
    returns (r: Result<LoginResponse, Failure>)
    requires store.Valid()
    modifies store
    ensures store.Valid()
    ensures r.Err? ==> store.Snapshot() == old(store.Snapshot())
    ensures FindBusinesses in faults ==> r == Err(Service(InternalError))
    ensures FindBusinesses !in faults && !HasBusiness(old(store.Snapshot().FindBusinessesByUserId(initiator)), businessId) ==>
              r == Err(Service(BusinessNotFoundErr))
    ensures (FindBusinesses !in faults && HasBusiness(old(store.Snapshot().FindBusinessesByUserId(initiator)), businessId)
             && r.Err?) ==> r == Err(Service(InternalError))
    ensures r.Ok? ==>
              && FindBusinesses !in faults && HasBusiness(old(store.Snapshot().FindBusinessesByUserId(initiator)), businessId)
              && old(store.Snapshot().FindUserById(initiator)).Some?
              && var user := old(store.Snapshot().FindUserById(initiator)).value;
              && var signed := sign(JwtPayload(user.id, user.email, user.name, DpOf(user), Some(businessId)));
              && signed.Ok? && refreshToken.Ok? && CreateSession !in faults
              && r.value == LoginResponse(signed.value.token, refreshToken.value, signed.value.lifetime, now + SessionExpiry)
              && store.Snapshot() == old(store.Snapshot()).InsertSession(
                   NewSession(old(store.nextId), SelectSession(user, p, humanId, refreshToken.value, now), now))
    ensures r.Ok? <==>
              && FindBusinesses !in faults && HasBusiness(old(store.Snapshot().FindBusinessesByUserId(initiator)), businessId)
              && FindUserById !in faults && old(store.Snapshot().FindUserById(initiator)).Some?
              && var user := old(store.Snapshot().FindUserById(initiator)).value;
              && sign(JwtPayload(user.id, user.email, user.name, DpOf(user), Some(businessId))).Ok?
              && refreshToken.Ok? && CreateSession !in faults
  {
    if FindBusinesses in faults {
      return Err(Service(InternalError));
    }
    var businesses := store.Snapshot().FindBusinessesByUserId(initiator);
    if !HasBusiness(businesses, businessId) {
      return Err(Service(BusinessNotFoundErr));
    }
    var user := store.Snapshot().FindUserById(initiator);
    if FindUserById in faults || user.None? {
      return Err(Service(InternalError));
    }
    var accessToken := sign(JwtPayload(user.value.id, user.value.email, user.value.name, DpOf(user.value), Some(businessId)));
    if accessToken.Err? {
      return Err(Service(InternalError));
    }
    if refreshToken.Err? {
      return Err(Service(InternalError));
    }
    if CreateSession in faults {
      return Err(Service(InternalError));
    }
    store.CreateSession(SelectSession(user.value, p, humanId, refreshToken.value, now), now);
    return Ok(LoginResponse(accessToken.value.token, refreshToken.value, accessToken.value.lifetime, now + SessionExpiry));
  }

  // ----- Properties -----

  /** A creation adds one business owned and created by the initiator and one
      membership of the initiator in it with the role "Owner"; users,
      passwords, codes and sessions stay as they were. */
  lemma CreatedRows(t: Tables, initiator: Uuid, p: CreateBusinessPayload, now: Time)
    requires t.Valid()
    ensures var r := BusinessCreated(t, initiator, p, now);
            var b := CreatedBusiness(t, initiator, p, now);
            && r.Valid()
            && r.businesses == t.businesses + [b]
            && b.ownerId == initiator && b.createdBy == initiator && b.name == p.name && b.industry == p.industry
            && (forall i :: 0 <= i < |t.businesses| ==> t.businesses[i].id != b.id)
            && r.businessUsers == t.businessUsers + [BusinessUser(initiator, b.id, OwnerRole, now, initiator)]
            && r.users == t.users && r.passwords == t.passwords && r.requests == t.requests && r.sessions == t.sessions
  {
    FreshId(t);
    var b := CreatedBusiness(t, initiator, p, now);
    assert BusinessIds(t.businesses + [b]) == BusinessIds(t.businesses) + [b.id];
  }

  /** Appending a membership appends its business to the member's list. */
  lemma {:induction false} BusinessesOfAppend(ms: seq<BusinessUser>, bs: seq<Business>, m: BusinessUser)
    ensures BusinessesOf(ms + [m], bs, m.userId) ==
              BusinessesOf(ms, bs, m.userId) +
              (if BusinessWithId(bs, m.businessId).Some? then [BusinessWithId(bs, m.businessId).value] else [])
  {
    if ms == [] {
      assert [m][1..] == [];
    } else {
      assert (ms + [m])[1..] == ms[1..] + [m];
      BusinessesOfAppend(ms[1..], bs, m);
    }
  }

  /** The business lookup finds the row just appended when no older row has its identifier. */
  lemma {:induction false} BusinessWithIdAppend(bs: seq<Business>, b: Business)
    requires forall i :: 0 <= i < |bs| ==> bs[i].id != b.id
    ensures BusinessWithId(bs + [b], b.id) == Some(b)
  {
    if bs != [] {
      assert (bs + [b])[1..] == bs[1..] + [b];
      BusinessWithIdAppend(bs[1..], b);
    }
  }

  /** Appending a business row leaves every earlier successful lookup as it was. */
  lemma {:induction false} BusinessWithIdKept(bs: seq<Business>, b: Business, id: Uuid)
    requires BusinessWithId(bs, id).Some?
    ensures BusinessWithId(bs + [b], id) == BusinessWithId(bs, id)
  {
    if bs[0].id != id {
      assert (bs + [b])[1..] == bs[1..] + [b];
      BusinessWithIdKept(bs[1..], b, id);
    }
  }

  /** After a creation the initiator's business list ends with the new
      business, so `List` shows it last and `Select` accepts it. */
  lemma CreatorSeesBusiness(t: Tables, initiator: Uuid, p: CreateBusinessPayload, now: Time)
    requires t.Valid()
    ensures var bs := BusinessCreated(t, initiator, p, now).FindBusinessesByUserId(initiator);
            && |bs| > 0 && bs[|bs| - 1] == CreatedBusiness(t, initiator, p, now)
            && HasBusiness(bs, CreatedBusiness(t, initiator, p, now).id)
  {
    CreatedRows(t, initiator, p, now);
    var b := CreatedBusiness(t, initiator, p, now);
    var m := BusinessUser(initiator, b.id, OwnerRole, now, initiator);
    BusinessWithIdAppend(t.businesses, b);
    BusinessesOfAppend(t.businessUsers, t.businesses + [b], m);
    var bs := BusinessCreated(t, initiator, p, now).FindBusinessesByUserId(initiator);
    assert bs[|bs| - 1] == b;
  }

  /** The listing has one entry per business, with its name and identifier, in order. */
  lemma {:induction false} ListingEntries(bs: seq<Business>)
    ensures forall i :: 0 <= i < |bs| ==> Listing(bs)[i] == ListedBusiness(bs[i].name, bs[i].id)
  {
    if bs != [] {
      var init := bs[..|bs| - 1];
      ListingEntries(init);
      assert forall i :: 0 <= i < |init| ==> init[i] == bs[i];
    }
  }
}
