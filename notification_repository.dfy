/** The notification service's document store: the templates collection, and
    the users, businesses and memberships it mirrors from the auth service's
    events. A collection is a map from the upsert filter's key, so an upsert
    is a map update; a failing driver call is the `fault` input and changes
    nothing. */
module NotificationRepository {
  import opened Common
  import opened Events

  /** `dao.Template`: `id` is the document's `_id`. */
  datatype Template = Template(id: string, uid: Uuid, event: string, channel: string, locale: string,
                               subject: string, body: string, mimetype: string, scope: string)

  /** `FindTemplateParams`, also the filter document of the lookup. */
  datatype FindTemplateParams = FindTemplateParams(event: string, channel: string, locale: string,
                                                   scope: string, mimetype: string)

  /** The driver's error when a filter matches no document. */
  const NoDocuments: string := "mongo: no documents in result"

  /** A template matches the filter when all five fields are equal. */
  predicate Matches(t: Template, p: FindTemplateParams) {
    t.event == p.event && t.channel == p.channel && t.locale == p.locale && t.scope == p.scope && t.mimetype == p.mimetype
  }

  /** The first template, in collection order, that matches the filter. */
  function FirstMatch(ts: seq<Template>, p: FindTemplateParams): Option<Template> {
    if ts == [] then None
    else if Matches(ts[0], p) then Some(ts[0])
    else FirstMatch(ts[1..], p)
  }

  lemma {:induction false} FirstMatchSpec(ts: seq<Template>, p: FindTemplateParams)
    ensures FirstMatch(ts, p).None? <==> forall i :: 0 <= i < |ts| ==> !Matches(ts[i], p)
    ensures FirstMatch(ts, p).Some? ==>
              exists i :: 0 <= i < |ts| && ts[i] == FirstMatch(ts, p).value && Matches(ts[i], p)
                          && forall j :: 0 <= j < i ==> !Matches(ts[j], p)
  {
    if ts != [] && !Matches(ts[0], p) {
      FirstMatchSpec(ts[1..], p);
      if FirstMatch(ts[1..], p).Some? {
        var i :| 0 <= i < |ts[1..]| && ts[1..][i] == FirstMatch(ts[1..], p).value && Matches(ts[1..][i], p)
                 && forall j :: 0 <= j < i ==> !Matches(ts[1..][j], p);
        assert ts[i + 1] == ts[1..][i];
        assert forall j :: 1 <= j < i + 1 ==> ts[j] == ts[1..][j - 1];
      }
      assert forall i :: 1 <= i < |ts| ==> ts[i] == ts[1..][i - 1];
    } else if ts != [] {
      assert ts[0] == FirstMatch(ts, p).value;
    }
  }

  /** The map after an upsert of `v` under `k`: `k` now holds `v`, every other
      key holds what it held, and no key is removed. */
  function Upsert<K, V>(m: map<K, V>, k: K, v: V): (r: map<K, V>)
    ensures r.Keys == m.Keys + {k}
    ensures r[k] == v
    ensures forall k' :: k' in m && k' != k ==> r[k'] == m[k']
  {
    m[k := v]
  }

  /** Writing the same document twice leaves the collection as writing it once. */
  lemma UpsertIdempotent<K, V>(m: map<K, V>, k: K, v: V)
    ensures Upsert(Upsert(m, k, v), k, v) == Upsert(m, k, v)
  {
  }

  /** The key of the `business_users` upsert filter. */
  function MemberKey(m: MangageBusinessUserEventPayload): (Uuid, Uuid) {
    (m.userId, m.businessId)
  }

  class Repository {
    var templates: seq<Template>
    var users: map<Uuid, ManageUserEventPayload>
    var businesses: map<Uuid, MangageBusinessEventPayload>
    var businessUsers: map<(Uuid, Uuid), MangageBusinessUserEventPayload>

    constructor ()
      ensures templates == [] && users == map[] && businesses == map[] && businessUsers == map[]
    {
      templates, users, businesses, businessUsers := [], map[], map[], map[];
    }

    /** `CreateTemplate`: the template is inserted and returned. */
    method CreateTemplate(template: Template, fault: Option<string>) returns (r: Result<Template, string>)
      modifies this
      ensures fault.Some? ==> r == Err(fault.value) && templates == old(templates)
      ensures fault.None? ==> r == Ok(template) && templates == old(templates) + [template]
      ensures users == old(users) && businesses == old(businesses) && businessUsers == old(businessUsers)
    {
      if fault.Some? {
        return Err(fault.value);
      }
      templates := templates + [template];
      return Ok(template);
    }

    /** `FindTemplate`: the first template matching all five parameters, the
        driver's "no documents" error when none does, or the driver's error. */
    function FindTemplate(params: FindTemplateParams, fault: Option<string>): (r: Result<Template, string>)
      reads this
      ensures fault.Some? ==> r == Err(fault.value)
      ensures fault.None? && r.Ok? ==>
                exists i :: 0 <= i < |templates| && templates[i] == r.value && Matches(r.value, params)
                            && forall j :: 0 <= j < i ==> !Matches(templates[j], params)
      ensures fault.None? ==> (r == Err(NoDocuments) <==> forall i :: 0 <= i < |templates| ==> !Matches(templates[i], params))
    {
      FirstMatchSpec(templates, params);
      if fault.Some? then Err(fault.value)
      else
        match FirstMatch(templates, params)
        case None => Err(NoDocuments)
        case Some(t) => Ok(t)
    }

    /** `SyncUser`: upsert into `users` keyed by the user's id. */
    method SyncUser(user: ManageUserEventPayload, fault: Option<string>) returns (err: Option<string>)
      modifies this
      ensures err == fault
      ensures fault.None? ==> users == Upsert(old(users), user.id, user)
      ensures fault.Some? ==> users == old(users)
      ensures templates == old(templates) && businesses == old(businesses) && businessUsers == old(businessUsers)
    {
      if fault.Some? {
        return fault;
      }
      users := Upsert(users, user.id, user);
      return None;
    }

    /** `SyncBusiness`: upsert into `businesses` keyed by the business's id. */
    method SyncBusiness(business: MangageBusinessEventPayload, fault: Option<string>) returns (err: Option<string>)
      modifies this
      ensures err == fault
      ensures fault.None? ==> businesses == Upsert(old(businesses), business.id, business)
      ensures fault.Some? ==> businesses == old(businesses)
      ensures templates == old(templates) && users == old(users) && businessUsers == old(businessUsers)
    {
      if fault.Some? {
        return fault;
      }
      businesses := Upsert(businesses, business.id, business);
      return None;
    }

    /** `SyncBusinessUser`: upsert into `business_users` keyed by user and business together. */
    method SyncBusinessUser(member: MangageBusinessUserEventPayload, fault: Option<string>) returns (err: Option<string>)
      modifies this
      ensures err == fault
      ensures fault.None? ==> businessUsers == Upsert(old(businessUsers), MemberKey(member), member)
      ensures fault.Some? ==> businessUsers == old(businessUsers)
      ensures templates == old(templates) && users == old(users) && businesses == old(businesses)
    {
      if fault.Some? {
        return fault;
      }
      businessUsers := Upsert(businessUsers, MemberKey(member), member);
      return None;
    }
  }
}
