/** The event envelope shared by the services, the four event tags, and the
    notification request carried by "manage-notification". Identifiers and
    timestamps are inputs: `uuid.New()` is `Common.IdSource.New` at the call
    sites, and the clock is the caller's `now`. */
module Events {
  import opened Common

  /** The four event tags. */
  datatype Event = ManageUserEvent | ManageNotification | ManageBusinessEvent | ManageBusinessUserEvent

  /** The string of each tag; it is also the Kafka topic of the event. */
  function Tag(e: Event): (t: string)
    ensures ParseTag(t) == Some(e)
  {
    match e
    case ManageUserEvent => "manage-user"
    case ManageNotification => "manage-notification"
    case ManageBusinessEvent => "manage-business"
    case ManageBusinessUserEvent => "manage-business-user"
  }

  /** The tag a string names, if any. */
  function ParseTag(t: string): Option<Event> {
    if t == "manage-user" then Some(ManageUserEvent)
    else if t == "manage-notification" then Some(ManageNotification)
    else if t == "manage-business" then Some(ManageBusinessEvent)
    else if t == "manage-business-user" then Some(ManageBusinessUserEvent)
    else None
  }

  /** A string that names a tag is that tag's string. */
  lemma ParseTagInverse(t: string)
    ensures ParseTag(t).Some? ==> Tag(ParseTag(t).value) == t
  {
  }

  /** No two events share a tag (nor, therefore, a topic). */
  lemma TagsDistinct(e1: Event, e2: Event)
    ensures Tag(e1) == Tag(e2) <==> e1 == e2
  {
    assert ParseTag(Tag(e1)) == Some(e1) && ParseTag(Tag(e2)) == Some(e2);
  }

  /** `EventPayload[T]`. */
  datatype EventPayload<T> = EventPayload(id: Uuid, event: Event, data: T, timestamp: Time, action: string)

  /** `newEvent(event, action, data)`: `id` is the fresh identifier and `now`
      the current time; `action` is not used, so the envelope's is empty. */
  function NewEvent<T>(event: Event, action: string, data: T, id: Uuid, now: Time): (p: EventPayload<T>)
    ensures p.event == event && p.data == data
    ensures p.action == ""
    ensures p.id == id && p.timestamp == now
  {
    EventPayload(id, event, data, now, "")
  }

  /** The action argument makes no difference to the envelope. */
  lemma NewEventIgnoresAction<T>(event: Event, a1: string, a2: string, data: T, id: Uuid, now: Time)
    ensures NewEvent(event, a1, data, id, now) == NewEvent(event, a2, data, id, now)
  {
    assert NewEvent(event, a1, data, id, now).action == "" == NewEvent(event, a2, data, id, now).action;
  }

  /** Envelopes built with different identifiers are different envelopes. */
  lemma NewEventDistinctIds<T>(event: Event, action: string, data: T, id1: Uuid, id2: Uuid, now: Time)
    requires id1 != id2
    ensures NewEvent(event, action, data, id1, now) != NewEvent(event, action, data, id2, now)
  {
    assert NewEvent(event, action, data, id1, now).id == id1;
  }

  datatype ManageUserEventPayload = ManageUserEventPayload(
    id: Uuid, humanId: string, name: string, email: string, dp: Option<string>,
    emailVerified: bool, phone: string, phoneVerified: bool,
    createdAt: Time, createdBy: Uuid, updatedAt: Time, updatedBy: Option<Uuid>,
    deactivatedAt: Option<Time>, deactivatedBy: Option<Uuid>,
    deletedAt: Option<Time>, deletedBy: Option<Uuid>)

  datatype MangageBusinessEventPayload = MangageBusinessEventPayload(
    id: Uuid, name: string, description: Option<string>, logo: Option<string>,
    industry: string, primaryCurrency: string, ownerId: Uuid, currencies: seq<string>,
    createdAt: Time, createdBy: Uuid, updatedAt: Time, updatedBy: Option<Uuid>,
    deletedAt: Option<Time>, deletedBy: Option<Uuid>)

  datatype MangageBusinessUserEventPayload = MangageBusinessUserEventPayload(
    userId: Uuid, businessId: Uuid, role: string,
    createdAt: Time, createdBy: Uuid, updatedAt: Time, updatedBy: Option<Uuid>,
    deletedAt: Option<Time>, deletedBy: Option<Uuid>)

  function NewUserManageEvent(action: string, data: ManageUserEventPayload, id: Uuid, now: Time): (p: EventPayload<ManageUserEventPayload>)
    ensures p.event == ManageUserEvent && Tag(p.event) == "manage-user"
    ensures p.data == data && p.action == "" && p.id == id && p.timestamp == now
  {
    NewEvent(ManageUserEvent, action, data, id, now)
  }

  function NewBusinessManageEvent(action: string, data: MangageBusinessEventPayload, id: Uuid, now: Time): (p: EventPayload<MangageBusinessEventPayload>)
    ensures p.event == ManageBusinessEvent && Tag(p.event) == "manage-business"
    ensures p.data == data && p.action == "" && p.id == id && p.timestamp == now
  {
    NewEvent(ManageBusinessEvent, action, data, id, now)
  }

  function NewBusinessUserManageEvent(action: string, data: MangageBusinessUserEventPayload, id: Uuid, now: Time): (p: EventPayload<MangageBusinessUserEventPayload>)
    ensures p.event == ManageBusinessUserEvent && Tag(p.event) == "manage-business-user"
    ensures p.data == data && p.action == "" && p.id == id && p.timestamp == now
  {
    NewEvent(ManageBusinessUserEvent, action, data, id, now)
  }

  // ----- The notification request -----

  /** A JSON value, standing for Go's `any` in the payloads. */
  datatype Json = JNull | JBool(b: bool) | JNumber(n: int) | JString(s: string)
                | JArray(items: seq<Json>) | JObject(fields: seq<(string, Json)>)

  /** `notification.Channel` values the dispatcher acts on. */
  const EmailChannel: string := "email"
  const SmsChannel: string := "sms"
  const PushChannel: string := "push"
  const WhatsappChannel: string := "whatsapp"

  datatype NotificationChannelPayload = NotificationChannelPayload(channel: string, data: Json)

  datatype ManageNotificationEventPayload = ManageNotificationEventPayload(
    event: string, kind: string, payload: seq<NotificationChannelPayload>, tokens: Json)

  /** `NewNotificationManageEvent(data)`: tagged "manage-notification", the
      request carried as it is, and the "send" action dropped. */
  function NewNotificationManageEvent(data: ManageNotificationEventPayload, id: Uuid, now: Time): (p: EventPayload<ManageNotificationEventPayload>)
    ensures Tag(p.event) == "manage-notification"
    ensures p.data == data && p.data.payload == data.payload && p.data.tokens == data.tokens
    ensures p.action == "" && p.id == id && p.timestamp == now
  {
    NewEvent(ManageNotification, "send", data, id, now)
  }
}
