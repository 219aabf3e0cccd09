/** The stored entities of the notification-message store: message records and
    the rows of the feed collection that feed identifiers are resolved against. */
module Messages {

  datatype Option<+T> = None | Some(value: T)

  /** Identifiers (object ids, environment ids, subscriber ids) are compared as strings. */
  type Id = string

  /** The delivery medium of a message. */
  datatype Channel = InApp | Email | Sms | Chat | Push

  /** Delivery state: `Pending` when created, then whatever a dispatch attempt reports. */
  datatype DeliveryStatus = Pending | Sent | Error | Warning

  /** The provider's response, stored verbatim and never interpreted. */
  type Payload = map<string, string>

  /** One stored notification message. `feedId == None` is a null (or missing) feed;
      `createdAt` is a timestamp in milliseconds; `deleted` is the soft-delete flag. */
  datatype Message = Message(
    id: Id,
    environmentId: Id,
    subscriberId: Id,
    notificationId: Id,
    templateId: Id,
    messageTemplateId: Id,
    channel: Channel,
    feedId: Option<Id>,
    email: Option<string>,
    seen: bool,
    lastSeenDate: Option<int>,
    status: DeliveryStatus,
    providerPayload: Payload,
    errorId: Option<string>,
    errorText: Option<string>,
    createdAt: int,
    deleted: bool
  )

  /** A row of the feed collection: a human-facing identifier, unique per environment,
      and the internal id messages refer to. */
  datatype Feed = Feed(environmentId: Id, identifier: string, id: Id)

  /** Message ids are unique in the collection. */
  ghost predicate UniqueIds(ms: seq<Message>) {
    forall i, j :: 0 <= i < j < |ms| ==> ms[i].id != ms[j].id
  }
}
