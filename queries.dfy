/** The filter documents the repository hands to the storage layer, restricted to the
    operators it uses: per field, no constraint, an exact match, or membership in a
    list; and a lower bound on the creation time. */
module Queries {
  import opened Messages

  datatype Cond<T(==)> = Any | Eq(v: T) | In(vs: seq<T>) {
    predicate Holds(x: T) {
      match this
      case Any => true
      case Eq(v) => x == v
      case In(vs) => x in vs
    }
  }

  datatype Query = Query(
    id: Cond<Id>,
    environmentId: Cond<Id>,
    subscriberId: Cond<Id>,
    channel: Cond<Channel>,
    feedId: Cond<Option<Id>>,
    seen: Cond<bool>,
    messageTemplateId: Cond<Id>,
    notificationId: Cond<Id>,
    templateId: Cond<Id>,
    email: Cond<Option<string>>,
    createdFrom: Option<int>
  )

  /** The empty filter `{}`: every record matches. */
  const Everything: Query := Query(Any, Any, Any, Any, Any, Any, Any, Any, Any, Any, None)

  /** `{_id: id}` */
  function ById(id: Id): Query {
    Everything.(id := Eq(id))
  }

  /** Whether a record satisfies every constraint of the filter. The soft-delete
      flag is not a field of any filter; see Store.Scope. */
  predicate Matches(q: Query, m: Message) {
    && q.id.Holds(m.id)
    && q.environmentId.Holds(m.environmentId)
    && q.subscriberId.Holds(m.subscriberId)
    && q.channel.Holds(m.channel)
    && q.feedId.Holds(m.feedId)
    && q.seen.Holds(m.seen)
    && q.messageTemplateId.Holds(m.messageTemplateId)
    && q.notificationId.Holds(m.notificationId)
    && q.templateId.Holds(m.templateId)
    && q.email.Holds(m.email)
    && (q.createdFrom.Some? ==> m.createdAt >= q.createdFrom.value)
  }

  /** A list of plain values as the list of present (non-null) field values, for `$in`
      against a field that may be null. */
  function Somes(xs: seq<string>): (r: seq<Option<string>>)
    ensures |r| == |xs|
    ensures forall x :: Some(x) in r <==> x in xs
    ensures None !in r
  {
    if xs == [] then [] else [Some(xs[0])] + Somes(xs[1..])
  }
}
