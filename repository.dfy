/** The message repository: the notification-message collection and the feed
    collection it resolves feed identifiers against, with the repository's reads,
    updates and soft delete. */
module MessageRepo {
  import opened Messages
  import opened Queries
  import opened Store
  import opened MessageFilter
  import opened ActivityStats

  /** `{ limit, skip? }`; a missing skip is 0 and a limit of 0 means no limit. */
  datatype PageOptions = PageOptions(limit: nat, skip: nat)

  /** getFeed's criteria; each list is optional and `subscriberId` is a string that
      constrains only when non-empty. */
  datatype FeedViewQuery = FeedViewQuery(
    channels: Option<seq<Channel>>,
    templates: Option<seq<Id>>,
    emails: Option<seq<string>>,
    subscriberId: Option<Id>)

  /** getFeed's result. */
  datatype FeedView = FeedView(totalCount: nat, data: seq<Message>)

  /** The exception `delete` raises. */
  datatype DalException = CouldNotFindMessage(id: Id) {
    function Text(): string {
      "Could not find a message with id " + id
    }
  }

  datatype Outcome = Ok | Throws(error: DalException)

  /** getFeed's filter: the environment always; each criterion that is present (a
      list, even empty, is truthy; an empty subscriber id is falsy). */
  function FeedViewFilter(env: Id, q: FeedViewQuery): (r: Query)
    ensures r.environmentId == Eq(env)
  {
    var base := Everything.(environmentId := Eq(env));
    var withChannels := if q.channels.Some? then base.(channel := In(q.channels.value)) else base;
    var withTemplates := if q.templates.Some? then withChannels.(templateId := In(q.templates.value)) else withChannels;
    var withEmails := if q.emails.Some? then withTemplates.(email := In(Somes(q.emails.value))) else withTemplates;
    if q.subscriberId.Some? && q.subscriberId.value != "" then withEmails.(subscriberId := Eq(q.subscriberId.value))
    else withEmails
  }

  /** A message is in the feed view exactly when it is in the environment and meets
      every criterion that was given. */
  lemma FeedViewFilterMatches(env: Id, q: FeedViewQuery, m: Message)
    ensures Matches(FeedViewFilter(env, q), m) <==>
      && m.environmentId == env
      && (q.channels.Some? ==> m.channel in q.channels.value)
      && (q.templates.Some? ==> m.templateId in q.templates.value)
      && (q.emails.Some? ==> m.email.Some? && m.email.value in q.emails.value)
      && (q.subscriberId.Some? && q.subscriberId.value != "" ==> m.subscriberId == q.subscriberId.value)
  {
    if q.emails.Some? {
      if m.email.Some? {
        assert m.email == Some(m.email.value);
      } else {
        assert m.email !in Somes(q.emails.value);
      }
    }
  }

  /** getActivityGraphStats' `$match`: created at or after `since`, in the environment. */
  function ActivityFilter(since: int, env: Id): (r: Query)
    ensures forall m :: Matches(r, m) <==> m.createdAt >= since && m.environmentId == env
  {
    Everything.(environmentId := Eq(env), createdFrom := Some(since))
  }

  /** getBulkMessagesByNotificationIds' filter. */
  function NotificationsFilter(env: Id, notificationIds: seq<Id>): (r: Query)
    ensures forall m :: Matches(r, m) <==> m.environmentId == env && m.notificationId in notificationIds
  {
    Everything.(environmentId := Eq(env), notificationId := In(notificationIds))
  }

  /** changeSeenStatus on a collection: the records of the subscriber with the id get
      the seen flag and the time it was set; nothing else changes. */
  function SeenChanged(ms: seq<Message>, hiding: bool, sub: Id, id: Id, isSeen: bool, now: int): (r: seq<Message>)
    ensures |r| == |ms|
    ensures forall i :: 0 <= i < |ms| ==>
      r[i] == if InScope(Live(hiding), ms[i]) && ms[i].subscriberId == sub && ms[i].id == id
              then ms[i].(seen := isSeen, lastSeenDate := Some(now))
              else ms[i]
  {
    UpdateMany(ms, Live(hiding), Everything.(subscriberId := Eq(sub), id := Eq(id)), SetSeen(isSeen, now))
  }

  /** updateFeedByMessageTemplateId on a collection: every record made from the
      message template gets the feed; nothing else changes. */
  function FeedReassigned(ms: seq<Message>, hiding: bool, messageTemplateId: Id, feedId: Id): (r: seq<Message>)
    ensures |r| == |ms|
    ensures forall i :: 0 <= i < |ms| ==>
      r[i] == if InScope(Live(hiding), ms[i]) && ms[i].messageTemplateId == messageTemplateId
              then ms[i].(feedId := Some(feedId))
              else ms[i]
  {
    UpdateMany(ms, Live(hiding), Everything.(messageTemplateId := Eq(messageTemplateId)), SetFeed(feedId))
  }

  /** updateMessageStatus on a collection: the record with the id gets the status,
      the error fields and the provider payload, whatever its status was. */
  function OutcomeRecorded(ms: seq<Message>, hiding: bool, id: Id, status: DeliveryStatus, payload: Payload,
                           errorId: Option<string>, errorText: Option<string>): (r: seq<Message>)
    ensures |r| == |ms|
    ensures forall i :: 0 <= i < |ms| ==>
      r[i] == if InScope(Live(hiding), ms[i]) && ms[i].id == id
              then ms[i].(status := status, errorId := errorId, errorText := errorText, providerPayload := payload)
              else ms[i]
  {
    UpdateMany(ms, Live(hiding), ById(id), SetOutcome(status, payload, errorId, errorText))
  }

  /** The soft-delete plugin's `delete({_id, _environmentId})` on a collection. */
  function SoftDeleted(ms: seq<Message>, hiding: bool, id: Id, env: Id): (r: seq<Message>)
    ensures |r| == |ms|
    ensures forall i :: 0 <= i < |ms| ==>
      r[i] == if InScope(Live(hiding), ms[i]) && ms[i].id == id && ms[i].environmentId == env
              then ms[i].(deleted := true)
              else ms[i]
  {
    UpdateMany(ms, Live(hiding), ById(id).(environmentId := Eq(env)), MarkDeleted)
  }

  class MessageRepository {
    /** The message collection, in stored order. */
    var messages: seq<Message>
    /** The feed collection, read when resolving feed identifiers. */
    var feeds: seq<Feed>
    /** Whether the soft-delete plugin hides deleted records from the normal paths. */
    const hideDeleted: bool

    ghost predicate Valid()
      reads this
    {
      UniqueIds(messages)
    }

    constructor (messages: seq<Message>, feeds: seq<Feed>, hideDeleted: bool)
      requires UniqueIds(messages)
      ensures Valid()
      ensures this.messages == messages && this.feeds == feeds && this.hideDeleted == hideDeleted
    {
      this.messages := messages;
      this.feeds := feeds;
      this.hideDeleted := hideDeleted;
    }

    /** A page of the subscriber's messages on the channel, newest first, drawn from
        exactly the records getTotalCount counts. */
    method FindBySubscriberChannel(env: Id, sub: Id, ch: Channel, q: MessageQuery, options: PageOptions)
      returns (page: seq<Message>)
      ensures page == Page(SortNewestFirst(Find(messages, Live(hideDeleted), FilterFor(feeds, env, sub, ch, q))),
                           options.skip, options.limit)
      ensures NewestFirst(page)
      ensures forall m :: m in page ==>
        m in messages && m.environmentId == env && m.subscriberId == sub && m.channel == ch
      ensures |page| <= Count(messages, Live(hideDeleted), FilterFor(feeds, env, sub, ch, q))
      ensures options.limit > 0 ==> |page| <= options.limit
    {
      var matching := Find(messages, Live(hideDeleted), FilterFor(feeds, env, sub, ch, q));
      page := Page(SortNewestFirst(matching), options.skip, options.limit);
      PageOfSorted(matching, options.skip, options.limit);
    }

    /** The number of the subscriber's messages on the channel that match. */
    method GetTotalCount(env: Id, sub: Id, ch: Channel, q: MessageQuery) returns (count: nat)
      ensures count == Count(messages, Live(hideDeleted), FilterFor(feeds, env, sub, ch, q))
      ensures q.seen.None? ==>
        count == Count(messages, Live(hideDeleted), FilterFor(feeds, env, sub, ch, MessageQuery(q.feedId, Some(false))))
               + Count(messages, Live(hideDeleted), FilterFor(feeds, env, sub, ch, MessageQuery(q.feedId, Some(true))))
    {
      count := Count(messages, Live(hideDeleted), FilterFor(feeds, env, sub, ch, q));
      if q.seen.None? {
        SeenSplitsCount(messages, feeds, hideDeleted, env, sub, ch, q.feedId);
      }
    }

    /** The number of unseen messages: the total count with `seen` forced to false,
        whatever `seen` the caller passed. */
    method GetUnseenCount(env: Id, sub: Id, ch: Channel, q: MessageQuery) returns (count: nat)
      ensures count == Count(messages, Live(hideDeleted), FilterFor(feeds, env, sub, ch, MessageQuery(q.feedId, Some(false))))
      ensures count + Count(messages, Live(hideDeleted), FilterFor(feeds, env, sub, ch, MessageQuery(q.feedId, Some(true))))
           == Count(messages, Live(hideDeleted), FilterFor(feeds, env, sub, ch, MessageQuery(q.feedId, None)))
      ensures forall m :: m in Find(messages, Live(hideDeleted), FilterFor(feeds, env, sub, ch, MessageQuery(q.feedId, Some(false)))) ==> !m.seen
    {
      count := Count(messages, Live(hideDeleted), FilterFor(feeds, env, sub, ch, MessageQuery(q.feedId, Some(false))));
      SeenSplitsCount(messages, feeds, hideDeleted, env, sub, ch, q.feedId);
    }

    /** Sets the seen flag and the time it was set on the subscriber's message with
        the id; every other record and every other field stays as it was. */
    method ChangeSeenStatus(sub: Id, id: Id, isSeen: bool, now: int)
      requires Valid()
      modifies this
      ensures Valid() && feeds == old(feeds)
      ensures messages == SeenChanged(old(messages), hideDeleted, sub, id, isSeen, now)
    {
      UpdateManyKeepsIds(messages, Live(hideDeleted), Everything.(subscriberId := Eq(sub), id := Eq(id)), SetSeen(isSeen, now));
      messages := SeenChanged(messages, hideDeleted, sub, id, isSeen, now);
    }

    /** Moves every message of the message template to the feed; no environment scope. */
    method UpdateFeedByMessageTemplateId(messageTemplateId: Id, feedId: Id)
      requires Valid()
      modifies this
      ensures Valid() && feeds == old(feeds)
      ensures messages == FeedReassigned(old(messages), hideDeleted, messageTemplateId, feedId)
    {
      UpdateManyKeepsIds(messages, Live(hideDeleted), Everything.(messageTemplateId := Eq(messageTemplateId)), SetFeed(feedId));
      messages := FeedReassigned(messages, hideDeleted, messageTemplateId, feedId);
    }

    /** All messages of the environment that belong to one of the notifications, in
        stored order. */
    method GetBulkMessagesByNotificationIds(env: Id, notificationIds: seq<Id>) returns (found: seq<Message>)
      ensures found == Find(messages, Live(hideDeleted), NotificationsFilter(env, notificationIds))
      ensures forall m :: m in found <==>
        m in messages && InScope(Live(hideDeleted), m) && m.environmentId == env && m.notificationId in notificationIds
    {
      found := Find(messages, Live(hideDeleted), NotificationsFilter(env, notificationIds));
    }

    /** Records a dispatch outcome on the message with the id. The status must be one
        a dispatch reports; the previous status is not consulted. */
    method UpdateMessageStatus(id: Id, status: DeliveryStatus, payload: Payload,
                               errorId: Option<string>, errorText: Option<string>)
      requires Valid()
      requires status != Pending
      modifies this
      ensures Valid() && feeds == old(feeds)
      ensures messages == OutcomeRecorded(old(messages), hideDeleted, id, status, payload, errorId, errorText)
    {
      UpdateManyKeepsIds(messages, Live(hideDeleted), ById(id), SetOutcome(status, payload, errorId, errorText));
      messages := OutcomeRecorded(messages, hideDeleted, id, status, payload, errorId, errorText);
    }

    /** One bucket per day on which a message of the environment was created at or
        after `since`, newest day first, each holding that day's count. */
    method GetActivityGraphStats(since: int, env: Id) returns (stats: seq<DayCount>)
      ensures NewestDayFirst(stats) && NoEmptyBucket(stats)
      ensures forall d :: CountFor(stats, d) == CreatedOn(Find(messages, Live(hideDeleted), ActivityFilter(since, env)), d)
      ensures Total(stats) == Count(messages, Live(hideDeleted), ActivityFilter(since, env))
    {
      stats := Tally(Find(messages, Live(hideDeleted), ActivityFilter(since, env)));
    }

    /** A page of the environment's messages meeting the criteria, newest first, with
        the number of all such messages counted from the same filter. */
    method GetFeed(env: Id, q: FeedViewQuery, skip: nat, limit: nat) returns (view: FeedView)
      ensures view.totalCount == Count(messages, Live(hideDeleted), FeedViewFilter(env, q))
      ensures view.data == Page(SortNewestFirst(Find(messages, Live(hideDeleted), FeedViewFilter(env, q))), skip, limit)
      ensures NewestFirst(view.data)
      ensures forall m :: m in view.data ==> m in messages && m.environmentId == env
      ensures |view.data| <= view.totalCount
      ensures skip == 0 && limit == 0 ==> |view.data| == view.totalCount
    {
      var matching := Find(messages, Live(hideDeleted), FeedViewFilter(env, q));
      PageOfSorted(matching, skip, limit);
      view := FeedView(|matching|, Page(SortNewestFirst(matching), skip, limit));
    }

    /** Soft-deletes the message with the id, scoped to its own environment, or throws
        and changes nothing when there is none. */
    method Delete(id: Id) returns (outcome: Outcome)
      requires Valid()
      modifies this
      ensures Valid() && feeds == old(feeds)
      ensures outcome.Throws? <==> FindOne(old(messages), Live(hideDeleted), ById(id)).None?
      ensures outcome.Throws? ==> outcome.error == CouldNotFindMessage(id) && messages == old(messages)
      ensures outcome.Throws? ==> outcome.error.Text() == "Could not find a message with id " + id
      ensures outcome.Ok? ==>
        messages == SoftDeleted(old(messages), hideDeleted, id,
                                FindOne(old(messages), Live(hideDeleted), ById(id)).value.environmentId)
    {
      var found := FindOne(messages, Live(hideDeleted), ById(id));
      if found.None? {
        return Throws(CouldNotFindMessage(id));
      }
      UpdateManyKeepsIds(messages, Live(hideDeleted), ById(id).(environmentId := Eq(found.value.environmentId)), MarkDeleted);
      messages := SoftDeleted(messages, hideDeleted, id, found.value.environmentId);
      outcome := Ok;
    }

    /** The soft-deleted records matching the filter. */
    method FindDeleted(q: Query) returns (found: seq<Message>)
      ensures found == Find(messages, DeletedOnly, q)
      ensures forall m :: m in found <==> m in messages && m.deleted && Matches(q, m)
    {
      found := Find(messages, DeletedOnly, q);
    }
  }

  /** Counting with a seen constraint splits the count without one: every record
      has seen either false or true. */
  lemma {:induction false} CountSplitsBySeen(ms: seq<Message>, s: Scope, q: Query)
    requires q.seen == Any
    ensures Count(ms, s, q) == Count(ms, s, q.(seen := Eq(false))) + Count(ms, s, q.(seen := Eq(true)))
  {
    if ms != [] {
      CountSplitsBySeen(ms[1..], s, q);
      MatchesWithSeen(q, ms[0], false);
      MatchesWithSeen(q, ms[0], true);
    }
  }

  /** Adding a seen constraint to a filter without one. */
  lemma MatchesWithSeen(q: Query, m: Message, b: bool)
    requires q.seen == Any
    ensures Matches(q.(seen := Eq(b)), m) <==> Matches(q, m) && m.seen == b
  {
  }

  /** The same split for the repository's filter: unseen plus seen is the total. */
  lemma SeenSplitsCount(ms: seq<Message>, feeds: seq<Feed>, hiding: bool, env: Id, sub: Id, ch: Channel, sel: FeedSelection)
    ensures Count(ms, Live(hiding), FilterFor(feeds, env, sub, ch, MessageQuery(sel, None)))
         == Count(ms, Live(hiding), FilterFor(feeds, env, sub, ch, MessageQuery(sel, Some(false))))
          + Count(ms, Live(hiding), FilterFor(feeds, env, sub, ch, MessageQuery(sel, Some(true))))
  {
    var q := FilterFor(feeds, env, sub, ch, MessageQuery(sel, None));
    assert FilterFor(feeds, env, sub, ch, MessageQuery(sel, Some(false))) == q.(seen := Eq(false));
    assert FilterFor(feeds, env, sub, ch, MessageQuery(sel, Some(true))) == q.(seen := Eq(true));
    CountSplitsBySeen(ms, Live(hiding), q);
  }

  /** A record that a filter does not let through (another tenant's, say) changes
      nothing that is found with it, wherever it is stored. */
  lemma FindIgnoresNonMatching(ms1: seq<Message>, m: Message, ms2: seq<Message>, s: Scope, q: Query)
    requires !(InScope(s, m) && Matches(q, m))
    ensures Find(ms1 + [m] + ms2, s, q) == Find(ms1 + ms2, s, q)
  {
    FindConcat(ms1 + [m], ms2, s, q);
    FindConcat(ms1, [m], s, q);
    FindConcat(ms1, ms2, s, q);
    FindSingleton(m, s, q);
    assert Find(ms1, s, q) + [] == Find(ms1, s, q);
  }

  /** Tenant isolation: a message of another environment, wherever it is stored,
      changes no count, no list and no activity statistic of this environment. */
  lemma OtherTenantInvisible(ms1: seq<Message>, ms2: seq<Message>, feeds: seq<Feed>, hiding: bool, m: Message,
                             env: Id, sub: Id, ch: Channel, q: MessageQuery, fq: FeedViewQuery, since: int,
                             notificationIds: seq<Id>)
    requires m.environmentId != env
    ensures Find(ms1 + [m] + ms2, Live(hiding), FilterFor(feeds, env, sub, ch, q))
         == Find(ms1 + ms2, Live(hiding), FilterFor(feeds, env, sub, ch, q))
    ensures Find(ms1 + [m] + ms2, Live(hiding), FeedViewFilter(env, fq)) == Find(ms1 + ms2, Live(hiding), FeedViewFilter(env, fq))
    ensures Find(ms1 + [m] + ms2, Live(hiding), NotificationsFilter(env, notificationIds))
         == Find(ms1 + ms2, Live(hiding), NotificationsFilter(env, notificationIds))
    ensures Tally(Find(ms1 + [m] + ms2, Live(hiding), ActivityFilter(since, env)))
         == Tally(Find(ms1 + ms2, Live(hiding), ActivityFilter(since, env)))
  {
    FindIgnoresNonMatching(ms1, m, ms2, Live(hiding), FilterFor(feeds, env, sub, ch, q));
    FindIgnoresNonMatching(ms1, m, ms2, Live(hiding), FeedViewFilter(env, fq));
    FindIgnoresNonMatching(ms1, m, ms2, Live(hiding), NotificationsFilter(env, notificationIds));
    FindIgnoresNonMatching(ms1, m, ms2, Live(hiding), ActivityFilter(since, env));
  }

  /** Messages created before `since` are not counted in the activity graph. */
  lemma OlderMessagesNotCounted(ms1: seq<Message>, ms2: seq<Message>, hiding: bool, m: Message, env: Id, since: int)
    requires m.createdAt < since
    ensures Tally(Find(ms1 + [m] + ms2, Live(hiding), ActivityFilter(since, env)))
         == Tally(Find(ms1 + ms2, Live(hiding), ActivityFilter(since, env)))
  {
    FindIgnoresNonMatching(ms1, m, ms2, Live(hiding), ActivityFilter(since, env));
  }

  /** Marking the same message seen again only moves its last-seen time: two calls
      leave the collection as the later call alone would. */
  lemma SeenChangeIdempotent(ms: seq<Message>, hiding: bool, sub: Id, id: Id, isSeen: bool, first: int, second: int)
    ensures SeenChanged(SeenChanged(ms, hiding, sub, id, isSeen, first), hiding, sub, id, isSeen, second)
         == SeenChanged(ms, hiding, sub, id, isSeen, second)
  {
    var once := SeenChanged(ms, hiding, sub, id, isSeen, first);
    var twice := SeenChanged(once, hiding, sub, id, isSeen, second);
    var direct := SeenChanged(ms, hiding, sub, id, isSeen, second);
    forall i | 0 <= i < |ms| ensures twice[i] == direct[i] {
      assert once[i].subscriberId == ms[i].subscriberId && once[i].id == ms[i].id && once[i].deleted == ms[i].deleted;
    }
  }

  /** Reassigning a template's messages to the same feed twice is the same as once. */
  lemma FeedReassignIdempotent(ms: seq<Message>, hiding: bool, messageTemplateId: Id, feedId: Id)
    ensures FeedReassigned(FeedReassigned(ms, hiding, messageTemplateId, feedId), hiding, messageTemplateId, feedId)
         == FeedReassigned(ms, hiding, messageTemplateId, feedId)
  {
    var once := FeedReassigned(ms, hiding, messageTemplateId, feedId);
    var twice := FeedReassigned(once, hiding, messageTemplateId, feedId);
    forall i | 0 <= i < |ms| ensures twice[i] == once[i] {
      assert once[i].messageTemplateId == ms[i].messageTemplateId && once[i].deleted == ms[i].deleted;
    }
  }

  /** No transition guard: a later outcome overwrites an earlier one entirely, so a
      sent message can be recorded as an error (and back) and the last call wins. */
  lemma LastOutcomeWins(ms: seq<Message>, hiding: bool, id: Id,
                        s1: DeliveryStatus, p1: Payload, e1: Option<string>, t1: Option<string>,
                        s2: DeliveryStatus, p2: Payload, e2: Option<string>, t2: Option<string>)
    ensures OutcomeRecorded(OutcomeRecorded(ms, hiding, id, s1, p1, e1, t1), hiding, id, s2, p2, e2, t2)
         == OutcomeRecorded(ms, hiding, id, s2, p2, e2, t2)
  {
    var once := OutcomeRecorded(ms, hiding, id, s1, p1, e1, t1);
    var twice := OutcomeRecorded(once, hiding, id, s2, p2, e2, t2);
    var direct := OutcomeRecorded(ms, hiding, id, s2, p2, e2, t2);
    forall i | 0 <= i < |ms| ensures twice[i] == direct[i] {
      assert once[i].id == ms[i].id && once[i].deleted == ms[i].deleted;
    }
  }

  /** delete looks the message up by id alone: any visible message, whatever its
      environment, is the one found for its id, so it is the one deleted. */
  lemma DeleteFindsAnyTenantsMessage(ms: seq<Message>, hiding: bool, k: nat)
    requires UniqueIds(ms)
    requires k < |ms| && InScope(Live(hiding), ms[k])
    ensures FindOne(ms, Live(hiding), ById(ms[k].id)) == Some(ms[k])
  {
  }

  /** With unique ids, deleting the found message changes that record only, and only
      its deleted flag. */
  lemma SoftDeleteTouchesOnlyFound(ms: seq<Message>, hiding: bool, k: nat)
    requires UniqueIds(ms)
    requires k < |ms| && InScope(Live(hiding), ms[k])
    ensures SoftDeleted(ms, hiding, ms[k].id, ms[k].environmentId)[k] == ms[k].(deleted := true)
    ensures forall i :: 0 <= i < |ms| && i != k ==> SoftDeleted(ms, hiding, ms[k].id, ms[k].environmentId)[i] == ms[i]
  {
  }

  /** After the delete, the deleted record is what findDeleted returns for its id. */
  lemma DeletedFoundByFindDeleted(ms: seq<Message>, hiding: bool, k: nat)
    requires k < |ms| && InScope(Live(hiding), ms[k])
    ensures ms[k].(deleted := true) in Find(SoftDeleted(ms, hiding, ms[k].id, ms[k].environmentId), DeletedOnly, ById(ms[k].id))
  {
    var r := SoftDeleted(ms, hiding, ms[k].id, ms[k].environmentId);
    var x := ms[k].(deleted := true);
    assert r[k] == x;
    FoundIfAdmitted(r, DeletedOnly, ById(ms[k].id), k);
  }

  lemma FoundIfAdmitted(ms: seq<Message>, s: Scope, q: Query, k: nat)
    requires k < |ms| && InScope(s, ms[k]) && Matches(q, ms[k])
    ensures ms[k] in Find(ms, s, q)
  {
    assert ms[k] in ms;
  }

  /** When the plugin hides deleted records, a deleted message drops out of every
      count it was in, and no other count changes; when it does not, nothing changes. */
  lemma {:induction false} CountAfterDelete(ms: seq<Message>, r: seq<Message>, hiding: bool, k: nat, q: Query)
    requires k < |ms| && |r| == |ms| && InScope(Live(hiding), ms[k])
    requires r[k] == ms[k].(deleted := true)
    requires forall i :: 0 <= i < |ms| && i != k ==> r[i] == ms[i]
    ensures Count(r, Live(hiding), q) + (if hiding && Matches(q, ms[k]) then 1 else 0) == Count(ms, Live(hiding), q)
  {
    FoundAfterDelete(ms, r, hiding, k, q);
  }

  lemma {:induction false} FoundAfterDelete(ms: seq<Message>, r: seq<Message>, hiding: bool, k: nat, q: Query)
    requires k < |ms| && |r| == |ms| && InScope(Live(hiding), ms[k])
    requires r[k] == ms[k].(deleted := true)
    requires forall i :: 0 <= i < |ms| && i != k ==> r[i] == ms[i]
    ensures |Find(r, Live(hiding), q)| + (if hiding && Matches(q, ms[k]) then 1 else 0) == |Find(ms, Live(hiding), q)|
  {
    var s := Live(hiding);
    if k == 0 {
      assert r[1..] == ms[1..];
      assert |Find(r, s, q)| == (if InScope(s, r[0]) && Matches(q, r[0]) then 1 else 0) + |Find(r[1..], s, q)|;
      assert |Find(ms, s, q)| == (if Matches(q, ms[0]) then 1 else 0) + |Find(ms[1..], s, q)|;
    } else {
      FoundAfterDelete(ms[1..], r[1..], hiding, k - 1, q);
      assert r[0] == ms[0];
      assert |Find(r, s, q)| == (if InScope(s, r[0]) && Matches(q, r[0]) then 1 else 0) + |Find(r[1..], s, q)|;
      assert |Find(ms, s, q)| == (if InScope(s, ms[0]) && Matches(q, ms[0]) then 1 else 0) + |Find(ms[1..], s, q)|;
    }
  }

  /** The delete as the repository issues it removes the message from every count
      when deleted records are hidden. */
  lemma DeleteRemovesFromCounts(ms: seq<Message>, hiding: bool, k: nat, q: Query)
    requires UniqueIds(ms)
    requires k < |ms| && InScope(Live(hiding), ms[k])
    ensures Count(SoftDeleted(ms, hiding, ms[k].id, ms[k].environmentId), Live(hiding), q)
          + (if hiding && Matches(q, ms[k]) then 1 else 0) == Count(ms, Live(hiding), q)
  {
    SoftDeleteTouchesOnlyFound(ms, hiding, k);
    CountAfterDelete(ms, SoftDeleted(ms, hiding, ms[k].id, ms[k].environmentId), hiding, k, q);
  }
}
