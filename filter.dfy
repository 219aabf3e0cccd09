/** The one filter shared by listing, counting and unseen-counting a subscriber's
    messages on a channel (getFilterQueryForMessage). */
module MessageFilter {
  import opened Messages
  import opened Queries

  /** The caller's `feedId` criterion. JavaScript distinguishes three cases: the
      property absent (or undefined), an explicit `null`, and a list of feed
      identifiers. Any list, even an empty one, is truthy. */
  datatype FeedSelection = FeedUnset | FeedNull | FeedIdentifiers(identifiers: seq<string>)

  /** The `{ feedId?, seen? }` argument; `seen == None` stands for null or undefined. */
  datatype MessageQuery = MessageQuery(feedId: FeedSelection, seen: Option<bool>)

  /** The default argument `{}`. */
  const NoCriteria: MessageQuery := MessageQuery(FeedUnset, None)

  /** `feedRepository.find({_environmentId, identifier: {$in}}, '_id')` followed by
      `map(feed => feed._id)`: the ids of the feed rows of the environment whose
      identifier is listed, in the feed collection's order. */
  function FeedIdsFor(feeds: seq<Feed>, env: Id, identifiers: seq<string>): (r: seq<Id>)
    ensures |r| <= |feeds|
    ensures forall id :: id in r <==>
      exists f :: f in feeds && f.environmentId == env && f.identifier in identifiers && f.id == id
  {
    if feeds == [] then []
    else
      assert feeds == [feeds[0]] + feeds[1..];
      var rest := FeedIdsFor(feeds[1..], env, identifiers);
      if feeds[0].environmentId == env && feeds[0].identifier in identifiers then [feeds[0].id] + rest
      else rest
  }

  /** getFilterQueryForMessage: environment, subscriber and channel are always fixed;
      an explicit null feed asks for `_feedId == null`; a list asks for a feed id
      resolved from those identifiers in the same environment; `seen` is constrained
      only when given. */
  function FilterFor(feeds: seq<Feed>, env: Id, sub: Id, ch: Channel, q: MessageQuery): (r: Query)
    ensures r.environmentId == Eq(env) && r.subscriberId == Eq(sub) && r.channel == Eq(ch)
    ensures r.id == Any && r.messageTemplateId == Any && r.notificationId == Any
    ensures r.templateId == Any && r.email == Any && r.createdFrom == None
    ensures q.seen.None? <==> r.seen == Any
    ensures q.feedId.FeedUnset? <==> r.feedId == Any
  {
    var base := Everything.(environmentId := Eq(env), subscriberId := Eq(sub), channel := Eq(ch));
    var withNull := if q.feedId.FeedNull? then base.(feedId := Eq(None)) else base;
    var withFeeds :=
      if q.feedId.FeedIdentifiers? then withNull.(feedId := In(Somes(FeedIdsFor(feeds, env, q.feedId.identifiers))))
      else withNull;
    if q.seen.Some? then withFeeds.(seen := Eq(q.seen.value)) else withFeeds
  }

  /** Reference definition of which feed ids a selection admits, written against the
      feed collection directly. */
  ghost predicate FeedSelected(feeds: seq<Feed>, env: Id, sel: FeedSelection, feedId: Option<Id>) {
    match sel
    case FeedUnset => true
    case FeedNull => feedId == None
    case FeedIdentifiers(identifiers) =>
      feedId.Some? &&
      exists f :: f in feeds && f.environmentId == env && f.identifier in identifiers && f.id == feedId.value
  }

  /** A message matches the built filter exactly when it belongs to the environment,
      the subscriber and the channel, its feed is admitted by the selection, and its
      seen flag equals the requested one if one was requested. */
  lemma FilterForMatches(feeds: seq<Feed>, env: Id, sub: Id, ch: Channel, q: MessageQuery, m: Message)
    ensures Matches(FilterFor(feeds, env, sub, ch, q), m) <==>
      && m.environmentId == env && m.subscriberId == sub && m.channel == ch
      && FeedSelected(feeds, env, q.feedId, m.feedId)
      && (q.seen.Some? ==> m.seen == q.seen.value)
  {
    match q.feedId
    case FeedUnset =>
    case FeedNull =>
    case FeedIdentifiers(identifiers) =>
      var ids := FeedIdsFor(feeds, env, identifiers);
      if m.feedId.Some? {
        assert m.feedId == Some(m.feedId.value);
        assert m.feedId in Somes(ids) <==> m.feedId.value in ids;
      } else {
        assert m.feedId !in Somes(ids);
      }
  }

  /** No record is ever matched outside the environment, subscriber and channel the
      filter was built for. */
  lemma FilterForIsolates(feeds: seq<Feed>, env: Id, sub: Id, ch: Channel, q: MessageQuery, m: Message)
    requires m.environmentId != env || m.subscriberId != sub || m.channel != ch
    ensures !Matches(FilterFor(feeds, env, sub, ch, q), m)
  {
  }

  /** An explicit null selects exactly the messages without a feed, while leaving
      the feed out selects regardless of feed: the two are different filters. */
  lemma NullFeedIsNotUnset(feeds: seq<Feed>, env: Id, sub: Id, ch: Channel, seen: Option<bool>, m: Message)
    requires m.environmentId == env && m.subscriberId == sub && m.channel == ch
    requires seen.Some? ==> m.seen == seen.value
    ensures Matches(FilterFor(feeds, env, sub, ch, MessageQuery(FeedUnset, seen)), m)
    ensures Matches(FilterFor(feeds, env, sub, ch, MessageQuery(FeedNull, seen)), m) <==> m.feedId.None?
  {
    FilterForMatches(feeds, env, sub, ch, MessageQuery(FeedUnset, seen), m);
    FilterForMatches(feeds, env, sub, ch, MessageQuery(FeedNull, seen), m);
  }

  /** An empty list of identifiers is truthy, so it constrains the feed to the empty
      set and nothing matches. */
  lemma EmptyIdentifierListMatchesNothing(feeds: seq<Feed>, env: Id, sub: Id, ch: Channel, seen: Option<bool>, m: Message)
    ensures !Matches(FilterFor(feeds, env, sub, ch, MessageQuery(FeedIdentifiers([]), seen)), m)
  {
    FilterForMatches(feeds, env, sub, ch, MessageQuery(FeedIdentifiers([]), seen), m);
  }

  /** An identifier that names no feed of the environment contributes nothing: adding
      it to the list does not change which messages match. */
  lemma UnknownIdentifierAddsNothing(feeds: seq<Feed>, env: Id, sub: Id, ch: Channel,
                                     identifiers: seq<string>, unknown: string, seen: Option<bool>, m: Message)
    requires forall f :: f in feeds && f.environmentId == env ==> f.identifier != unknown
    ensures Matches(FilterFor(feeds, env, sub, ch, MessageQuery(FeedIdentifiers(identifiers + [unknown]), seen)), m)
       <==> Matches(FilterFor(feeds, env, sub, ch, MessageQuery(FeedIdentifiers(identifiers), seen)), m)
  {
    FilterForMatches(feeds, env, sub, ch, MessageQuery(FeedIdentifiers(identifiers + [unknown]), seen), m);
    FilterForMatches(feeds, env, sub, ch, MessageQuery(FeedIdentifiers(identifiers), seen), m);
    forall f | f in feeds && f.environmentId == env
      ensures f.identifier in identifiers + [unknown] <==> f.identifier in identifiers
    {
    }
  }

  /** Feeds of other environments are never consulted: a row of another environment
      with a listed identifier does not let a message through. */
  lemma OtherEnvironmentFeedsIgnored(feeds: seq<Feed>, other: Feed, env: Id, sub: Id, ch: Channel, q: MessageQuery, m: Message)
    requires other.environmentId != env
    ensures Matches(FilterFor(feeds + [other], env, sub, ch, q), m) <==> Matches(FilterFor(feeds, env, sub, ch, q), m)
  {
    FilterForMatches(feeds + [other], env, sub, ch, q, m);
    FilterForMatches(feeds, env, sub, ch, q, m);
    if q.feedId.FeedIdentifiers? && m.feedId.Some? {
      if FeedSelected(feeds + [other], env, q.feedId, m.feedId) {
        var f :| f in feeds + [other] && f.environmentId == env && f.identifier in q.feedId.identifiers && f.id == m.feedId.value;
        assert f in feeds;
      }
    }
  }
}
