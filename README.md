# Notification message store — a Dafny model

This project models the message repository of a multi-tenant notification
platform. The repository is `MessageRepository` in
`libs/dal/src/repositories/message/message.repository.ts`. It keeps the per-subscriber
notification messages of every environment (tenant) and offers these operations:

- one filter for listing, counting and unseen-counting a subscriber's messages on a
  channel, with a three-way feed criterion (absent, explicit `null`, list of feed
  identifiers) and an optional seen criterion;
- seen-state changes, delivery-outcome updates and feed reassignment on stored records;
- per-day activity statistics;
- a filtered, paged feed view with its total count;
- soft delete, with a not-found error, and retrieval of soft-deleted records.

The model is split into these modules:

- `Messages` (messages.dfy): the message record, feed rows, channels and delivery statuses.
- `Queries` (queries.dfy): the filter documents the repository builds. Each field has
  no constraint, an exact value or a list (`$in`). There is also a lower bound on
  `createdAt` (`$gte`). `Matches` says which records a filter admits.
- `Store` (store.dfy): what the storage layer does with a filter. This covers find,
  count, find-one, update-many, sorting by `-createdAt`, and skip/limit paging.
- `MessageFilter` (filter.dfy): getFilterQueryForMessage and feed-identifier
  resolution. The module also holds an independent reference predicate for the feed
  criterion.
- `ActivityStats` (activity.dfy): grouping by day, newest day first.
- `MessageRepo` (repository.dfy): the class `MessageRepository`. Its fields are the
  message collection, the feed collection and the soft-delete configuration. It has
  one method per repository operation. The module also holds the per-operation update
  functions and the lemmas about them.
- `Scenarios` (scenarios.dfy): two worked examples, the digest-feed counts and
  explicit-null versus absent feed.

Updates are class methods that reassign `messages`. Each one is specified as a pure
function of the old collection. The read-only operations are methods that return what
the storage layer would return for the filter they build.

In four places the code does not do what a multi-tenant message store is meant to do.
The model follows the code:

- `changeSeenStatus`, `updateMessageStatus` and `updateFeedByMessageTemplateId` filter
  by ids only. They are not scoped to one environment, although every read and write
  of a tenant's messages is meant to be.
- `changeSeenStatus` sets `lastSeenDate` on every call, including `isSeen == false`,
  where `lastSeenDate` is meant to be set only when a message turns seen.
- Whether soft-deleted records are hidden from normal reads depends on how the
  soft-delete plugin is configured, and that is outside this code. The class therefore
  has a `hideDeleted` flag. A lemma that says deleted records disappear from counts
  holds only when `hideDeleted` is true.
- `delete` looks the message up by `_id` alone and ignores any `_environmentId` the
  caller passes. The environment it then deletes under is the found message's own, so
  it constrains nothing: a caller can soft-delete a message of any environment by its
  id. `MessageRepo.DeleteFindsAnyTenantsMessage` states this.

## Model

| member | source | states |
|---|---|---|
| `Store.Find` | libs/dal/src/repositories/message/message.repository.ts:65-69 | the records found are exactly the stored records in scope that match the filter, each as many times as it is stored, never more than stored |
| `Store.FindConcat` | libs/dal/src/repositories/message/message.repository.ts:65-69 | finding over two stretches of the collection is finding over each, in stored order |
| `Store.Count` | libs/dal/src/repositories/message/message.repository.ts:82 | the count is the number of stored records (positions) that are in scope and match the filter; so it is never more than the stored records, and zero exactly when none matches |
| `Store.FoundAtMatchingPositions` | libs/dal/src/repositories/message/message.repository.ts:212-218 | what find returns has exactly one element per stored position that is in scope and matches, so count and find agree |
| `Store.Apply` | libs/dal/src/repositories/message/message.repository.ts:105-110 | a `$set` writes its own fields (seen and lastSeenDate, feed id, or status, payload and error fields) and never changes id, environment, subscriber, channel, message template or creation time; only the delete sets the deleted flag |
| `Store.FindOne` | libs/dal/src/repositories/message/message.repository.ts:227-230 | none is found exactly when no record in scope matches; a found record is stored, in scope and matching |
| `Store.UpdateMany` | libs/dal/src/repositories/message/message.repository.ts:100-111 | a `$set` update changes every in-scope matching record by the change and leaves every other record as it was, keeping the collection's length |
| `Store.UpdateManyKeepsIds` | libs/dal/src/repositories/message/message.repository.ts:100-111 | updates never change ids, so unique message ids stay unique |
| `Store.InsertNewestFirst` | libs/dal/src/repositories/message/message.repository.ts:68 | inserting one record into a list adds exactly one element |
| `Store.InsertNewestFirstSound` | libs/dal/src/repositories/message/message.repository.ts:68 | inserting into a newest-first list keeps it newest first and adds exactly that record (multiset) |
| `Store.SortNewestFirst` | libs/dal/src/repositories/message/message.repository.ts:68 | sort `-createdAt` yields the same records (a permutation) ordered by creation time, newest first |
| `Store.Page` | libs/dal/src/repositories/message/message.repository.ts:66-67 | skip/limit returns the records from position `skip` on, at most `limit` of them, with limit 0 meaning no limit |
| `Store.PagesTile` | libs/dal/src/repositories/message/message.repository.ts:216-217 | consecutive pages with the same limit cover the listing without gap or overlap |
| `Store.PageOfSorted` | libs/dal/src/repositories/message/message.repository.ts:65-69 | a page of the sorted listing is newest first, holds only listed records and is no longer than the listing or the limit |
| `MessageFilter.FeedIdsFor` | libs/dal/src/repositories/message/message.repository.ts:36-47 | an id is resolved exactly when a feed row of the same environment with a listed identifier has that id |
| `MessageFilter.FilterFor` | libs/dal/src/repositories/message/message.repository.ts:19-55 | the filter always fixes environment, subscriber and channel; seen is unconstrained exactly when not given; the feed is unconstrained exactly when `feedId` is absent |
| `MessageFilter.FilterForMatches` | libs/dal/src/repositories/message/message.repository.ts:19-55 | a message matches exactly when its environment, subscriber and channel agree, its feed is admitted by the reference feed predicate (null only, any, or a resolved feed of the environment) and its seen flag equals a given one |
| `MessageFilter.FilterForIsolates` | libs/dal/src/repositories/message/message.repository.ts:25-29 | no message of another environment, subscriber or channel ever matches |
| `MessageFilter.NullFeedIsNotUnset` | libs/dal/src/repositories/message/message.repository.ts:31-48 | an absent feed criterion admits any feed while an explicit null admits only messages without a feed |
| `MessageFilter.EmptyIdentifierListMatchesNothing` | libs/dal/src/repositories/message/message.repository.ts:35-47 | an empty identifier list is truthy and matches no message |
| `MessageFilter.UnknownIdentifierAddsNothing` | libs/dal/src/repositories/message/message.repository.ts:36-47 | an identifier naming no feed of the environment changes nothing when added to the list |
| `MessageFilter.OtherEnvironmentFeedsIgnored` | libs/dal/src/repositories/message/message.repository.ts:36-44 | feed rows of other environments never let a message through |
| `ActivityStats.DayOf` | libs/dal/src/repositories/message/message.repository.ts:169 | the day of a timestamp is the whole day (86400000 ms, floored) that contains it |
| `ActivityStats.CountForAbsent` | libs/dal/src/repositories/message/message.repository.ts:176 | in newest-day-first buckets a day newer than the first has no bucket |
| `ActivityStats.Bump` | libs/dal/src/repositories/message/message.repository.ts:166-176 | counting one more message keeps the buckets strictly newest day first and non-empty, adds one to that day only and one to the total |
| `ActivityStats.Tally` | libs/dal/src/repositories/message/message.repository.ts:166-176 | the buckets are in strictly descending day order with no day twice and none empty; each day's count is the number of messages created that day; the counts sum to the number of messages |
| `ActivityStats.EveryDayHasItsBucket` | libs/dal/src/repositories/message/message.repository.ts:166-175 | every day on which a matched message was created has a bucket holding that day's count |
| `ActivityStats.CreatedOnPositive` | libs/dal/src/repositories/message/message.repository.ts:166-175 | a message's own creation day has a positive count |
| `ActivityStats.BucketOf` | libs/dal/src/repositories/message/message.repository.ts:166-175 | a positive count for a day comes from a bucket of that day |
| `MessageRepo.FeedViewFilter` | libs/dal/src/repositories/message/message.repository.ts:186-188 | getFeed's filter always fixes the environment |
| `MessageRepo.FeedViewFilterMatches` | libs/dal/src/repositories/message/message.repository.ts:186-210 | a message is in the feed view exactly when it is in the environment and meets each given criterion (channel list, template list, email list, non-empty subscriber id) |
| `MessageRepo.ActivityFilter` | libs/dal/src/repositories/message/message.repository.ts:160-165 | the activity match admits exactly the messages of the environment created at or after the date |
| `MessageRepo.NotificationsFilter` | libs/dal/src/repositories/message/message.repository.ts:128-133 | the bulk filter admits exactly the messages of the environment whose notification id is listed |
| `MessageRepo.SeenChanged` | libs/dal/src/repositories/message/message.repository.ts:99-112 | only the subscriber's message with the id gets `seen := isSeen` and `lastSeenDate := now`; every other field and message is unchanged |
| `MessageRepo.FeedReassigned` | libs/dal/src/repositories/message/message.repository.ts:114-125 | every message of the message template gets the feed id and nothing else changes |
| `MessageRepo.OutcomeRecorded` | libs/dal/src/repositories/message/message.repository.ts:136-157 | the message with the id gets status, error id, error text and payload whatever its prior status; nothing else changes |
| `MessageRepo.SoftDeleted` | libs/dal/src/repositories/message/message.repository.ts:231 | only messages with the id and the environment get the deleted flag; nothing else changes |
| `MessageRepo.MessageRepository.constructor` | libs/dal/src/repositories/message/message.repository.ts:14-17 | the repository starts over the given collections with unique message ids |
| `MessageRepo.MessageRepository.FindBySubscriberChannel` | libs/dal/src/repositories/message/message.repository.ts:57-72 | the page is drawn from exactly the records getTotalCount counts: newest first, skipping `skip`, at most `limit`, all of the environment, subscriber and channel |
| `MessageRepo.MessageRepository.GetTotalCount` | libs/dal/src/repositories/message/message.repository.ts:74-83 | counts the records matching the shared filter; without a seen criterion, that is the unseen count plus the seen count |
| `MessageRepo.MessageRepository.GetUnseenCount` | libs/dal/src/repositories/message/message.repository.ts:85-97 | the count with seen forced to false whatever seen the caller passed; plus the seen count it is the total; every counted record is unseen |
| `MessageRepo.MessageRepository.ChangeSeenStatus` | libs/dal/src/repositories/message/message.repository.ts:99-112 | the new collection is SeenChanged of the old one; feeds unchanged; ids stay unique |
| `MessageRepo.MessageRepository.UpdateFeedByMessageTemplateId` | libs/dal/src/repositories/message/message.repository.ts:114-125 | the new collection is FeedReassigned of the old one; feeds unchanged; ids stay unique |
| `MessageRepo.MessageRepository.GetBulkMessagesByNotificationIds` | libs/dal/src/repositories/message/message.repository.ts:127-134 | returns exactly the visible messages of the environment belonging to a listed notification |
| `MessageRepo.MessageRepository.UpdateMessageStatus` | libs/dal/src/repositories/message/message.repository.ts:136-157 | the new collection is OutcomeRecorded of the old one for a dispatch status (sent, error, warning); no transition guard |
| `MessageRepo.MessageRepository.GetActivityGraphStats` | libs/dal/src/repositories/message/message.repository.ts:158-178 | buckets strictly newest day first, none empty, each day's count equal to the matched messages created that day, the counts summing to the number matched |
| `MessageRepo.MessageRepository.GetFeed` | libs/dal/src/repositories/message/message.repository.ts:180-224 | totalCount and the page of data come from the same filter; the page is newest first, within the environment, never longer than totalCount, and with skip 0 and no limit it is all of them |
| `MessageRepo.MessageRepository.Delete` | libs/dal/src/repositories/message/message.repository.ts:226-232 | throws "Could not find a message with id …" exactly when no visible message has the id, and then changes nothing; otherwise soft-deletes by the found message's id and environment; the error's text is "Could not find a message with id " followed by the id |
| `MessageRepo.MessageRepository.FindDeleted` | libs/dal/src/repositories/message/message.repository.ts:234-238 | returns exactly the soft-deleted records matching the filter |
| `MessageRepo.CountSplitsBySeen` | libs/dal/src/repositories/message/message.repository.ts:50-52 | for a filter without a seen constraint, the count splits into the seen-false and seen-true counts |
| `MessageRepo.MatchesWithSeen` | libs/dal/src/repositories/message/message.repository.ts:50-52 | adding `seen: b` to a filter admits exactly the admitted records with that seen flag |
| `MessageRepo.SeenSplitsCount` | libs/dal/src/repositories/message/message.repository.ts:74-97 | for the shared filter, the count without seen is the unseen count plus the seen count |
| `MessageRepo.FindIgnoresNonMatching` | libs/dal/src/repositories/message/message.repository.ts:25-29 | a record a filter does not admit, stored anywhere in the collection, changes nothing that filter finds |
| `MessageRepo.OtherTenantInvisible` | libs/dal/src/repositories/message/message.repository.ts:127-224 | a message of another environment, stored anywhere in the collection, changes no subscriber listing or count, bulk lookup by notification, feed view or activity statistic of this environment |
| `MessageRepo.OlderMessagesNotCounted` | libs/dal/src/repositories/message/message.repository.ts:162 | a message created before the date, stored anywhere in the collection, does not change the activity statistics |
| `MessageRepo.SeenChangeIdempotent` | libs/dal/src/repositories/message/message.repository.ts:99-112 | repeating changeSeenStatus with the same isSeen equals the later call alone: seen stays, only lastSeenDate moves |
| `MessageRepo.FeedReassignIdempotent` | libs/dal/src/repositories/message/message.repository.ts:114-125 | reassigning a template's messages to the same feed twice is the same as once |
| `MessageRepo.LastOutcomeWins` | libs/dal/src/repositories/message/message.repository.ts:136-157 | with no transition guard, a second outcome overwrites the first entirely |
| `MessageRepo.DeleteFindsAnyTenantsMessage` | libs/dal/src/repositories/message/message.repository.ts:227-231 | with unique ids, the lookup by id alone finds any visible message, whatever its environment, so that message is the one deleted |
| `MessageRepo.SoftDeleteTouchesOnlyFound` | libs/dal/src/repositories/message/message.repository.ts:231 | with unique ids, the delete flags the found message and leaves every other record as it was |
| `MessageRepo.DeletedFoundByFindDeleted` | libs/dal/src/repositories/message/message.repository.ts:231-235 | after the delete, findDeleted by its id returns the deleted record |
| `MessageRepo.CountAfterDelete` | libs/dal/src/repositories/message/message.repository.ts:231 | flagging one visible record deleted lowers each count it matched by one when deleted records are hidden, and changes no count otherwise |
| `MessageRepo.FoundAfterDelete` | libs/dal/src/repositories/message/message.repository.ts:231 | flagging one visible record deleted shortens each find it matched by one when deleted records are hidden, and changes no find's length otherwise |
| `MessageRepo.DeleteRemovesFromCounts` | libs/dal/src/repositories/message/message.repository.ts:226-232 | the repository's delete removes the message from every count it was in (when hidden) and from no other |
| `Scenarios.DigestFilter` | libs/dal/src/repositories/message/message.repository.ts:35-51 | the identifier "digest" resolves to the digest feed's id in the filter |
| `Scenarios.DigestUnseenCount` | libs/dal/src/repositories/message/message.repository.ts:85-97 | two unseen and one seen digest message give an unseen count of 2 |
| `Scenarios.DigestSeenCount` | libs/dal/src/repositories/message/message.repository.ts:74-83 | the same three give a count of 1 with `seen: true` |
| `Scenarios.NullFeedVersusUnset` | libs/dal/src/repositories/message/message.repository.ts:31-48 | explicit null finds only the message without a feed; no feed criterion finds both |

## Left out

- MongoDB and Mongoose mechanics are not modelled. This covers aggregate pipelines, operator syntax, `ObjectId` casting, `mapEntity`/`mapEntities` and the base repository's internals. The filters are the `Query` datatype with a `Matches` predicate.
- The `.populate` joins in getFeed are not modelled. They add subscriber and template display fields from other collections, so the model's `data` holds the bare message records.
- The soft-delete plugin's behaviour is configured elsewhere. It is a flag, `hideDeleted`, on the repository. Whether normal finds, counts, updates and the aggregation skip deleted records is stated under that flag, not proved.
- `$dateToString` with `%Y-%m-%d` is not modelled as text. A day is the day number `createdAt / 86400000` (UTC, floor), and ActivityStats.DayOf states that this is the day containing the timestamp. For years 0000 to 9999, descending order of the date strings is descending order of day numbers; that correspondence is not proved.
- Wall-clock time (`new Date()`) is not modelled. It is the `now` parameter of ChangeSeenStatus.
- Async calls and concurrent writers are not modelled. Each call is one atomic step.
- The value that the base repository's `update` resolves to (match and modify counts) is not shown. The update methods return nothing.
- MessageRepo.MessageRepository.Delete takes the id itself. It does not take a filter object with an `_id` field, so a missing `_id` (which Mongoose would drop, matching any message) is not modelled.
- Store.SortNewestFirst puts records with equal `createdAt` in their stored order. The storage layer leaves their order unspecified, so that order is an assumption.
- Store.Page models a limit of 0 as no limit, which is MongoDB's meaning. Negative limits are not modelled, since limits are natural numbers.
- MessageRepo.MessageRepository.UpdateMessageStatus treats a missing error id or error text as clearing the field. Mongoose's handling of `undefined` in `$set` is not modelled. The provider payload is an opaque string map, stored verbatim.
- MessageRepo.MessageRepository.FindDeleted returns the list of matching deleted records. The source passes that list through `mapEntity`, which is not modelled.
- Creating messages is not part of this repository class. The collection is given to the constructor.
- Default arguments are not modelled as defaults. Every call passes all its arguments: findBySubscriberChannel's default options `{ limit: 10 }` (line 62), getFeed's `skip = 0` and `limit = 10` (lines 183-184), updateMessageStatus's `providerPayload = {}` (line 140), and the empty query objects.
