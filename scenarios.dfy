/** Two concrete situations worked through the model: counting on a named feed, and
    the difference between an explicit null feed and no feed criterion. */
module Scenarios {
  import opened Messages
  import opened Queries
  import opened Store
  import opened MessageFilter

  const Env: Id := "env-1"
  const Subscriber: Id := "subscriber-s"
  const DigestFeed: Feed := Feed(Env, "digest", "feed-digest")

  /** An email message of the subscriber, created at time 0, not deleted. */
  function EmailMessage(id: Id, feedId: Option<Id>, seen: bool): (m: Message)
    ensures m.id == id && m.feedId == feedId && m.seen == seen && !m.deleted
    ensures m.environmentId == Env && m.subscriberId == Subscriber && m.channel == Email
  {
    Message(id, Env, Subscriber, "notification-1", "template-1", "message-template-1", Email,
            feedId, Some("s@example.com"), seen, None, Pending, map[], None, None, 0, false)
  }

  /** Three messages of the subscriber on the digest feed: two unseen, one seen. */
  const DigestInbox: seq<Message> := [
    EmailMessage("m1", Some(DigestFeed.id), false),
    EmailMessage("m2", Some(DigestFeed.id), false),
    EmailMessage("m3", Some(DigestFeed.id), true)]

  /** The filter for `{feedId: ["digest"], seen}` resolves the identifier to the
      digest feed's id. */
  lemma DigestFilter(seen: bool)
    ensures FilterFor([DigestFeed], Env, Subscriber, Email, MessageQuery(FeedIdentifiers(["digest"]), Some(seen)))
         == Everything.(environmentId := Eq(Env), subscriberId := Eq(Subscriber), channel := Eq(Email),
                        feedId := In([Some(DigestFeed.id)]), seen := Eq(seen))
  {
    assert FeedIdsFor([DigestFeed], Env, ["digest"]) == [DigestFeed.id];
    assert Somes([DigestFeed.id]) == [Some(DigestFeed.id)];
  }

  /** The unseen count on the digest feed is 2. */
  lemma DigestUnseenCount()
    ensures Count(DigestInbox, Live(true),
                  FilterFor([DigestFeed], Env, Subscriber, Email, MessageQuery(FeedIdentifiers(["digest"]), Some(false)))) == 2
  {
    DigestFilter(false);
    var m1, m2, m3 := DigestInbox[0], DigestInbox[1], DigestInbox[2];
    var q := FilterFor([DigestFeed], Env, Subscriber, Email, MessageQuery(FeedIdentifiers(["digest"]), Some(false)));
    assert Matches(q, m1) && Matches(q, m2) && !Matches(q, m3);
    assert DigestInbox[1..] == [m2, m3] && [m2, m3][1..] == [m3] && [m3][1..] == [];
    assert Find([m3], Live(true), q) == [];
    assert Find([m2, m3], Live(true), q) == [m2];
  }

  /** The count of seen messages on the digest feed is 1. */
  lemma DigestSeenCount()
    ensures Count(DigestInbox, Live(true),
                  FilterFor([DigestFeed], Env, Subscriber, Email, MessageQuery(FeedIdentifiers(["digest"]), Some(true)))) == 1
  {
    DigestFilter(true);
    var m1, m2, m3 := DigestInbox[0], DigestInbox[1], DigestInbox[2];
    var q := FilterFor([DigestFeed], Env, Subscriber, Email, MessageQuery(FeedIdentifiers(["digest"]), Some(true)));
    assert !Matches(q, m1) && !Matches(q, m2) && Matches(q, m3);
    assert DigestInbox[1..] == [m2, m3] && [m2, m3][1..] == [m3] && [m3][1..] == [];
    assert Find([m3], Live(true), q) == [m3];
    assert Find([m2, m3], Live(true), q) == [m3];
  }

  /** One message with a null feed and one on the digest feed: an explicit null finds
      only the first, no feed criterion finds both. */
  lemma NullFeedVersusUnset()
    ensures
      var ms := [EmailMessage("m1", None, false), EmailMessage("m2", Some(DigestFeed.id), false)];
      && Find(ms, Live(true), FilterFor([DigestFeed], Env, Subscriber, Email, MessageQuery(FeedNull, None))) == [ms[0]]
      && Find(ms, Live(true), FilterFor([DigestFeed], Env, Subscriber, Email, NoCriteria)) == ms
  {
    var ms := [EmailMessage("m1", None, false), EmailMessage("m2", Some(DigestFeed.id), false)];
    assert ms[1..][1..] == [];
  }
}
