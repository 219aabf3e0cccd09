/** What the storage layer does with a filter: find, count, find one, update many,
    sort newest first and page. Soft-deleted records are hidden from the normal
    paths when the soft-delete plugin is configured to hide them. */
module Store {
  import opened Messages
  import opened Queries

  /** Which records an access path considers: the normal paths see every record
      that is not hidden by the soft-delete plugin; `findDeleted` sees only
      soft-deleted records. */
  datatype Scope = Live(hideDeleted: bool) | DeletedOnly

  predicate InScope(s: Scope, m: Message) {
    match s
    case Live(hideDeleted) => !(hideDeleted && m.deleted)
    case DeletedOnly => m.deleted
  }

  /** `find(q)`: the records in scope that match, in stored order. */
  function Find(ms: seq<Message>, s: Scope, q: Query): (r: seq<Message>)
    ensures |r| <= |ms|
    ensures forall m :: m in r <==> m in ms && InScope(s, m) && Matches(q, m)
    ensures forall m :: multiset(r)[m] == if InScope(s, m) && Matches(q, m) then multiset(ms)[m] else 0
  {
    if ms == [] then []
    else
      assert ms == [ms[0]] + ms[1..];
      if InScope(s, ms[0]) && Matches(q, ms[0]) then [ms[0]] + Find(ms[1..], s, q)
      else Find(ms[1..], s, q)
  }

  /** Finding over a record followed by more is deciding that record, then finding
      over the rest. */
  lemma FindCons(x: Message, rest: seq<Message>, s: Scope, q: Query)
    ensures Find([x] + rest, s, q) == (if InScope(s, x) && Matches(q, x) then [x] else []) + Find(rest, s, q)
  {
    assert ([x] + rest)[0] == x && ([x] + rest)[1..] == rest;
  }

  /** Finding over two stretches of records is finding over each, in order. */
  lemma {:induction false} FindConcat(a: seq<Message>, b: seq<Message>, s: Scope, q: Query)
    ensures Find(a + b, s, q) == Find(a, s, q) + Find(b, s, q)
  {
    if a == [] {
      EmptyConcat(a, b);
    } else {
      FindConcat(a[1..], b, s, q);
      FindConcatStep(a, b, s, q);
    }
  }

  lemma FindConcatStep(a: seq<Message>, b: seq<Message>, s: Scope, q: Query)
    requires a != []
    requires Find(a[1..] + b, s, q) == Find(a[1..], s, q) + Find(b, s, q)
    ensures Find(a + b, s, q) == Find(a, s, q) + Find(b, s, q)
  {
    ConsSplit(a, b);
    FindCons(a[0], a[1..] + b, s, q);
    FindCons(a[0], a[1..], s, q);
    var head := if InScope(s, a[0]) && Matches(q, a[0]) then [a[0]] else [];
    ConcatAssociates(head, Find(a[1..], s, q), Find(b, s, q));
  }

  lemma EmptyConcat<T>(a: seq<T>, b: seq<T>)
    requires a == []
    ensures a + b == b
  {
  }

  lemma SnocSplit<T>(a: seq<T>)
    requires a != []
    ensures a == a[..|a| - 1] + [a[|a| - 1]]
  {
  }

  lemma ConsSplit<T>(a: seq<T>, b: seq<T>)
    requires a != []
    ensures a + b == [a[0]] + (a[1..] + b) && a == [a[0]] + a[1..]
  {
  }

  lemma ConcatAssociates<T>(x: seq<T>, y: seq<T>, z: seq<T>)
    ensures x + (y + z) == (x + y) + z
  {
  }

  /** The positions of the stored records that are in scope and match. */
  ghost function MatchingPositions(ms: seq<Message>, s: Scope, q: Query): set<int> {
    set i | 0 <= i < |ms| && InScope(s, ms[i]) && Matches(q, ms[i])
  }

  lemma {:induction false} FoundAtMatchingPositions(ms: seq<Message>, s: Scope, q: Query)
    ensures |Find(ms, s, q)| == |MatchingPositions(ms, s, q)|
    decreases |ms|
  {
    if ms == [] {
      assert MatchingPositions(ms, s, q) == {};
    } else {
      var init, last := ms[..|ms| - 1], ms[|ms| - 1];
      SnocSplit(ms);
      FindConcat(init, [last], s, q);
      FindSingleton(last, s, q);
      FoundAtMatchingPositions(init, s, q);
      PositionsSnoc(init, last, s, q);
    }
  }

  /** A record added at the end is at a new position, which counts when it matches. */
  lemma PositionsSnoc(init: seq<Message>, last: Message, s: Scope, q: Query)
    ensures |MatchingPositions(init + [last], s, q)|
         == |MatchingPositions(init, s, q)| + if InScope(s, last) && Matches(q, last) then 1 else 0
  {
    var ms := init + [last];
    var before, after := MatchingPositions(init, s, q), MatchingPositions(ms, s, q);
    var added: set<int> := if InScope(s, last) && Matches(q, last) then {|init|} else {};
    forall i ensures i in after <==> i in before + added {
      PositionSnoc(init, last, s, q, i);
    }
    assert after == before + added;
    assert before !! added;
  }

  lemma PositionSnoc(init: seq<Message>, last: Message, s: Scope, q: Query, i: int)
    ensures i in MatchingPositions(init + [last], s, q)
        <==> i in MatchingPositions(init, s, q) || (i == |init| && InScope(s, last) && Matches(q, last))
  {
    if 0 <= i < |init| { assert (init + [last])[i] == init[i]; }
  }

  lemma FindSingleton(x: Message, s: Scope, q: Query)
    ensures Find([x], s, q) == if InScope(s, x) && Matches(q, x) then [x] else []
  {
    assert [x][1..] == [];
  }

  /** `count(q)`: how many stored records are in scope and match. */
  function Count(ms: seq<Message>, s: Scope, q: Query): (r: nat)
    ensures r == |MatchingPositions(ms, s, q)|
    ensures r <= |ms|
    ensures r == 0 <==> forall m :: m in ms ==> !(InScope(s, m) && Matches(q, m))
  {
    FoundAtMatchingPositions(ms, s, q);
    var found := Find(ms, s, q);
    assert found != [] ==> found[0] in found;
    |found|
  }

  /** `findOne(q)`: the first record in scope that matches, if any. */
  function FindOne(ms: seq<Message>, s: Scope, q: Query): (r: Option<Message>)
    ensures r.None? <==> forall m :: m in ms ==> !(InScope(s, m) && Matches(q, m))
    ensures r.Some? ==> r.value in ms && InScope(s, r.value) && Matches(q, r.value)
  {
    var found := Find(ms, s, q);
    if found == [] then None else assert found[0] in found; Some(found[0])
  }

  /** The `$set` documents the repository issues. */
  datatype Change =
    | SetSeen(seen: bool, at: int)
    | SetFeed(feedId: Id)
    | SetOutcome(status: DeliveryStatus, payload: Payload, errorId: Option<string>, errorText: Option<string>)
    | MarkDeleted

  /** A `$set` writes its own fields; identity, tenant, routing and creation time are
      never touched, and only the delete sets the deleted flag. */
  function Apply(c: Change, m: Message): (r: Message)
    ensures r.id == m.id && r.environmentId == m.environmentId && r.createdAt == m.createdAt
    ensures r.subscriberId == m.subscriberId && r.channel == m.channel && r.messageTemplateId == m.messageTemplateId
    ensures r.deleted == (m.deleted || c.MarkDeleted?)
    ensures c.SetSeen? ==> r.seen == c.seen && r.lastSeenDate == Some(c.at)
    ensures c.SetFeed? ==> r.feedId == Some(c.feedId)
    ensures c.SetOutcome? ==> r.status == c.status && r.providerPayload == c.payload
                              && r.errorId == c.errorId && r.errorText == c.errorText
  {
    match c
    case SetSeen(seen, at) => m.(seen := seen, lastSeenDate := Some(at))
    case SetFeed(feedId) => m.(feedId := Some(feedId))
    case SetOutcome(status, payload, errorId, errorText) =>
      m.(status := status, errorId := errorId, errorText := errorText, providerPayload := payload)
    case MarkDeleted => m.(deleted := true)
  }

  /** `update(q, {$set: c})` applied to every record in scope that matches; the rest
      of the collection is left as it was. */
  function UpdateMany(ms: seq<Message>, s: Scope, q: Query, c: Change): (r: seq<Message>)
    ensures |r| == |ms|
    ensures forall i :: 0 <= i < |ms| ==>
      r[i] == if InScope(s, ms[i]) && Matches(q, ms[i]) then Apply(c, ms[i]) else ms[i]
  {
    if ms == [] then []
    else
      var head := if InScope(s, ms[0]) && Matches(q, ms[0]) then Apply(c, ms[0]) else ms[0];
      [head] + UpdateMany(ms[1..], s, q, c)
  }

  /** Updates never change a record's id, so unique ids stay unique. */
  lemma UpdateManyKeepsIds(ms: seq<Message>, s: Scope, q: Query, c: Change)
    requires UniqueIds(ms)
    ensures UniqueIds(UpdateMany(ms, s, q, c))
  {
    var r := UpdateMany(ms, s, q, c);
    forall i, j | 0 <= i < j < |r| ensures r[i].id != r[j].id {
      assert r[i].id == ms[i].id && r[j].id == ms[j].id;
    }
  }

  /** Sort order `-createdAt`. */
  ghost predicate NewestFirst(ms: seq<Message>) {
    forall i, j :: 0 <= i < j < |ms| ==> ms[i].createdAt >= ms[j].createdAt
  }

  /** Putting a record in front of a newest-first list keeps it newest first when no
      record of the list is newer. */
  lemma PrependNewest(x: Message, rest: seq<Message>)
    requires NewestFirst(rest)
    requires forall y :: y in rest ==> y.createdAt <= x.createdAt
    ensures NewestFirst([x] + rest)
  {
    var r := [x] + rest;
    forall i, j | 0 <= i < j < |r| ensures r[i].createdAt >= r[j].createdAt {
      if i > 0 { assert r[i] == rest[i - 1] && r[j] == rest[j - 1]; }
      else { assert r[j] in rest; }
    }
  }

  /** Insertion of one record into a newest-first list. */
  function InsertNewestFirst(m: Message, ms: seq<Message>): (r: seq<Message>)
    ensures |r| == |ms| + 1
  {
    if ms == [] || m.createdAt >= ms[0].createdAt then [m] + ms
    else [ms[0]] + InsertNewestFirst(m, ms[1..])
  }

  lemma {:induction false} InsertNewestFirstSound(m: Message, ms: seq<Message>)
    requires NewestFirst(ms)
    ensures NewestFirst(InsertNewestFirst(m, ms))
    ensures multiset(InsertNewestFirst(m, ms)) == multiset(ms) + multiset{m}
  {
    if ms == [] || m.createdAt >= ms[0].createdAt {
      InsertInFront(m, ms);
    } else {
      InsertNewestFirstSound(m, ms[1..]);
      InsertBehindHead(m, ms);
    }
  }

  lemma InsertInFront(m: Message, ms: seq<Message>)
    requires NewestFirst(ms)
    requires ms == [] || m.createdAt >= ms[0].createdAt
    ensures NewestFirst([m] + ms)
    ensures multiset([m] + ms) == multiset(ms) + multiset{m}
  {
    forall y | y in ms ensures y.createdAt <= m.createdAt {
      var k :| 0 <= k < |ms| && ms[k] == y;
      assert ms[0].createdAt >= ms[k].createdAt;
    }
    PrependNewest(m, ms);
  }

  lemma InsertBehindHead(m: Message, ms: seq<Message>)
    requires NewestFirst(ms) && ms != [] && m.createdAt < ms[0].createdAt
    requires NewestFirst(InsertNewestFirst(m, ms[1..]))
    requires multiset(InsertNewestFirst(m, ms[1..])) == multiset(ms[1..]) + multiset{m}
    ensures NewestFirst(InsertNewestFirst(m, ms))
    ensures multiset(InsertNewestFirst(m, ms)) == multiset(ms) + multiset{m}
  {
    var rest := InsertNewestFirst(m, ms[1..]);
    assert InsertNewestFirst(m, ms) == [ms[0]] + rest;
    ConsSplit(ms, []);
    assert multiset(ms) == multiset{ms[0]} + multiset(ms[1..]);
    forall y | y in rest ensures y.createdAt <= ms[0].createdAt {
      NotNewerThanHead(ms, m, rest, y);
    }
    PrependNewest(ms[0], rest);
  }

  /** Every record of the tail of a newest-first list, with an older record added, is
      no newer than the list's head. */
  lemma NotNewerThanHead(ms: seq<Message>, m: Message, rest: seq<Message>, y: Message)
    requires ms != [] && NewestFirst(ms) && m.createdAt < ms[0].createdAt
    requires multiset(rest) == multiset(ms[1..]) + multiset{m}
    requires y in rest
    ensures y.createdAt <= ms[0].createdAt
  {
    assert y in multiset(rest);
    if y != m {
      assert y in multiset(ms[1..]);
      var k :| 0 <= k < |ms[1..]| && ms[1..][k] == y;
      assert ms[k + 1] == y;
    }
  }

  /** `sort('-createdAt')`: the same records, newest first. Records with equal
      creation times keep their stored order here; the storage layer does not
      promise any particular order among them. */
  function SortNewestFirst(ms: seq<Message>): (r: seq<Message>)
    ensures NewestFirst(r)
    ensures multiset(r) == multiset(ms)
    ensures |r| == |ms|
  {
    if ms == [] then []
    else
      assert ms == [ms[0]] + ms[1..];
      InsertNewestFirstSound(ms[0], SortNewestFirst(ms[1..]));
      InsertNewestFirst(ms[0], SortNewestFirst(ms[1..]))
  }

  /** `skip(skip).limit(limit)`, where a limit of 0 means no limit. */
  function Page<T>(s: seq<T>, skip: nat, limit: nat): (r: seq<T>)
    ensures |r| == if skip >= |s| then 0 else if limit == 0 || |s| - skip <= limit then |s| - skip else limit
    ensures forall i :: 0 <= i < |r| ==> r[i] == s[skip + i]
  {
    if skip >= |s| then []
    else if limit == 0 || |s| - skip <= limit then s[skip..]
    else s[skip..skip + limit]
  }

  /** Reading page after page with the same limit visits every record exactly once:
      the page at `skip` followed by everything from `skip + limit` on is everything
      from `skip` on. */
  lemma PagesTile<T>(s: seq<T>, skip: nat, limit: nat)
    requires limit > 0
    ensures Page(s, skip, limit) + Page(s, skip + limit, 0) == Page(s, skip, 0)
  {
    if skip < |s| && |s| - skip > limit {
      assert s[skip..skip + limit] + s[skip + limit..] == s[skip..];
    }
  }

  /** A page of a newest-first listing is itself newest first, holds only records of
      the listing and is no longer than the listing. */
  lemma PageOfSorted(ms: seq<Message>, skip: nat, limit: nat)
    ensures NewestFirst(Page(SortNewestFirst(ms), skip, limit))
    ensures forall m :: m in Page(SortNewestFirst(ms), skip, limit) ==> m in ms
    ensures |Page(SortNewestFirst(ms), skip, limit)| <= |ms|
    ensures limit > 0 ==> |Page(SortNewestFirst(ms), skip, limit)| <= limit
  {
    var sorted := SortNewestFirst(ms);
    var page := Page(sorted, skip, limit);
    forall m | m in page ensures m in ms {
      var i :| 0 <= i < |page| && page[i] == m;
      assert m == sorted[skip + i];
      assert m in multiset(sorted);
    }
    forall i, j | 0 <= i < j < |page| ensures page[i].createdAt >= page[j].createdAt {
      assert page[i] == sorted[skip + i] && page[j] == sorted[skip + j];
    }
  }
}
