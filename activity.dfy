/** Per-day message volume for the activity graph: group by calendar day, count,
    newest day first. */
module ActivityStats {
  import opened Messages

  const MillisPerDay: int := 86400000

  /** The UTC calendar day of a timestamp, as a day number since the epoch (floor
      division: Dafny's `/` with a positive divisor rounds towards minus infinity). */
  function DayOf(t: int): (r: int)
    ensures r * MillisPerDay <= t < r * MillisPerDay + MillisPerDay
  {
    t / MillisPerDay
  }

  /** One group of the aggregation: `{_id: day, count}`. */
  datatype DayCount = DayCount(day: int, count: nat)

  /** Strictly descending day keys: sorted newest first with no day twice. */
  ghost predicate NewestDayFirst(bs: seq<DayCount>) {
    forall i, j :: 0 <= i < j < |bs| ==> bs[i].day > bs[j].day
  }

  ghost predicate NoEmptyBucket(bs: seq<DayCount>) {
    forall i :: 0 <= i < |bs| ==> bs[i].count > 0
  }

  /** The count held for a day, 0 when the day has no bucket. */
  function CountFor(bs: seq<DayCount>, d: int): nat {
    if bs == [] then 0 else if bs[0].day == d then bs[0].count else CountFor(bs[1..], d)
  }

  /** The sum of all bucket counts. */
  function Total(bs: seq<DayCount>): nat {
    if bs == [] then 0 else bs[0].count + Total(bs[1..])
  }

  /** How many of the messages were created on day `d`. */
  function CreatedOn(ms: seq<Message>, d: int): nat {
    if ms == [] then 0 else (if DayOf(ms[0].createdAt) == d then 1 else 0) + CreatedOn(ms[1..], d)
  }

  /** In a newest-first list, a day newer than the head has no bucket. */
  lemma {:induction false} CountForAbsent(bs: seq<DayCount>, d: int)
    requires NewestDayFirst(bs)
    requires bs != [] ==> d > bs[0].day
    ensures CountFor(bs, d) == 0
  {
    if bs != [] {
      if |bs| > 1 { assert bs[0].day > bs[1].day; }
      CountForAbsent(bs[1..], d);
    }
  }

  /** Adds one message of day `d` to the buckets, keeping them newest first. */
  function Bump(bs: seq<DayCount>, d: int): (r: seq<DayCount>)
    requires NewestDayFirst(bs) && NoEmptyBucket(bs)
    ensures NewestDayFirst(r) && NoEmptyBucket(r)
    ensures forall e :: CountFor(r, e) == CountFor(bs, e) + (if e == d then 1 else 0)
    ensures Total(r) == Total(bs) + 1
    ensures r != [] && (bs == [] || r[0].day == bs[0].day || r[0].day == d)
  {
    if bs == [] then [DayCount(d, 1)]
    else if bs[0].day == d then [DayCount(d, bs[0].count + 1)] + bs[1..]
    else if bs[0].day < d then
      CountForAbsent(bs, d);
      [DayCount(d, 1)] + bs
    else
      var rest := Bump(bs[1..], d);
      assert forall e :: e != bs[0].day ==> CountFor(bs, e) == CountFor(bs[1..], e);
      assert bs[1..] != [] ==> bs[0].day > bs[1].day;
      CountForAbsent(bs[1..], bs[0].day);
      [bs[0]] + rest
  }

  /** `$group` by day and `$sort: {_id: -1}` over the matched messages. */
  function Tally(ms: seq<Message>): (r: seq<DayCount>)
    ensures NewestDayFirst(r) && NoEmptyBucket(r)
    ensures forall d :: CountFor(r, d) == CreatedOn(ms, d)
    ensures Total(r) == |ms|
  {
    if ms == [] then [] else Bump(Tally(ms[1..]), DayOf(ms[0].createdAt))
  }

  /** Every day some message was created on has a bucket, holding exactly that many. */
  lemma {:induction false} EveryDayHasItsBucket(ms: seq<Message>, k: nat)
    requires k < |ms|
    ensures exists i :: 0 <= i < |Tally(ms)| && Tally(ms)[i] == DayCount(DayOf(ms[k].createdAt), CreatedOn(ms, DayOf(ms[k].createdAt)))
  {
    var d := DayOf(ms[k].createdAt);
    CreatedOnPositive(ms, k);
    BucketOf(Tally(ms), d);
  }

  lemma {:induction false} CreatedOnPositive(ms: seq<Message>, k: nat)
    requires k < |ms|
    ensures CreatedOn(ms, DayOf(ms[k].createdAt)) > 0
  {
    if k > 0 { CreatedOnPositive(ms[1..], k - 1); }
  }

  /** A positive count for a day comes from a bucket of that day. */
  lemma {:induction false} BucketOf(bs: seq<DayCount>, d: int)
    requires CountFor(bs, d) > 0
    ensures exists i :: 0 <= i < |bs| && bs[i] == DayCount(d, CountFor(bs, d))
  {
    if bs[0].day == d {
      assert bs[0] == DayCount(d, CountFor(bs, d));
    } else {
      BucketOf(bs[1..], d);
      var i :| 0 <= i < |bs[1..]| && bs[1..][i] == DayCount(d, CountFor(bs[1..], d));
      assert bs[i + 1] == bs[1..][i];
    }
  }
}
