/** The admin overview page: three counters and a feed of the most recent
    sign-ups, testimonials and partners, newest first. */
module AdminDashboard {
  import opened Common

  /** A row of one of the three recent-items queries: its display name and
      its `created_at`, as a timestamp. */
  datatype Row = Row(name: string, createdAt: int)

  /** The three tables the feed reads. */
  datatype Source = Customers | Testimonials | Partners

  /** The type label a feed entry of each source carries. */
  function Tag(src: Source): string
  {
    match src
    case Customers => "Novo Cliente"
    case Testimonials => "Depoimento"
    case Partners => "Parceiro"
  }

  lemma TagsDistinct(a: Source, b: Source)
    ensures Tag(a) == Tag(b) <==> a == b
  {
  }

  /** A feed entry. */
  datatype Activity = Activity(kind: string, details: string, time: int)

  function ActivityOf(src: Source, r: Row): Activity
  {
    Activity(Tag(src), r.name, r.createdAt)
  }

  /** The entries one source contributes: one per row, in row order; none
      when the query returned no data. */
  function Tagged(src: Source, rows: Option<seq<Row>>): (r: seq<Activity>)
    ensures rows.None? ==> r == []
    ensures rows.Some? ==> |r| == |rows.value|
    ensures rows.Some? ==> forall i :: 0 <= i < |r| ==> r[i] == ActivityOf(src, rows.value[i])
  {
    match rows
    case None => []
    case Some(rs) => seq(|rs|, i requires 0 <= i < |rs| => ActivityOf(src, rs[i]))
  }

  /** Everything gathered before sorting, customers first, then testimonials,
      then partners. */
  function Gathered(customers: Option<seq<Row>>, testimonials: Option<seq<Row>>, partners: Option<seq<Row>>): seq<Activity>
  {
    Tagged(Customers, customers) + Tagged(Testimonials, testimonials) + Tagged(Partners, partners)
  }

  /** Each gathered entry is a row of exactly one source, with that source's
      label, name and timestamp. */
  lemma GatheredOrigin(customers: Option<seq<Row>>, testimonials: Option<seq<Row>>, partners: Option<seq<Row>>, a: Activity)
    requires a in Gathered(customers, testimonials, partners)
    ensures exists src: Source, rows: Option<seq<Row>>, r: Row ::
              rows == (match src case Customers => customers case Testimonials => testimonials case Partners => partners)
              && rows.Some? && r in rows.value && a == ActivityOf(src, r)
  {
    var c, t := Tagged(Customers, customers), Tagged(Testimonials, testimonials);
    if a in c {
      var i :| 0 <= i < |c| && c[i] == a;
      assert customers.value[i] in customers.value;
    } else if a in t {
      var i :| 0 <= i < |t| && t[i] == a;
      assert testimonials.value[i] in testimonials.value;
    } else {
      var p := Tagged(Partners, partners);
      assert a in p;
      var i :| 0 <= i < |p| && p[i] == a;
      assert partners.value[i] in partners.value;
    }
  }

  /** With each query limited to three rows, at most nine entries are
      gathered. */
  lemma AtMostNine(customers: Option<seq<Row>>, testimonials: Option<seq<Row>>, partners: Option<seq<Row>>)
    requires customers.Some? ==> |customers.value| <= 3
    requires testimonials.Some? ==> |testimonials.value| <= 3
    requires partners.Some? ==> |partners.value| <= 3
    ensures |Gathered(customers, testimonials, partners)| <= 9
  {
  }

  /** The `forEach` that pushes one source's rows onto the activity list. */
  method PushAll(activities: seq<Activity>, src: Source, rows: Option<seq<Row>>) returns (result: seq<Activity>)
    ensures result == activities + Tagged(src, rows)
  {
    result := activities;
    if rows.Some? {
      var rs := rows.value;
      var i := 0;
      while i < |rs|
        invariant 0 <= i <= |rs|
        invariant result == activities + Tagged(src, Some(rs[..i]))
      {
        assert Tagged(src, Some(rs[..i + 1])) == Tagged(src, Some(rs[..i])) + [ActivityOf(src, rs[i])];
        result := result + [ActivityOf(src, rs[i])];
        i := i + 1;
      }
      assert rs[..i] == rs;
    }
  }

  /** Newest first: no entry is newer than one before it. */
  predicate NewestFirst(s: seq<Activity>)
  {
    forall p, q :: 0 <= p < q < |s| ==> s[p].time >= s[q].time
  }

  /** Exchanges two neighbouring entries. */
  method SwapDown(a: array<Activity>, j: int)
    requires 0 < j < a.Length
    modifies a
    ensures a[..] == old(a[..])[j - 1 := old(a[j])][j := old(a[j - 1])]
    ensures multiset(a[..]) == multiset(old(a[..]))
  {
    a[j - 1], a[j] := a[j], a[j - 1];
  }

  /** One pass of the insertion sort: the entry at `i` moves down past every
      older entry before it. */
  method InsertAt(a: array<Activity>, i: int)
    requires 0 <= i < a.Length && NewestFirst(a[..i])
    modifies a
    ensures NewestFirst(a[..i + 1])
    ensures a[i + 1..] == old(a[i + 1..])
    ensures multiset(a[..]) == multiset(old(a[..]))
  {
    var j := i;
    while j > 0 && a[j - 1].time < a[j].time
      invariant 0 <= j <= i
      invariant a[i + 1..] == old(a[i + 1..])
      invariant multiset(a[..]) == multiset(old(a[..]))
      invariant forall p, q :: 0 <= p < q <= i && q != j ==> a[p].time >= a[q].time
      invariant 0 < j < i ==> a[j - 1].time >= a[j + 1].time
    {
      SwapDown(a, j);
      j := j - 1;
    }
  }

  /** `activities.sort(...)` with the comparator `time(b) - time(a)`, as an
      insertion sort in place. */
  method SortNewestFirst(a: array<Activity>)
    modifies a
    ensures NewestFirst(a[..])
    ensures multiset(a[..]) == multiset(old(a[..]))
  {
    var i := 0;
    while i < a.Length
      invariant 0 <= i <= a.Length
      invariant NewestFirst(a[..i])
      invariant multiset(a[..]) == multiset(old(a[..]))
    {
      InsertAt(a, i);
      i := i + 1;
    }
    assert a[..i] == a[..];
  }

  function Min(a: int, b: int): int
  {
    if a <= b then a else b
  }

  /** The feed's length limit. */
  const FeedSize: int := 6

  /** `top` is a feed of `activities`: the newest `FeedSize` of them (all
      when fewer), newest first, and every entry left out is no newer than any
      entry kept. */
  predicate FeedOf(activities: seq<Activity>, top: seq<Activity>)
  {
    && |top| == Min(FeedSize, |activities|)
    && NewestFirst(top)
    && multiset(top) <= multiset(activities)
    && forall x, y :: x in multiset(activities) - multiset(top) && y in top ==> x.time <= y.time
  }

  /** Sort the gathered entries and keep the first six. */
  method NewestSix(activities: seq<Activity>) returns (top: seq<Activity>)
    ensures FeedOf(activities, top)
  {
    var a := new Activity[|activities|](i requires 0 <= i < |activities| => activities[i]);
    assert a[..] == activities;
    SortNewestFirst(a);
    var k := Min(FeedSize, a.Length);
    top := a[..k];
    assert a[..] == top + a[k..];
    assert multiset(a[..]) == multiset(top) + multiset(a[k..]);
    forall x, y | x in multiset(activities) - multiset(top) && y in top
      ensures x.time <= y.time
    {
      assert x in a[k..];
      var p :| 0 <= p < |top| && top[p] == y;
      var q :| k <= q < a.Length && a[q] == x;
      assert a[p] == y;
    }
  }

  /** The three counters; a count the backend does not report shows as 0. */
  datatype Totals = Totals(customers: int, testimonials: int, partners: int)

  class Dashboard {
    var totals: Totals
    var recent: seq<Activity>

    constructor ()
      ensures totals == Totals(0, 0, 0) && recent == []
    {
      totals := Totals(0, 0, 0);
      recent := [];
    }

    /** `fetchTotals`: each count, or 0 where it came back null. */
    method FetchTotals(customers: Option<int>, testimonials: Option<int>, partners: Option<int>)
      modifies this`totals
      ensures totals.customers == (if customers.Some? then customers.value else 0)
      ensures totals.testimonials == (if testimonials.Some? then testimonials.value else 0)
      ensures totals.partners == (if partners.Some? then partners.value else 0)
    {
      totals := Totals(customers.GetOr(0), testimonials.GetOr(0), partners.GetOr(0));
    }

    /** `fetchRecent`: gather the three answers (a source without data adds
        nothing), sort newest first and keep six. */
    method FetchRecent(customers: Option<seq<Row>>, testimonials: Option<seq<Row>>, partners: Option<seq<Row>>)
      modifies this`recent
      ensures FeedOf(Gathered(customers, testimonials, partners), recent)
    {
      var activities := PushAll([], Customers, customers);
      assert activities == Tagged(Customers, customers);
      activities := PushAll(activities, Testimonials, testimonials);
      activities := PushAll(activities, Partners, partners);
      assert activities == Gathered(customers, testimonials, partners);
      recent := NewestSix(activities);
    }
  }
}
