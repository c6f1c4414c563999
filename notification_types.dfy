/** The notification and feature-request records and the pure helpers that
    go with them: relative-time text, grouping by calendar day, sorting and
    filtering. Timestamps are integers (milliseconds since the epoch) and a
    calendar day is an integer day number in local time. */
module NotificationTypes {
  import opened Remote
  import opened Text

  datatype NotificationType = StatusUpdate | AdminResponse | SubscribedUpdate | FeatureAnnouncement | SystemAnnouncement

  datatype FeatureRequestStatus = Pending | UnderReview | InProgress | Completed | Rejected

  datatype FeatureRequestCategory =
    | AiFeatures | EmailAutomation | UiUx | JobTracking | CvManagement
    | Integrations | Analytics | Performance | Mobile | OtherCategory

  datatype RelatedEntityType = FeatureRequestEntity | SystemEntity

  datatype Notification = Notification(
    id: string,
    kind: NotificationType,
    title: string,
    message: string,
    relatedEntityId: Option<string>,
    relatedEntityType: Option<RelatedEntityType>,
    isRead: bool,
    createdAt: int)

  datatype FeatureRequest = FeatureRequest(
    id: string,
    userId: string,
    userEmail: string,
    title: string,
    description: string,
    category: FeatureRequestCategory,
    categoryDisplayName: string,
    status: FeatureRequestStatus,
    statusDisplayName: string,
    adminResponse: Option<string>,
    voteCount: int,
    hasVoted: bool,
    createdAt: int,
    updatedAt: int)

  /** One page of a paginated listing. */
  datatype Page<T> = Page(content: seq<T>, page: int, size: int, totalElements: int, totalPages: int, last: bool)

  datatype RequestSortOption = MostVoted | Newest | Oldest

  /** A status filter: `'ALL'` or one status. */
  datatype StatusFilter = AllStatuses | OnlyStatus(status: FeatureRequestStatus)

  /** A category filter: `'ALL'` or one category. */
  datatype CategoryFilter = AllCategories | OnlyCategory(category: FeatureRequestCategory)

  datatype RequestFilters = RequestFilters(status: StatusFilter, category: CategoryFilter, sortBy: RequestSortOption)

  datatype GroupedNotifications = GroupedNotifications(
    today: seq<Notification>,
    yesterday: seq<Notification>,
    thisWeek: seq<Notification>,
    older: seq<Notification>)

  // ---------------------------------------------------------------------
  // Relative time
  // ---------------------------------------------------------------------

  datatype TimeUnit = Minute | Hour | Day | Week | Month | Year

  /** The shape of the text `formatRelativeTime` produces. */
  datatype RelativeTime = JustNow | Ago(count: int, unit: TimeUnit)

  /** `Math.floor((now - date) / 1000)`; Dafny's division by a positive
      divisor rounds toward minus infinity, as `Math.floor` does. */
  function DiffInSeconds(createdAt: int, now: int): int {
    (now - createdAt) / 1000
  }

  /** The unit chosen by `formatRelativeTime` for a difference in seconds,
      as the source writes it. */
  function RelativeTimeOf(diffInSeconds: int): RelativeTime {
    if diffInSeconds < 60 then JustNow
    else
      var minutes := diffInSeconds / 60;
      if minutes < 60 then Ago(minutes, Minute)
      else
        var hours := minutes / 60;
        if hours < 24 then Ago(hours, Hour)
        else
          var days := hours / 24;
          if days < 7 then Ago(days, Day)
          else
            var weeks := days / 7;
            if weeks < 4 then Ago(weeks, Week)
            else
              var months := days / 30;
              if months < 12 then Ago(months, Month)
              else Ago(days / 365, Year)
  }

  function SingularName(u: TimeUnit): string {
    match u
    case Minute => "minute"
    case Hour => "hour"
    case Day => "day"
    case Week => "week"
    case Month => "month"
    case Year => "year"
  }

  /** The unit word: singular exactly when the count is 1. */
  function UnitWord(count: int, u: TimeUnit): (w: string)
    ensures w == SingularName(u) <==> count == 1
    ensures count != 1 ==> w == SingularName(u) + "s"
  {
    if count == 1 then SingularName(u) else SingularName(u) + "s"
  }

  function Render(r: RelativeTime): string {
    match r
    case JustNow => "just now"
    case Ago(c, u) => IntToString(c) + " " + UnitWord(c, u) + " ago"
  }

  /** `formatRelativeTime(createdAt)` evaluated at time `now`. */
  function FormatRelativeTime(createdAt: int, now: int): string {
    Render(RelativeTimeOf(DiffInSeconds(createdAt, now)))
  }

  /** Whole minutes of whole minutes are whole hours, and whole days
      follow from whole hours. */
  lemma NestedFloors(s: int)
    requires s >= 0
    ensures s / 60 / 60 == s / 3600
    ensures s / 3600 / 24 == s / 86400
  {
    var h := s / 3600;
    var rh := s % 3600;
    assert s == 3600 * h + rh;
    assert s / 60 == 60 * h + rh / 60;
    var d := s / 86400;
    var rd := s % 86400;
    assert s == 86400 * d + rd;
    assert h == 24 * d + rd / 3600;
  }

  /** The bucket boundaries in terms of the difference in seconds `s` and
      in whole days `s / 86400`: under a minute is "just now"; then minutes
      below an hour, hours below a day, days below a week, weeks below 28 days,
      months below 360 days and years from there on. Each count is the floor of
      the difference in that unit (months of 30 days, years of 365). */
  lemma RelativeTimeBuckets(s: int)
    ensures s < 60 <==> RelativeTimeOf(s) == JustNow
    ensures 60 <= s < 3600 ==> RelativeTimeOf(s) == Ago(s / 60, Minute)
    ensures 3600 <= s < 86400 ==> RelativeTimeOf(s) == Ago(s / 3600, Hour)
    ensures s >= 86400 ==>
      var days := s / 86400;
      && (days < 7 ==> RelativeTimeOf(s) == Ago(days, Day))
      && (7 <= days < 28 ==> RelativeTimeOf(s) == Ago(days / 7, Week))
      && (28 <= days < 360 ==> RelativeTimeOf(s) == Ago(days / 30, Month))
      && (360 <= days ==> RelativeTimeOf(s) == Ago(days / 365, Year))
  {
    if s >= 60 {
      NestedFloors(s);
    }
  }

  /** As written, 28 and 29 days give "0 months ago" and 360 to 364 days
      give "0 years ago": the week test fails at 4 weeks and the month test
      at 12 months before the next unit has reached 1. */
  lemma ZeroCountAsWritten()
    ensures RelativeTimeOf(28 * 86400) == Ago(0, Month)
    ensures FormatRelativeTime(0, 28 * 86400 * 1000) == "0 months ago"
    ensures RelativeTimeOf(360 * 86400) == Ago(0, Year)
    ensures FormatRelativeTime(0, 360 * 86400 * 1000) == "0 years ago"
  {
    ZeroMonthsAsWritten();
    ZeroYearsAsWritten();
  }

  lemma ZeroMonthsAsWritten()
    ensures RelativeTimeOf(28 * 86400) == Ago(0, Month)
    ensures FormatRelativeTime(0, 28 * 86400 * 1000) == "0 months ago"
  {
    RelativeTimeBuckets(28 * 86400);
    assert DiffInSeconds(0, 28 * 86400 * 1000) == 28 * 86400;
    RenderZero(Month);
  }

  lemma ZeroYearsAsWritten()
    ensures RelativeTimeOf(360 * 86400) == Ago(0, Year)
    ensures FormatRelativeTime(0, 360 * 86400 * 1000) == "0 years ago"
  {
    RelativeTimeBuckets(360 * 86400);
    assert DiffInSeconds(0, 360 * 86400 * 1000) == 360 * 86400;
    RenderZero(Year);
  }

  /** A zero count is rendered with the plural unit word. */
  lemma RenderZero(u: TimeUnit)
    ensures Render(Ago(0, u)) == "0 " + SingularName(u) + "s ago"
  {
    assert NatToString(0) == "0";
  }

  /** As written, a zero count appears exactly for differences of 28 or 29
      whole days ("0 months ago") and of 360 to 364 whole days ("0 years
      ago"); every other difference of a minute or more has a count of at
      least 1. So the literal 28-day and 360-day cases of ZeroCountAsWritten
      are the first of ranges of two and five days. */
  lemma ZeroCountRanges(s: int)
    ensures RelativeTimeOf(s) == Ago(0, Month) <==> 28 * 86400 <= s < 30 * 86400
    ensures RelativeTimeOf(s) == Ago(0, Year) <==> 360 * 86400 <= s < 365 * 86400
    ensures RelativeTimeOf(s).Ago? && RelativeTimeOf(s).count == 0 <==>
      28 * 86400 <= s < 30 * 86400 || 360 * 86400 <= s < 365 * 86400
  {
    RelativeTimeBuckets(s);
  }

  /** The rendered text reads back: it starts with the count's decimal
      text, which holds no space and parses back to the count, then one
      space, then the unit word and " ago"; the word is singular exactly
      when the count is 1 and plural otherwise. So no text pairs a count of
      1 with a plural word or any other count with a singular one. */
  lemma RenderReadsBack(c: int, u: TimeUnit)
    ensures var t := Render(Ago(c, u)); var n := IntToString(c);
      && |t| > |n| && t[..|n|] == n && t[|n|] == ' ' && ' ' !in n
      && IsIntText(t[..|n|]) && ParseInt(t[..|n|]) == c
      && (t[|n| + 1..] == SingularName(u) + " ago" <==> c == 1)
      && (t[|n| + 1..] == SingularName(u) + "s ago" <==> c != 1)
  {
    IntToStringReadsBack(c);
    var n := IntToString(c);
    var rest := UnitWord(c, u) + " ago";
    assert Render(Ago(c, u)) == n + " " + rest;
    SplitAtSpace(n, rest);
    UnitWordAgo(c, u);
  }

  /** Text joined with a space splits back at that position. */
  lemma SplitAtSpace(n: string, rest: string)
    ensures var t := n + " " + rest;
      |t| > |n| && t[..|n|] == n && t[|n|] == ' ' && t[|n| + 1..] == rest
  {
    var t := n + " " + rest;
    assert t == n + (" " + rest);
  }

  /** The word and " ago" read as singular exactly for a count of 1. */
  lemma UnitWordAgo(c: int, u: TimeUnit)
    ensures UnitWord(c, u) + " ago" == SingularName(u) + " ago" <==> c == 1
    ensures UnitWord(c, u) + " ago" == SingularName(u) + "s ago" <==> c != 1
  {
    var w := SingularName(u);
    assert (w + " ago")[|w|] == ' ' && (w + "s ago")[|w|] == 's';
    assert (w + "s") + " ago" == w + "s ago";
  }

  /** The evidently intended bucketing: a unit is left for the next one only
      once the next unit's count has reached 1, so 28-29 days read "4 weeks
      ago" and 360-364 days "12 months ago". */
  function IntendedRelativeTimeOf(diffInSeconds: int): RelativeTime {
    if diffInSeconds < 60 then JustNow
    else
      var minutes := diffInSeconds / 60;
      if minutes < 60 then Ago(minutes, Minute)
      else
        var hours := minutes / 60;
        if hours < 24 then Ago(hours, Hour)
        else
          var days := hours / 24;
          if days < 7 then Ago(days, Day)
          else
            var weeks := days / 7;
            var months := days / 30;
            if weeks < 4 || months < 1 then Ago(weeks, Week)
            else if months < 12 || days / 365 < 1 then Ago(months, Month)
            else Ago(days / 365, Year)
  }

  /** The intended text never shows a count below 1, and it agrees with the
      source's text wherever the source's count is at least 1. */
  lemma IntendedRelativeTimePositive(s: int)
    ensures IntendedRelativeTimeOf(s).Ago? ==> IntendedRelativeTimeOf(s).count >= 1
    ensures RelativeTimeOf(s).Ago? && RelativeTimeOf(s).count >= 1 ==> IntendedRelativeTimeOf(s) == RelativeTimeOf(s)
    ensures RelativeTimeOf(s) == JustNow <==> IntendedRelativeTimeOf(s) == JustNow
  {
  }

  // ---------------------------------------------------------------------
  // Grouping by calendar day
  // ---------------------------------------------------------------------

  datatype DateBucket = TodayBucket | YesterdayBucket | ThisWeekBucket | OlderBucket

  /** The bucket of a notification created on calendar day `day` when the
      current day is `today`: the same day, the day before, any day from a
      week back on (future days included), or older. */
  function BucketOf(day: int, today: int): DateBucket {
    if day == today then TodayBucket
    else if day == today - 1 then YesterdayBucket
    else if day >= today - 7 then ThisWeekBucket
    else OlderBucket
  }

  /** The notifications of `ns` that fall in bucket `b`, in input order. */
  function InBucket(ns: seq<Notification>, b: DateBucket, dayOf: int -> int, today: int): seq<Notification>
  {
    if ns == [] then []
    else
      var last := ns[|ns| - 1];
      InBucket(ns[..|ns| - 1], b, dayOf, today) + (if BucketOf(dayOf(last.createdAt), today) == b then [last] else [])
  }

  function GroupSpec(ns: seq<Notification>, dayOf: int -> int, today: int): GroupedNotifications {
    GroupedNotifications(
      InBucket(ns, TodayBucket, dayOf, today),
      InBucket(ns, YesterdayBucket, dayOf, today),
      InBucket(ns, ThisWeekBucket, dayOf, today),
      InBucket(ns, OlderBucket, dayOf, today))
  }

  /** `groupNotificationsByDate(ns)`: one pass that pushes each notification
      onto the list of its bucket. `dayOf` gives the local calendar day of a
      timestamp and `today` the current one. */
  method GroupNotificationsByDate(ns: seq<Notification>, dayOf: int -> int, today: int) returns (grouped: GroupedNotifications)
    ensures grouped == GroupSpec(ns, dayOf, today)
    ensures |grouped.today| + |grouped.yesterday| + |grouped.thisWeek| + |grouped.older| == |ns|
    ensures multiset(grouped.today) + multiset(grouped.yesterday) + multiset(grouped.thisWeek) + multiset(grouped.older)
            == multiset(ns)
  {
    grouped := GroupedNotifications([], [], [], []);
    var i := 0;
    while i < |ns|
      invariant 0 <= i <= |ns|
      invariant grouped == GroupSpec(ns[..i], dayOf, today)
    {
      var n := ns[i];
      assert ns[..i + 1][..i] == ns[..i];
      var day := dayOf(n.createdAt);
      if day == today {
        grouped := grouped.(today := grouped.today + [n]);
      } else if day == today - 1 {
        grouped := grouped.(yesterday := grouped.yesterday + [n]);
      } else if day >= today - 7 {
        grouped := grouped.(thisWeek := grouped.thisWeek + [n]);
      } else {
        grouped := grouped.(older := grouped.older + [n]);
      }
      i := i + 1;
    }
    assert ns[..|ns|] == ns;
    GroupingPartitions(ns, dayOf, today);
  }

  /** Every notification lands in exactly one bucket: the four lists
      together are the input, counted with multiplicity. */
  lemma {:induction false} GroupingPartitions(ns: seq<Notification>, dayOf: int -> int, today: int)
    ensures var g := GroupSpec(ns, dayOf, today);
      && |g.today| + |g.yesterday| + |g.thisWeek| + |g.older| == |ns|
      && multiset(g.today) + multiset(g.yesterday) + multiset(g.thisWeek) + multiset(g.older) == multiset(ns)
  {
    if ns != [] {
      var init := ns[..|ns| - 1];
      GroupingPartitions(init, dayOf, today);
      PartitionStep(ns, dayOf, today);
    }
  }

  /** One step of the partition: the last notification goes to exactly
      one bucket. */
  lemma PartitionStep(ns: seq<Notification>, dayOf: int -> int, today: int)
    requires ns != []
    ensures var g0, g, x := GroupSpec(ns[..|ns| - 1], dayOf, today), GroupSpec(ns, dayOf, today), ns[|ns| - 1];
      && |g.today| + |g.yesterday| + |g.thisWeek| + |g.older| == |g0.today| + |g0.yesterday| + |g0.thisWeek| + |g0.older| + 1
      && multiset(g.today) + multiset(g.yesterday) + multiset(g.thisWeek) + multiset(g.older)
         == multiset(g0.today) + multiset(g0.yesterday) + multiset(g0.thisWeek) + multiset(g0.older) + multiset{x}
      && multiset(ns) == multiset(ns[..|ns| - 1]) + multiset{x}
  {
    assert ns == ns[..|ns| - 1] + [ns[|ns| - 1]];
  }

  /** A notification is in bucket `b` exactly when it occurs in the input
      and its day falls in `b`. */
  lemma {:induction false} InBucketMembership(ns: seq<Notification>, b: DateBucket, dayOf: int -> int, today: int, n: Notification)
    ensures n in InBucket(ns, b, dayOf, today) <==> n in ns && BucketOf(dayOf(n.createdAt), today) == b
  {
    if ns != [] {
      var init := ns[..|ns| - 1];
      InBucketMembership(init, b, dayOf, today, n);
      assert ns == init + [ns[|ns| - 1]];
    }
  }

  /** Each bucket keeps the input's order: it is the input with the other
      buckets' notifications taken out, so two notifications of one bucket
      appear in it in the order they had in the input. */
  lemma {:induction false} InBucketKeepsOrder(ns: seq<Notification>, x: Notification, b: DateBucket, dayOf: int -> int, today: int)
    requires BucketOf(dayOf(x.createdAt), today) == b
    ensures InBucket(ns + [x], b, dayOf, today) == InBucket(ns, b, dayOf, today) + [x]
  {
    assert (ns + [x])[..|ns + [x]| - 1] == ns;
  }

  /** The order property over any split of the input: the bucket of a
      concatenation is the bucket of the first part followed by the bucket
      of the second, so no notification of one bucket overtakes another. */
  lemma {:induction false} InBucketAppend(a: seq<Notification>, c: seq<Notification>, b: DateBucket, dayOf: int -> int, today: int)
    ensures InBucket(a + c, b, dayOf, today) == InBucket(a, b, dayOf, today) + InBucket(c, b, dayOf, today)
    decreases |c|
  {
    if c == [] {
      assert a + c == a;
    } else {
      var init := c[..|c| - 1];
      assert (a + c)[..|a + c| - 1] == a + init;
      assert (a + c)[|a + c| - 1] == c[|c| - 1];
      InBucketAppend(a, init, b, dayOf, today);
    }
  }

  // ---------------------------------------------------------------------
  // Sorting and filtering feature requests
  // ---------------------------------------------------------------------

  /** The comparator of each option as an ascending key: `(a, b) => key(a) -
      key(b)` is exactly the comparator the source passes to `sort`. */
  function SortKey(r: FeatureRequest, sortBy: RequestSortOption): int {
    match sortBy
    case MostVoted => -r.voteCount
    case Newest => -r.createdAt
    case Oldest => r.createdAt
  }

  predicate SortedBy(s: seq<FeatureRequest>, sortBy: RequestSortOption) {
    forall i, j :: 0 <= i < j < |s| ==> SortKey(s[i], sortBy) <= SortKey(s[j], sortBy)
  }

  /** The requests of `s` whose key is `k`, in order. */
  function WithKey(s: seq<FeatureRequest>, sortBy: RequestSortOption, k: int): seq<FeatureRequest> {
    if s == [] then []
    else (if SortKey(s[0], sortBy) == k then [s[0]] else []) + WithKey(s[1..], sortBy, k)
  }

  /** A request whose key is not above the head of a sorted list can go in
      front of it. */
  lemma SortedCons(a: FeatureRequest, t: seq<FeatureRequest>, sortBy: RequestSortOption)
    requires SortedBy(t, sortBy)
    requires t != [] ==> SortKey(a, sortBy) <= SortKey(t[0], sortBy)
    ensures SortedBy([a] + t, sortBy)
  {
    var r := [a] + t;
    forall i, j | 0 <= i < j < |r| ensures SortKey(r[i], sortBy) <= SortKey(r[j], sortBy) {
      if i == 0 {
        assert r[j] == t[j - 1];
      } else {
        assert r[i] == t[i - 1] && r[j] == t[j - 1];
      }
    }
  }

  /** Inserts `x` before the first element whose key is not smaller. */
  function Insert(x: FeatureRequest, s: seq<FeatureRequest>, sortBy: RequestSortOption): seq<FeatureRequest> {
    if s == [] || SortKey(x, sortBy) <= SortKey(s[0], sortBy) then [x] + s
    else [s[0]] + Insert(x, s[1..], sortBy)
  }

  /** Insertion adds exactly `x`. */
  lemma {:induction false} InsertPermutes(x: FeatureRequest, s: seq<FeatureRequest>, sortBy: RequestSortOption)
    ensures |Insert(x, s, sortBy)| == |s| + 1
    ensures multiset(Insert(x, s, sortBy)) == multiset(s) + multiset{x}
  {
    if s != [] && SortKey(s[0], sortBy) < SortKey(x, sortBy) {
      InsertPermutes(x, s[1..], sortBy);
      assert s == [s[0]] + s[1..];
    }
  }

  /** Insertion into a sorted list keeps it sorted; its head has the
      smaller of the two candidate keys. */
  lemma {:induction false} InsertSorted(x: FeatureRequest, s: seq<FeatureRequest>, sortBy: RequestSortOption)
    requires SortedBy(s, sortBy)
    ensures Insert(x, s, sortBy) != []
    ensures SortKey(Insert(x, s, sortBy)[0], sortBy) ==
      if s != [] && SortKey(s[0], sortBy) < SortKey(x, sortBy) then SortKey(s[0], sortBy) else SortKey(x, sortBy)
    ensures SortedBy(Insert(x, s, sortBy), sortBy)
  {
    if s == [] || SortKey(x, sortBy) <= SortKey(s[0], sortBy) {
      SortedCons(x, s, sortBy);
    } else {
      var rest := Insert(x, s[1..], sortBy);
      assert SortedBy(s[1..], sortBy) by {
        forall i, j | 0 <= i < j < |s[1..]| ensures SortKey(s[1..][i], sortBy) <= SortKey(s[1..][j], sortBy) {
          assert s[1..][i] == s[i + 1] && s[1..][j] == s[j + 1];
        }
      }
      InsertSorted(x, s[1..], sortBy);
      assert s[1..] != [] ==> s[1..][0] == s[1];
      SortedCons(s[0], rest, sortBy);
    }
  }

  /** `sortFeatureRequests(requests, sortBy)`: a sorted permutation of a copy
      of the input (taken by a stable insertion sort, as the engine's stable
      `Array.prototype.sort` orders it). */
  function SortFeatureRequests(s: seq<FeatureRequest>, sortBy: RequestSortOption): (r: seq<FeatureRequest>)
    ensures SortedBy(r, sortBy)
    ensures multiset(r) == multiset(s)
    ensures |r| == |s|
  {
    if s == [] then []
    else
      var t := SortFeatureRequests(s[1..], sortBy);
      InsertPermutes(s[0], t, sortBy);
      InsertSorted(s[0], t, sortBy);
      assert s == [s[0]] + s[1..];
      Insert(s[0], t, sortBy)
  }

  /** The order each option promises. */
  lemma SortOrder(s: seq<FeatureRequest>, sortBy: RequestSortOption, i: int, j: int)
    requires 0 <= i < j < |s|
    ensures var r := SortFeatureRequests(s, sortBy);
      && (sortBy == MostVoted ==> r[i].voteCount >= r[j].voteCount)
      && (sortBy == Newest ==> r[i].createdAt >= r[j].createdAt)
      && (sortBy == Oldest ==> r[i].createdAt <= r[j].createdAt)
  {
    var r := SortFeatureRequests(s, sortBy);
    assert SortKey(r[i], sortBy) <= SortKey(r[j], sortBy);
  }

  lemma {:induction false} InsertStable(x: FeatureRequest, s: seq<FeatureRequest>, sortBy: RequestSortOption, k: int)
    ensures WithKey(Insert(x, s, sortBy), sortBy, k) == (if SortKey(x, sortBy) == k then [x] else []) + WithKey(s, sortBy, k)
  {
    if s == [] || SortKey(x, sortBy) <= SortKey(s[0], sortBy) {
      assert ([x] + s)[1..] == s;
    } else {
      var rest := Insert(x, s[1..], sortBy);
      InsertStable(x, s[1..], sortBy, k);
      assert Insert(x, s, sortBy) == [s[0]] + rest;
      assert ([s[0]] + rest)[0] == s[0];
      assert ([s[0]] + rest)[1..] == rest;
      assert WithKey([s[0]] + rest, sortBy, k) == (if SortKey(s[0], sortBy) == k then [s[0]] else []) + WithKey(rest, sortBy, k);
    }
  }

  /** Stability: the requests with any one key keep their input order. */
  lemma {:induction false} SortStable(s: seq<FeatureRequest>, sortBy: RequestSortOption, k: int)
    ensures WithKey(SortFeatureRequests(s, sortBy), sortBy, k) == WithKey(s, sortBy, k)
  {
    if s != [] {
      SortStable(s[1..], sortBy, k);
      InsertStable(s[0], SortFeatureRequests(s[1..], sortBy), sortBy, k);
    }
  }

  predicate MatchesStatus(r: FeatureRequest, f: StatusFilter) {
    f.AllStatuses? || r.status == f.status
  }

  predicate MatchesCategory(r: FeatureRequest, f: CategoryFilter) {
    f.AllCategories? || r.category == f.category
  }

  predicate Matches(r: FeatureRequest, f: RequestFilters) {
    MatchesStatus(r, f.status) && MatchesCategory(r, f.category)
  }

  /** `filtered.filter((req) => req.status === filters.status)` unless ALL. */
  function ByStatus(s: seq<FeatureRequest>, f: StatusFilter): seq<FeatureRequest>
  {
    if s == [] then []
    else (if MatchesStatus(s[0], f) then [s[0]] else []) + ByStatus(s[1..], f)
  }

  /** The filter keeps each matching request as often as in the input and
      drops the others. */
  lemma {:induction false} ByStatusCounts(s: seq<FeatureRequest>, f: StatusFilter)
    ensures forall x :: multiset(ByStatus(s, f))[x] == if MatchesStatus(x, f) then multiset(s)[x] else 0
  {
    if s != [] {
      ByStatusCounts(s[1..], f);
      assert s == [s[0]] + s[1..];
    }
  }

  /** `filtered.filter((req) => req.category === filters.category)` unless ALL. */
  function ByCategory(s: seq<FeatureRequest>, f: CategoryFilter): seq<FeatureRequest>
  {
    if s == [] then []
    else (if MatchesCategory(s[0], f) then [s[0]] else []) + ByCategory(s[1..], f)
  }

  /** The filter keeps each matching request as often as in the input and
      drops the others. */
  lemma {:induction false} ByCategoryCounts(s: seq<FeatureRequest>, f: CategoryFilter)
    ensures forall x :: multiset(ByCategory(s, f))[x] == if MatchesCategory(x, f) then multiset(s)[x] else 0
  {
    if s != [] {
      ByCategoryCounts(s[1..], f);
      assert s == [s[0]] + s[1..];
    }
  }

  /** The status filter keeps the input order: filtering a concatenation
      concatenates the filtered parts. */
  lemma {:induction false} ByStatusAppend(a: seq<FeatureRequest>, b: seq<FeatureRequest>, f: StatusFilter)
    ensures ByStatus(a + b, f) == ByStatus(a, f) + ByStatus(b, f)
  {
    if a == [] {
      assert a + b == b;
    } else {
      assert a + b == [a[0]] + (a[1..] + b);
      assert a == [a[0]] + a[1..];
      ByStatusCons(a[0], a[1..] + b, f);
      ByStatusCons(a[0], a[1..], f);
      ByStatusAppend(a[1..], b, f);
    }
  }

  /** One step of the status filter. */
  lemma ByStatusCons(x: FeatureRequest, t: seq<FeatureRequest>, f: StatusFilter)
    ensures ByStatus([x] + t, f) == (if MatchesStatus(x, f) then [x] else []) + ByStatus(t, f)
  {
    assert ([x] + t)[1..] == t;
  }

  /** The category filter keeps the input order in the same way. */
  lemma {:induction false} ByCategoryAppend(a: seq<FeatureRequest>, b: seq<FeatureRequest>, f: CategoryFilter)
    ensures ByCategory(a + b, f) == ByCategory(a, f) + ByCategory(b, f)
  {
    if a == [] {
      assert a + b == b;
    } else {
      assert a + b == [a[0]] + (a[1..] + b);
      assert a == [a[0]] + a[1..];
      ByCategoryCons(a[0], a[1..] + b, f);
      ByCategoryCons(a[0], a[1..], f);
      ByCategoryAppend(a[1..], b, f);
    }
  }

  /** One step of the category filter. */
  lemma ByCategoryCons(x: FeatureRequest, t: seq<FeatureRequest>, f: CategoryFilter)
    ensures ByCategory([x] + t, f) == (if MatchesCategory(x, f) then [x] else []) + ByCategory(t, f)
  {
    assert ([x] + t)[1..] == t;
  }

  /** `filterFeatureRequests(requests, filters)`. */
  function FilterFeatureRequests(s: seq<FeatureRequest>, f: RequestFilters): seq<FeatureRequest> {
    SortFeatureRequests(ByCategory(ByStatus(s, f.status), f.category), f.sortBy)
  }

  /** The filtered list holds exactly the matching requests (each as often
      as in the input), in `sortBy` order; with both filters ALL it is a
      permutation of the input. */
  lemma FilterMeaning(s: seq<FeatureRequest>, f: RequestFilters)
    ensures var r := FilterFeatureRequests(s, f);
      && SortedBy(r, f.sortBy)
      && (forall x :: multiset(r)[x] == if Matches(x, f) then multiset(s)[x] else 0)
      && (forall x :: x in r <==> x in s && Matches(x, f))
      && (f.status.AllStatuses? && f.category.AllCategories? ==> multiset(r) == multiset(s))
  {
    ByStatusCounts(s, f.status);
    ByCategoryCounts(ByStatus(s, f.status), f.category);
    var r := FilterFeatureRequests(s, f);
    forall x ensures x in r <==> x in s && Matches(x, f) {
      assert x in r <==> multiset(r)[x] > 0;
      assert x in s <==> multiset(s)[x] > 0;
    }
    if f.status.AllStatuses? && f.category.AllCategories? {
      assert forall x :: multiset(r)[x] == multiset(s)[x];
    }
  }
}
