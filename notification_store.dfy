/** The notification / feature-request store: fourteen writable cells, the
    two derived ones, and the operations that update them around one remote
    call each. A remote call is an outcome parameter and `new Date()` is the
    parameter `now`. The three fetches are split at their `await` into a
    begin and a finish step, so that the loading guards of overlapping calls
    are part of the model. */
module NotificationStore {
  import opened Remote
  import opened Text
  import opened Lists
  import opened NotificationTypes
  import NotificationPolling

  /** The page size `fetchNotifications` asks for. */
  const PAGE_SIZE: nat := 20

  const DEFAULT_FILTERS: RequestFilters := RequestFilters(AllStatuses, AllCategories, MostVoted)

  /** The body of a vote response. */
  datatype VoteResponse = VoteResponse(totalVotes: int)

  /** A `Partial<RequestFilters>`: a field that is `None` is absent. */
  datatype FiltersPatch = FiltersPatch(
    status: Option<StatusFilter>,
    category: Option<CategoryFilter>,
    sortBy: Option<RequestSortOption>)

  function NotificationId(n: Notification): string { n.id }

  function RequestId(r: FeatureRequest): string { r.id }

  // ---------------------------------------------------------------------
  // Derived cells
  // ---------------------------------------------------------------------

  /** `hasUnread`. */
  function HasUnread(count: int): bool { count > 0 }

  /** `badgeText`. */
  function BadgeText(count: int): string {
    if count > 99 then "99+" else IntToString(count)
  }

  /** The badge is "99+" exactly above 99; below that it is the count's
      decimal digits, at most two of them; and for a non-negative count the
      badge reads "0" exactly when `hasUnread` is false. */
  lemma BadgeTextMeaning(count: int)
    ensures count > 99 <==> BadgeText(count) == "99+"
    ensures 0 <= count <= 99 ==>
      |BadgeText(count)| <= 2 && AllDigits(BadgeText(count)) && ParseNat(BadgeText(count)) == count
    ensures count >= 0 ==> (HasUnread(count) <==> BadgeText(count) != "0")
  {
    if count <= 99 {
      var s := BadgeText(count);
      if count >= 0 {
        ParseNatToString(count);
        assert |s| <= 2;
      } else {
        assert s[0] == '-';
      }
    }
  }

  // ---------------------------------------------------------------------
  // List transitions
  // ---------------------------------------------------------------------

  /** How many notifications are unread. */
  function UnreadIn(ns: seq<Notification>): nat {
    if ns == [] then 0 else (if ns[0].isRead then 0 else 1) + UnreadIn(ns[1..])
  }

  /** Marking one unread notification read lowers the unread number by
      exactly one, and marking it unread again restores the list. */
  lemma {:induction false} MarkOneRead(ns: seq<Notification>, i: nat)
    requires i < |ns| && !ns[i].isRead
    ensures UnreadIn(ns[i := ns[i].(isRead := true)]) == UnreadIn(ns) - 1
    ensures var m := ns[i := ns[i].(isRead := true)]; m[i := m[i].(isRead := false)] == ns
  {
    var m := ns[i := ns[i].(isRead := true)];
    if i > 0 {
      assert m[1..] == ns[1..][i - 1 := ns[1..][i - 1].(isRead := true)];
      MarkOneRead(ns[1..], i - 1);
    } else {
      assert m[1..] == ns[1..];
    }
  }

  /** `map((n) => ({ ...n, isRead: true }))`. */
  function AllRead(ns: seq<Notification>): (r: seq<Notification>)
    ensures |r| == |ns|
    ensures forall k :: 0 <= k < |ns| ==> r[k] == ns[k].(isRead := true)
  {
    seq(|ns|, k requires 0 <= k < |ns| => ns[k].(isRead := true))
  }

  /** After marking all, nothing is unread, and marking all again changes
      nothing. */
  lemma {:induction false} AllReadMeaning(ns: seq<Notification>)
    ensures UnreadIn(AllRead(ns)) == 0
    ensures AllRead(AllRead(ns)) == AllRead(ns)
  {
    if ns != [] {
      assert AllRead(ns)[1..] == AllRead(ns[1..]);
      AllReadMeaning(ns[1..]);
    }
  }

  /** The vote a request shows while an upvote is in flight: `hasVoted` set
      on the community list's copy, one more vote on both. */
  function UpvoteOptimistic(r: FeatureRequest, inAll: bool): FeatureRequest {
    if inAll then r.(hasVoted := true, voteCount := r.voteCount + 1) else r.(voteCount := r.voteCount + 1)
  }

  function UpvoteRollback(r: FeatureRequest, inAll: bool): FeatureRequest {
    if inAll then r.(hasVoted := false, voteCount := r.voteCount - 1) else r.(voteCount := r.voteCount - 1)
  }

  function RemoveUpvoteOptimistic(r: FeatureRequest, inAll: bool): FeatureRequest {
    var c := if 0 > r.voteCount - 1 then 0 else r.voteCount - 1;
    if inAll then r.(hasVoted := false, voteCount := c) else r.(voteCount := c)
  }

  function RemoveUpvoteRollback(r: FeatureRequest, inAll: bool): FeatureRequest {
    if inAll then r.(hasVoted := true, voteCount := r.voteCount + 1) else r.(voteCount := r.voteCount + 1)
  }

  /** Where an upvote ends: the server's count on success, the rollback on
      failure. */
  function UpvoteSettled(r: FeatureRequest, inAll: bool, outcome: Outcome<VoteResponse>): FeatureRequest {
    match outcome
    case Success(resp) => UpvoteOptimistic(r, inAll).(voteCount := resp.totalVotes)
    case Failure(_) => UpvoteRollback(UpvoteOptimistic(r, inAll), inAll)
  }

  function RemoveUpvoteSettled(r: FeatureRequest, inAll: bool, outcome: Outcome<VoteResponse>): FeatureRequest {
    match outcome
    case Success(resp) => RemoveUpvoteOptimistic(r, inAll).(voteCount := resp.totalVotes)
    case Failure(_) => RemoveUpvoteRollback(RemoveUpvoteOptimistic(r, inAll), inAll)
  }

  /** An upvote's effect on one list: the first request with the id is
      settled, the others are untouched. */
  function UpvoteInList(s: seq<FeatureRequest>, id: string, inAll: bool, outcome: Outcome<VoteResponse>): seq<FeatureRequest> {
    match IndexOfId(s, RequestId, id)
    case None => s
    case Some(i) => s[i := UpvoteSettled(s[i], inAll, outcome)]
  }

  function RemoveUpvoteInList(s: seq<FeatureRequest>, id: string, inAll: bool, outcome: Outcome<VoteResponse>): seq<FeatureRequest> {
    match IndexOfId(s, RequestId, id)
    case None => s
    case Some(i) => s[i := RemoveUpvoteSettled(s[i], inAll, outcome)]
  }

  /** A settled upvote shows the server's count; a failed one the prior count,
      with the community copy's `hasVoted` false whatever it was before. */
  lemma UpvoteOutcome(r: FeatureRequest, inAll: bool, outcome: Outcome<VoteResponse>)
    ensures outcome.Success? ==>
      UpvoteSettled(r, inAll, outcome) == (if inAll then r.(hasVoted := true) else r).(voteCount := outcome.value.totalVotes)
    ensures outcome.Failure? ==>
      UpvoteSettled(r, inAll, outcome) == if inAll then r.(hasVoted := false) else r
  {
  }

  /** A settled vote removal shows the server's count; a failed one adds one
      to the clamped count, so the prior count comes back only when it was at
      least one, and a request that had no votes ends with one. */
  lemma RemoveUpvoteOutcome(r: FeatureRequest, inAll: bool, outcome: Outcome<VoteResponse>)
    ensures outcome.Success? ==>
      RemoveUpvoteSettled(r, inAll, outcome) == (if inAll then r.(hasVoted := false) else r).(voteCount := outcome.value.totalVotes)
    ensures outcome.Failure? ==>
      && RemoveUpvoteSettled(r, inAll, outcome).voteCount == (if r.voteCount >= 1 then r.voteCount else 1)
      && RemoveUpvoteSettled(r, inAll, outcome) == (if inAll then r.(hasVoted := true) else r).(voteCount := RemoveUpvoteSettled(r, inAll, outcome).voteCount)
  {
  }

  /** `{ ...currentFilters, ...filters }`. */
  function MergeFilters(current: RequestFilters, patch: FiltersPatch): (r: RequestFilters)
    ensures r.status == if patch.status.Some? then patch.status.value else current.status
    ensures r.category == if patch.category.Some? then patch.category.value else current.category
    ensures r.sortBy == if patch.sortBy.Some? then patch.sortBy.value else current.sortBy
  {
    RequestFilters(
      patch.status.GetOr(current.status),
      patch.category.GetOr(current.category),
      patch.sortBy.GetOr(current.sortBy))
  }

  /** An empty patch changes nothing, and applying a patch twice is applying
      it once. */
  lemma MergeFiltersLaws(current: RequestFilters, patch: FiltersPatch)
    ensures MergeFilters(current, FiltersPatch(None, None, None)) == current
    ensures MergeFilters(MergeFilters(current, patch), patch) == MergeFilters(current, patch)
  {
  }

  /** The two copies of a request through `upvoteRequest`, on the lists'
      values: the optimistic update of each copy found, then the server's
      count or the rollback. */
  method SettleUpvote(all0: seq<FeatureRequest>, mine0: seq<FeatureRequest>, id: string, outcome: Outcome<VoteResponse>)
    returns (all: seq<FeatureRequest>, mine: seq<FeatureRequest>)
    ensures all == UpvoteInList(all0, id, true, outcome)
    ensures mine == UpvoteInList(mine0, id, false, outcome)
  {
    var ia := IndexOfId(all0, RequestId, id);
    var im := IndexOfId(mine0, RequestId, id);
    all, mine := all0, mine0;
    // Optimistic update.
    if ia.Some? {
      all := all[ia.value := UpvoteOptimistic(all[ia.value], true)];
    }
    if im.Some? {
      mine := mine[im.value := UpvoteOptimistic(mine[im.value], false)];
    }
    match outcome {
      case Success(response) =>
        if ia.Some? {
          all := all[ia.value := all[ia.value].(voteCount := response.totalVotes)];
        }
        if im.Some? {
          mine := mine[im.value := mine[im.value].(voteCount := response.totalVotes)];
        }
      case Failure(_) =>
        if ia.Some? {
          all := all[ia.value := UpvoteRollback(all[ia.value], true)];
        }
        if im.Some? {
          mine := mine[im.value := UpvoteRollback(mine[im.value], false)];
        }
    }
  }

  /** The same for `removeUpvote`. */
  method SettleRemoveUpvote(all0: seq<FeatureRequest>, mine0: seq<FeatureRequest>, id: string, outcome: Outcome<VoteResponse>)
    returns (all: seq<FeatureRequest>, mine: seq<FeatureRequest>)
    ensures all == RemoveUpvoteInList(all0, id, true, outcome)
    ensures mine == RemoveUpvoteInList(mine0, id, false, outcome)
  {
    var ia := IndexOfId(all0, RequestId, id);
    var im := IndexOfId(mine0, RequestId, id);
    all, mine := all0, mine0;
    // Optimistic update.
    if ia.Some? {
      all := all[ia.value := RemoveUpvoteOptimistic(all[ia.value], true)];
    }
    if im.Some? {
      mine := mine[im.value := RemoveUpvoteOptimistic(mine[im.value], false)];
    }
    match outcome {
      case Success(response) =>
        if ia.Some? {
          all := all[ia.value := all[ia.value].(voteCount := response.totalVotes)];
        }
        if im.Some? {
          mine := mine[im.value := mine[im.value].(voteCount := response.totalVotes)];
        }
      case Failure(_) =>
        if ia.Some? {
          all := all[ia.value := RemoveUpvoteRollback(all[ia.value], true)];
        }
        if im.Some? {
          mine := mine[im.value := RemoveUpvoteRollback(mine[im.value], false)];
        }
    }
  }

  class Store {
    var unreadCount: int
    var notifications: seq<Notification>
    var notificationsPage: int
    var notificationsHasMore: bool
    var allRequests: seq<FeatureRequest>
    var myRequests: seq<FeatureRequest>
    var requestFilters: RequestFilters
    var isLoadingNotifications: bool
    var isLoadingRequests: bool
    var isLoadingMyRequests: bool
    var error: Option<string>
    var lastBadgeFetch: Option<int>
    var lastNotificationsFetch: Option<int>
    var lastRequestsFetch: Option<int>

    /** Every cell holds its initial value. */
    ghost predicate IsInitial()
      reads this
    {
      && unreadCount == 0 && notifications == [] && notificationsPage == 0 && notificationsHasMore
      && allRequests == [] && myRequests == [] && requestFilters == DEFAULT_FILTERS
      && !isLoadingNotifications && !isLoadingRequests && !isLoadingMyRequests
      && error == None && lastBadgeFetch == None && lastNotificationsFetch == None && lastRequestsFetch == None
    }

    constructor ()
      ensures IsInitial()
    {
      unreadCount := 0;
      notifications := [];
      notificationsPage := 0;
      notificationsHasMore := true;
      allRequests := [];
      myRequests := [];
      requestFilters := DEFAULT_FILTERS;
      isLoadingNotifications := false;
      isLoadingRequests := false;
      isLoadingMyRequests := false;
      error := None;
      lastBadgeFetch := None;
      lastNotificationsFetch := None;
      lastRequestsFetch := None;
    }

    /** `fetchUnreadCount()`. */
    method FetchUnreadCount(outcome: Outcome<int>, now: int)
      modifies this`unreadCount, this`lastBadgeFetch, this`error
      ensures outcome.Success? ==>
        unreadCount == outcome.value && lastBadgeFetch == Some(now) && error == old(error)
      ensures outcome.Failure? ==>
        unreadCount == old(unreadCount) && lastBadgeFetch == old(lastBadgeFetch)
        && error == Some(MessageOr(outcome.error, "Failed to fetch unread count"))
    {
      match outcome
      case Success(count) =>
        unreadCount := count;
        lastBadgeFetch := Some(now);
      case Failure(e) =>
        error := Some(MessageOr(e, "Failed to fetch unread count"));
    }

    /** `updateBadgeCount(count)`, the badge listener. */
    method UpdateBadgeCount(count: int)
      modifies this`unreadCount
      ensures unreadCount == count
    {
      unreadCount := count;
    }

    /** `updateNotificationList(ns)`, the list listener. */
    method UpdateNotificationList(ns: seq<Notification>, now: int)
      modifies this`notifications, this`lastNotificationsFetch
      ensures notifications == ns && lastNotificationsFetch == Some(now)
    {
      notifications := ns;
      lastNotificationsFetch := Some(now);
    }

    /** `fetchNotifications(refresh)` up to its `await`: the page it asks
        for (0 on refresh), or nothing while a fetch runs. */
    method BeginFetchNotifications(refresh: bool) returns (started: bool, page: int)
      modifies this`isLoadingNotifications, this`error
      ensures started == !old(isLoadingNotifications)
      ensures !started ==> unchanged(this)
      ensures started ==>
        && isLoadingNotifications && error == None
        && page == (if refresh then 0 else notificationsPage)
    {
      if isLoadingNotifications {
        return false, 0;
      }
      isLoadingNotifications := true;
      error := None;
      started := true;
      page := if refresh then 0 else notificationsPage;
    }

    /** The rest of `fetchNotifications(refresh)`, with the page fetched:
        a refresh replaces the list and resets the page, otherwise the page
        is appended; `hasMore` follows `last`; the loading flag clears either
        way. */
    method FinishFetchNotifications(refresh: bool, outcome: Outcome<Page<Notification>>, now: int)
      modifies this`notifications, this`notificationsPage, this`notificationsHasMore, this`lastNotificationsFetch, this`error, this`isLoadingNotifications
      ensures !isLoadingNotifications
      ensures outcome.Success? ==>
        && notifications == (if refresh then outcome.value.content else old(notifications) + outcome.value.content)
        && notificationsPage == (if refresh then 0 else old(notificationsPage))
        && notificationsHasMore == !outcome.value.last
        && lastNotificationsFetch == Some(now)
        && error == old(error)
      ensures outcome.Failure? ==>
        && notifications == old(notifications) && notificationsPage == old(notificationsPage)
        && notificationsHasMore == old(notificationsHasMore) && lastNotificationsFetch == old(lastNotificationsFetch)
        && error == Some(MessageOr(outcome.error, "Failed to fetch notifications"))
    {
      match outcome {
        case Success(p) =>
          if refresh {
            notifications := p.content;
            notificationsPage := 0;
          } else {
            notifications := notifications + p.content;
          }
          notificationsHasMore := !p.last;
          lastNotificationsFetch := Some(now);
        case Failure(e) =>
          error := Some(MessageOr(e, "Failed to fetch notifications"));
      }
      isLoadingNotifications := false;
    }

    /** `loadMoreNotifications()` up to the fetch's `await`: nothing when
        there is no more or a fetch runs; otherwise the page moves on by one
        and is the one asked for. */
    method LoadMoreNotifications() returns (started: bool, page: int)
      modifies this`notificationsPage, this`isLoadingNotifications, this`error
      ensures started == (old(notificationsHasMore) && !old(isLoadingNotifications))
      ensures !started ==> unchanged(this)
      ensures started ==>
        && notificationsPage == old(notificationsPage) + 1 && page == notificationsPage
        && isLoadingNotifications && error == None
    {
      if !notificationsHasMore || isLoadingNotifications {
        return false, 0;
      }
      notificationsPage := notificationsPage + 1;
      started, page := BeginFetchNotifications(false);
    }

    /** `markAsRead(id)`: the first notification with the id is marked read
        and the count drops if positive; a failure marks it unread again and
        adds one to the count, whether or not it had dropped. */
    method MarkAsRead(id: string, outcome: Outcome<()>)
      modifies this`notifications, this`unreadCount, this`error
      ensures var i := IndexOfId(old(notifications), NotificationId, id);
        i.None? || old(notifications)[i.value].isRead ==> unchanged(this)
      ensures var i := IndexOfId(old(notifications), NotificationId, id);
        i.Some? && !old(notifications)[i.value].isRead ==>
          && (outcome.Success? ==>
                && notifications == old(notifications)[i.value := old(notifications)[i.value].(isRead := true)]
                && unreadCount == (if old(unreadCount) > 0 then old(unreadCount) - 1 else old(unreadCount))
                && error == old(error))
          && (outcome.Failure? ==>
                && notifications == old(notifications)
                && unreadCount == (if old(unreadCount) > 0 then old(unreadCount) else old(unreadCount) + 1)
                && error == Some(MessageOr(outcome.error, "Failed to mark notification as read")))
    {
      var found := IndexOfId(notifications, NotificationId, id);
      if found.None? || notifications[found.value].isRead {
        return;
      }
      var i := found.value;
      var ns0 := notifications;
      var ns, count, err := ns0, unreadCount, error;
      var wasUnread := !ns[i].isRead;
      // Optimistic update.
      ns := ns[i := ns[i].(isRead := true)];
      if wasUnread && count > 0 {
        count := count - 1;
      }
      match outcome {
        case Success(_) =>
        case Failure(e) =>
          // Rollback.
          ns := ns[i := ns[i].(isRead := false)];
          if wasUnread {
            count := count + 1;
          }
          err := Some(MessageOr(e, "Failed to mark notification as read"));
      }
      MarkOneRead(ns0, i);
      notifications, unreadCount, error := ns, count, err;
    }

    /** `markAllAsRead()`: nothing while a fetch runs; success leaves all
        read and the count 0; failure restores the snapshot exactly. */
    method MarkAllAsRead(outcome: Outcome<()>)
      modifies this`notifications, this`unreadCount, this`error
      ensures old(isLoadingNotifications) ==> unchanged(this)
      ensures !old(isLoadingNotifications) && outcome.Success? ==>
        notifications == AllRead(old(notifications)) && unreadCount == 0 && error == old(error)
      ensures !old(isLoadingNotifications) && outcome.Failure? ==>
        && notifications == old(notifications) && unreadCount == old(unreadCount)
        && error == Some(MessageOr(outcome.error, "Failed to mark all as read"))
    {
      if isLoadingNotifications {
        return;
      }
      var originalNotifications := notifications;
      var originalCount := unreadCount;
      notifications := AllRead(notifications);
      unreadCount := 0;
      match outcome
      case Success(_) =>
      case Failure(e) =>
        notifications := originalNotifications;
        unreadCount := originalCount;
        error := Some(MessageOr(e, "Failed to mark all as read"));
    }

    /** `fetchFeatureRequests()` up to its `await`. */
    method BeginFetchFeatureRequests() returns (started: bool)
      modifies this`isLoadingRequests, this`error
      ensures started == !old(isLoadingRequests)
      ensures !started ==> unchanged(this)
      ensures started ==>
        isLoadingRequests && error == None
    {
      if isLoadingRequests {
        return false;
      }
      isLoadingRequests := true;
      error := None;
      started := true;
    }

    /** The rest of `fetchFeatureRequests()`; a missing `data` gives the
        empty list. */
    method FinishFetchFeatureRequests(outcome: Outcome<Option<seq<FeatureRequest>>>, now: int)
      modifies this`allRequests, this`lastRequestsFetch, this`error, this`isLoadingRequests
      ensures !isLoadingRequests
      ensures outcome.Success? ==>
        allRequests == outcome.value.GetOr([]) && lastRequestsFetch == Some(now) && error == old(error)
      ensures outcome.Failure? ==>
        && allRequests == old(allRequests) && lastRequestsFetch == old(lastRequestsFetch)
        && error == Some(MessageOr(outcome.error, "Failed to fetch feature requests"))
    {
      match outcome {
        case Success(data) =>
          allRequests := data.GetOr([]);
          lastRequestsFetch := Some(now);
        case Failure(e) =>
          error := Some(MessageOr(e, "Failed to fetch feature requests"));
      }
      isLoadingRequests := false;
    }

    /** `fetchMyFeatureRequests()` up to its `await`. */
    method BeginFetchMyFeatureRequests() returns (started: bool)
      modifies this`isLoadingMyRequests, this`error
      ensures started == !old(isLoadingMyRequests)
      ensures !started ==> unchanged(this)
      ensures started ==>
        isLoadingMyRequests && error == None
    {
      if isLoadingMyRequests {
        return false;
      }
      isLoadingMyRequests := true;
      error := None;
      started := true;
    }

    /** The rest of `fetchMyFeatureRequests()`; it stamps no fetch time. */
    method FinishFetchMyFeatureRequests(outcome: Outcome<Option<seq<FeatureRequest>>>)
      modifies this`myRequests, this`error, this`isLoadingMyRequests
      ensures !isLoadingMyRequests
      ensures outcome.Success? ==> myRequests == outcome.value.GetOr([]) && error == old(error)
      ensures outcome.Failure? ==>
        myRequests == old(myRequests) && error == Some(MessageOr(outcome.error, "Failed to fetch your requests"))
    {
      match outcome {
        case Success(data) =>
          myRequests := data.GetOr([]);
        case Failure(e) =>
          error := Some(MessageOr(e, "Failed to fetch your requests"));
      }
      isLoadingMyRequests := false;
    }

    /** `upvoteRequest(id)`: the first request with the id in each list is
        updated optimistically and then settled by the outcome. */
    method UpvoteRequest(id: string, outcome: Outcome<VoteResponse>)
      modifies this`allRequests, this`myRequests, this`error
      ensures var ia, im := IndexOfId(old(allRequests), RequestId, id), IndexOfId(old(myRequests), RequestId, id);
        ia.None? && im.None? ==> unchanged(this)
      ensures var ia, im := IndexOfId(old(allRequests), RequestId, id), IndexOfId(old(myRequests), RequestId, id);
        ia.Some? || im.Some? ==>
          && allRequests == UpvoteInList(old(allRequests), id, true, outcome)
          && myRequests == UpvoteInList(old(myRequests), id, false, outcome)
          && error == (if outcome.Failure? then Some(MessageOr(outcome.error, "Failed to upvote request")) else old(error))
    {
      var ia := IndexOfId(allRequests, RequestId, id);
      var im := IndexOfId(myRequests, RequestId, id);
      if ia.None? && im.None? {
        return;
      }
      var all, mine := SettleUpvote(allRequests, myRequests, id, outcome);
      var err := if outcome.Failure? then Some(MessageOr(outcome.error, "Failed to upvote request")) else error;
      allRequests, myRequests, error := all, mine, err;
    }

    /** `removeUpvote(id)`, in the same way. */
    method RemoveUpvote(id: string, outcome: Outcome<VoteResponse>)
      modifies this`allRequests, this`myRequests, this`error
      ensures var ia, im := IndexOfId(old(allRequests), RequestId, id), IndexOfId(old(myRequests), RequestId, id);
        ia.None? && im.None? ==> unchanged(this)
      ensures var ia, im := IndexOfId(old(allRequests), RequestId, id), IndexOfId(old(myRequests), RequestId, id);
        ia.Some? || im.Some? ==>
          && allRequests == RemoveUpvoteInList(old(allRequests), id, true, outcome)
          && myRequests == RemoveUpvoteInList(old(myRequests), id, false, outcome)
          && error == (if outcome.Failure? then Some(MessageOr(outcome.error, "Failed to remove upvote")) else old(error))
    {
      var ia := IndexOfId(allRequests, RequestId, id);
      var im := IndexOfId(myRequests, RequestId, id);
      if ia.None? && im.None? {
        return;
      }
      var all, mine := SettleRemoveUpvote(allRequests, myRequests, id, outcome);
      var err := if outcome.Failure? then Some(MessageOr(outcome.error, "Failed to remove upvote")) else error;
      allRequests, myRequests, error := all, mine, err;
    }

    /** `deleteFeatureRequest(id)`; the result is the error it rethrows. */
    method DeleteFeatureRequest(id: string, outcome: Outcome<()>) returns (rethrown: Option<Thrown>)
      modifies this`allRequests, this`myRequests, this`error
      ensures outcome.Success? ==>
        && rethrown == None && error == old(error)
        && allRequests == RemoveWithId(old(allRequests), RequestId, id)
        && myRequests == RemoveWithId(old(myRequests), RequestId, id)
      ensures outcome.Failure? ==>
        && rethrown == Some(outcome.error)
        && allRequests == old(allRequests) && myRequests == old(myRequests)
        && error == Some(MessageOr(outcome.error, "Failed to delete request"))
    {
      match outcome
      case Success(_) =>
        allRequests := RemoveWithId(allRequests, RequestId, id);
        myRequests := RemoveWithId(myRequests, RequestId, id);
        rethrown := None;
      case Failure(e) =>
        error := Some(MessageOr(e, "Failed to delete request"));
        rethrown := Some(e);
    }

    /** `setRequestFilters(filters)`. */
    method SetRequestFilters(patch: FiltersPatch)
      modifies this`requestFilters
      ensures requestFilters == MergeFilters(old(requestFilters), patch)
    {
      requestFilters := MergeFilters(requestFilters, patch);
    }

    /** `clearError()`. */
    method ClearError()
      modifies this`error
      ensures error == None
    {
      error := None;
    }

    /** `init()`: registers a badge, a list and an error listener with the
        poller and starts the badge tier; `first` is the outcome of that
        tier's immediate poll. What the first two listeners do to the store
        is `UpdateBadgeCount` and `UpdateNotificationList`; the error
        listener only logs. */
    method Init(poller: NotificationPolling.NotificationPollingService,
                onBadge: NotificationPolling.Callback, onList: NotificationPolling.Callback,
                onError: NotificationPolling.Callback, first: Outcome<int>)
      requires poller.Valid()
      modifies poller`listeners, poller`isBadgePolling, poller`badgeInterval, poller`timers, poller`nextTimer,
               poller`aborted, poller`badgeAbortController, poller`nextController, poller`issued, poller`delivered
      ensures poller.Valid()
      ensures poller.listeners ==
        NotificationPolling.AddListener(
          NotificationPolling.AddListener(
            NotificationPolling.AddListener(old(poller.listeners), NotificationPolling.BadgeUpdate, onBadge),
            NotificationPolling.ListUpdate, onList),
          NotificationPolling.ErrorEvent, onError)
      ensures poller.browser && !old(poller.isBadgePolling) ==>
        && poller.isBadgePolling
        && poller.badgeInterval == Some(NotificationPolling.Interval(old(poller.nextTimer), NotificationPolling.BadgePeriod(poller.isTabHidden)))
        && poller.timers == old(poller.timers)[old(poller.nextTimer) :=
             NotificationPolling.Schedule(NotificationPolling.BadgePoll, NotificationPolling.BadgePeriod(poller.isTabHidden))]
        && poller.nextTimer == old(poller.nextTimer) + 1
        && poller.badgeAbortController == Some(old(poller.nextController))
        && poller.nextController == old(poller.nextController) + 1
        && poller.aborted == old(poller.aborted)
        && poller.issued == old(poller.issued) + [NotificationPolling.BadgePoll]
        && poller.delivered == old(poller.delivered) + NotificationPolling.BadgePollDeliveries(poller.listeners, first)
      ensures !poller.browser || old(poller.isBadgePolling) ==>
        && poller.isBadgePolling == old(poller.isBadgePolling) && poller.badgeInterval == old(poller.badgeInterval)
        && poller.timers == old(poller.timers) && poller.nextTimer == old(poller.nextTimer)
        && poller.badgeAbortController == old(poller.badgeAbortController)
        && poller.nextController == old(poller.nextController) && poller.aborted == old(poller.aborted)
        && poller.issued == old(poller.issued) && poller.delivered == old(poller.delivered)
      ensures poller.isListPolling == old(poller.isListPolling) && poller.listInterval == old(poller.listInterval)
      ensures poller.listAbortController == old(poller.listAbortController) && poller.isTabHidden == old(poller.isTabHidden)
    {
      var _ := poller.On(NotificationPolling.BadgeUpdate, onBadge);
      var _ := poller.On(NotificationPolling.ListUpdate, onList);
      var _ := poller.On(NotificationPolling.ErrorEvent, onError);
      poller.StartBadgePolling(first);
    }

    /** `destroy()`: stops both polling tiers and puts every cell back to
        its initial value. */
    method Destroy(poller: NotificationPolling.NotificationPollingService)
      requires poller.Valid()
      modifies this, poller
      ensures IsInitial()
      ensures poller.Valid() && !poller.isBadgePolling && !poller.isListPolling && poller.timers == map[]
      ensures poller.listeners == old(poller.listeners)
      ensures poller.aborted == old(poller.aborted) + old(poller.LiveControllers())
      ensures poller.badgeAbortController == None && poller.listAbortController == None
      ensures poller.isTabHidden == old(poller.isTabHidden)
      ensures poller.issued == old(poller.issued) && poller.delivered == old(poller.delivered)
      ensures poller.nextController == old(poller.nextController) && poller.nextTimer == old(poller.nextTimer)
    {
      poller.StopBadgePolling();
      poller.StopListPolling();
      Reset();
    }

    /** The cell resets of `destroy()`. */
    method Reset()
      modifies this
      ensures IsInitial()
    {
      ResetNotificationCells();
      ResetRequestCells();
      error := None;
    }

    method ResetNotificationCells()
      modifies this`unreadCount, this`notifications, this`notificationsPage, this`notificationsHasMore,
               this`isLoadingNotifications, this`lastBadgeFetch, this`lastNotificationsFetch
      ensures unreadCount == 0 && notifications == [] && notificationsPage == 0 && notificationsHasMore
      ensures !isLoadingNotifications && lastBadgeFetch == None && lastNotificationsFetch == None
    {
      unreadCount := 0;
      notifications := [];
      notificationsPage := 0;
      notificationsHasMore := true;
      isLoadingNotifications := false;
      lastBadgeFetch := None;
      lastNotificationsFetch := None;
    }

    method ResetRequestCells()
      modifies this`allRequests, this`myRequests, this`requestFilters,
               this`isLoadingRequests, this`isLoadingMyRequests, this`lastRequestsFetch
      ensures allRequests == [] && myRequests == [] && requestFilters == DEFAULT_FILTERS
      ensures !isLoadingRequests && !isLoadingMyRequests && lastRequestsFetch == None
    {
      allRequests := [];
      myRequests := [];
      requestFilters := DEFAULT_FILTERS;
      isLoadingRequests := false;
      isLoadingMyRequests := false;
      lastRequestsFetch := None;
    }
  }
}
