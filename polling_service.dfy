/** The notification polling service: a badge tier (unread count) and a list
    tier (latest notifications) that poll on their own intervals, a registry
    of event listeners, and the visibility handler that switches the badge
    interval. Each poll's remote call is an outcome parameter; what the timers
    would do later is not simulated: the model keeps the window's table of
    live intervals, the abort-controller bookkeeping, the log of remote calls
    issued and the log of callback invocations. */
module NotificationPolling {
  import opened Remote
  import opened NotificationTypes

  /** Polling intervals in milliseconds. */
  const BADGE_ACTIVE: nat := 30000
  const BADGE_HIDDEN: nat := 120000
  const LIST: nat := 30000

  datatype PollingEvent = BadgeUpdate | ListUpdate | ErrorEvent

  datatype PollKind = BadgePoll | ListPoll

  /** The payload handed to listeners. */
  datatype EventData =
    | BadgeCount(count: int)
    | NotificationList(notifications: seq<Notification>)
    | PollError(kind: PollKind, error: Thrown)

  /** A registered callback, identified by the function value it stands for. */
  type Callback = nat

  /** One invocation of a listener. */
  datatype Delivery = Delivery(callback: Callback, data: EventData)

  /** The unsubscribe function returned by `on`. */
  datatype Subscription = Subscription(event: PollingEvent, callback: Callback)

  /** An entry of the window's interval table: what it polls and how often. */
  datatype Schedule = Schedule(kind: PollKind, period: nat)

  /** An interval handle the service holds, with the period it was set up with. */
  datatype Interval = Interval(handle: nat, period: nat)

  /** What `getState()` reports. */
  datatype PollingState = PollingState(
    isBadgePolling: bool,
    isListPolling: bool,
    isTabHidden: bool,
    badgeIntervalMs: nat,
    listIntervalMs: nat)

  function BadgePeriod(hidden: bool): nat {
    if hidden then BADGE_HIDDEN else BADGE_ACTIVE
  }

  predicate NoDuplicates(s: seq<Callback>) {
    forall i, j :: 0 <= i < j < |s| ==> s[i] != s[j]
  }

  // ---------------------------------------------------------------------
  // The listener registry: a map from event to an insertion-ordered set
  // ---------------------------------------------------------------------

  function ListenersOf(m: map<PollingEvent, seq<Callback>>, e: PollingEvent): seq<Callback> {
    if e in m then m[e] else []
  }

  /** `listeners.get(e)?.add(cb)`: a Set keeps one copy, at the position of
      its first insertion; an event missing from the map takes nothing. */
  function AddListener(m: map<PollingEvent, seq<Callback>>, e: PollingEvent, cb: Callback): map<PollingEvent, seq<Callback>> {
    if e in m && cb !in m[e] then m[e := m[e] + [cb]] else m
  }

  function Without(s: seq<Callback>, cb: Callback): (r: seq<Callback>)
    ensures forall x :: x in r <==> x in s && x != cb
    ensures NoDuplicates(s) ==> NoDuplicates(r)
  {
    if s == [] then []
    else if s[0] == cb then Without(s[1..], cb)
    else
      var rest := Without(s[1..], cb);
      assert NoDuplicates(s) ==> s[0] !in s[1..] && NoDuplicates(s[1..]);
      [s[0]] + rest
  }

  /** `listeners.get(e)?.delete(cb)`. */
  function RemoveListener(m: map<PollingEvent, seq<Callback>>, e: PollingEvent, cb: Callback): map<PollingEvent, seq<Callback>> {
    if e in m then m[e := Without(m[e], cb)] else m
  }

  /** Registering adds the callback to that event only, once, at the end, and
      a duplicate registration changes nothing; no event gains a key. */
  lemma AddListenerSpec(m: map<PollingEvent, seq<Callback>>, e: PollingEvent, cb: Callback)
    requires forall e' :: e' in m ==> NoDuplicates(m[e'])
    ensures var r := AddListener(m, e, cb);
      && r.Keys == m.Keys
      && (forall e' :: e' in m && e' != e ==> r[e'] == m[e'])
      && (e in m && cb !in m[e] ==> r[e] == m[e] + [cb])
      && (e in m && cb in m[e] ==> r == m)
      && (e in m ==> cb in r[e])
      && (forall e' :: e' in r ==> NoDuplicates(r[e']))
      && (e !in m ==> r == m)
  {
  }

  /** Unsubscribing removes that callback from that event only and keeps the
      others in order. */
  lemma RemoveListenerSpec(m: map<PollingEvent, seq<Callback>>, e: PollingEvent, cb: Callback)
    requires forall e' :: e' in m ==> NoDuplicates(m[e'])
    ensures var r := RemoveListener(m, e, cb);
      && r.Keys == m.Keys
      && (forall e' :: e' in m && e' != e ==> r[e'] == m[e'])
      && (e in m ==> cb !in r[e] && forall x :: x in r[e] <==> x in m[e] && x != cb)
      && (forall e' :: e' in r ==> NoDuplicates(r[e']))
      && (e in m && cb !in m[e] ==> r[e] == m[e])
      && (e in m && cb in m[e] ==>
            exists i :: 0 <= i < |m[e]| && m[e][i] == cb && r[e] == m[e][..i] + m[e][i + 1..])
  {
    if e in m && cb !in m[e] {
      WithoutAbsent(m[e], cb);
    }
    if e in m && cb in m[e] {
      var s := m[e];
      var i :| 0 <= i < |s| && s[i] == cb;
      assert s == s[..i] + [cb] + s[i + 1..];
      assert cb !in s[..i] && cb !in s[i + 1..] by {
        assert forall j :: 0 <= j < |s| && j != i ==> s[j] != cb;
      }
      WithoutSplits(s[..i], s[i + 1..], cb);
    }
  }

  lemma {:induction false} WithoutAbsent(s: seq<Callback>, cb: Callback)
    requires cb !in s
    ensures Without(s, cb) == s
  {
    if s != [] {
      WithoutAbsent(s[1..], cb);
      assert s == [s[0]] + s[1..];
    }
  }

  lemma {:induction false} WithoutAppended(s: seq<Callback>, cb: Callback)
    requires cb !in s
    ensures Without(s + [cb], cb) == s
  {
    if s == [] {
      assert [cb][1..] == [];
    } else {
      assert (s + [cb])[1..] == s[1..] + [cb];
      WithoutAppended(s[1..], cb);
      assert s == [s[0]] + s[1..];
    }
  }

  /** Deleting distributes over concatenation, so the kept callbacks stay
      in their registration order. */
  lemma {:induction false} WithoutAppend(a: seq<Callback>, b: seq<Callback>, cb: Callback)
    ensures Without(a + b, cb) == Without(a, cb) + Without(b, cb)
  {
    if a == [] {
      assert a + b == b;
    } else {
      assert (a + b)[0] == a[0];
      assert (a + b)[1..] == a[1..] + b;
      WithoutAppend(a[1..], b, cb);
    }
  }

  /** Deleting a callback held once removes that one position and keeps
      everything before and after it in order. */
  lemma WithoutSplits(p: seq<Callback>, q: seq<Callback>, cb: Callback)
    requires cb !in p && cb !in q
    ensures Without(p + [cb] + q, cb) == p + q
  {
    assert Without([cb], cb) == [] by {
      assert [cb][1..] == [];
    }
    calc {
      Without(p + [cb] + q, cb);
      { WithoutAppend(p + [cb], q, cb); }
      Without(p + [cb], cb) + Without(q, cb);
      { WithoutAppend(p, [cb], cb); }
      Without(p, cb) + Without([cb], cb) + Without(q, cb);
      { WithoutAbsent(p, cb); WithoutAbsent(q, cb); }
      p + [] + q;
    }
    assert p + [] + q == p + q;
  }

  /** The unsubscribe returned for a fresh registration undoes it exactly. */
  lemma SubscribeThenUnsubscribe(m: map<PollingEvent, seq<Callback>>, e: PollingEvent, cb: Callback)
    requires e in m ==> cb !in m[e]
    ensures RemoveListener(AddListener(m, e, cb), e, cb) == m
  {
    if e in m {
      WithoutAppended(m[e], cb);
    }
  }

  /** The invocations `listeners.forEach((callback) => callback(data))` makes. */
  function Deliveries(cbs: seq<Callback>, data: EventData): (r: seq<Delivery>)
    ensures |r| == |cbs|
    ensures forall i :: 0 <= i < |cbs| ==> r[i] == Delivery(cbs[i], data)
  {
    seq(|cbs|, i requires 0 <= i < |cbs| => Delivery(cbs[i], data))
  }

  /** A callback registered for an event hears that event's emission
      exactly once. */
  lemma SubscriberHearsEvent(m: map<PollingEvent, seq<Callback>>, e: PollingEvent, cb: Callback, data: EventData)
    requires e in m && NoDuplicates(m[e])
    ensures var d := Deliveries(ListenersOf(AddListener(m, e, cb), e), data);
      && (exists i :: 0 <= i < |d| && d[i] == Delivery(cb, data))
      && (forall i, j :: 0 <= i < j < |d| ==> d[i] != d[j])
  {
    var l := ListenersOf(AddListener(m, e, cb), e);
    assert cb in l && NoDuplicates(l) by {
      if cb !in m[e] {
        assert l == m[e] + [cb];
        assert l[|m[e]|] == cb;
      }
    }
    var k :| 0 <= k < |l| && l[k] == cb;
    assert Deliveries(l, data)[k] == Delivery(cb, data);
    DeliveriesDistinct(l, data);
  }

  /** After the unsubscribe of a registration, the callback no longer hears
      that event's emission. */
  lemma UnsubscribedHearsNothing(m: map<PollingEvent, seq<Callback>>, e: PollingEvent, cb: Callback, data: EventData)
    requires e in m
    ensures Delivery(cb, data) !in Deliveries(ListenersOf(RemoveListener(AddListener(m, e, cb), e, cb), e), data)
  {
    var r := ListenersOf(RemoveListener(AddListener(m, e, cb), e, cb), e);
    assert r == Without(AddListener(m, e, cb)[e], cb);
    forall i | 0 <= i < |r|
      ensures Deliveries(r, data)[i] != Delivery(cb, data)
    {
      assert r[i] in r;
    }
  }

  /** Distinct callbacks give distinct invocations. */
  lemma DeliveriesDistinct(cbs: seq<Callback>, data: EventData)
    requires NoDuplicates(cbs)
    ensures var d := Deliveries(cbs, data); forall i, j :: 0 <= i < j < |d| ==> d[i] != d[j]
  {
  }

  /** What one badge poll delivers: a count to the badge listeners, nothing
      for an `AbortError`, and a badge-tagged error to the error listeners for
      any other failure. */
  function BadgePollDeliveries(m: map<PollingEvent, seq<Callback>>, outcome: Outcome<int>): seq<Delivery> {
    match outcome
    case Success(count) => Deliveries(ListenersOf(m, BadgeUpdate), BadgeCount(count))
    case Failure(e) =>
      if e.name == "AbortError" then [] else Deliveries(ListenersOf(m, ErrorEvent), PollError(BadgePoll, e))
  }

  /** What one list poll delivers, in the same way. */
  function ListPollDeliveries(m: map<PollingEvent, seq<Callback>>, outcome: Outcome<seq<Notification>>): seq<Delivery> {
    match outcome
    case Success(ns) => Deliveries(ListenersOf(m, ListUpdate), NotificationList(ns))
    case Failure(e) =>
      if e.name == "AbortError" then [] else Deliveries(ListenersOf(m, ErrorEvent), PollError(ListPoll, e))
  }

  class NotificationPollingService {
    /** Whether the code runs in a browser (SvelteKit's `browser` flag). */
    const browser: bool

    var badgeInterval: Option<Interval>
    var listInterval: Option<Interval>
    var isBadgePolling: bool
    var isListPolling: bool
    var isTabHidden: bool
    var listeners: map<PollingEvent, seq<Callback>>
    var badgeAbortController: Option<nat>
    var listAbortController: Option<nat>

    // The environment the service acts on.
    /** The window's live intervals, by handle. */
    var timers: map<nat, Schedule>
    var nextTimer: nat
    /** Abort controllers are numbered in creation order; `aborted` holds
        those whose `abort()` has been called. */
    var nextController: nat
    var aborted: set<nat>
    /** The remote calls issued, in order. */
    var issued: seq<PollKind>
    /** The listener invocations made, in order. */
    var delivered: seq<Delivery>

    function IntervalHandles(): set<nat>
      reads this
    {
      (if badgeInterval.Some? then {badgeInterval.value.handle} else {})
      + (if listInterval.Some? then {listInterval.value.handle} else {})
    }

    /** The controllers of the running tiers, which stopping aborts. */
    function LiveControllers(): set<nat>
      reads this
    {
      (if badgeAbortController.Some? then {badgeAbortController.value} else {})
      + (if listAbortController.Some? then {listAbortController.value} else {})
    }

    /** The bookkeeping invariant: a tier is running exactly when it holds
        an interval and a live (unaborted) controller; the window's interval
        table holds exactly the tiers' intervals; each listener set has no
        duplicates. */
    ghost predicate Consistent()
      reads this
    {
      && (isBadgePolling <==> badgeInterval.Some?)
      && (isBadgePolling <==> badgeAbortController.Some?)
      && (isListPolling <==> listInterval.Some?)
      && (isListPolling <==> listAbortController.Some?)
      && (!browser ==> !isBadgePolling && !isListPolling)
      && (badgeInterval.Some? ==>
            && badgeInterval.value.handle in timers
            && timers[badgeInterval.value.handle] == Schedule(BadgePoll, badgeInterval.value.period))
      && (listInterval.Some? ==>
            && listInterval.value.handle in timers
            && timers[listInterval.value.handle] == Schedule(ListPoll, LIST)
            && listInterval.value.period == LIST)
      && timers.Keys == IntervalHandles()
      && (forall h :: h in timers ==> h < nextTimer)
      && (badgeAbortController.Some? ==> badgeAbortController.value < nextController && badgeAbortController.value !in aborted)
      && (listAbortController.Some? ==> listAbortController.value < nextController && listAbortController.value !in aborted)
      && (forall c :: c in aborted ==> c < nextController)
      && (badgeAbortController.Some? && listAbortController.Some? ==> badgeAbortController.value != listAbortController.value)
      && (forall e :: e in listeners ==> NoDuplicates(listeners[e]))
    }

    /** Consistent, and a running badge tier polls at the interval of the
        current visibility. */
    ghost predicate Valid()
      reads this
    {
      Consistent() && (badgeInterval.Some? ==> badgeInterval.value.period == BadgePeriod(isTabHidden))
    }

    constructor (browser: bool)
      ensures Valid()
      ensures this.browser == browser
      ensures !isBadgePolling && !isListPolling && !isTabHidden
      ensures listeners == map[BadgeUpdate := [], ListUpdate := [], ErrorEvent := []]
      ensures timers == map[] && issued == [] && delivered == [] && aborted == {}
    {
      this.browser := browser;
      badgeInterval := None;
      listInterval := None;
      isBadgePolling := false;
      isListPolling := false;
      isTabHidden := false;
      listeners := map[BadgeUpdate := [], ListUpdate := [], ErrorEvent := []];
      badgeAbortController := None;
      listAbortController := None;
      timers := map[];
      nextTimer := 0;
      nextController := 0;
      aborted := {};
      issued := [];
      delivered := [];
    }

    /** `emit(e, data)`: calls every listener of `e`, in insertion order. */
    method Emit(e: PollingEvent, data: EventData)
      modifies this`delivered
      ensures delivered == old(delivered) + Deliveries(ListenersOf(listeners, e), data)
    {
      var cbs := ListenersOf(listeners, e);
      var i := 0;
      while i < |cbs|
        invariant 0 <= i <= |cbs|
        invariant delivered == old(delivered) + Deliveries(cbs[..i], data)
      {
        delivered := delivered + [Delivery(cbs[i], data)];
        i := i + 1;
      }
      assert cbs[..|cbs|] == cbs;
    }

    /** `pollBadgeCount()`: abort the previous badge controller, install a
        fresh one, issue the call and emit what it yields. */
    method PollBadgeCount(outcome: Outcome<int>)
      modifies this`aborted, this`badgeAbortController, this`nextController, this`issued, this`delivered
      ensures badgeAbortController == Some(old(nextController)) && nextController == old(nextController) + 1
      ensures aborted == old(aborted) + (if old(badgeAbortController).Some? then {old(badgeAbortController).value} else {})
      ensures issued == old(issued) + [BadgePoll]
      ensures delivered == old(delivered) + BadgePollDeliveries(listeners, outcome)
    {
      if badgeAbortController.Some? {
        aborted := aborted + {badgeAbortController.value};
      }
      badgeAbortController := Some(nextController);
      nextController := nextController + 1;
      issued := issued + [BadgePoll];
      match outcome
      case Success(count) =>
        Emit(BadgeUpdate, BadgeCount(count));
      case Failure(err) =>
        if err.name != "AbortError" {
          Emit(ErrorEvent, PollError(BadgePoll, err));
        }
    }

    /** `pollNotificationList()`. */
    method PollNotificationList(outcome: Outcome<seq<Notification>>)
      modifies this`aborted, this`listAbortController, this`nextController, this`issued, this`delivered
      ensures listAbortController == Some(old(nextController)) && nextController == old(nextController) + 1
      ensures aborted == old(aborted) + (if old(listAbortController).Some? then {old(listAbortController).value} else {})
      ensures issued == old(issued) + [ListPoll]
      ensures delivered == old(delivered) + ListPollDeliveries(listeners, outcome)
    {
      if listAbortController.Some? {
        aborted := aborted + {listAbortController.value};
      }
      listAbortController := Some(nextController);
      nextController := nextController + 1;
      issued := issued + [ListPoll];
      match outcome
      case Success(ns) =>
        Emit(ListUpdate, NotificationList(ns));
      case Failure(err) =>
        if err.name != "AbortError" {
          Emit(ErrorEvent, PollError(ListPoll, err));
        }
    }

    /** `startBadgePolling()`: from stopped, one immediate poll and an interval
        of 120000 ms when the tab is hidden, 30000 ms otherwise. */
    method StartBadgePolling(outcome: Outcome<int>)
      requires Consistent()
      modifies this`isBadgePolling, this`badgeInterval, this`timers, this`nextTimer,
               this`aborted, this`badgeAbortController, this`nextController, this`issued, this`delivered
      ensures Consistent()
      ensures !browser || old(isBadgePolling) ==> unchanged(this)
      ensures browser && !old(isBadgePolling) ==>
        && isBadgePolling
        && badgeInterval == Some(Interval(old(nextTimer), BadgePeriod(isTabHidden)))
        && timers == old(timers)[old(nextTimer) := Schedule(BadgePoll, BadgePeriod(isTabHidden))]
        && nextTimer == old(nextTimer) + 1
        && badgeAbortController == Some(old(nextController)) && nextController == old(nextController) + 1
        && aborted == old(aborted)
        && issued == old(issued) + [BadgePoll]
        && delivered == old(delivered) + BadgePollDeliveries(listeners, outcome)
    {
      if !browser || isBadgePolling {
        return;
      }
      isBadgePolling := true;
      PollBadgeCount(outcome);
      var interval := if isTabHidden then BADGE_HIDDEN else BADGE_ACTIVE;
      badgeInterval, timers, nextTimer :=
        Some(Interval(nextTimer, interval)), timers[nextTimer := Schedule(BadgePoll, interval)], nextTimer + 1;
    }

    /** `stopBadgePolling()`: clears the interval and aborts the in-flight
        controller; from stopped it does nothing. */
    method StopBadgePolling()
      requires Consistent()
      modifies this`isBadgePolling, this`badgeInterval, this`timers, this`aborted, this`badgeAbortController
      ensures Consistent()
      ensures !browser || !old(isBadgePolling) ==> unchanged(this)
      ensures browser && old(isBadgePolling) ==>
        && !isBadgePolling && badgeInterval == None && badgeAbortController == None
        && timers == old(timers) - {old(badgeInterval).value.handle}
        && aborted == old(aborted) + {old(badgeAbortController).value}
    {
      if !browser || !isBadgePolling {
        return;
      }
      isBadgePolling := false;
      if badgeInterval.Some? {
        timers := timers - {badgeInterval.value.handle};
        badgeInterval := None;
      }
      if badgeAbortController.Some? {
        aborted := aborted + {badgeAbortController.value};
        badgeAbortController := None;
      }
    }

    /** `startListPolling()`: like the badge tier, always at 30000 ms. */
    method StartListPolling(outcome: Outcome<seq<Notification>>)
      requires Consistent()
      modifies this`isListPolling, this`listInterval, this`timers, this`nextTimer,
               this`aborted, this`listAbortController, this`nextController, this`issued, this`delivered
      ensures Consistent()
      ensures !browser || old(isListPolling) ==> unchanged(this)
      ensures browser && !old(isListPolling) ==>
        && isListPolling
        && listInterval == Some(Interval(old(nextTimer), LIST))
        && timers == old(timers)[old(nextTimer) := Schedule(ListPoll, LIST)]
        && nextTimer == old(nextTimer) + 1
        && listAbortController == Some(old(nextController)) && nextController == old(nextController) + 1
        && aborted == old(aborted)
        && issued == old(issued) + [ListPoll]
        && delivered == old(delivered) + ListPollDeliveries(listeners, outcome)
    {
      if !browser || isListPolling {
        return;
      }
      isListPolling := true;
      PollNotificationList(outcome);
      listInterval, timers, nextTimer :=
        Some(Interval(nextTimer, LIST)), timers[nextTimer := Schedule(ListPoll, LIST)], nextTimer + 1;
    }

    /** `stopListPolling()`. */
    method StopListPolling()
      requires Consistent()
      modifies this`isListPolling, this`listInterval, this`timers, this`aborted, this`listAbortController
      ensures Consistent()
      ensures !browser || !old(isListPolling) ==> unchanged(this)
      ensures browser && old(isListPolling) ==>
        && !isListPolling && listInterval == None && listAbortController == None
        && timers == old(timers) - {old(listInterval).value.handle}
        && aborted == old(aborted) + {old(listAbortController).value}
    {
      if !browser || !isListPolling {
        return;
      }
      isListPolling := false;
      if listInterval.Some? {
        timers := timers - {listInterval.value.handle};
        listInterval := None;
      }
      if listAbortController.Some? {
        aborted := aborted + {listAbortController.value};
        listAbortController := None;
      }
    }

    /** `on(event, callback)`; the result stands for the returned unsubscribe
        function. */
    method On(event: PollingEvent, callback: Callback) returns (unsubscribe: Subscription)
      requires Valid()
      modifies this`listeners
      ensures Valid()
      ensures listeners == AddListener(old(listeners), event, callback)
      ensures unsubscribe == Subscription(event, callback)
    {
      if event in listeners && callback !in listeners[event] {
        listeners := listeners[event := listeners[event] + [callback]];
      }
      unsubscribe := Subscription(event, callback);
      AddListenerSpec(old(listeners), event, callback);
    }

    /** Calling the unsubscribe function returned by `on`. */
    method Unsubscribe(unsubscribe: Subscription)
      requires Valid()
      modifies this`listeners
      ensures Valid()
      ensures listeners == RemoveListener(old(listeners), unsubscribe.event, unsubscribe.callback)
    {
      var event := unsubscribe.event;
      if event in listeners {
        listeners := listeners[event := Without(listeners[event], unsubscribe.callback)];
      }
      RemoveListenerSpec(old(listeners), event, unsubscribe.callback);
    }

    /** `getState()`. */
    function GetState(): PollingState
      reads this
    {
      PollingState(isBadgePolling, isListPolling, isTabHidden, BadgePeriod(isTabHidden), LIST)
    }

    /** `triggerBadgePoll()`: polls only while the badge tier runs. */
    method TriggerBadgePoll(outcome: Outcome<int>)
      requires Valid()
      modifies this`aborted, this`badgeAbortController, this`nextController, this`issued, this`delivered
      ensures Valid()
      ensures !(browser && old(isBadgePolling)) ==> unchanged(this)
      ensures browser && old(isBadgePolling) ==>
        && issued == old(issued) + [BadgePoll]
        && aborted == old(aborted) + {old(badgeAbortController).value}
        && badgeAbortController == Some(old(nextController)) && nextController == old(nextController) + 1
        && delivered == old(delivered) + BadgePollDeliveries(listeners, outcome)
    {
      if browser && isBadgePolling {
        PollBadgeCount(outcome);
      }
    }

    /** `triggerListPoll()`: polls only while the list tier runs. */
    method TriggerListPoll(outcome: Outcome<seq<Notification>>)
      requires Valid()
      modifies this`aborted, this`listAbortController, this`nextController, this`issued, this`delivered
      ensures Valid()
      ensures !(browser && old(isListPolling)) ==> unchanged(this)
      ensures browser && old(isListPolling) ==>
        && issued == old(issued) + [ListPoll]
        && aborted == old(aborted) + {old(listAbortController).value}
        && listAbortController == Some(old(nextController)) && nextController == old(nextController) + 1
        && delivered == old(delivered) + ListPollDeliveries(listeners, outcome)
    {
      if browser && isListPolling {
        PollNotificationList(outcome);
      }
    }

    /** The `visibilitychange` handler, registered only in the browser, with
        `hidden` for `document.hidden`. `restart` is the outcome of the poll
        the restart issues and `catchUp` that of the extra poll issued when
        the tab became visible. */
    method HandleVisibilityChange(hidden: bool, restart: Outcome<int>, catchUp: Outcome<int>)
      requires Valid()
      modifies this`isTabHidden, this`isBadgePolling, this`badgeInterval, this`timers, this`nextTimer,
               this`aborted, this`badgeAbortController, this`nextController, this`issued, this`delivered
      ensures Valid()
      ensures !browser || old(isTabHidden) == hidden ==> unchanged(this)
      ensures browser && old(isTabHidden) != hidden && !old(isBadgePolling) ==>
        && isTabHidden == hidden
        && unchanged(this`isBadgePolling, this`badgeInterval, this`timers, this`nextTimer,
                     this`aborted, this`badgeAbortController, this`nextController, this`issued, this`delivered)
      ensures browser && old(isTabHidden) != hidden && old(isBadgePolling) ==>
        && isTabHidden == hidden
        && isBadgePolling
        && badgeInterval == Some(Interval(old(nextTimer), BadgePeriod(hidden)))
        && timers == (old(timers) - {old(badgeInterval).value.handle})[old(nextTimer) := Schedule(BadgePoll, BadgePeriod(hidden))]
        && issued == old(issued) + (if hidden then [BadgePoll] else [BadgePoll, BadgePoll])
        && delivered == old(delivered) + BadgePollDeliveries(listeners, restart)
                        + (if hidden then [] else BadgePollDeliveries(listeners, catchUp))
        && aborted == old(aborted) + {old(badgeAbortController).value}
                      + (if hidden then {} else {old(nextController)})
        && badgeAbortController == Some(if hidden then old(nextController) else old(nextController) + 1)
    {
      if !browser {
        return;
      }
      var wasHidden := isTabHidden;
      isTabHidden := hidden;
      if wasHidden != isTabHidden {
        if isBadgePolling {
          RestartBadgePolling(restart, catchUp);
        }
      }
    }

    /** The restart of a running badge tier on a visibility change: stop,
        start at the interval of the new visibility, and when the tab became
        visible one more poll. */
    method RestartBadgePolling(restart: Outcome<int>, catchUp: Outcome<int>)
      requires Consistent() && browser && isBadgePolling
      modifies this`isBadgePolling, this`badgeInterval, this`timers, this`nextTimer,
               this`aborted, this`badgeAbortController, this`nextController, this`issued, this`delivered
      ensures Valid()
      ensures isBadgePolling
      ensures badgeInterval == Some(Interval(old(nextTimer), BadgePeriod(isTabHidden)))
      ensures timers == (old(timers) - {old(badgeInterval).value.handle})[old(nextTimer) := Schedule(BadgePoll, BadgePeriod(isTabHidden))]
      ensures issued == old(issued) + (if isTabHidden then [BadgePoll] else [BadgePoll, BadgePoll])
      ensures delivered == old(delivered) + BadgePollDeliveries(listeners, restart)
                           + (if isTabHidden then [] else BadgePollDeliveries(listeners, catchUp))
      ensures aborted == old(aborted) + {old(badgeAbortController).value}
                         + (if isTabHidden then {} else {old(nextController)})
      ensures badgeAbortController == Some(if isTabHidden then old(nextController) else old(nextController) + 1)
    {
      StopBadgePolling();
      StartBadgePollingWithCatchUp(restart, catchUp);
    }

    /** The second half of the restart: the start, then the extra poll when
        the tab is visible. */
    method StartBadgePollingWithCatchUp(restart: Outcome<int>, catchUp: Outcome<int>)
      requires Consistent() && browser && !isBadgePolling
      modifies this`isBadgePolling, this`badgeInterval, this`timers, this`nextTimer,
               this`aborted, this`badgeAbortController, this`nextController, this`issued, this`delivered
      ensures Valid()
      ensures isBadgePolling
      ensures badgeInterval == Some(Interval(old(nextTimer), BadgePeriod(isTabHidden)))
      ensures timers == old(timers)[old(nextTimer) := Schedule(BadgePoll, BadgePeriod(isTabHidden))]
      ensures issued == old(issued) + (if isTabHidden then [BadgePoll] else [BadgePoll, BadgePoll])
      ensures delivered == old(delivered) + BadgePollDeliveries(listeners, restart)
                           + (if isTabHidden then [] else BadgePollDeliveries(listeners, catchUp))
      ensures aborted == old(aborted) + (if isTabHidden then {} else {old(nextController)})
      ensures badgeAbortController == Some(if isTabHidden then old(nextController) else old(nextController) + 1)
    {
      StartBadgePolling(restart);
      if !isTabHidden {
        PollBadgeCount(catchUp);
      }
    }

    /** `destroy()`: both tiers stop and the listener map is emptied. */
    method Destroy()
      requires Valid()
      modifies this`isBadgePolling, this`badgeInterval, this`badgeAbortController,
               this`isListPolling, this`listInterval, this`listAbortController,
               this`timers, this`aborted, this`listeners
      ensures Valid()
      ensures !isBadgePolling && !isListPolling && timers == map[] && listeners == map[]
      ensures badgeAbortController == None && listAbortController == None
      ensures aborted == old(aborted)
              + (if old(badgeAbortController).Some? then {old(badgeAbortController).value} else {})
              + (if old(listAbortController).Some? then {old(listAbortController).value} else {})
    {
      StopBadgePolling();
      StopListPolling();
      listeners := map[];
    }
  }

  /** The interval `getState` reports for the badge is the one the running
      tier was scheduled with, and the one the window's table holds. */
  lemma ReportedIntervalIsScheduled(p: NotificationPollingService)
    requires p.Valid() && p.isBadgePolling
    ensures p.GetState().badgeIntervalMs == p.badgeInterval.value.period
    ensures p.timers[p.badgeInterval.value.handle] == Schedule(BadgePoll, p.GetState().badgeIntervalMs)
    ensures p.GetState().listIntervalMs == LIST
  {
  }

  /** After `destroy` cleared the map, `on` registers nothing. */
  lemma NoRegistrationAfterClear(e: PollingEvent, cb: Callback)
    ensures AddListener(map[], e, cb) == map[]
    ensures Deliveries(ListenersOf(map[], e), BadgeCount(0)) == []
  {
  }
}
