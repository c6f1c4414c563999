# paladin client core in Dafny

This project models the state-keeping core of the paladin web client, a
SvelteKit front end for a job-application assistant. The model has ten core
files in three groups.

Services:

- the **token service**: an access/refresh pair in browser local storage,
  and expiry tests read from the access token's JWT payload;
- the **notification poller**: a badge tier and a list tier on their own
  intervals, a listener registry, abort-controller bookkeeping, and a
  visibility handler that switches the badge tier's interval;
- the **background token-refresh hook**: a periodic and on-visible expiry
  check, guarded against overlapping refreshes.

Stores:

- the **notification and feature-request store**: fourteen cells with
  paginated fetches, optimistic updates with rollback, and filtering
  deletes;
- the **modal stack**;
- the **profiles store**;
- the **authentication store**;
- the **job-analysis store**.

Pure code and the API client:

- the pure helpers of the notification types: relative-time text,
  grouping by calendar day, sorting, and filtering;
- the API client's `makeRequest`: the fetch options it sends, and how a
  response (status, content type, body) becomes a result or an error.

Every remote call is an outcome parameter: `Outcome<T> = Success(value) |
Failure(error)`. The thrown value keeps the `name`, `message` and
`instanceof Error` fields that the code inspects. Other inputs from the
environment are parameters too:

- the clock (`Date.now()`) is an integer `now` in milliseconds;
- a calendar day is an integer day number;
- the JWT decoder is a function from token to optional claims;
- SvelteKit's `browser` flag is a constant field.

The source's code falls into two kinds, and the model follows each:

- Where the source mutates objects or cells step by step, the model is a
  class with `modifies` clauses. This covers the poller, the token
  service, the stores and the refresh hook. Each method states its whole
  new state, in terms of pure functions that lemmas characterise.
- Where the source builds new values, the model is functions and lemmas.
  This covers the modal stack, the list helpers, the classification of a
  response, and the state-transition lambdas.

`groupNotificationsByDate` loops over its input, so it is a method with a
loop invariant. It is proved equal to a recursive grouping function.

The model follows what the code does, including where it does less than a
full client of this kind would:

- **Requests.** `makeRequest` in apiService.ts sends cookies
  (`credentials: 'include'`) and no bearer header. apiService.ts has no
  proactive refresh and no retry after a 401: it fails at once on a 401,
  after redirecting to the login page.
- **Aborts.** The polling service creates abort controllers but never
  passes their signal to the call. So a superseded poll still emits its
  result, and an `AbortError` can only come from the call itself.
- **Errors.** `makeRequest` translates only a `TypeError` that mentions
  `fetch`; it rethrows every other error unchanged.

## Model

| member | source | states |
|---|---|---|
| Text.NatToString | src/lib/stores/notificationStore.ts:43 | `toString()` of a count: at least one decimal digit, a leading zero only for 0, one digit below 10, at most two below 100 |
| Text.ParseNatToString | src/lib/stores/notificationStore.ts:43 | round trip: reading the decimal text back gives the number |
| Text.NatToStringInjective | src/lib/stores/notificationStore.ts:43 | distinct counts have distinct texts |
| Text.ContainsAt | src/lib/api/apiService.ts:112 | `includes`: an occurrence at any offset makes a string contain the substring |
| Text.ContainsOccurs | src/lib/api/apiService.ts:112 | `includes` holds exactly when the substring occurs at some offset, in both directions |
| Text.IntToStringReadsBack | src/lib/stores/notificationStore.ts:43 | `toString()` of any integer is a decimal text, with a '-' exactly for negatives, that parses back to the integer and holds no space |
| Text.IntToStringInjective | src/lib/stores/notificationStore.ts:43 | distinct integers give distinct texts |
| Lists.IndexOfId | src/lib/stores/notificationStore.ts:126 | `find` by id: the first position holding the id, and None exactly when no element has it |
| Lists.RemoveWithIdMeaning | src/lib/stores/notificationStore.ts:316-317 | `filter` by id: the result holds no element with the id, keeps every element of the input without it, and adds nothing |
| Lists.RemoveWithIdAppend | src/lib/stores/modalStore.ts:51 | the filter distributes over concatenation, so it keeps the other elements in order |
| Lists.RemoveOne | src/lib/stores/modalStore.ts:51 | on one element, the filter keeps it exactly when its id differs |
| Lists.RemoveAbsentId | src/lib/stores/modalStore.ts:51 | filtering an id no element has leaves the list as it is |
| TokenStorage.StoreRejectsEmpty | src/lib/services/tokenService.ts:20-23 | `setTokens` with an empty access or refresh string writes neither key |
| TokenStorage.ReadAfterStore | src/lib/services/tokenService.ts:16-34 | after a store, both keys hold the new strings; each reads back unless it is whitespace-only, which is stored but reads as no token; other keys are untouched |
| TokenStorage.ReadAfterRemove | src/lib/services/tokenService.ts:82-92 | after clearing, neither key reads as a token |
| TokenStorage.ValidExpiredExclusive | src/lib/services/tokenService.ts:133-153 | `isTokenValid` and `isTokenExpired` never both hold; both fail exactly for the empty token or at `exp*1000 == now` |
| TokenStorage.NoExpiryIsExpired | src/lib/services/tokenService.ts:133-153 | without a usable `exp` a token is not valid, and it is expired exactly when non-empty |
| TokenStorage.TokenService.constructor | src/lib/services/tokenService.ts:9-11 | the service starts on the given storage and browser flag |
| TokenStorage.TokenService.SetTokens | src/lib/services/tokenService.ts:16-35 | the new storage is the store function of the old; with non-empty strings in the browser, `needsRefresh` holds afterwards exactly when the access token is blank and the refresh token is not; with non-blank strings `hasTokens` holds and `getUserFromToken` is the user built from the decoded access token, for every decoder |
| TokenStorage.TokenService.ClearTokens | src/lib/services/tokenService.ts:82-92 | both keys are removed in the browser; afterwards both getters give null, `hasTokens` and `needsRefresh` are false and `getUserFromToken` gives null for every decoder |
| TokenStorage.TokenService.GetTimeUntilExpiration | src/lib/services/tokenService.ts:178-187 | the time left is never negative |
| TokenStorage.TimeUntilExpirationRule | src/lib/services/tokenService.ts:178-187 | 0 without a token, without `exp` or once expired, otherwise `exp*1000 - now`; positive exactly when the access token is valid |
| TokenStorage.NeedsRefreshMeaning | src/lib/services/tokenService.ts:97-108 | `needsRefresh` holds exactly without an access token but with a refresh token, so never together with `hasTokens` |
| TokenStorage.ShouldRefreshRule | src/lib/services/tokenService.ts:160-172 | false without an access token, true without a usable `exp`, otherwise `exp*1000 - now < m*60000`; the default argument is 1 minute; a wider margin never withdraws a due refresh, an expired token is always due, and a token not due within a margin of at least a minute is valid |
| TokenStorage.UserFromTokenRule | src/lib/services/tokenService.ts:192-203 | null without a token or a decodable payload; otherwise `userId = userId \|\| sub` and `email = sub \|\| email`; a user is read only from a stored access token, and a token `isTokenValid` accepts always yields one |
| TokenStorage.ShouldRefreshByTimeLeft | src/lib/services/tokenService.ts:160-187 | for an unexpired token, a refresh is due exactly when the time left is under the threshold |
| NotificationTypes.NestedFloors | src/lib/types/notification.types.ts:209-219 | the nested floors of minutes, hours and days equal the floors of the seconds by 3600 and 86400 |
| NotificationTypes.RelativeTimeBuckets | src/lib/types/notification.types.ts:200-236 | "just now" exactly below 60 s, negative differences included; then minutes, hours, days, weeks below 28 days, months of 30 days below 360 days, and years of 365 days |
| NotificationTypes.ZeroCountAsWritten | src/lib/types/notification.types.ts:224-235 | as written, 28 days give "0 months ago" and 360 days give "0 years ago" |
| NotificationTypes.ZeroCountRanges | src/lib/types/notification.types.ts:224-235 | as written, a zero count appears exactly for 28-29 days ("0 months ago") and 360-364 days ("0 years ago"), and for no other difference |
| NotificationTypes.RenderReadsBack | src/lib/types/notification.types.ts:209-235 | each "N unit ago" text starts with the count's text, which parses back to the count; the unit word that follows is singular exactly when the count is 1, so "1 minutes" or "2 minute" never appear |
| NotificationTypes.IntendedRelativeTimePositive | src/lib/types/notification.types.ts:224-235 | the corrected bucketing never shows a count below 1, and agrees with the source wherever the source's count is at least 1 |
| NotificationTypes.GroupNotificationsByDate | src/lib/types/notification.types.ts:241-276 | the loop's result is that of the recursive grouping function GroupSpec; bucket lengths sum to the input length, and the buckets together are the input as a multiset |
| NotificationTypes.GroupingPartitions | src/lib/types/notification.types.ts:256-273 | every notification lands in exactly one bucket, counted with multiplicity |
| NotificationTypes.InBucketMembership | src/lib/types/notification.types.ts:264-272 | a notification is in a bucket exactly when it is in the input and its day satisfies that bucket's rule: same day, the day before, from a week back on (future days included), or older |
| NotificationTypes.InBucketKeepsOrder | src/lib/types/notification.types.ts:256-273 | a notification appended to the input is appended to its own bucket, so each bucket keeps the input order |
| NotificationTypes.InBucketAppend | src/lib/types/notification.types.ts:256-273 | over any split of the input, a bucket of the concatenation is the bucket of the first part followed by that of the second, so each bucket keeps input order |
| NotificationTypes.InsertSorted | src/lib/types/notification.types.ts:281-301 | inserting into a sorted list keeps it sorted, and the head key becomes the smaller of the old head's and the new element's |
| NotificationTypes.InsertPermutes | src/lib/types/notification.types.ts:281-301 | insertion adds exactly that element: one more in length, and the old multiset plus the element |
| NotificationTypes.SortFeatureRequests | src/lib/types/notification.types.ts:281-301 | the result is sorted by the option's key and is a permutation of the input |
| NotificationTypes.SortOrder | src/lib/types/notification.types.ts:287-297 | most-voted gives non-increasing votes, newest non-increasing creation time, oldest non-decreasing creation time |
| NotificationTypes.InsertStable | src/lib/types/notification.types.ts:281-301 | insertion keeps the relative order of equal keys |
| NotificationTypes.SortStable | src/lib/types/notification.types.ts:281-301 | the sort is stable: the requests with any one key keep their input order |
| NotificationTypes.ByStatusCounts | src/lib/types/notification.types.ts:313-315 | the status filter keeps each matching request as often as in the input, and drops the others |
| NotificationTypes.ByCategoryCounts | src/lib/types/notification.types.ts:318-320 | the category filter keeps each matching request as often as in the input, and drops the others |
| NotificationTypes.ByStatusAppend | src/lib/types/notification.types.ts:313-315 | the status filter keeps input order: filtering `a ++ b` gives the filtered `a` followed by the filtered `b` |
| NotificationTypes.ByCategoryAppend | src/lib/types/notification.types.ts:318-320 | the category filter keeps input order in the same way |
| NotificationTypes.FilterMeaning | src/lib/types/notification.types.ts:306-326 | the result is sorted by `sortBy` and holds exactly the matching requests with their multiplicity; with both filters ALL it is a permutation of the input |
| NotificationPolling.Without | src/lib/services/notificationPollingService.ts:145-148 | `Set.delete`: removes exactly that callback and keeps a duplicate-free set duplicate-free |
| NotificationPolling.AddListenerSpec | src/lib/services/notificationPollingService.ts:137-141 | `on` adds the callback once, at the end, to that event's set only; a duplicate registration changes nothing; no event is added |
| NotificationPolling.RemoveListenerSpec | src/lib/services/notificationPollingService.ts:144-149 | unsubscribe removes only that callback, from only that event; an absent callback changes nothing, and a present one is cut out at its position with the rest kept in order |
| NotificationPolling.WithoutAbsent | src/lib/services/notificationPollingService.ts:145-148 | deleting an absent callback changes nothing |
| NotificationPolling.WithoutAppended | src/lib/services/notificationPollingService.ts:145-148 | deleting the callback just added gives back the set before |
| NotificationPolling.WithoutAppend | src/lib/services/notificationPollingService.ts:145-148 | `Set.delete` keeps order: deleting from `a ++ b` gives the two parts with the callback deleted, concatenated |
| NotificationPolling.WithoutSplits | src/lib/services/notificationPollingService.ts:145-148 | deleting a callback held once at one position gives everything before it followed by everything after it |
| NotificationPolling.SubscriberHearsEvent | src/lib/services/notificationPollingService.ts:137-149 | a callback registered with `on` is invoked exactly once when its event is emitted (`emit` at src/lib/services/notificationPollingService.ts:237-241) |
| NotificationPolling.UnsubscribedHearsNothing | src/lib/services/notificationPollingService.ts:143-149 | after the unsubscribe that `on` returned, the callback is not invoked when its event is emitted |
| NotificationPolling.SubscribeThenUnsubscribe | src/lib/services/notificationPollingService.ts:137-150 | the unsubscribe returned for a fresh registration undoes it exactly |
| NotificationPolling.NotificationPollingService.constructor | src/lib/services/notificationPollingService.ts:30-53 | both tiers stopped, tab visible, three empty listener sets, no interval live |
| NotificationPolling.NotificationPollingService.Emit | src/lib/services/notificationPollingService.ts:237-242 | the loop makes exactly the deliveries to that event's listeners, in order, and nothing else |
| NotificationPolling.NotificationPollingService.PollBadgeCount | src/lib/services/notificationPollingService.ts:188-207 | the previous badge controller is aborted and a fresh one installed; one badge call is issued; the deliveries are those of the outcome; no tier flag or interval changes |
| NotificationPolling.NotificationPollingService.PollNotificationList | src/lib/services/notificationPollingService.ts:212-232 | the list-tier counterpart of the badge poll |
| NotificationPolling.NotificationPollingService.StartBadgePolling | src/lib/services/notificationPollingService.ts:59-72 | no-op outside the browser or when running; from stopped it runs, issues one immediate poll and schedules 120000 ms if hidden, else 30000 ms; the list tier is untouched |
| NotificationPolling.NotificationPollingService.StopBadgePolling | src/lib/services/notificationPollingService.ts:78-93 | from running: stopped, interval cleared, controller aborted and nulled, list tier untouched; from stopped nothing changes |
| NotificationPolling.NotificationPollingService.StartListPolling | src/lib/services/notificationPollingService.ts:99-111 | like the badge tier, always at 30000 ms; the badge tier is untouched |
| NotificationPolling.NotificationPollingService.StopListPolling | src/lib/services/notificationPollingService.ts:117-132 | like the badge tier's stop; the badge tier is untouched |
| NotificationPolling.NotificationPollingService.On | src/lib/services/notificationPollingService.ts:137-150 | the registry becomes the add function of the old one; the result names the unsubscribe's event and callback |
| NotificationPolling.NotificationPollingService.Unsubscribe | src/lib/services/notificationPollingService.ts:144-149 | the registry becomes the remove function of the old one |
| NotificationPolling.NotificationPollingService.TriggerBadgePoll | src/lib/services/notificationPollingService.ts:170-174 | polls only while the badge tier runs in the browser; otherwise nothing changes |
| NotificationPolling.NotificationPollingService.TriggerListPoll | src/lib/services/notificationPollingService.ts:179-183 | polls only while the list tier runs in the browser; otherwise nothing changes |
| NotificationPolling.NotificationPollingService.HandleVisibilityChange | src/lib/services/notificationPollingService.ts:248-269 | an unchanged visibility does nothing; a change while the badge tier runs restarts it at the new visibility's interval, with two immediate polls when the tab became visible and one when it became hidden |
| NotificationPolling.NotificationPollingService.RestartBadgePolling | src/lib/services/notificationPollingService.ts:258-265 | stop then start of a running badge tier: the old interval and controller are gone, the new interval matches the current visibility, and a visible tab gets the extra poll, whose controller replaces the restart's |
| NotificationPolling.NotificationPollingService.StartBadgePollingWithCatchUp | src/lib/services/notificationPollingService.ts:260-265 | from stopped: the start, then on a visible tab a second poll that aborts the first poll's controller |
| NotificationPolling.NotificationPollingService.Destroy | src/lib/services/notificationPollingService.ts:274-279 | both tiers stopped, no live interval, both controllers aborted, the listener map empty |
| NotificationPolling.ReportedIntervalIsScheduled | src/lib/services/notificationPollingService.ts:155-165 | the badge interval `getState` reports is the one the running tier was scheduled with; the list interval is 30000 |
| NotificationPolling.NoRegistrationAfterClear | src/lib/services/notificationPollingService.ts:138-141 | after `destroy` cleared the map, `on` registers nothing and an emit reaches no one |
| NotificationStore.BadgeTextMeaning | src/lib/stores/notificationStore.ts:41-44 | "99+" exactly above 99; from 0 to 99, at most two decimal digits that read back as the count; for a non-negative count, `hasUnread` exactly when the badge is not "0" |
| NotificationStore.MarkOneRead | src/lib/stores/notificationStore.ts:130-143 | marking one unread notification read lowers the unread number by exactly one; marking it unread again restores the list |
| NotificationStore.AllReadMeaning | src/lib/stores/notificationStore.ts:161-164 | after marking all, nothing is unread, and marking all again changes nothing |
| NotificationStore.UpvoteOutcome | src/lib/stores/notificationStore.ts:241-266 | success installs the server's count; failure restores the prior count, with the community copy's `hasVoted` false whatever it was before |
| NotificationStore.RemoveUpvoteOutcome | src/lib/stores/notificationStore.ts:281-306 | success installs the server's count; failure sets `hasVoted` true and ends at the prior count when it was at least 1, and at 1 when it was 0 |
| NotificationStore.MergeFiltersLaws | src/lib/stores/notificationStore.ts:328-330 | an empty patch changes nothing, and applying a patch twice is applying it once |
| NotificationStore.Store.constructor | src/lib/stores/notificationStore.ts:18-35 | every cell starts at its initial value |
| NotificationStore.Store.FetchUnreadCount | src/lib/stores/notificationStore.ts:53-62 | success sets the count and the badge fetch time; failure sets only the error |
| NotificationStore.Store.UpdateBadgeCount | src/lib/stores/notificationStore.ts:67-69 | the count becomes the given one |
| NotificationStore.Store.UpdateNotificationList | src/lib/stores/notificationStore.ts:115-118 | the list is replaced and the list fetch time set |
| NotificationStore.Store.BeginFetchNotifications | src/lib/stores/notificationStore.ts:74-81 | nothing while loading; otherwise loading with the error cleared, asking for page 0 on refresh and the current page otherwise |
| NotificationStore.Store.FinishFetchNotifications | src/lib/stores/notificationStore.ts:82-99 | a refresh replaces the list and resets the page; otherwise the page is appended after the existing items; `hasMore = !last`; failure sets the error; loading is false after either outcome |
| NotificationStore.Store.LoadMoreNotifications | src/lib/stores/notificationStore.ts:105-110 | nothing without more pages or while loading; otherwise the page moves on by exactly one and is the page asked for |
| NotificationStore.Store.MarkAsRead | src/lib/stores/notificationStore.ts:123-148 | no-op for an unknown or read id; success marks the first match read and lowers a positive count by one; failure restores the list and a positive count, but raises a count of 0 or below by one it never lost |
| NotificationStore.Store.MarkAllAsRead | src/lib/stores/notificationStore.ts:153-176 | no-op while loading; success leaves all read and the count 0; failure restores list and count exactly |
| NotificationStore.Store.BeginFetchFeatureRequests | src/lib/stores/notificationStore.ts:181-185 | nothing while loading; otherwise loading with the error cleared |
| NotificationStore.Store.FinishFetchFeatureRequests | src/lib/stores/notificationStore.ts:187-201 | success installs the data (empty when missing) and the fetch time; failure sets the error; loading is false either way |
| NotificationStore.Store.BeginFetchMyFeatureRequests | src/lib/stores/notificationStore.ts:207-211 | nothing while loading; otherwise loading with the error cleared |
| NotificationStore.Store.FinishFetchMyFeatureRequests | src/lib/stores/notificationStore.ts:213-226 | success installs the data (empty when missing); failure sets the error; no fetch time; loading is false either way |
| NotificationStore.SettleUpvote | src/lib/stores/notificationStore.ts:243-266 | the optimistic update followed by the settlement leaves each list as the first match settled by the outcome, and every other request as it was |
| NotificationStore.SettleRemoveUpvote | src/lib/stores/notificationStore.ts:283-306 | the same for a vote removal |
| NotificationStore.Store.UpvoteRequest | src/lib/stores/notificationStore.ts:232-267 | no-op when neither list holds the id; otherwise the first match of each list is settled by the outcome, and a failure sets the error |
| NotificationStore.Store.RemoveUpvote | src/lib/stores/notificationStore.ts:272-307 | the removal counterpart of the upvote, with the count clamped at 0 |
| NotificationStore.Store.DeleteFeatureRequest | src/lib/stores/notificationStore.ts:312-323 | success removes every request with the id from both lists; failure leaves them, sets the error and rethrows |
| NotificationStore.Store.SetRequestFilters | src/lib/stores/notificationStore.ts:328-330 | the filters become the merge of the old ones with the patch |
| NotificationStore.Store.ClearError | src/lib/stores/notificationStore.ts:385-387 | the error is null |
| NotificationStore.Store.Init | src/lib/stores/notificationStore.ts:335-354 | the three listeners registered in order; in the browser from stopped, the badge tier starts with the next interval handle at the visibility's period, a fresh controller, one call and its deliveries, nothing aborted; otherwise the badge tier, timers and controllers are unchanged; the list tier and visibility are never touched |
| NotificationStore.Store.Destroy | src/lib/stores/notificationStore.ts:360-383 | both polling tiers stopped, with no interval left; the poller's aborted set grows by exactly the controllers of the tiers that were running; its listeners, visibility, issued calls and deliveries are kept; every cell back to its initial value |
| NotificationStore.Store.Reset | src/lib/stores/notificationStore.ts:364-382 | every cell back to its initial value |
| ModalStore.ModalIdFor | src/lib/stores/modalStore.ts:28 | the id starts with "modal-" |
| ModalStore.Open | src/lib/stores/modalStore.ts:27-46 | exactly one modal more, on top, with the returned id and the defaulted options; earlier modals unchanged |
| ModalStore.Close | src/lib/stores/modalStore.ts:49-53 | no modal with the id remains, and every other modal is kept |
| ModalStore.CloseTop | src/lib/stores/modalStore.ts:56-60 | only the last modal goes; an empty stack stays empty |
| ModalStore.CloseAll | src/lib/stores/modalStore.ts:63-65 | the stack is empty |
| ModalStore.MergeProps | src/lib/stores/modalStore.ts:71 | the merged props have the keys of both; new keys win, and missing props spread as empty |
| ModalStore.UpdateProps | src/lib/stores/modalStore.ts:68-74 | length and order kept; the props are merged for modals with the id only |
| ModalStore.CloseLaws | src/lib/stores/modalStore.ts:49-53 | closing an unknown id changes nothing; closing twice is closing once; the rest keep their order |
| ModalStore.OpenThenClose | src/lib/stores/modalStore.ts:27-60 | `closeTop` right after `open` gives back the stack; so does closing the new id when no open modal had it |
| ModalStore.UpdatePropsLaws | src/lib/stores/modalStore.ts:68-74 | updating twice with the same props is updating once; an empty update still materialises `props` |
| ProfilesStore.ReplaceProfileLaws | src/lib/stores/profilesStore.ts:106-112 | when the response carries the id, replacing by id keeps which positions hold it, and replacing again changes nothing |
| ProfilesStore.RemoveProfileLaws | src/lib/stores/profilesStore.ts:134-138 | no profile with the id remains, and removing again changes nothing |
| ProfilesStore.CvUpdateLaws | src/lib/stores/profilesStore.ts:182-188 | clearing or setting a CV touches only the `cv` of profiles with the id |
| ProfilesStore.Store.constructor | src/lib/stores/profilesStore.ts:10-17 | the state starts empty, not loading, with no error |
| ProfilesStore.Store.LoadProfiles | src/lib/stores/profilesStore.ts:23-41 | success replaces the profiles; failure keeps them and sets the error; loading is false either way |
| ProfilesStore.Store.CreateProfile | src/lib/stores/profilesStore.ts:44-89 | the call matches the file's presence; success appends the new profile and returns it; failure keeps the list, sets the error and rethrows |
| ProfilesStore.Store.UpdateProfile | src/lib/stores/profilesStore.ts:92-124 | success replaces every profile with the id by the response; failure sets the error and rethrows |
| ProfilesStore.Store.DeleteProfile | src/lib/stores/profilesStore.ts:127-148 | success removes the profiles with the id; failure sets the error and rethrows |
| ProfilesStore.Store.DownloadCv | src/lib/stores/profilesStore.ts:151-172 | success changes nothing; failure sets only the error and rethrows |
| ProfilesStore.Store.DeleteCv | src/lib/stores/profilesStore.ts:175-198 | success clears the CV of the profiles with the id; failure sets the error and rethrows |
| ProfilesStore.Store.ReplaceCvForProfile | src/lib/stores/profilesStore.ts:201-217 | success sets the CV of the profiles with the id; the loading flag and the error are never touched |
| ProfilesStore.Store.ClearError | src/lib/stores/profilesStore.ts:220-222 | only the error changes, to null |
| ProfilesStore.Store.Reset | src/lib/stores/profilesStore.ts:225-227 | the initial state |
| JobAnalysisStore.Store.constructor | src/lib/stores/jobAnalysisStore.ts:10-17 | the initial state |
| JobAnalysisStore.Store.AnalyzeJobDescription | src/lib/stores/jobAnalysisStore.ts:22-43 | success stores and returns the data; failure sets the message or fallback, keeps the previous analysis, returns undefined and rethrows nothing; loading is false after both |
| JobAnalysisStore.Store.Reset | src/lib/stores/jobAnalysisStore.ts:44-46 | the initial state |
| AuthStore.InitAfterSignOut | src/lib/stores/authStore.ts:40-47 | after `logout` (or with a user set) `init` is skipped; after `clear` it runs again in the browser |
| AuthStore.Store.constructor | src/lib/stores/authStore.ts:17-22 | no user, not loading, not authenticated, not initialised |
| AuthStore.Store.SetUser | src/lib/stores/authStore.ts:28-36 | signed in with the user, loading false, initialised |
| AuthStore.Store.Init | src/lib/stores/authStore.ts:39-90 | nothing outside the browser or once initialised; without both tokens, signed out and initialised with no call; with tokens, signed in as the response's user, or on failure tokens cleared and signed out |
| AuthStore.Store.Logout | src/lib/stores/authStore.ts:93-113 | whatever the remote outcome: tokens cleared, signed out and initialised, redirected in the browser |
| AuthStore.Store.UpdateProfile | src/lib/stores/authStore.ts:116-126 | success changes only `user` and returns `{success: true, data}`; failure propagates and changes nothing |
| AuthStore.Store.Clear | src/lib/stores/authStore.ts:129-137 | tokens cleared and signed out, but not initialised |
| TokenRefresh.RefreshWindow | src/lib/hooks/useRefreshToken.svelte.ts:14-73 | a refresh starts exactly when in the browser, not already refreshing, with a decodable `exp` and `0 < exp*1000 - now < 600000`; an expired token is left alone; a running refresh always skips the check |
| TokenRefresh.DecisionAgreesWithTokenService | src/lib/hooks/useRefreshToken.svelte.ts:38-65 | a token the hook refreshes is still valid and `shouldRefreshToken(10)` holds of it; one it sees as expired is not valid |
| TokenRefresh.Monitor.constructor | src/lib/hooks/useRefreshToken.svelte.ts:8-9 | not refreshing, no interval, no listener |
| TokenRefresh.Monitor.CheckAndRefreshToken | src/lib/hooks/useRefreshToken.svelte.ts:14-73 | the branch taken is the decision function; the guard is set and one refresh call issued exactly on a refresh |
| TokenRefresh.Monitor.FinishRefresh | src/lib/hooks/useRefreshToken.svelte.ts:56-63 | the guard is released after success or failure |
| TokenRefresh.Monitor.Mount | src/lib/hooks/useRefreshToken.svelte.ts:87-100 | monitoring starts exactly with both tokens in the browser: an immediate check, the 180000 ms interval and the visibility listener |
| TokenRefresh.Monitor.Tick | src/lib/hooks/useRefreshToken.svelte.ts:96 | while the interval is set, each tick is one check |
| TokenRefresh.Monitor.VisibilityChange | src/lib/hooks/useRefreshToken.svelte.ts:78-85 | checks only while registered and when the document is visible |
| TokenRefresh.Monitor.Destroy | src/lib/hooks/useRefreshToken.svelte.ts:102-110 | the interval cleared and the listener removed |
| ApiService.FetchInitAsWritten | src/lib/api/apiService.ts:98-105 | as written, caller headers replace the merged headers wholesale |
| ApiService.FetchInit | src/lib/api/apiService.ts:98-105 | the corrected options always carry a `Content-Type`, `credentials` defaulting to include, and the caller's method and body |
| ApiService.HeadersReplacedAsWritten | src/lib/api/apiService.ts:98-105 | a caller `Authorization` header loses the JSON content type as written, and keeps it under the corrected merge |
| ApiService.FetchInitMerges | src/lib/api/apiService.ts:98-105 | the corrected merge keeps every caller header and the default `Content-Type` unless overridden, and equals the code as written without caller headers |
| ApiService.MakeRequest | src/lib/api/apiService.ts:96-142 | the URL is the base followed by the path, the options are those of the corrected merge `FetchInit`, and a failure is never an untranslated fetch `TypeError` |
| ApiService.TranslateIdempotent | src/lib/api/apiService.ts:136-141 | translating twice is translating once, and a translation changes the error exactly when it is a `TypeError` mentioning `fetch` |
| ApiService.NoContentIgnoresBody | src/lib/api/apiService.ts:110-111 | a 204 resolves to the placeholder, whatever the body, without redirect |
| ApiService.OkBodyReturned | src/lib/api/apiService.ts:112-116 | an ok non-204 response returns its parsed JSON when the content type mentions `application/json`, its text otherwise |
| ApiService.UnauthorizedFails | src/lib/api/apiService.ts:118-126 | a readable 401 fails with "Authentication required" and redirects when there is a window |
| ApiService.ErrorStatusMessage | src/lib/api/apiService.ts:128-132 | another failing status fails with `API Error: <status> - <m>`: the object's message or `HTTP <status>`, or the raw text; a null JSON body throws a `TypeError` instead |
| ApiService.FetchFailureTranslated | src/lib/api/apiService.ts:136-141 | a failed fetch becomes the network error when it is a `TypeError` mentioning `fetch`; any other error propagates as it is; a failed fetch never redirects |
| ApiService.CheckAuthCases | src/lib/api/apiService.ts:343-351 | false on a failed fetch and on any non-ok status; true on an ok status whose body reads |

## Left out

- ApiService.MakeRequest: records the options of the corrected merge `FetchInit`, not of the spread as written (`FetchInitAsWritten`); the two differ only when a caller passes `headers`, no caller in apiService.ts does, and ApiService.FetchInitMerges proves them equal for every such call.

Remote calls and the environment:

- The network, `fetch`, `json()`, `text()` and `blob()` are left out. Each remote call is an outcome parameter, and each redirect is a boolean result.
- The endpoint methods `refreshToken`, `getUnreadNotificationCount`, `getNotifications`, `markNotificationAsRead`, `markAllNotificationsAsRead`, the vote and feature-request endpoints, `createProfileWithCV`, `uploadCV` and `downloadCV` are only outcomes. apiService.ts does not define several of them (`refreshToken` among them); the others use FormData or `fetch` directly.
- `generateTemplateCoverLetter` and the other one-line endpoint delegations are left out. Only `getCurrentUser`, `logout` and `checkAuth` are modelled.
- apiService.ts and useRefreshToken.svelte.ts have no single-flight refresh, refresh waiter queue, 401 retry or attempt counter, so none is modelled.
- JWT decoding (`decodeToken`) is a decoder parameter. Base64url, `atob`, URI decoding and `JSON.parse` are outside the model.
- localStorage exceptions are left out, `QuotaExceededError` included. So are the `catch` blocks they would reach, including the outer `catch` of `checkAndRefreshToken`.
- `console` logging is left out.
- The DOM download link of `downloadCV` is left out.
- Date parsing and the system clock are left out. Times and calendar days are integers.
- The `TypeError` message that reading `message` of a null body produces depends on the engine, so it is a constant.

Timing and interleaving:

- Interleaving of overlapping async calls is not modelled. The exceptions are the three fetches of the notification store and the refresh hook's refresh call, which are split at their `await`.
- Every other store operation is one atomic step from its start to its settlement. The `isLoading = true` state and the optimistic intermediate values are not observable between steps.
- Timers are not simulated. The poller keeps a table of live intervals; a tick behaves like `triggerBadgePoll` or `triggerListPoll`. The hook has a `Tick` method.
- Real cancellation by `AbortController` is left out; the code never passes the signal to the call. So a poll that finishes after `stopBadgePolling` still emits, and the model cannot show that.
- TokenRefresh.Monitor.Mount: a second mount sets up a second interval in the source. The model holds one interval slot.

Objects and aliasing:

- `markAsRead`, `upvoteRequest` and `removeUpvote` mutate the found objects in place. The model updates the first matching position of the list instead.
- Aliasing is not modelled. For example, a rollback that reaches an object already dropped from a replaced list is not captured.
- A list element mutated in place does not notify Svelte subscribers. The store's notification machinery is left out, as are `derived` recomputation and `onMount`/`onDestroy`.
- Callbacks are recorded as deliveries. What a callback does is modelled separately: the store's listeners are `UpdateBadgeCount` and `UpdateNotificationList`.

Payloads:

- The unread-count field is `data.count` in the store and `data.unreadCount` in the poller. Both are modelled as an integer outcome, so a missing field (`undefined`) is not represented.
- JavaScript values inside DTOs (dates as strings, `any`) are typed records. A field explicitly set to `undefined` inside a patch counts as absent.

Context files and modelling choices:

- `confetti.ts`, `formatDate.ts`, the profile fixture data and the route loaders are left out. They are animation, a library wrapper, static data and page wiring.
- The request URL is the base URL followed by the path, as written. The base ends in "/" and every path starts with "/", so with the constant in apiService.ts the URLs contain "//".

## Findings

| source | as written | input that shows it | evidently intended | confidence | as-written member | corrected member |
|---|---|---|---|---|---|---|
| src/lib/types/notification.types.ts:224-235 | weeks are left once `weeks < 4` fails and months once `months < 12` fails, before the next unit reaches 1 | a notification 28 days old reads "0 months ago"; one 360 days old reads "0 years ago" | keep the smaller unit until the larger count is at least 1 ("4 weeks ago", "12 months ago") | not executed | NotificationTypes.ZeroCountAsWritten | NotificationTypes.IntendedRelativeTimePositive |
| src/lib/api/apiService.ts:98-105 | `...options` is spread after the merged `headers`, so caller headers replace the defaults wholesale | `makeRequest(path, { headers: { Authorization: 'Bearer t' } })` sends no `Content-Type` | caller headers merged over `Content-Type: application/json` | not executed; no caller in apiService.ts passes headers | ApiService.HeadersReplacedAsWritten | ApiService.FetchInitMerges |
