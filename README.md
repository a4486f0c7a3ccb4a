# OppHub opportunity board — a Dafny model

This project models the application logic of OppHub, a browser dashboard that lists
internships, hackathons, contests and scholarships and lets a signed-in user search,
filter, bookmark and track applications, and that sends deadline-reminder and
status-update e-mails. The model covers:

- the catalogue filter (search, category tab, source/difficulty/location) and the
  per-category counts of the category tabs, plus the page state that "Clear all
  filters" resets (`catalog.dfy`, module `Catalog`);
- the sidebar's filter-record updates and "Clear All" (`sidebar.dfy`, `Sidebar`);
- an opportunity card: the deadline label, the "Urgent" badge, the bookmark button, the
  badge colours and the truncated tag and eligibility lines (`opportunity_card.dfy`,
  `OpportunityCard`);
- the personal dashboard's statistics (`dashboard.dfy`, `Dashboard`);
- the bookmark and application list hooks as classes holding the list, the loading
  flag and a log of the requests sent to the record store (`bookmarks.dfy`,
  `applications.dfy`);
- the two e-mail messages and their status tables (`email_service.dfy`, `EmailService`);
- the deadline-reminder HTTP endpoint's decision chain (`deadline_reminders.dfy`,
  `DeadlineReminders`);
- the authentication provider's profile resolution and updates (`auth_context.dfy`,
  `AuthContext`);
- the record types (`opportunity_types.dfy`, `user_types.dfy`).

Shared helpers: `wrappers.dfy` (Option, Result, Outcome), `seqs.dfy` (order-preserving
filter and the subsequence relation), `text.dfy` (JavaScript truthiness of optional
strings, ASCII lower-casing, substring search, `join`, decimal rendering), `time.dfy`
(one day in milliseconds, exact ceiling division).

The backend-as-a-service client is an abstract collaborator. Every store call or mail
send is represented by an argument giving its outcome (`Outcome` or `Result`): the
operation either completed or threw an error. Each hook class appends the request it
sends to a `storeCalls` log, so the contracts can say which record was created,
updated or deleted. The current time, fresh ids (`app_${Date.now()}` and the like) and
the instant that a deadline's ISO text denotes are arguments. Locale date rendering is a
function-valued argument.

Three points about the code that the model keeps:

- The filter never reads `filters.category`. Only the category tab restricts the category.
- The status tables of the status-update mail are plain lookups. A status outside the
  four yields no entry (`None` here), not an error.
- Neither bookmarks nor applications are checked for duplicates.

## Model

| member | source | states |
|---|---|---|
| `Seqs.Filter` | src/App.tsx:26-45 | `Array.filter`: the result is no longer than the input, and only elements of the input that satisfy the predicate are kept |
| `Seqs.FilterKeeps` | src/App.tsx:26-45 | no element that satisfies the predicate is dropped |
| `Seqs.FilterIsSubsequence` | src/App.tsx:26-45 | the filtered list keeps the original relative order (it is a subsequence) |
| `Seqs.FilterMultiset` | src/hooks/useBookmarks.ts:72 | each element that passes keeps its number of occurrences, and each one that fails has none |
| `Seqs.FilterConcat` | src/App.tsx:58-60 | filtering distributes over concatenation, which is what makes the per-category counting loop correct |
| `Catalog.Passes` | src/App.tsx:26-45 | with no query, the `'all'` tab and no set attribute every opportunity passes; a passing opportunity has the selected tab's category and each set source, difficulty or location exactly |
| `Catalog.FilterOpportunities` | src/App.tsx:25-46 | the shown list is a subsequence of the catalogue, and an opportunity is shown iff it passes search, category tab and set attributes |
| `Catalog.UnfilteredIsCatalog` | src/App.tsx:28-42 | an empty query, the `'all'` tab and `{}` return the whole catalogue unchanged |
| `Catalog.ActiveCategoryRestricts` | src/App.tsx:35 | with a tab other than `'all'`, every result has exactly that category, and a tab that names no category gives an empty list |
| `Catalog.SetAttributesRequireEquality` | src/App.tsx:40-42 | a truthy source, difficulty or location filter is matched exactly |
| `Catalog.IgnoredFilterKeys` | src/App.tsx:35-42 | `filters.category`, `filters.deadline` and `filters.search` never affect the result; an empty or absent source, difficulty or location does not constrain it |
| `Catalog.SearchIgnoresQueryCase` | src/App.tsx:28-30 | the search compares lower-cased text, so the query's case does not matter |
| `Catalog.SearchFindsTitle` | src/App.tsx:28 | an opportunity whose lower-cased title contains the lower-cased query at some position passes the search |
| `Catalog.CategoryCountsSum` | src/App.tsx:50-60 | every opportunity is counted in exactly one of the four categories, so the four counts sum to the catalogue length |
| `Catalog.CategoryCounts` | src/App.tsx:49-63 | the counting loop yields exactly the five keys, `all` equal to the catalogue length and each category the number of opportunities in it |
| `Catalog.AppContent.constructor` | src/App.tsx:17-19 | the page starts with an empty query, the `'all'` tab and `{}` |
| `Catalog.AppContent.SetSearchQuery` | src/App.tsx:78 | the header's search box sets the query and nothing else |
| `Catalog.AppContent.SetActiveCategory` | src/App.tsx:97-100 | the category tabs set the active tab and nothing else |
| `Catalog.AppContent.SetFilters` | src/App.tsx:142 | the sidebar replaces the filter record and nothing else |
| `Catalog.AppContent.ClearAllFilters` | src/App.tsx:156-160 | "Clear all filters" resets query, tab and filters, after which the whole catalogue is shown |
| `Sidebar.UpdateFilter` | src/components/layout/Sidebar.tsx:14-16 | the spread update sets key `k` to the value and leaves every other key as it was |
| `Sidebar.FiltersExtensional` | src/types/opportunity.ts:19-26 | a filter record is determined by the values of its six keys |
| `Sidebar.UpdateFilterIdempotent` | src/components/layout/Sidebar.tsx:15 | applying the same update twice equals applying it once |
| `Sidebar.SelectedValue` | src/components/layout/Sidebar.tsx:34 | choosing `'all'` stores "unset"; any other option is stored as chosen |
| `Sidebar.DisplayedValue` | src/components/layout/Sidebar.tsx:34 | a select shows the stored value when it is truthy and `'all'` when it is unset or empty; it never shows an empty string |
| `Sidebar.SelectRoundTrip` | src/components/layout/Sidebar.tsx:32-84 | choosing a non-empty option then reading the select back shows that option; the key is unset exactly when `'all'` was chosen |
| `Sidebar.ClearFilters` | src/components/layout/Sidebar.tsx:18-20 | "Clear All" yields the record with every key unset |
| `Sidebar.ClearedShowsAll` | src/components/layout/Sidebar.tsx:18-20 | after clearing, every select shows `'all'` |
| `OpportunityCard.FormatDeadline` | src/components/opportunities/OpportunityCard.tsx:49-60 | the "n days left" label has n between 2 and 7, and the date label is the locale rendering of the deadline |
| `OpportunityCard.FormatDeadlineByTimeLeft` | src/components/opportunities/OpportunityCard.tsx:49-60 | in milliseconds left, `x`: "Expired" iff x ≤ −1 day, "Today" iff −1 day < x ≤ 0, "Tomorrow" iff 0 < x ≤ 1 day, "n days left" iff 1 day < x ≤ 7 days (with (n−1) days < x ≤ n days), the date iff x > 7 days |
| `OpportunityCard.FiveDaysLeftExample` | src/components/opportunities/OpportunityCard.tsx:58 | four and a half days ahead is rendered "5 days left" |
| `OpportunityCard.IsDeadlineSoon` | src/components/opportunities/OpportunityCard.tsx:62-68 | the deadline is urgent iff it is less than a day past and at most seven days ahead: −1 day < deadline − now ≤ 7 days |
| `OpportunityCard.UrgentIffCountdownLabel` | src/components/opportunities/OpportunityCard.tsx:62-68 | "Urgent" holds iff the label is neither "Expired" nor a date, i.e. iff −1 day < deadline − now ≤ 7 days |
| `OpportunityCard.SourceColor` | src/components/opportunities/OpportunityCard.tsx:21-28 | the lookup is total, and the grey default is returned exactly for strings other than the three named platforms |
| `OpportunityCard.CategoryColor` | src/components/opportunities/OpportunityCard.tsx:30-38 | grey exactly for strings that name no category |
| `OpportunityCard.DifficultyColor` | src/components/opportunities/OpportunityCard.tsx:40-47 | grey exactly for strings that name no difficulty |
| `OpportunityCard.OnlyOtherSourceIsGrey` | src/components/opportunities/OpportunityCard.tsx:21-28 | among typed sources only `other` gets the grey badge |
| `OpportunityCard.ShownTags` | src/components/opportunities/OpportunityCard.tsx:130-134 | at most the first two tags are shown, and all tags when there are at most two |
| `OpportunityCard.MoreTagsBadge` | src/components/opportunities/OpportunityCard.tsx:135-139 | a "+n more" badge appears iff some tags are hidden, and the digits between "+" and " more" read back as the number of hidden tags |
| `OpportunityCard.EligibilityLine` | src/components/opportunities/OpportunityCard.tsx:142-146 | the line is present iff the list is non-empty, and then it is the items joined by ", " in order (see `Text.JoinSnoc`) and contains every item |
| `OpportunityCard.Card.constructor` | src/components/opportunities/OpportunityCard.tsx:14 | the card's flag starts as the opportunity's `isBookmarked` |
| `OpportunityCard.Card.HandleBookmark` | src/components/opportunities/OpportunityCard.tsx:16-19 | the flag is negated and `onBookmark` receives the opportunity id exactly once |
| `OpportunityCard.HandleBookmarkTwice` | src/components/opportunities/OpportunityCard.tsx:16-19 | pressing twice restores the flag |
| `Dashboard.StatusCountsSum` | src/components/dashboard/PersonalDashboard.tsx:57-61 | the four status counts add up to the number of applications |
| `Dashboard.Stats` | src/components/dashboard/PersonalDashboard.tsx:56-62 | `total` is the number of applications; each of the four counts is the number of applications with that status; the counts sum to the total |
| `Dashboard.SuccessRate` | src/components/dashboard/PersonalDashboard.tsx:64-66 | the rate is in [0, 100], is 0 with no applications, and otherwise times the total equals 100·(accepted + shortlisted) |
| `Dashboard.EmptyStats` | src/components/dashboard/PersonalDashboard.tsx:56-66 | no applications: all counts and the rate are 0 |
| `Dashboard.SuccessRateExample` | src/components/dashboard/PersonalDashboard.tsx:64-65 | three accepted and one rejected give 75 |
| `Dashboard.DashboardOverview` | src/components/dashboard/PersonalDashboard.tsx:88-119 | "Total" is the application count, "Bookmarked" the bookmark count, "Pending" the `applied` count (at most the total), and the rate is `SuccessRate`, within [0, 100] |
| `Dashboard.StatusColor` | src/components/dashboard/PersonalDashboard.tsx:36-44 | total, and grey exactly for strings other than the four statuses |
| `Dashboard.KnownStatusesAreColoured` | src/components/dashboard/PersonalDashboard.tsx:36-44 | no application status is shown grey |
| `Bookmarks.FindFor` | src/hooks/useBookmarks.ts:69 | `find` gives the first bookmark for the opportunity, and nothing iff there is none |
| `Bookmarks.WithoutOpportunity` | src/hooks/useBookmarks.ts:72 | removes every bookmark for the opportunity and keeps every other one, with its number of occurrences, in order |
| `Bookmarks.WithoutAbsentIsIdentity` | src/hooks/useBookmarks.ts:69-72 | removing an opportunity that has no bookmark changes nothing |
| `Bookmarks.NewBookmark` | src/hooks/useBookmarks.ts:46-54 | the record carries the given id, user, opportunity id, title, source and category, no creation time, and a null deadline unless a non-empty one is given |
| `Bookmarks.BookmarksHook.constructor` | src/hooks/useBookmarks.ts:8-9 | the list starts empty and loading |
| `Bookmarks.BookmarksHook.IsBookmarked` | src/hooks/useBookmarks.ts:80-82 | the `some` test holds exactly when the `find` that removal uses has a match |
| `Bookmarks.BookmarksHook.FetchBookmarks` | src/hooks/useBookmarks.ts:11-30 | signed out: list cleared; signed in: list replaced by the store's, kept on failure; loading ends either way |
| `Bookmarks.BookmarksHook.AddBookmark` | src/hooks/useBookmarks.ts:36-63 | signed out: no-op; otherwise one create request, and on success exactly the new bookmark is prepended; on failure the list is unchanged and the error returned |
| `Bookmarks.BookmarksHook.RemoveBookmark` | src/hooks/useBookmarks.ts:65-78 | no-op when signed out or not bookmarked; otherwise deletes the first match's id in the store and on success drops all local matches; on failure unchanged and the error returned |
| `Bookmarks.BookmarksHook.ToggleBookmark` | src/hooks/useBookmarks.ts:84-96 | signed out, nothing is sent or changed; bookmarked, the first match's id is deleted and on success the list is `WithoutOpportunity`; otherwise the new bookmark is created and on success prepended; a success flips `isBookmarked`, a failure leaves the list |
| `Bookmarks.ToggleTwice` | src/hooks/useBookmarks.ts:84-96 | two successful toggles restore `isBookmarked` |
| `Bookmarks.AddTwice` | src/hooks/useBookmarks.ts:46-57 | no duplicate check: adding twice gives two entries for the opportunity |
| `Applications.NewApplication` | src/hooks/useApplications.ts:42-51 | the record carries the given id, user, opportunity id, title and source, status `applied`, notes null, no timestamps, and a null deadline unless a non-empty one is given |
| `Applications.ReminderTime` | src/hooks/useApplications.ts:57-61 | a reminder is due iff a deadline is given and deadline − 24 h is after now, and then at exactly deadline − 86 400 000 ms |
| `Applications.ReminderAgreesWithCard` | src/hooks/useApplications.ts:57-73 | a reminder is scheduled iff the card would show "n days left" or a date, and at the reminder time the card reads "Tomorrow", matching the reminder's text |
| `Applications.ReminderExamples` | src/hooks/useApplications.ts:57-61 | a deadline 48 h ahead is reminded 24 h before it; one 12 h ahead gets no reminder |
| `Applications.ReminderNotification` | src/hooks/useApplications.ts:62-71 | an unread deadline-reminder notification with the given id, for the user and the opportunity, scheduled at the given time, titled "Application Deadline Reminder", with the message `Your application for "<title>" is due tomorrow!` |
| `Applications.WithStatus` | src/hooks/useApplications.ts:90-94 | same length; entries with other ids unchanged; matching entries get the status and update time, and keep their notes when the new notes are falsy |
| `Applications.WithoutApplication` | src/hooks/useApplications.ts:104 | removes exactly the entries with that id and keeps the rest, with their number of occurrences, in order |
| `Applications.ApplicationsHook.constructor` | src/hooks/useApplications.ts:8-9 | the list starts empty and loading |
| `Applications.ApplicationsHook.FetchApplications` | src/hooks/useApplications.ts:11-26 | signed out: nothing; signed in: list replaced by the store's, kept on failure, loading ends |
| `Applications.ApplicationsHook.SyncWithUser` | src/hooks/useApplications.ts:28-36 | signed out: list cleared and loading false; signed in: fetch |
| `Applications.ApplicationsHook.ApplyToOpportunity` | src/hooks/useApplications.ts:38-80 | signed out: no-op; a failed create leaves the list unchanged; a successful one prepends exactly the new application and then creates the reminder iff `ReminderTime` gives one; a failed reminder keeps the application and returns the error |
| `Applications.ApplicationsHook.UpdateApplicationStatus` | src/hooks/useApplications.ts:82-99 | sends status, notes-or-null and the first clock reading; on success the list becomes `WithStatus` with the second reading as update time; on failure it is unchanged and the error returned |
| `Applications.ApplicationsHook.DeleteApplication` | src/hooks/useApplications.ts:101-109 | sends the delete; on success the list becomes `WithoutApplication`, on failure it is unchanged and the error returned |
| `Applications.ApplyTwice` | src/hooks/useApplications.ts:38-54 | no uniqueness check: applying twice gives two entries for the opportunity |
| `EmailService.DeadlineReminderEmail` | src/services/emailService.ts:66-89 | sent to the user from `reminders@opphub.com` with subject "⏰ Deadline Reminder: " + title; the text greets the user and contains the quoted title, the formatted deadline and the apply link |
| `EmailService.StatusUpdateEmail` | src/services/emailService.ts:166-188 | sent to the user from `updates@opphub.com` with subject "📬 Application Update: " + title; the text contains the quoted title and "Status Updated: old → new" |
| `EmailService.StatusEmoji` | src/services/emailService.ts:105-110 | has an entry for exactly the four statuses; looking up another status is not an error |
| `EmailService.StatusColor` | src/services/emailService.ts:112-117 | defined for exactly the four statuses |
| `EmailService.StatusTablesAgree` | src/services/emailService.ts:105-117 | both tables cover the same statuses and tell the statuses apart |
| `EmailService.SendDeadlineReminder` | src/services/emailService.ts:11-96 | the reminder built from the long-formatted deadline is handed to the transport, whose result or error is returned unchanged |
| `EmailService.SendApplicationStatusUpdate` | src/services/emailService.ts:98-195 | the status update is handed to the transport, whose result or error is returned unchanged |
| `DeadlineReminders.HandleRequest` | functions/deadline-reminders/index.ts:11-142 | every response allows origin `*`; no body iff OPTIONS; 405 iff neither OPTIONS nor POST; 400 iff a parsed POST lacks a truthy email, name, title or deadline; 500 iff the body could not be read; `success: true` iff a complete POST; the 405 body is "Method not allowed" and the 400 body "Missing required fields" |
| `DeadlineReminders.MethodCheckedBeforeBody` | functions/deadline-reminders/index.ts:13-31 | for any method but POST the body does not affect the response |
| `DeadlineReminders.ApplyUrlUnchecked` | functions/deadline-reminders/index.ts:36-44 | `applyUrl` never affects the response |
| `DeadlineReminders.ScheduledEchoesRequest` | functions/deadline-reminders/index.ts:115-126 | a complete request is answered 200 with "Deadline reminder scheduled successfully" and its e-mail, title and formatted deadline |
| `DeadlineReminders.FailureReportsMessage` | functions/deadline-reminders/index.ts:128-140 | a failure reports the error's message, or the default text when it is empty |
| `AuthContext.LocalPart` | src/contexts/AuthContext.tsx:53 | `split('@')[0]`: a prefix of the address without '@', ending at the first '@' if there is one |
| `AuthContext.DisplayNameFor` | src/contexts/AuthContext.tsx:53 | the display name, else the e-mail's local part, else `'User'`; never empty |
| `AuthContext.NewProfile` | src/contexts/AuthContext.tsx:49-61 | a new profile carries the user id, the e-mail or `''`, the fallback display name and default preferences |
| `AuthContext.WithPreferences` | src/contexts/AuthContext.tsx:37-45 | an existing profile keeps its stored preferences, or gets exactly the defaults (both notification flags on, no categories or sources, theme `system`) when it has none; nothing else changes |
| `AuthContext.Merge` | src/contexts/AuthContext.tsx:92-96 | the spread: each supplied field takes the supplied value, each other field keeps the old one, and `updatedAt` is the new time |
| `AuthContext.MergeIdempotent` | src/contexts/AuthContext.tsx:92-96 | repeating the same update at the same time changes nothing more |
| `AuthContext.MergeEmptyTouchesOnlyTime` | src/contexts/AuthContext.tsx:92-96 | an update supplying no field changes only `updatedAt` |
| `AuthContext.MergeTwice` | src/contexts/AuthContext.tsx:92-96 | two updates in a row equal one update whose supplied fields are the later ones where both supply them |
| `AuthContext.AuthProvider.constructor` | src/contexts/AuthContext.tsx:18-20 | no user, no profile, loading |
| `AuthContext.AuthProvider.IsAuthenticated` | src/contexts/AuthContext.tsx:112 | `!!user`; in every state the provider reaches, holding a profile implies being authenticated |
| `AuthContext.AuthProvider.OnAuthStateChanged` | src/contexts/AuthContext.tsx:23-75 | user and loading follow the callback; with a user, the first listed profile is used (with default preferences), or a new one is created and used once the create succeeded; failures leave the profile; without a user it is cleared |
| `AuthContext.AuthProvider.UpdateUserProfile` | src/contexts/AuthContext.tsx:80-101 | no-op without a profile; otherwise one update request and, on success, only the supplied fields plus `updatedAt` change; on failure unchanged and the error returned |
| `OpportunityTypes.ParseCategory` | src/types/opportunity.ts:5 | a string names a category iff it is one of the four category names, and then that category |
| `OpportunityTypes.ParseSource` | src/types/opportunity.ts:6 | a string names a source iff it is one of the four source names |
| `OpportunityTypes.ParseDifficulty` | src/types/opportunity.ts:10 | a string names a difficulty iff it is one of the three difficulty names |
| `OpportunityTypes.NamesRoundTrip` | src/types/opportunity.ts:5-10 | every category, source and difficulty is recovered from its name |
| `UserTypes.ListingStatusExtendsApplicationStatus` | src/types/opportunity.ts:14 | an opportunity's status is `not_applied` exactly when its name is none of the four application statuses |
| `Text.OrNull` | src/hooks/useBookmarks.ts:53 | `x \|\| null` keeps a truthy string and nulls `undefined` and `''` |
| `Text.Lower` | src/App.tsx:28-30 | `toLowerCase` preserves length and lower-cases each character |
| `Text.ContainsIff` | src/App.tsx:28-30 | `includes` holds iff the needle occurs at some index |
| `Text.JoinSnoc` | src/components/opportunities/OpportunityCard.tsx:144 | `join` puts the separator between neighbours: appending an item appends the separator and the item |
| `Text.JoinContainsEach` | src/components/opportunities/OpportunityCard.tsx:144 | `join` keeps every item in the result |
| `Text.NatText` | src/components/opportunities/OpportunityCard.tsx:58 | a number in a template literal: non-empty decimal digits without a leading zero |
| `Text.NatTextValue` | src/components/opportunities/OpportunityCard.tsx:58 | the rendered digits read back as the number, so "n days left" and "+n more" show n |
| `Time.CeilDiv` | src/components/opportunities/OpportunityCard.tsx:53 | `Math.ceil(x / d)` is the q with d·(q−1) < x ≤ d·q |

## Left out

- Rendering and styling: all JSX, the header's theme toggle and the category tabs' display. The `counts[id] \|\| 0` fallback in the tabs never applies, because every key is filled.
- The record store, auth service and mail transport internals: they are abstract outcomes. Their ordering, persistence and the store's `where`/`orderBy`/`limit` semantics are not modelled. A listing is taken as returned.
- React lifecycle and async interleaving (`useEffect`, `useMemo`, `useCallback`). Each action is one atomic step, so the double-click race between `isBookmarked` and `addBookmark` is not modelled.
- `toLocaleDateString`, `toISOString` and `Date` parsing: dates are integer milliseconds, and renderings are function arguments. An unparsable date (NaN) is not modelled. `Notification.scheduledFor` holds the instant, not its ISO text.
- `Text.Lower`: `toLowerCase` is modelled on ASCII letters only. Other Unicode case mappings are not modelled.
- `successRate.toFixed(1)` and the progress bar. The rate is an exact `real`.
- JSON encoding of preferences: stored preferences read back unchanged, and an absent or empty stored text is `None`.
- HTML e-mail bodies, and the endpoint's `serve` wrapper and console logging. Only to/from/subject/text, the status tables and the response status, headers and payload are modelled.
- Request-body field values that are not strings: every body field is an optional string.
- `AuthContext.Merge`: a `Partial<User>` key given explicitly as `undefined` is treated as not supplied. The store-side patch with stringified preferences is logged as the patch itself.
- `AuthContext.AuthProvider.UpdateUserProfile`: the two `new Date()` calls are one time argument.
- `EmailService.StatusEmoji`: keys inherited from `Object.prototype` are not modelled. In JavaScript, `"constructor"`, `"toString"`, `"valueOf"` or `"__proto__"` look up a defined value, not `undefined`; the model gives `None` for them.
- `EmailService.StatusColor`: keys inherited from `Object.prototype` are not modelled, as for `StatusEmoji`.
- `logout` (a direct call into the auth service), the quick-filter checkboxes (wired to nothing) and the card's `onBookmark` prop, which the page never passes. Nothing is invented for these.
- `getStatusIcon` in the dashboard, which only selects icons.
