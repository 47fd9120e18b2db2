# Follower-claim throttle and mission state, in Dafny

This project models the visitor page and the administrator dashboard of a
small "missions for followers" site.

On the visitor page (`script.js`) a visitor works through the following steps:

1. Pick a platform and type a username.
2. Choose how many followers, likes or comments they offer.
3. Complete one task button per two units.
4. Confirm that they follow the site's account.
5. Send.

A followers offer is throttled. Each one sent is recorded in a claim cache,
`usedCombinations`. The cache is mirrored in browser storage and keyed by the
string `platform_username_type_count`. The same key is refused for two hours.
The page also shows how many followers units the user has used in that window.
When an offer is refused, it shows a countdown to when the earliest claim lapses.

The dashboard (`manager.js`) keeps the list of submissions up to date from
realtime events and deletions, summarises each submission's missions, exports
the list as CSV, and looks up platform colours, icons and settings.

Modules:

- `Wrappers`: `Option`.
- `Text`: the JavaScript string operations the scripts use. These are
  `startsWith`, `includes`, `split('_').pop()`, `parseInt`, `toString`,
  `padStart`, `trim`, `toLowerCase`, `join` and `split`.
- `ClaimKeys`: mission types, username normalisation and the claim keys.
- `ClaimCache`: the cache object, with these parts:
  - the expiry sweep;
  - writes and persistence;
  - the used-units scan and the earliest-timestamp scan;
  - the specifications of both scans;
  - the throttle's properties.
- `Countdown`: the `HH:MM:SS` arithmetic of the reset countdown.
- `MissionPage`: the page object, with the platform, the username input, the
  `missions` record, the task buttons and `followCompleted`. Its handlers are
  methods that change that state and the cache.
- `Admin`: the dashboard logic.

Time (`Date.now()`) is a parameter `now`. Browser storage is the `stored`
field of `ClaimCache.Cache`, a copy of the map written by `Persist` and by the
sweep. The dashboard's locale date and time formatters are function
parameters. Whether the administrator confirms a deletion, and whether the
remote deletion succeeds, are boolean parameters.

## Model

| member | source | states |
|---|---|---|
| ClaimKeys.KeyAnatomy | script.js:130 | a claim key starts with its `platform_username_type_` prefix, and `parseInt` of its last `_` segment gives back its count |
| ClaimKeys.KeyCountDetermined | script.js:130 | two keys of one user and type are equal exactly when their counts are |
| ClaimKeys.KeysOfTypesDiffer | script.js:130 | keys of different mission types never coincide |
| ClaimKeys.FollowersKeyMarked | script.js:458 | every followers key contains `_followers_`, the marker the sweep tests |
| ClaimKeys.PrefixCapturesOtherUser | script.js:441-444 | the followers keys of user `u_followers_v` match user `u`'s prefix and add their count to `u`'s total |
| ClaimKeys.NormalizeIgnoresCase | script.js:129 | usernames that lower-case alike normalise alike |
| ClaimKeys.NormalizeIgnoresPadding | script.js:129 | surrounding white space does not change the normalised username |
| ClaimKeys.BobIsBob | script.js:129-130 | `"Bob "` and `"bob"` give the same key |
| Text.ParseIntOfNatToString | script.js:444 | `parseInt` reads back the count that the key template wrote |
| Text.ParseInt | script.js:444 | `parseInt` is `NaN` exactly when the text does not start with a digit |
| Text.LastSegment | script.js:444 | `split('_').pop()` is a suffix of the key that holds no `_` |
| Text.LastSegmentStopsAtSep | script.js:444 | that suffix reaches back to the start of the key or to its last `_`, so it is the whole text after the last `_` |
| Text.LastSegmentWhole | script.js:444 | a text without `_` is its own last segment |
| Text.TrimLower | script.js:129 | trimming and lower-casing commute |
| Text.TrimIgnoresPadding | script.js:129 | `trim` drops any surrounding white space |
| Text.TrimKeeps | script.js:129 | a text that neither starts nor ends with white space is kept whole by `trim` |
| ClaimKeys.NormalizeUsername | script.js:129 | `trim().toLowerCase()`; what it promises is stated by `NormalizeIgnoresCase`, `NormalizeIgnoresPadding`, `TrimKeeps` and `TrimLower` |
| ClaimKeys.ClaimKey | script.js:130 | the key template `${platform}_${username}_${type}_${count}`; what it promises is stated by `KeyAnatomy`, `KeyCountDetermined` and `KeysOfTypesDiffer` |
| Text.Pad2 | script.js:322 | `padStart(2, '0')` of a number below 100 gives two digits whose value is the number |
| Text.SplitJoin | manager.js:194 | splitting at the separator undoes the join when no part contains it |
| ClaimCache.Swept | script.js:453-480 | the map after a sweep has no key that was not there before, no entry the sweep would still expire, and no boolean under a followers key; `SweepIdempotent`, `LegacyRevived` and `SweepLeavesOthers` state the rest |
| ClaimCache.Cache.Load | script.js:10 | the cache starts as the stored map, or empty when nothing is stored, and agrees with storage |
| ClaimCache.Cache.CleanupExpired | script.js:453-480 | the sweep deletes exactly the marked, timestamped entries with `now - timestamp > 2h`; it turns every marked boolean into `{now, used}`; it leaves the rest as they are and then persists the map |
| ClaimCache.Cache.Put | script.js:492-495 | a key is set in memory, everything else stays the same, and storage is not touched |
| ClaimCache.Cache.Persist | script.js:498 | storage becomes a copy of the map |
| ClaimCache.SumUsedUnits | script.js:439-448 | the loop computes the sum of the trailing counts over the timestamped keys under the prefix, or `NaN` if one of them is not a number |
| ClaimCache.EarliestTimestamp | script.js:252-263 | the loop finds the smallest timestamp among the timestamped keys under the prefix, and none exactly when there are no such keys |
| ClaimCache.SumUnitsRemove | script.js:440-447 | the usage sum does not depend on the order in which keys are visited |
| ClaimCache.UnseenUserUsesNothing | script.js:439-448 | a user with no key under the prefix has used 0 |
| ClaimCache.SumAfterWrite | script.js:440-447 | writing a key that was not counted adds what it now counts to the sum |
| ClaimCache.NaNAfterWrite | script.js:443-445 | writing a key with a readable count leaves `NaN` as it was |
| ClaimCache.WriteAddsUnits | script.js:492-495 | a new record under a key of the prefix adds the key's count to the used units |
| ClaimCache.CommitAddsUnits | script.js:490-495 | committing a followers claim on an unclaimed key adds its count to the user's used units |
| ClaimCache.SumOfTwo | script.js:440-447 | the sum over two keys is the sum of what each counts |
| ClaimCache.TwoKeysAddUp | script.js:440-447 | two timestamped records under the prefix add their counts |
| ClaimCache.TwoClaimsAddUp | script.js:440-447 | two active claims of one user with different counts add up |
| ClaimCache.AliceUsesThirty | script.js:440-447 | claims of 10 and 20 followers give 30 used |
| ClaimCache.ClaimHoldsWithinWindow | script.js:471 | a claim still blocks its key after a sweep at any time up to and including exactly two hours |
| ClaimCache.ClaimLapsesAfterWindow | script.js:471-472 | after more than two hours, the sweep frees the followers key |
| ClaimCache.LegacyRevived | script.js:462-468 | a legacy `true` or `false` under a followers key becomes a fresh claim and survives the sweep |
| ClaimCache.SweepLeavesOthers | script.js:457-476 | keys without the marker, and values without a timestamp, pass through the sweep unchanged |
| ClaimCache.SweepIdempotent | script.js:453-480 | a second sweep at the same instant changes nothing |
| Countdown.ClockOf | script.js:317-319 | minutes < 60, seconds < 60, and `h*3600 + m*60 + s == floor(timeLeft / 1000)` |
| Countdown.Display | script.js:303-323 | `00:00:00` when no time is left, otherwise `HH:MM:SS`; `DisplayReadsBack` states that it reads back as the whole seconds left |
| Countdown.UpdateCountdown | script.js:298-314 | a tick stops the countdown exactly when `now >= timestamp + 2h` |
| Countdown.ReadClockParts | script.js:322 | three two-digit fields separated by `:` read back field by field |
| Countdown.DisplayReadsBack | script.js:303-323 | the text shown reads back as the whole seconds left, or as 0 once time is up |
| Countdown.PastClaimWithinTwoHours | script.js:300-319 | for a claim in the past, the countdown starts at 02:00:00 or less |
| Countdown.FiveSecondsLeft | script.js:300-323 | five seconds before the end it shows `00:00:05` and keeps running |
| Countdown.ZeroWhileStillClaimed | script.js:298-314 | at exactly two hours the countdown shows `00:00:00` and stops, while the sweep still keeps the claim |
| MissionPage.PerType.Set | script.js:115-117 | writing one type's entry leaves the other types' entries unchanged |
| MissionPage.FreshButtons | script.js:155-165 | `floor(count / 2)` new buttons, none done |
| MissionPage.CountDone | script.js:172-175 | no more tasks are counted done than there are buttons |
| MissionPage.Page.constructor | script.js:1-7 | the page starts with no platform, no selected mission and the follow not confirmed |
| MissionPage.Page.UsageCounter | script.js:426-451 | no platform: nothing shown and no sweep; empty username: 0 and no sweep; otherwise it sweeps and shows the used units of `platform_username_followers_` |
| MissionPage.Page.SelectPlatform | script.js:18-39 | missions, buttons and the follow status are reset; the counter runs with the username input as it was, then the input is cleared |
| MissionPage.Page.EnterUsername | script.js:73-87 | the input changes and the counter is refreshed; nothing else changes |
| MissionPage.Page.SelectMission | script.js:111-153 | the same offer again deselects it (all zero, no buttons). A followers offer is refused, with missions unchanged, exactly when its key holds a timestamped claim after the sweep, and the earliest claim is then found. Likes and comments are never refused. Otherwise the offer is selected with `completed = 0` and `floor(count / 2)` fresh buttons |
| MissionPage.Page.CompleteTask | script.js:171-180 | a button not yet done is marked and adds one to `completed`; pressing it again changes nothing |
| MissionPage.Page.SetFollowCompleted | script.js:332-395 | only `followCompleted` changes |
| MissionPage.Page.Send | script.js:484-498 | only a selected followers mission is written, as `{now, used}` under its normalised key, overwriting any earlier value; the map is then persisted |
| MissionPage.CountDoneMark | script.js:172-175 | marking a button that is not done adds exactly one to the done count |
| MissionPage.CountDoneAll | script.js:412-415 | the done count equals the number of buttons exactly when every button is done |
| MissionPage.CompletedBounded | script.js:171-180 | a consistent mission never has more completed tasks than buttons |
| MissionPage.SendShown | script.js:412-424 | the test of `checkSendButton`; `SendShownIffAllTasksDone` states when it holds in terms of the task buttons |
| MissionPage.SendShownIffAllTasksDone | script.js:412-424 | the send section shows exactly when the follow is confirmed, some mission is selected, and every button of every selected mission is done |
| MissionPage.SendLeavesOtherTypes | script.js:489-497 | sending writes no likes or comments key for the user |
| Admin.FormatMissions | manager.js:477-488 | the loop that pushes labels computes the summary: `None` for missing data, otherwise the qualifying labels joined by `, `, or `None` |
| Admin.Listed | manager.js:480-485 | no more labels than entries |
| Admin.ListedAppend | manager.js:481-485 | labels keep entry order |
| Admin.ListedOne | manager.js:482-483 | an entry is listed, as `count type`, exactly when it is selected with `count > 0` |
| Admin.ListedEmpty | manager.js:480-487 | nothing is listed exactly when no entry qualifies |
| Admin.ListedStartWithDigits | manager.js:483 | every label starts with a digit |
| Admin.MissionsSummary | manager.js:477-488 | what `formatMissions` returns; `FormatMissions` proves the loop computes it, and `SummaryNone`, `ListedOne` and `ListedAppend` state its contents |
| Admin.SummaryNone | manager.js:477-488 | the summary is `None` exactly when the data is missing or no entry qualifies |
| Admin.TenFollowers | manager.js:477-488 | `{followers: {selected, 10}, likes: {unselected, 0}}` reads `10 followers` |
| Admin.WithoutId | manager.js:162 | the filtered list has no record with the id; it keeps exactly the other records and is no longer than before |
| Admin.WithoutIdAppend | manager.js:162 | filtering keeps the remaining records in their original order |
| Admin.WithoutAbsentId | manager.js:162 | filtering an id that is not present changes nothing |
| Admin.InsertThenDelete | manager.js:435-447 | a delete event for an inserted id removes the inserted record again |
| Admin.SubmissionList.constructor | manager.js:92 | the list is what was loaded |
| Admin.SubmissionList.ApplyEvent | manager.js:435-447 | INSERT puts the new record first and shifts the rest; DELETE filters out the old id; other events change nothing |
| Admin.SubmissionList.DeleteSubmission | manager.js:157-169 | without confirmation nothing happens; the local list is filtered only after a successful remote delete; a failed delete alerts and keeps the list |
| Admin.Cells | manager.js:184-193 | eight cells per submission; platform, username and summary in their columns; `Followed` exactly when the follow was completed |
| Admin.Table | manager.js:182-193 | the header followed by each submission's cells, in list order |
| Admin.Csv | manager.js:177-180 | there is no CSV exactly when the list is empty |
| Admin.Row | manager.js:194 | each cell quoted and the cells joined by `,`; `RowReadsBack` states that a row of plain cells splits back into its cells |
| Admin.Render | manager.js:194 | the rows joined by line breaks; `RowsReadBack` states that the text splits back into the rows |
| Admin.RowReadsBack | manager.js:194 | a row of cells without commas or line breaks splits back into its cells and holds no line break |
| Admin.RowsReadBack | manager.js:194 | rendered rows split back into the rows |
| Admin.CsvReadsBack | manager.js:182-194 | when no cell holds a comma or a line break, the CSV splits back into the header and every submission's cells, in order |
| Admin.CommaSplitsCell | manager.js:194 | cells are quoted without escaping, so a comma inside a cell reads back as two fields |
| Admin.PlatformColor | manager.js:490-497 | a known platform gets its table entry and any other platform gets `bg-gray-100 text-gray-800` |
| Admin.PlatformIcon | manager.js:499-506 | a known platform gets its table entry and any other platform gets the phone icon |
| Admin.ColorIdentifiesPlatform | manager.js:490-497 | the colour is the grey default exactly for unknown platforms, and it tells the three known platforms apart |
| Admin.IconIdentifiesPlatform | manager.js:499-506 | the icon is the phone default exactly for unknown platforms, and it tells the three known platforms apart |
| Admin.TablesAgree | manager.js:490-506 | a platform gets the default colour exactly when it gets the default icon |
| Admin.FindSetting | manager.js:389 | the index of the first record with the key, or none when no record has it |
| Admin.SettingValue | manager.js:389-390 | `''` when no record has the key; a non-empty value comes from a record with the key; `FirstSettingWins` states that the first such record decides |
| Admin.FirstSettingWins | manager.js:389-390 | the first record with the key gives the value, whatever follows |
| Admin.MissingSettingEmpty | manager.js:389-390 | a key no record has reads as `''` |

## Left out

- Rendering, modals, tabs and `onclick` wiring are left out; they are presentation only. So are the task button labels and the `✓ Done` text. A task button is a boolean, and pressing it is `CompleteTask` with its 1-based number.
- Timers are left out: the countdown interval, clearing it, the one-second auto-close, and the 100 ms delays before the follow is confirmed. `UpdateCountdown` models a single tick. `SetFollowCompleted` sets the flag directly.
- The progress percentages are left out, because they use floating-point division and `Math.round`.
- Video link validation is left out, because it relies on the browser's `URL` parser.
- `Date.now()`, the locale date and time formatters, JSON (de)serialisation, the Blob download and the file name are left out. They are parameters, or they are outside the model.
- Supabase access (`src/supabase.js`), async loading and subscription setup are left out. The remote deletion's outcome is a parameter, and realtime events arrive as `Admin.Event` values.
- ClaimCache.Cache.Persist: it always succeeds here, and `Valid()` has memory and storage agree after every handler. In the browser, `localStorage.getItem` (script.js:10) and `setItem` (script.js:479, script.js:498) can throw, for example when storage is full or disabled. The handler then stops after the in-memory change: `selectMission` stops before its duplicate test, and the send handler keeps the claim in memory only, so it is lost on reload and the throttle no longer blocks that key. This failure path is not modelled.
- MissionPage.Page.Send: the counter refresh and the success modal that follow the commit (script.js:501-504) are not part of the method. The refresh is `UsageCounter`, called separately.
- Text.ParseInt: only the forms the page writes are covered, that is a value starting with decimal digits. Leading white space, signs, `0x` prefixes and fractions are not modelled.
- Text.Trim and Text.ToLower: `trim` covers the ASCII white space plus no-break space, the byte-order mark and the two Unicode line separators. `toLowerCase` covers `A`–`Z` only. Other Unicode spaces and case mappings are not modelled.
- ClaimCache.Entry: a stored timestamp is an integer. Truthy non-numeric timestamps, such as a string, are not modelled.
- Admin.Lookup: a platform named after an inherited object property (`constructor`, `toString`, …) returns that property in JavaScript. Here it returns the default.
- Admin.MissionData: `count` is an integer and `selected` a boolean. Fractional counts, other truthy values, and entries that are `null` (which would throw) are not modelled.
- Admin.Submission: ids are strings, matching the string id the delete button passes. With numeric ids, the strict `!==` in the filter would keep the row locally. That case is not modelled.
- Reading the settings object's declared keys and the boolean `'true'` test of a setting are left out. Only the lookup by key is modelled.
