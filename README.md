# Top-users statistics and auto-recharge, modelled in Dafny

This project models three pieces of the new-api service:

- the **Top users statistics page** (`web/src/pages/Stats/index.jsx`): the
  date-range handler, which turns the picked range into epoch seconds and
  clamps a range longer than 30 days (2,592,000 s) to the 30 days ending at
  the picked end; the per-row quota breakdown (remaining and total read with
  "`parseInt` or 0", used = total − remaining, a remaining percentage guarded
  against a zero total); and the rank column (position + 1);
- the **top-users data hook** (`web/src/hooks/stats/useTopUsersData.jsx`):
  its five state fields and `fetchTopUsers`, which builds the query
  (`start_timestamp`, `end_timestamp`, `limit`, each only when positive, in
  that order), reads the `{success, message, data}` body, replaces the
  list on success (`data || []`), shows the message on a failed body or a
  thrown error, and always lowers `loading`;
- the **auto-recharge pass** (`service/auto_recharge.go`): the loop over
  enabled users that recharges a user whose quota is at or below the
  threshold, unless a weekly or monthly cap on earlier automatic recharges
  (0 = no cap) is reached or a lookup fails, counting the users recharged;
  the Monday-based week start and the first-of-month start; and the
  disabled-setting skip of the task loop.

Files:

- `wrappers.dfy`: `Option`.
- `number_text.dfy` (module `NumberText`): JavaScript's `parseInt` without a
  radix (ECMAScript section 19.2.5: leading white space, a sign, a `0x`
  prefix selecting radix 16, the longest digit prefix, `NaN` when there is
  none) and `String(n)` for integers, with the proof that `parseInt` reads
  back what `String` writes.
- `top_users_data.dfy` (module `TopUsersData`): the row and response types,
  the query, the notifier and the hook as a class `TopUsersData` whose
  methods change its fields.
- `stats_page.dfy` (module `StatsPage`): the clamp, the quota breakdown, the
  ranked rows and the page as a class `StatsPage`, whose `HandleDateChange`
  writes the hook's timestamps and the picker value.
- `auto_recharge.dfy` (module `AutoRecharge`): the setting, the day
  arithmetic, the per-user decision `Decide`, the user table as a class
  `UserStore`, the pass as the loop `CheckAndRechargeUsers`, which is proved
  equal to the fold `Pass`, and the lemmas about `Pass`.

Inputs from outside the program are parameters. The HTTP executor is a
total function from the request path to an `Outcome`: `Responded(body)` or
`Thrown(message)`. The error notifier is a `Notifier` object that records
the messages it is shown. The clock is a millisecond timestamp on the page
and a `Today(day, dayOfMonth)` value in the recharge task. The user listing
is a `Lookup<seq<User>>`. `CountAutoRechargeLogs` is a function
`(userId, sinceDay) -> Lookup<int>`. The user table fails its reads and its
writes for fixed sets of user ids.

Days in the recharge model are numbered consecutively, with day 0 a
Thursday (1 January 1970), so Go's `now.Weekday()` is `(day + 4) % 7`. The
week start `time.Date(y, m, d - weekday + 1, …)` is the day number
`day - weekday + 1`, because Go's `time.Date` normalises an out-of-range day
into the neighbouring month. The month start is `day - dayOfMonth + 1`.

Points of the code that a reader might expect otherwise:

- `percent` (index.jsx:82) lies in [0, 100] only when 0 ≤ remain ≤ total.
  `RemainingPercent` proves the bound under that condition and nothing more.
- The limit select offers 10, 20 and 30 (index.jsx:175-177), but the hook
  sends any positive `limit` (useTopUsersData.jsx:37), and so does the model.
- The quota texts are read with all of `parseInt`'s rules, including the
  `0x` prefix (`"0x1A"` reads as 26). This is not a plain decimal parse.

## Model

| member | source | states |
|---|---|---|
| NumberText.TrimStart | web/src/pages/Stats/index.jsx:79-80 | the result is a suffix of the input, only white space was removed, and it does not start with white space |
| NumberText.DigitPrefixLength | web/src/pages/Stats/index.jsx:79-80 | the length of the longest prefix of digits of the radix: all before it are digits, the next is not |
| NumberText.ParseIntOrZero | web/src/pages/Stats/index.jsx:79-80 | `parseInt(s) \|\| 0`: 0 when `parseInt` gives NaN, the parsed value otherwise |
| NumberText.ParseInt | web/src/pages/Stats/index.jsx:79-80 | the reference definition of `parseInt(s)` with no radix (its steps are ReadMagnitude, Unsigned and IsNegative); its own contract gives the sign: a value read without a minus sign is ≥ 0, one read with it ≤ 0; its properties are stated by ParseIntOfDecimalPrefix, ParseIntOfNegativeDecimal, ParseIntOfIntString, ParseIntOfNonNumeric, ParseIntSeesTrimmedText, ParseIntIgnoresLeadingWhitespace and HexPrefixExample |
| NumberText.ParseIntOfDecimalPrefix | web/src/pages/Stats/index.jsx:79-80 | parse-or-zero reads back the decimal text of any n ≥ 0 when the text ends there or continues with a non-digit ("12abc" is 12, "5x" is 5); only "0" followed by "x"/"X" is excluded, as it switches to hexadecimal |
| NumberText.ParseIntOfNegativeDecimal | web/src/pages/Stats/index.jsx:79-80 | a leading minus sign gives the negated value |
| NumberText.ParseIntOfIntString | web/src/pages/Stats/index.jsx:79-80 | `parseInt(String(v)) == v` for every integer v: a numeric quota field, which reaches `parseInt` as its decimal text, is read back exactly |
| NumberText.ParseIntOfNonNumeric | web/src/pages/Stats/index.jsx:79-80 | text with no decimal digit after white space and sign is NaN, so parse-or-zero yields 0 and never fails |
| NumberText.ParseIntSeesTrimmedText | web/src/pages/Stats/index.jsx:79-80 | two texts equal after leading white space parse to the same result |
| NumberText.ParseIntIgnoresLeadingWhitespace | web/src/pages/Stats/index.jsx:79-80 | leading white space does not change the parsed value |
| NumberText.HexPrefixExample | web/src/pages/Stats/index.jsx:79-80 | `parseInt("0x1A") \|\| 0` is 26: a 0x prefix selects hexadecimal |
| NumberText.DecimalString | web/src/pages/Stats/index.jsx:79-80 | `String(n)`: a non-empty digit string with no leading zero unless n is 0 |
| NumberText.IntString | web/src/pages/Stats/index.jsx:79-80 | `String(v)`: the decimal text, with a minus sign exactly for negative v |
| TopUsersData.KeepPositive | web/src/hooks/stats/useTopUsersData.jsx:35-37 | keeps exactly the entries with a positive value, and only those |
| TopUsersData.QueryParams | web/src/hooks/stats/useTopUsersData.jsx:34-37 | the parameters the fetch appends: at most three, all with a positive value; QueryParamsPresence states which ones and in what order |
| TopUsersData.QueryString | web/src/hooks/stats/useTopUsersData.jsx:39 | the query text is empty exactly when there are no parameters |
| TopUsersData.RequestPath | web/src/hooks/stats/useTopUsersData.jsx:34-39 | the requested path starts with `/api/log/top_users?` and is that prefix alone exactly when start, end and limit are all ≤ 0; RequestQueryReadsBack states the rest of its contents |
| TopUsersData.QueryParamsPresence | web/src/hooks/stats/useTopUsersData.jsx:34-37 | each of start_timestamp, end_timestamp and limit is sent iff it is > 0, in that order; all-zero sends nothing |
| TopUsersData.QueryStringExample | web/src/hooks/stats/useTopUsersData.jsx:34-39 | with start 0, end t > 0 and limit 10 the path is `/api/log/top_users?end_timestamp=<t>&limit=10` |
| TopUsersData.SplitQueryString | web/src/hooks/stats/useTopUsersData.jsx:34-39 | splitting the query text at `&` and each entry at its first `=` gives back exactly the parameters, in order, for names without `=` or `&`: the text is the entries `name=String(value)` joined by `&` |
| TopUsersData.RequestQueryReadsBack | web/src/hooks/stats/useTopUsersData.jsx:34-39 | the query the fetch sends reads back as exactly the positive fields, in the order start, end, limit |
| TopUsersData.Notifier.ShowError | web/src/hooks/stats/useTopUsersData.jsx:44 | showing an error appends exactly that message to the notifier's log |
| TopUsersData.TopUsersData.constructor | web/src/hooks/stats/useTopUsersData.jsx:25-29 | initial state: not loading, no rows, start 0, end 0, limit 10 |
| TopUsersData.TopUsersData.SetStartTimestamp | web/src/hooks/stats/useTopUsersData.jsx:27 | sets the start timestamp and nothing else |
| TopUsersData.TopUsersData.SetEndTimestamp | web/src/hooks/stats/useTopUsersData.jsx:28 | sets the end timestamp and nothing else |
| TopUsersData.TopUsersData.SetLimit | web/src/hooks/stats/useTopUsersData.jsx:29 | sets the limit and nothing else |
| TopUsersData.TopUsersData.BuildParams | web/src/hooks/stats/useTopUsersData.jsx:34-37 | the appended parameters equal the positive fields in the fixed order |
| TopUsersData.TopUsersData.BeginFetch | web/src/hooks/stats/useTopUsersData.jsx:32-39 | `loading` is true while the request is outstanding, and the request path is built from the current state |
| TopUsersData.TopUsersData.Settle | web/src/hooks/stats/useTopUsersData.jsx:40-49 | success: rows become `data` or [] and nothing is shown; failed body: rows kept and `message` shown once; thrown: rows kept and the error's message shown once; `loading` ends false |
| TopUsersData.TopUsersData.FetchTopUsers | web/src/hooks/stats/useTopUsersData.jsx:31-51 | the whole fetch: the outcome for the built path decides the rows and the messages as in Settle; `loading` ends false; start, end and limit are unchanged |
| TopUsersData.FetchScenario | web/src/hooks/stats/useTopUsersData.jsx:41-44 | a failed body after a successful one leaves the successful rows and shows "boom" once |
| StatsPage.ClampWindow | web/src/pages/Stats/index.jsx:63-73 | the end is kept and the duration is at most 2,592,000 s; a longer window starts at end − 2,592,000, a shorter one is unchanged; the result lies inside an ordered input window |
| StatsPage.ClampIdempotent | web/src/pages/Stats/index.jsx:63-73 | clamping a clamped window changes nothing |
| StatsPage.ClampFortyDays | web/src/pages/Stats/index.jsx:63-68 | a 40-day window [T, T+40d] becomes [T+10d, T+40d] |
| StatsPage.IsCompleteRange | web/src/pages/Stats/index.jsx:58 | the guard of the date handler: a complete range has at least two entries, and a cleared picker (no entries) is never complete |
| StatsPage.Seconds | web/src/pages/Stats/index.jsx:59-60 | `Math.floor(ms / 1000)`: the largest whole second at or before the instant |
| StatsPage.RemainingPercent | web/src/pages/Stats/index.jsx:82 | 0 when total ≤ 0; otherwise percent × total = remain × 100; within [0, 100] when 0 ≤ remain ≤ total |
| StatsPage.RenderQuotaUsage | web/src/pages/Stats/index.jsx:78-82 | remain and total are parse-or-zero of the row's texts, used + remain = total (unclamped), percent as RemainingPercent |
| StatsPage.NegativeUsage | web/src/pages/Stats/index.jsx:81 | remaining above total shows as negative usage |
| StatsPage.ZeroTotalExample | web/src/pages/Stats/index.jsx:79-82 | remaining "5", total "0" gives used −5, remaining 5, 0 percent |
| StatsPage.NormalExample | web/src/pages/Stats/index.jsx:79-82 | remaining "30", total "100" gives used 70, remaining 30, 30 percent |
| StatsPage.RankedRows | web/src/pages/Stats/index.jsx:121 | one row per record, in server order; the row at index i has rank i + 1 |
| StatsPage.RanksArePositions | web/src/pages/Stats/index.jsx:121 | ranks strictly increase from 1 to the number of rows |
| StatsPage.StatsPage.constructor | web/src/pages/Stats/index.jsx:42 | the picker value starts empty |
| StatsPage.StatsPage.Mount | web/src/pages/Stats/index.jsx:44-55 | the mount effect stores today's midnight and now, in seconds, and shows both in the picker |
| StatsPage.StatsPage.HandleDateChange | web/src/pages/Stats/index.jsx:57-75 | an incomplete range changes nothing; otherwise the hook gets the clamped window (duration ≤ 30 days), and the picker shows the clamped window when clamping happened and the picked range otherwise |
| AutoRecharge.Weekday | service/auto_recharge.go:58 | Go's weekday of a day number, in 0..6 with 0 Sunday |
| AutoRecharge.MondayBasedWeekday | service/auto_recharge.go:58-61 | Sunday (0) becomes 7, every other weekday is kept; the result is in 1..7 |
| AutoRecharge.WeekStart | service/auto_recharge.go:58-62 | the week start is a Monday within the six days before today or today |
| AutoRecharge.WeekStartIsLatestMonday | service/auto_recharge.go:58-62 | the week start is the only Monday in the seven days ending today |
| AutoRecharge.MonthStart | service/auto_recharge.go:63 | the month start is day 1 of the current month: today minus (day of month − 1) |
| AutoRecharge.UnderCap | service/auto_recharge.go:78-99 | one cap's check: a cap of 0 or less lets everything through; a positive cap blocks when the count read fails or the count has reached the cap |
| AutoRecharge.Decide | service/auto_recharge.go:67-99 | recharge iff the quota read succeeds, quota ≤ threshold, and each cap is off (≤ 0) or its count read succeeds and is below the cap; a failed read and a quota above the threshold each give their own skip |
| AutoRecharge.NoCapsMeansThresholdOnly | service/auto_recharge.go:73-99 | with both caps off (0 or less, as the `> 0` guards treat them), exactly the users at or below the threshold (inclusive) qualify |
| AutoRecharge.DefaultSettingThresholdOnly | setting/operation_setting/auto_recharge_setting.go:20-27 | the built-in setting is enabled, every 30 minutes, threshold 50, amount 200, and with its caps at 0 only the threshold decides who is recharged |
| AutoRecharge.QuotaLookup | service/auto_recharge.go:67 | the quota read succeeds iff the user is in the table and its read does not fail, and then returns the stored quota |
| AutoRecharge.Increased | service/auto_recharge.go:101 | adds the amount to that one user unless its write fails; all other users and the set of users are unchanged |
| AutoRecharge.UserStore.GetUserQuota | service/auto_recharge.go:67 | the read returns the table's quota or a failure, as QuotaLookup |
| AutoRecharge.UserStore.IncreaseUserQuota | service/auto_recharge.go:101 | the table becomes Increased of the old table |
| AutoRecharge.Step | service/auto_recharge.go:66-107 | one loop iteration: the set of users in the table is kept, the counter grows by at most one, and an iteration that does not count changes nothing |
| AutoRecharge.Pass | service/auto_recharge.go:66-107 | the reference definition of the loop (a left fold of Step over the users, from the old table and a zero counter); CheckAndRechargeUsers is proved equal to it, and its properties are stated by PassBounds, PassLeavesOthers, PassEffect, AboveThresholdUntouched and AboveThresholdSkipped |
| AutoRecharge.RechargedUsers | service/auto_recharge.go:66-104 | the users the pass recharges: exactly the listed users that are eligible, at most as many as listed |
| AutoRecharge.PassBounds | service/auto_recharge.go:65-104 | 0 ≤ rechargedCount ≤ number of users, and the pass neither adds nor removes users in the table |
| AutoRecharge.PassLeavesOthers | service/auto_recharge.go:66-101 | a user not in the list keeps its quota |
| AutoRecharge.PassEffect | service/auto_recharge.go:65-107 | with distinct ids: the counter equals the number of eligible users; each eligible user gains exactly the amount (unless its write fails) and every other user keeps its quota |
| AutoRecharge.AboveThresholdUntouched | service/auto_recharge.go:73-75 | a user with quota above the threshold keeps that quota through the whole pass, whatever the caps, and is not among the eligible users; no distinct-id assumption |
| AutoRecharge.AboveThresholdSkipped | service/auto_recharge.go:73-75 | in the pass itself, the iteration at any occurrence of a user above the threshold leaves table and counter as they were: that user is never recharged or counted; no distinct-id assumption |
| AutoRecharge.CheckAndRechargeUsers | service/auto_recharge.go:38-114 | a failed user listing changes nothing and counts 0; otherwise the table and counter after the loop equal the fold Pass, with the Monday week start and the first-of-month start |
| AutoRecharge.RunIteration | service/auto_recharge.go:15-33 | when the setting is disabled no user is checked and nothing changes; when enabled the pass runs exactly as CheckAndRechargeUsers |

## Left out

- React rendering, the table, popover and progress widgets, `percent.toFixed`, `renderQuota` formatting and the `t(...)` translations are presentational and are not modelled.
- Date objects: instants are integer milliseconds, and `new Date(...)` construction, local midnight and time zones are not modelled. An invalid date, whose time is NaN, is not modelled either. A cleared picker (`null`) is modelled as the empty sequence, which the handler also ignores.
- The HTTP client and the notifier are an `Outcome` function and a message log. Percent-encoding by `URLSearchParams` is not modelled: the names and decimal values sent contain no character it would encode.
- Overlapping `fetchTopUsers` calls, which settle in whatever order their responses arrive, are not modelled. The model is sequential and keeps only the split of one fetch into `BeginFetch` and `Settle`.
- RenderQuotaUsage: computes with exact integers and reals. IEEE-754 rounding, and `parseInt` precision beyond 2^53, are not modelled. Quota fields are modelled as their text: a JSON number reaches `parseInt` as `String(number)`, which `ParseIntOfIntString` reads back exactly for integers.
- NumberText.IsJsWhitespace: lists the white-space code points by hand: tab, vertical tab, form feed, space, no-break space, the byte-order mark and the Unicode Zs separators, plus the four line terminators. A separator added to Zs by a later Unicode version is not covered.
- The endless `AutoRechargeTask` loop with `time.Sleep`, and the interval between runs, are timer-driven. They are not modelled; `RunIteration` models one iteration.
- The float conversion `float64(cfg.Threshold) * common.QuotaPerUnit` is not modelled: `thresholdQuota` and `amountQuota` are integer inputs.
- Go's 64-bit `int` overflow on quota arithmetic is not modelled: quotas are unbounded integers.
- GORM queries, `model.RecordLog`, `SysLog`/`SysError` and the `recover` of a panic are not modelled. The recharge log written by `RecordLog` only affects the counts of later passes, and within a pass the counts are a fixed function.
- The error from `IncreaseUserQuota` is ignored, as in the source. A failed write leaves the quota unchanged, yet that user is still counted in `rechargedCount`.
- PassEffect: stated for users with distinct ids (the table's primary key). For a list with a repeated id, `Pass` re-reads the updated quota exactly as the loop does, but no lemma characterises that case.
- The environment-variable reads, `strconv` parsing and configuration registration in `setting/operation_setting/auto_recharge_setting.go` are not modelled. Only the setting's fields and its defaults (`DefaultSetting`) are.
