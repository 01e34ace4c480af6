# SpeedReader, modelled in Dafny

SpeedReader is a Next.js web application for RSVP reading: a text is shown one
word at a time in the middle of the screen. The reader page has handlers that
step through a text word by word, but they are reached only from a keyboard
handler that no element listens to, so the page as written offers no way to
step. The reading speed is derived from a clock. Free accounts are metered at 10000 words a month, behind a paywall. Texts can be
bookmarked into a library, finished sessions are recorded in a reading history,
and a route guard sends visitors to sign in.

This project models the rule-bearing core of the application and proves its
properties:

- **Reader page** (`reader.dfy`, module `Reader`):
  - `ReaderSession` is a class with one field per state cell, ref and
    local-storage entry of `src/app/reader/page.tsx`.
  - It covers stepping, the paywall gate, batched usage reporting, position
    persistence, pause, reset, the clock's words-per-minute figure, bookmarking
    and the history entry sent on finishing.
  - Word splitting is in `tokenizer.dfy`. `String(n)` and `parseInt` are in
    `numerals.dfy`.
- **Usage meter** (`usage.dfy`):
  - the tier-dependent statistics;
  - `canReadMore`;
  - lazy creation of a free tier;
  - the atomic counter behind `trackWordsRead`, as a `UsageStore` class over
    maps.
- **Reading history** (`reading_history.dfy`): the `reading_history` table as a
  `HistoryTable` class, the normalisation of inserted rows, the listing, and the
  aggregate statistics.
- **Landing page** (`landing.dfy`): the demo player's state machine and the FAQ
  accordion, as classes.
- **Saved-texts hook** (`saved_texts.dfy`): the client-side library list and
  its updates after each request.
- **History page formatting** (`history_format.dfy`): durations and relative
  dates.
- **Route guard** (`middleware.dfy`).
- **API routes** (`usage_route.dfy`, `history_route.dfy`,
  `saved_texts_route.dfy`): session checks, body validation, normalisation and
  the responses of the usage, reading-history and saved-texts endpoints.

`js.dfy` holds the JavaScript notions the rest relies on:

- JSON request bodies;
- falsiness and `|| null`;
- the `\s` whitespace class;
- thrown errors as `Result`;
- HTTP responses.

Store calls are not executed. Their answers are parameters: an
`Option<string>` error message, the fetched record, or the reply of a request.

Some behaviour of the source is modelled as written and shows in the proved
contracts:

- **Zero counts are refused.** `0` is refused for `words_read` and for
  `word_count`, because `0` is falsy. The reading-history endpoint accepts a
  negative `words_read`.
- **Finishing a session:**
  - A session finished on its first word is refused by the reading-history
    endpoint (`Reader.FinishEntryAcceptance`).
  - A finished session never sends `saved_text_id`, so its history row is never
    linked to the saved text.
- **Bookmarking** marks the page bookmarked whatever the save's outcome. The
  word count posted is that of the words last loaded, not of the text in the
  box. A text typed on a page where nothing was loaded yet is posted with word
  count 0, which the endpoint refuses (`Reader.BookmarkAcceptance`).
- **The clock** starts the first time the page is paused (`togglePause`), and
  samples only while unpaused.
- **Usage tracking across texts.** Loading a new text does not reset the
  tracking refs. Until the index passes the last tracked index again, steps
  report nothing.
- **`handleKeyDown`** is defined but attached to no element. Its second Space
  branch can never be reached.

## Model

| member | source | states |
|---|---|---|
| Tokenizer.Split | src/app/reader/page.tsx:87 | `split(/\s+/)` gives at least one piece, none containing whitespace |
| Tokenizer.NonEmpty | src/app/reader/page.tsx:88 | the filter keeps exactly the non-empty pieces: every kept piece is non-empty and one of the pieces, and every non-empty piece is kept |
| Tokenizer.Tokenize | src/app/reader/page.tsx:87-88 | splitting on whitespace runs and dropping empty pieces gives exactly the maximal non-whitespace runs of the text, in order (against the reference scan `Words`); every word is non-empty and whitespace-free |
| Tokenizer.TokenizeOnLoad | src/app/reader/page.tsx:375 | the "Load Text" filter on `trim()` keeps exactly the words the restore path keeps |
| Tokenizer.WordsOfJoin | src/app/reader/page.tsx:274 | joining words with single spaces and splitting again gives the words back |
| Tokenizer.TokenizeIdempotent | src/app/reader/page.tsx:87-88 | splitting the joined words of a text gives the same words |
| Numerals.IntToString | src/app/reader/page.tsx:192 | `String(n)` is a minus sign for negatives followed by decimal digits |
| Numerals.ParseInt | src/app/reader/page.tsx:90 | NaN (`None`) iff no digit follows the leading whitespace and optional sign; otherwise the value of the leading digits, negated after a minus sign |
| Numerals.ParseIntOfIntToString | src/app/reader/page.tsx:84-90 | a position stored with `String(n)` is read back by `parseInt` as `n` |
| Usage.StatsFor | src/lib/usage.ts:88-120 | the tier is kept; premium reads 0 with remaining -1 and never at the limit; free reads `words_read \|\| 0`, has a non-negative remainder that adds up to the limit while under it, and is at the limit iff nothing remains |
| Usage.UnconfiguredStats | src/lib/usage.ts:75-83 | without a database the statistics are those of a free account with no usage row |
| Usage.PremiumIsUnlimited | src/lib/usage.ts:89-97 | a premium account reports 0 read, remaining -1, not at the limit, whatever usage is stored |
| Usage.FreeRemainingBounds | src/lib/usage.ts:111-112 | for a free account `0 <= remaining <= 10000`, and remaining plus read is the limit while under it |
| Usage.AtLimitIffNothingRemains | src/lib/usage.ts:112-118 | a free account is at the limit iff it read 10000 or more, iff nothing remains |
| Usage.MissingRowReadsZero | src/lib/usage.ts:111 | a missing usage row counts as 0 words read |
| Usage.MayReadMoreIffNotAtLimit | src/lib/usage.ts:179-182 | `canReadMore` holds iff the reported statistics are not at the limit |
| Usage.MayReadMore | src/lib/usage.ts:181 | premium, or something remains (its relation to the limit is `MayReadMoreIffNotAtLimit`) |
| Usage.AtTheLimit | src/lib/usage.ts:111-120 | a free account that read exactly 10000 has 0 remaining and is at the limit |
| Usage.Increment | src/lib/usage.ts:60-64 | the increment adds the count to the user's counter, creating it at 0, and leaves every other user's counter alone |
| Usage.IncrementAdditive | src/lib/usage.ts:60-64 | tracking `a` then `b` leaves the same counter as tracking `a + b` |
| Usage.IncrementCommutes | src/lib/usage.ts:60-64 | increments of two users in either order give the same counters |
| Usage.UsageStore.EnsureUserTier | src/lib/usage.ts:22-46 | an existing tier is returned unchanged; otherwise exactly one "free" row is inserted, or the store's error is thrown |
| Usage.UsageStore.TrackWordsRead | src/lib/usage.ts:51-69 | without a database nothing changes; a store error is thrown with its message; otherwise one atomic increment by the count |
| Usage.UsageStore.GetUsageStats | src/lib/usage.ts:74-121 | the unconfigured defaults, or the statistics of the (possibly new free) tier and this month's row; counters unchanged |
| Usage.UsageStore.CanReadMore | src/lib/usage.ts:179-182 | true iff the user is not at the limit; without a database always true; a failed insert of a new user's tier is thrown; a new free tier is stored exactly when the insert succeeds |
| ReadingHistory.NormalizedRow | src/lib/reading-history.ts:18-25 | `saved_text_id`, `wpm` and `duration_seconds` are null iff the value sent is falsy (missing, 0 or empty), and the value sent otherwise |
| ReadingHistory.RowsOf | src/lib/reading-history.ts:43-46 | only the user's rows, all taken from the table |
| ReadingHistory.Recent | src/lib/reading-history.ts:39-48 | the user's rows newest first: row `i` of the listing is the user's `i`-th row counting back from the latest, and there are as many as the user has, at most `limit` |
| ReadingHistory.CountedWpms | src/lib/reading-history.ts:101 | the speeds averaged are all positive; there are none iff no record has a positive wpm |
| ReadingHistory.CountedWpmsAppend | src/lib/reading-history.ts:101 | the speeds averaged over two batches of records are those of the first followed by those of the second |
| ReadingHistory.CountedWpmsOfOne | src/lib/reading-history.ts:101 | one record contributes its wpm exactly when it is not null and above 0 |
| ReadingHistory.TotalWords | src/lib/reading-history.ts:94 | the word total of records with non-negative word counts is non-negative |
| ReadingHistory.TotalDuration | src/lib/reading-history.ts:95-98 | the duration total, null counting as 0, is non-negative when no duration is negative |
| ReadingHistory.RoundedMean | src/lib/reading-history.ts:111 | `Math.round` of the mean is within one half of it, ties rounding up |
| ReadingHistory.RoundedMeanPositive | src/lib/reading-history.ts:111 | the rounded mean is positive iff the mean is at least one half |
| ReadingHistory.RoundedMeanBounds | src/lib/reading-history.ts:102-111 | the rounded mean lies within any bounds of the averaged values |
| ReadingHistory.AvgWpmWithinCounted | src/lib/reading-history.ts:100-111 | `avg_wpm` lies between the smallest and largest counted speed |
| ReadingHistory.UserStats | src/lib/reading-history.ts:93-113 | `total_sessions` is the number of records; `avg_wpm` is the nearest integer to the mean of the counted speeds (ties up), 0 iff no record has a positive speed, and otherwise between 1 and the largest counted speed |
| ReadingHistory.TotalWordsAppend | src/lib/reading-history.ts:94-98 | the word total adds each record's words, and the duration total each duration with null as 0 |
| ReadingHistory.StatsAfterAppend | src/lib/reading-history.ts:93-98 | one more row adds one session, its words and its duration to the user's statistics |
| ReadingHistory.RecentIsNewestFirst | src/lib/reading-history.ts:39-48 | after the user adds a row, the listing shows it first |
| ReadingHistory.HistoryTable.AddHistoryEntry | src/lib/reading-history.ts:12-34 | without a database the null client's TypeError and nothing stored; otherwise appends exactly the normalised row, or throws the store's error and changes nothing |
| ReadingHistory.HistoryTable.GetReadingHistory | src/lib/reading-history.ts:39-55 | without a database the null client's TypeError; otherwise the user's rows newest first, at most `limit` (`Recent`), or the store's error |
| ReadingHistory.HistoryTable.GetUserStats | src/lib/reading-history.ts:81-114 | without a database the null client's TypeError; otherwise `total_sessions` is the number of the user's rows, with the totals and the rounded mean speed of `UserStats`, or the store's error |
| Landing.TickedIndex | src/app/page.tsx:22-28 | a tick moves to the next word, and to 0 exactly after the last word |
| Landing.SkippedForward | src/app/page.tsx:47-49 | `min(prev + 10, length - 1)`: at most 10 further, never past the last word |
| Landing.SkippedBack | src/app/page.tsx:51-53 | `max(prev - 10, 0)`: at most 10 back, never before the first word |
| Landing.SkipBackUndoesSkipForward | src/app/page.tsx:47-53 | an uncut skip forward is undone by a skip back |
| Landing.DemoPlayer.constructor | src/app/page.tsx:12-17 | not playing, speed 300, first word |
| Landing.DemoPlayer.Tick | src/app/page.tsx:19-29 | while playing, advances one word; after the last word stops and returns to the first; the index stays a word of the sample |
| Landing.DemoPlayer.TogglePlay | src/app/page.tsx:40-45 | flips playing; starting at the last word restarts from the first |
| Landing.DemoPlayer.SkipForward | src/app/page.tsx:47-49 | the index becomes `SkippedForward` of the old one and stays in range |
| Landing.DemoPlayer.SkipBack | src/app/page.tsx:51-53 | the index becomes `SkippedBack` of the old one and stays in range |
| Landing.DemoPlayer.SetSpeed | src/app/page.tsx:189-194 | the slider sets a speed of 100 to 600 in steps of 50 |
| Landing.FaqSection.constructor | src/app/page.tsx:430-431 | no answer open |
| Landing.FaqSection.Toggle | src/app/page.tsx:442 | clicking opens the item iff it was closed, and every other item is closed |
| SavedTexts.WithoutId | src/hooks/useSavedTexts.ts:96 | the filtered list keeps exactly the entries with another id |
| SavedTexts.WithoutIdAppend | src/hooks/useSavedTexts.ts:96 | the filter distributes over concatenation, so kept entries stay in order |
| SavedTexts.WithoutIdKeepsOthers | src/hooks/useSavedTexts.ts:96 | every entry with another id keeps its multiplicity; none with the id remains |
| SavedTexts.WithoutAbsentId | src/hooks/useSavedTexts.ts:96 | deleting an id no entry has leaves the list as it was |
| SavedTexts.WithPosition | src/hooks/useSavedTexts.ts:119-121 | the position update keeps the list's length |
| SavedTexts.WithPositionOnlyMoves | src/hooks/useSavedTexts.ts:118-121 | only `current_position` of entries with the id changes; every other entry and field is unchanged |
| SavedTexts.FailureMessage | src/hooks/useSavedTexts.ts:52-55 | the server's non-empty error, else the fallback; a thrown error's message, or "An error occurred"; empty only for an empty fallback or an empty thrown message |
| SavedTexts.SavedTextsHook.FetchSavedTexts | src/hooks/useSavedTexts.ts:39-59 | no-op without a user; replaces the list or records the server's or default message; `loading` ends false |
| SavedTexts.SavedTextsHook.SaveText | src/hooks/useSavedTexts.ts:61-82 | no-op without a user; prepends the created text, or keeps the list and records the message |
| SavedTexts.SavedTextsHook.DeleteText | src/hooks/useSavedTexts.ts:84-103 | no-op without a user; drops the entries with the id, or keeps the list and records the message |
| SavedTexts.SavedTextsHook.UpdatePosition | src/hooks/useSavedTexts.ts:105-128 | no-op without a user; moves the entries with the id, or keeps the list and records the message |
| HistoryFormat.JsRem | src/app/history/page.tsx:33-34 | JavaScript `%`: the Euclidean remainder for a non-negative dividend, otherwise in `(-b, 0]` |
| HistoryFormat.ClockParts | src/app/history/page.tsx:32-34 | hours, minutes under 60 and seconds under 60 add back up to the duration |
| HistoryFormat.Breakdown | src/app/history/page.tsx:32-34 | for a non-negative duration, `hours*3600 + mins*60 + secs` is the input, with both `mins` and `secs` under 60 |
| HistoryFormat.FormatTime | src/app/history/page.tsx:30-38 | the label is "--" iff the duration is null or 0 |
| HistoryFormat.HoursDropSeconds | src/app/history/page.tsx:35 | from an hour up the label is "{h}h {m}m" and ignores the seconds |
| HistoryFormat.FormatTimeInjectiveUnderAnHour | src/app/history/page.tsx:36-37 | under an hour, different durations get different labels ("{m}m {s}s" or "{s}s") |
| HistoryFormat.DiffDays | src/app/history/page.tsx:44 | whole days since the date, rounded down |
| HistoryFormat.FormatDate | src/app/history/page.tsx:44-50 | "Today" iff 0 days, "Yesterday" iff 1, "N days ago" below 7 otherwise, 7 to 29 days "N weeks ago" with N from 1 to 4, the locale date iff 30 or more |
| Middleware.Route | src/middleware.ts:7-34 | a redirect to sign in always carries the requested path |
| Middleware.IsProtected | src/middleware.ts:5-12 | a path starting with one of the four protected routes (written out in `IsProtectedIffPrefix`) |
| Middleware.IsAuthRoute | src/middleware.ts:13 | exactly /auth, /signin and /signup |
| Middleware.IsProtectedIffPrefix | src/middleware.ts:5-12 | a path is protected iff it starts with /reader, /library, /history or /settings |
| Middleware.PrefixMatchesLongerPaths | src/middleware.ts:12 | "/readers" is protected, since the test is on prefixes |
| Middleware.LoggedOutRouting | src/middleware.ts:16-20 | signed out, protected paths redirect to /auth with the path, all others continue |
| Middleware.LoggedInRouting | src/middleware.ts:23-33 | signed in, exactly /auth, /signin, /signup and / redirect to /reader, all others continue |
| Middleware.NoWrongRedirect | src/middleware.ts:16-30 | a signed-in user is never sent to /auth, a signed-out one never to /reader |
| UsageRoute.CheckedCount | src/app/api/usage/route.ts:48-56 | `count` is accepted iff it is a number and not negative, else "Invalid word count" |
| UsageRoute.ZeroCountAccepted | src/app/api/usage/route.ts:51-58 | 0 is accepted and forwarded; negatives and numeric strings are refused |
| HistoryRoute.TitleAccepted | src/app/api/reading-history/route.ts:57 | the title passes iff it is a non-empty string |
| HistoryRoute.WordsReadAccepted | src/app/api/reading-history/route.ts:64 | `words_read` passes iff it is a number other than 0 |
| UsageRoute.GetUsage | src/app/api/usage/route.ts:9-30 | 401 without a session user; the statistics with 200, a first-time user getting a new free tier; a failed tier insert or other thrown error as 500 with its message; tiers change only for a new user whose insert succeeds |
| UsageRoute.PostUsage | src/app/api/usage/route.ts:37-71 | 401, 500 on an unreadable body, 400 on a bad count without tracking; otherwise one increment and the statistics read after it, a failed tier insert after the increment as 500 with its message; tiers change only for a new user whose insert succeeds |
| UsageRoute.PostReportsGrownCounter | src/app/api/usage/route.ts:58-63 | after an accepted POST, a free user's reported words grew by exactly the count |
| HistoryRoute.Rejection | src/app/api/reading-history/route.ts:56-69 | "Title is required" iff the title is not a non-empty string; otherwise "Valid words_read is required" iff `words_read` is not a non-zero number |
| HistoryRoute.AsNumber | src/app/api/reading-history/route.ts:75-76 | `x \|\| null` on a number field: null iff falsy, else the number sent |
| HistoryRoute.AsText | src/app/api/reading-history/route.ts:72 | `x \|\| null` on a string field: null iff falsy, else the text sent |
| HistoryRoute.EntryOf | src/app/api/reading-history/route.ts:71-77 | the entry carries the validated title and the non-zero `words_read` |
| HistoryRoute.StoredRowOfBody | src/app/api/reading-history/route.ts:71-77 | the stored row has null exactly for falsy optional fields and the values sent otherwise |
| HistoryRoute.NegativeWordsReadAccepted | src/app/api/reading-history/route.ts:64-69 | any non-zero number passes, negatives included; 0 is refused |
| HistoryRoute.GetHistory | src/app/api/reading-history/route.ts:9-30 | 401; 500 with the null client's TypeError without a database; or the user's entries newest first, at most 100 (`Recent`); or 500 with the error |
| HistoryRoute.PostHistory | src/app/api/reading-history/route.ts:36-87 | 401, 500 on an unreadable body, 400 with the rejection and nothing stored; a valid entry without a database gets 500 with the null client's TypeError; otherwise the normalised row appended and `{success: true}`, or 500 with the store's error |
| SavedTextsRoute.Validated | src/app/api/saved-texts/route.ts:51-78 | title, then content, then `word_count` checked in order: accepted iff two non-empty strings and a positive number; `source_url \|\| null` passed on |
| SavedTextsRoute.PostSavedText | src/app/api/saved-texts/route.ts:37-89 | `saveText` is called iff there is a session and the body is JSON and valid, with the session's user and the validated input; 401; 500 on an unreadable or null body; 400 with the first failed check; 201 with the created record iff the call is made and succeeds; 500 with the store's error otherwise |
| SavedTextsRoute.SavedInputOfBody | src/app/api/saved-texts/route.ts:73-78 | the input saved carries the title, content and word count sent, and `source_url` or null iff it is falsy |
| SavedTextsRoute.ZeroWordCountRefused | src/app/api/saved-texts/route.ts:66-71 | a word count of 0 is refused |
| Reader.SlicePrefix | src/app/reader/page.tsx:274 | `slice(0, end)` is a prefix, of length `end` when that is in range |
| Reader.WpmFor | src/app/reader/page.tsx:165-166 | the speed shown is never negative, is the nearest integer to `index * 60 / elapsed` when positive, and is 0 iff `index * 60 / elapsed` is below one half |
| Reader.WpmOfSteadyPace | src/app/reader/page.tsx:165-166 | a steady `k` words a second shows `60 k` words per minute |
| Reader.FinishTitle | src/app/reader/page.tsx:274-276 | "Untitled" without a saved text; otherwise splitting the title gives back the first words read, at most 20, so a saved text read past its first word gets a non-empty title |
| Reader.FinishEntry | src/app/reader/page.tsx:274-280 | the entry has the four fields; `words_read` is the index; a speed or duration of 0 is sent as null |
| Reader.FinishEntryAcceptance | src/app/reader/page.tsx:271-280 | the endpoint takes the entry iff its title is non-empty and the index is not 0; the stored row has no saved text and null for 0 speed or duration |
| Reader.BookmarkBody | src/app/reader/page.tsx:240-245 | the body has exactly title (typed, or "Text" and the date), content and word count, and no `source_url` |
| Reader.BookmarkAcceptance | src/app/reader/page.tsx:240-245 | a non-blank text is accepted by the saved-texts endpoint iff its word count is positive |
| Reader.FewReports | src/app/reader/page.tsx:194-199 | batches of at least 10 mean at most a tenth as many reports as words tracked |
| Reader.Gated | src/app/reader/page.tsx:184 | the paywall gate: a free account with nothing remaining that already reported words |
| Reader.ReaderSession.constructor | src/app/reader/page.tsx:82-93 | a stored text is split into words and the stored position is read back; everything else starts empty |
| Reader.ReaderSession.TrackWords | src/app/reader/page.tsx:121-133 | the count is posted iff there is a user and it is positive |
| Reader.ReaderSession.UpdateSavedTextPosition | src/app/reader/page.tsx:257-269 | the server position is written iff there is a saved text and a user |
| Reader.ReaderSession.StorePosition | src/app/reader/page.tsx:192 | the position is stored as `String(position)` |
| Reader.ReaderSession.NextWord | src/app/reader/page.tsx:183-205 | paywall gate: a gated step only raises the prompt and changes nothing else; otherwise exactly one step forward if before the last word, position stored, a batch of 10 or more reported and both refs moved, the server position written for a bookmarked saved text; the last tracked index never decreases |
| Reader.ReaderSession.Advance | src/app/reader/page.tsx:186-204 | exactly one step forward if before the last word, the position stored as `String(n)`, a batch of the delta reported iff the delta is 10 or more (both refs moving together), the server position written for a bookmarked saved text; the last tracked index never decreases |
| Reader.ReaderSession.ReportProgress | src/app/reader/page.tsx:194-199 | 10 or more words past the last tracked index: both refs move to the index and the difference is reported (with a user); fewer: nothing changes |
| Reader.ReaderSession.PreviousWord | src/app/reader/page.tsx:207-217 | exactly one step back if after the first word, with the position stored and the server position written for a bookmarked saved text; otherwise nothing changes; prompt, reports and refs unchanged |
| Reader.ReaderSession.TogglePause | src/app/reader/page.tsx:219-224 | flips the pause; the start time is set only when it was null and the page was not paused |
| Reader.ReaderSession.Reset | src/app/reader/page.tsx:226-233 | first word, speed 0, no start time, elapsed 0, not paused, stored position "0"; the refs are outside its frame |
| Reader.ReaderSession.EditText | src/app/reader/page.tsx:365 | the text area sets the text |
| Reader.ReaderSession.LoadText | src/app/reader/page.tsx:374-383 | the text's words from the first word, text and position "0" stored, clock cleared |
| Reader.ReaderSession.LoadSavedText | src/app/reader/page.tsx:135-154 | with a saved-text id and a user, a fetched text replaces text and words, is read from its position and is bookmarked |
| Reader.ReaderSession.ReceiveUsage | src/app/reader/page.tsx:101-113 | successful statistics replace the shown usage; a failure keeps it |
| Reader.ReaderSession.DismissUpgradePrompt | src/app/reader/page.tsx:464-465 | the prompt is closed |
| Reader.ReaderSession.SampleClock | src/app/reader/page.tsx:158-171 | while running and started: whole seconds elapsed and `WpmFor` of the index; otherwise nothing changes |
| Reader.ReaderSession.SaveBookmark | src/app/reader/page.tsx:235-255 | with a user and a non-blank text, requests the save (title or dated default, text, word count) and marks the page bookmarked |
| Reader.ReaderSession.Finish | src/app/reader/page.tsx:271-283 | with a user and a bookmark, posts exactly `FinishEntry` of the current state; otherwise nothing |
| Reader.ReaderSession.HandleKeyDown | src/app/reader/page.tsx:173-181 | Space and ArrowRight have the full effect of a forward step, ArrowLeft of a backward step, pause and start time unchanged; Escape toggles the pause; other keys change nothing |

`ReaderSession.Valid()` is required and preserved by every reader method, and
established by the constructor. It states that:

- `trackedWordsRef == lastTrackedIndexRef`;
- every report is at least 10 words;
- with a user, the reports add up to the words tracked;
- every word is non-empty and whitespace-free.

`NextWord` also ensures that `lastTrackedIndexRef` never decreases.

## Left out

- Reader.ReaderSession.constructor: requires a stored position to parse. A
  `parseInt` that yields NaN is not modelled, because the page only ever
  stores positions written by `String(n)`.
- Reader.ReaderSession.SampleClock: requires at least one second since the
  start time. The Infinity speed the source shows when the interval samples at
  0 elapsed seconds past the first word is not representable with integers.
- Reader.ReaderSession.LoadSavedText: `current_position || 0` is modelled on
  an integer position, so `null` is not a case.
- HistoryRoute.PostHistory: optional fields sent with a type other than their
  declared one are modelled as a row the store refuses (the `insertError` must
  then be present). The database's actual coercions are not modelled.
- The missing database is modelled with V8's wording of the TypeError that
  `supabase.from` throws on a `null` client; other engines word it differently.
- UsageRoute.PostUsage, HistoryRoute.PostHistory, SavedTextsRoute.PostSavedText:
  a `null` JSON body throws a TypeError. It is modelled with V8's message
  wording; other engines word it differently.
- Usage.UsageStore.EnsureUserTier: the read of the tier is modelled as
  always answering. The source ignores that read's error, so a failed read of
  an existing tier goes on to insert a second "free" row; what the store then
  does (a unique-key error or a duplicate row) depends on the schema, which is
  not part of this model.
- Usage.UsageStore.GetUsageStats: the month label and the month keys
  (`toISOString`, local dates) are left out. `usage` is the current month's
  counter. A failed read of the usage row counts as a missing row, as
  `usage?.words_read || 0` does.
- JSON numbers are integers throughout. Fractional counts, speeds and
  positions are not modelled.
- Timers and the wall clock are left out: `setInterval`, `new Date()`, and the
  `60000 / speed` interval of the demo player. Ticks and clock samples are
  method calls, and times are integer inputs.
- The async order of requests and React's batching of state updates are left
  out. Each handler runs to completion on the latest state, and a server answer
  (usage statistics, saved text) is a separate method call.
- Reader.ReaderSession.constructor: the session's arrival is left out.
  `signedIn` is fixed when the page is built, whereas on the page the user
  starts as `null` and arrives later from `getSession`. Words stepped over
  before it arrives are counted in `trackedWordsRef` but never reported, so
  `Valid()`'s "the reports add up to the words tracked" holds only for a
  session that is known from the start.
- Position writes to the server (`PATCH /api/saved-texts/[id]`) are assumed to
  succeed. `remotePositions` records what was sent.
- The transient `loading`, `isSaving`, `loadingUsage` and `loadingSavedText`
  flags are left out, except the saved-texts hook's `loading`. So are the
  dialog's open state and the alerts.
- The locale date shown for dates 30 or more days old is left out: the date
  string is a parameter.
- Reader.BookmarkBody: the `Text <date>` default title is modelled, but it
  cannot be reached from the page, whose save button is disabled while the
  typed title is blank (src/app/reader/page.tsx:453).
- ReadingHistory.Recent: `order("created_at", { ascending: false })` is
  modelled as the reverse of insertion order. This assumes the table only
  grows by appending, with `created_at` set at insertion and never tied or
  edited.
- `getUsageStatsForMonth`, `getUserTier`, `getTextHistory`, `getRecentHistory`,
  `deleteHistoryEntry` and `clearHistory` are left out. The pages and routes
  modelled here do not call them.
- Stripe checkout, portal and webhook, and article extraction, are left out:
  they are calls into external services.
- The saved-texts library routes for one id are left out (GET, PATCH, DELETE of
  `src/app/api/saved-texts/[id]/route.ts`). The page's writes to them appear
  only as the abstract `remotePositions` map.
- The route guard's matcher regular expression is left out. The guard is
  modelled for every path it is run on.
