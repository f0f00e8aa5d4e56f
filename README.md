# NutriSnap client state, modelled in Dafny

This project models the client-side logic of the NutriSnap nutrition app (a React/TypeScript
single-page app backed by Supabase and Gemini) and proves properties of it:

- **App state container** (`App.tsx`): the class `App.AppState` has fields that mirror the React
  state (`user`, `scanHistory`, `communityPosts`, `waterIntake`, `isSyncing`, the pending scan
  result, the modal flag and the active tab). It has one method per handler:
  - the session sync, which maps the fetched rows into profile, history, feed and water total;
  - adding water;
  - recording a scan;
  - logging and sharing a meal;
  - confirming a share;
  - liking and deleting a post;
  - completing onboarding.

  Every backend request a handler issues is returned as a `RemoteCall` value. The answer to a
  post insert arrives through a separate method, `ConfirmShare`, so likes and deletes can happen
  while an insert is still in flight. The invariant `Valid` says that a signed-out app keeps no
  profile, history, feed or water total.
- **Per-day totals** (`DailyLog`): the filter-and-sum over the history that both `currentCals`
  and the dashboard use.
- **Dashboard** (`components/Dashboard.tsx`):
  - today's macros;
  - the seven-day calorie chart, built by a loop;
  - the remaining-calorie and progress-bar clamps;
  - the macro goal total;
  - the greeting name;
  - the water buttons.
- **Live coach** (`components/Coach.tsx`): the class `Coach.CoachController` models:
  - the session status transitions;
  - the gapless playback queue (`nextStartTime`) and the set of playing sources;
  - the reset on an interruption;
  - the `logWater` tool-call loop.
- **Onboarding wizard** (`components/Onboarding.tsx`): the class `Onboarding.Wizard` holds the step
  counter and the form, and `BuildProfile` builds the final profile.
- **Gemini service helpers** (`services/geminiService.ts`):
  - `encodePCM`/`decodePCM` over a full model of `btoa`/`atob`: Base64 as in section 4 of
    RFC 4648, decoded with the forgiving-base64 rules of the WHATWG Infra standard;
  - the channel de-interleaving of `decodeAudioData`;
  - the error classification of `handleApiError`;
  - the image prefixing;
  - the workout intensity choice.

The model's inputs stand in for the outside world:

- **Dates and time.** The date string of "today" (`toDateString`), the ISO date of the water
  query and the calendar day of a timestamp (`dayOf`) are parameters.
- **The sync's fetches.** What each of the four fetches returned, and how far the sync got
  before an exception, is one parameter (`SyncFetch`).
- **The coach.** The audio clock reading and the outcome of starting the coach are parameters.

Where the project's written design and its code differ, the model follows the code:

- **Missing community table.** When the `community_posts` table is missing, the sync leaves the
  feed as it was rather than emptying it.
- **Closing the coach.** A session closed by the server (`onclose`) only clears `isActive`: the
  camera and microphone stay on and the frame timer keeps running.
- **Stopping the coach.** `stopSession` neither stops the queued audio nor resets the playback
  queue.
- **Coach errors.** An `onerror` only logs; it does not end the session.

One behaviour of the code is worth knowing. The onboarding upsert does not store
`primary_objective`, so a reload shows the objective stored before, or "Weight Loss".
`Onboarding.ReloadAfterOnboarding` states this.

## Model

| member | source | states |
|---|---|---|
| Types.DecimalString | App.tsx:297 | `String(n)` of a natural number is non-empty and made only of decimal digits |
| Types.DecimalStringInjective | App.tsx:297 | different numbers are written with different digits |
| Base64.IndexChar | services/geminiService.ts:520 | every sextet 0..63 maps to a character of the RFC 4648 alphabet |
| Base64.CharIndex | services/geminiService.ts:524 | every alphabet character maps back to a sextet in 0..63 |
| Base64.CharIndexOfIndexChar | services/geminiService.ts:520-524 | the alphabet lookup and its reverse are inverse |
| Base64.EncodeUnpadded | services/geminiService.ts:520 | the unpadded encoding has ceil(4n/3) characters, all from the alphabet |
| Base64.Encode | services/geminiService.ts:520 | `btoa` output has 4·ceil(n/3) characters, each from the alphabet or `=` |
| Base64.DecodeUnpadded | services/geminiService.ts:524 | decoding an unpadded alphabet string of length 4k+r (r ≠ 1) yields 3·len/4 bytes |
| Base64.DecodeEncodeTriple | services/geminiService.ts:520-524 | one 3-byte group survives encoding to four characters and decoding back |
| Base64.EncodedLength | services/geminiService.ts:520 | the unpadded length mod 4 and the padding add up to the padded length |
| Base64.DecodeEncodeOne | services/geminiService.ts:520-524 | a final 1-byte group round-trips through its two characters |
| Base64.DecodeEncodeTwo | services/geminiService.ts:520-524 | a final 2-byte group round-trips through its three characters |
| Base64.DecodeUnpaddedEncodeUnpadded | services/geminiService.ts:520-524 | unpadded decoding inverts unpadded encoding for every byte sequence |
| Base64.DecodeEncodeStep | services/geminiService.ts:520-524 | the round trip extends from the tail to one more leading group |
| Base64.DecodeUnpaddedConcat | services/geminiService.ts:524 | decoding distributes over a leading 4-character group |
| Base64.StripWhitespace | services/geminiService.ts:524 | `atob` first removes all ASCII whitespace: the result holds none, keeps every other character in order (a subsequence) and is shorter by exactly the number of whitespace characters |
| Base64.StripWhitespaceNoop | services/geminiService.ts:524 | `atob` leaves a string without ASCII whitespace as it is |
| Base64.StripPaddingOfEncode | services/geminiService.ts:520-524 | `atob`'s padding removal strips exactly the padding `btoa` added |
| Base64.DecodeEncode | services/geminiService.ts:520-524 | `atob(btoa(x))` gives back the bytes of `x`, for every byte sequence |
| Base64.Latin1 | services/geminiService.ts:517-519 | the string built from bytes has the same length and character `i` has code `bytes[i]` |
| Base64.CharCodes | services/geminiService.ts:527-529 | `charCodeAt` over a binary string gives one byte per character with that code |
| Base64.AtoB | services/geminiService.ts:524 | whatever `atob` returns is a binary string (codes below 256) |
| Base64.CharCodesLatin1 | services/geminiService.ts:514-531 | bytes → string → bytes is the identity |
| Base64.AtoBBtoA | services/geminiService.ts:514-531 | `btoa` succeeds exactly on binary strings, and `atob` undoes it |
| GeminiService.EncodePCM | services/geminiService.ts:514-521 | the loop builds the Latin-1 string of the bytes and returns its RFC 4648 encoding |
| GeminiService.DecodePCM | services/geminiService.ts:523-531 | throws `InvalidCharacterError` exactly when `atob` fails, else returns fresh bytes equal to the decoded data |
| GeminiService.PCMRoundTrip | services/geminiService.ts:514-531 | `decodePCM(encodePCM(b))` is a fresh array with the contents of `b` |
| GeminiService.Int16 | services/geminiService.ts:539 | a little-endian byte pair is a signed 16-bit sample in -32768..32767 |
| GeminiService.Samples | services/geminiService.ts:539-540 | an even byte count gives half as many samples |
| GeminiService.SampleIndexInBounds | services/geminiService.ts:543-546 | for channel c < n and frame i < count/n, the index `i*n + c` is inside the samples |
| GeminiService.SampleIndexBijective | services/geminiService.ts:543-548 | every sample index is read by exactly one (frame, channel) pair |
| GeminiService.DivModUnique | services/geminiService.ts:543-548 | the (frame, channel) pair of an index is its quotient and remainder by n |
| GeminiService.DecodeAudioData | services/geminiService.ts:533-550 | odd byte counts throw `RangeError`; `createBuffer` rejections throw; otherwise an n × count/n buffer where channel c, frame i holds sample `i*n + c` / 32768 |
| GeminiService.FillChannel | services/geminiService.ts:544-547 | the inner loop fills one channel from its interleaved samples and leaves the others as they were |
| GeminiService.IncludesIffOccurs | services/geminiService.ts:14 | `includes` is true exactly when the pattern occurs at some position |
| GeminiService.HandleApiError | services/geminiService.ts:11-20 | always rethrows the error, and opens the key selector exactly when it exists and the message contains "Requested entity was not found" or "NOT_FOUND" |
| GeminiService.WithScannedImage | services/geminiService.ts:65 | `scanned_image` is the JPEG data-URL prefix followed by the input unchanged; nothing else changes |
| GeminiService.WorkoutIntensityThreshold | services/geminiService.ts:333 | the intensity choice is a threshold at 500, monotone in the remaining calories |
| DailyLog.LogsOn | App.tsx:161-162 | an entry is kept exactly when it is in the history with a truthy timestamp on the given day; the result is a subsequence of the history with exactly as many entries as the history has on that day |
| DailyLog.DayTotalAppend | components/Dashboard.tsx:19-24 | a day's total over a concatenated history is the sum of both parts' totals |
| DailyLog.DayTotalPrepend | App.tsx:159-164 | prepending an entry adds its field to its own day's total only |
| DailyLog.DayTotalIgnoresOtherDays | App.tsx:161-163 | entries of other days or without a timestamp contribute nothing |
| App.ProfileFromRow | App.tsx:79-97 | the daily count is 0 unless the stored date is today (then stored or 0); onboarded iff the name is non-empty; missing goals and stats default to 2000/150/200/70/2500 and 70/175/25; the calorie goal is never 0 |
| App.HistoryFromRow | App.tsx:108-118 | missing lists become empty, a missing NOVA score 0, and the timestamp is the creation time |
| App.PostFromRow | App.tsx:128-133 | a missing like count becomes 0; id and creation time carry over |
| App.MapHistory | App.tsx:107-119 | every history row is mapped, in order |
| App.MapPosts | App.tsx:127-134 | every post row is mapped, in order |
| App.TodayRows | App.tsx:139-144 | the water query selects exactly the rows logged on today's ISO date, each once and in order: a subsequence with as many rows as are dated today |
| App.WaterTotalAppend | App.tsx:146-148 | a new row dated today raises the synced water total by exactly its amount, matching `handleAddWater`'s local step |
| App.RecordScan | App.tsx:224-235 | the lifetime count grows by 1, the daily count is 1 on a new day or old + 1 on the same day, the date becomes today, and nothing else changes |
| App.ScanTimesCounters | App.tsx:224-235 | after n scans in one day the counters have grown by n (daily counted from 0 on a new day) |
| App.FreeTierGate | App.tsx:210-215 | pro users may always scan; a free user may scan again today iff fewer than 3 scans were made today, and a new day reopens the gate |
| App.LoadedProfileMayScanOnNewDay | App.tsx:80-87 | a profile synced on a day other than its last scan day may scan |
| App.HistoryInsertOf | App.tsx:267-278 | the inserted history row carries the user id and copies calories, protein, carbs, fat, verdict, health score, image, motivation and the nutrient list of the scan |
| App.LoggedMealCounts | App.tsx:256-262 | logging a meal now raises `currentCals` by exactly its calories when now is today, and not otherwise |
| App.TempId | App.tsx:297 | a temporary post id starts with "temp-" and is longer than the prefix |
| App.TempIdInjective | App.tsx:297 | shares made at different times get different temporary ids |
| App.OptimisticPost | App.tsx:298-308 | the optimistic post has the temporary id, 0 likes, "Just now", the scan's summary and a non-empty author name |
| App.CountIdZero | App.tsx:331 | no post carries an id iff its count is 0 |
| App.FindPost | App.tsx:405 | a post found carries the id looked for |
| App.FindPostFirst | App.tsx:405-406 | nothing is found iff no post has the id; otherwise the post found is the first with it |
| App.SetLikes | App.tsx:408 | exactly the posts with the id get the new like count; the feed keeps its length and order |
| App.Reconcile | App.tsx:331 | exactly the posts with the temporary id take the server id, keeping every other field |
| App.ReconcileSparesOtherShare | App.tsx:297-331 | confirming one share leaves the posts of another share, made at a different time, untouched |
| App.RemoveId | App.tsx:416 | exactly the posts with the id leave; the rest keep their order (a subsequence) and none with the id remains |
| App.ReconcileCounts | App.tsx:326-332 | after confirmation no post keeps the temporary id and the server id counts every post that had it |
| App.LikesSurviveReconcile | App.tsx:326-332 | liking the temporary post and then confirming equals confirming and then liking the server post |
| App.ReconcileAfterDelete | App.tsx:414-416 | a confirmation arriving after the temporary post was deleted changes nothing |
| App.ShareLikeConfirm | App.tsx:296-332 | share, one like, confirm: exactly one post has the server id and kept the like, no temporary id is left, the older posts are untouched |
| App.AppState.constructor | App.tsx:28-41 | the initial state: signed out, empty, syncing pending |
| App.AppState.SessionChanged | App.tsx:57-157 | without a session everything is cleared; with one each stage that completed with data replaces its part, the others keep theirs; `isSyncing` always ends false |
| App.AppState.AddWater | App.tsx:174-178 | with a session the total grows by exactly `amt` and one log row is inserted; otherwise nothing happens |
| App.AppState.ScanComplete | App.tsx:217-236 | shows the result and advances the counters locally whatever the update returns; no-op without session or profile |
| App.AppState.LogMeal | App.tsx:256-283 | prepends exactly the pending scan stamped now, keeps the rest in order, and sends the insert; no-op without pending scan or session |
| App.AppState.ShareToCommunity | App.tsx:285-324 | prepends one optimistic post with id "temp-"+now and 0 likes, clears the pending scan, shows the feed and sends the insert |
| App.AppState.ConfirmShare | App.tsx:326-332 | on success reconciles the temporary id, leaving none behind; on error the feed is unchanged |
| App.AppState.LogAndShareMeal | App.tsx:335-402 | logs and shares the scan at once with the same timestamp and sends both inserts |
| App.AppState.LikePost | App.tsx:404-412 | unknown ids are no-ops; otherwise the posts with the id get the first one's likes + 1, and the backend is told only for non-temporary ids |
| App.AppState.DeletePost | App.tsx:414-420 | after confirmation exactly the posts with the id leave; the backend delete only for non-temporary ids |
| App.AppState.OnboardingComplete | App.tsx:180-188 | upserts the profile columns and keeps the profile locally, marked onboarded, only if the upsert succeeded |
| Dashboard.MacroStatsPrepend | components/Dashboard.tsx:17-26 | a meal logged today raises each macro by its amount; other entries change nothing |
| Dashboard.DailyHistoryData | components/Dashboard.tsx:34-49 | exactly 7 bars from six days ago to today, each with that day's calories, only the last marked today |
| Dashboard.TodayBarIsCurrentCals | components/Dashboard.tsx:34-49 | the chart's last bar equals `currentCals` |
| Dashboard.MealRaisesOneBar | components/Dashboard.tsx:40-42 | a logged meal raises only the bar of its own day, by its calories |
| Dashboard.RemainingCalories | components/Dashboard.tsx:95 | the remaining calories are max(0, goal − eaten): never negative, 0 exactly when the goal is reached |
| Dashboard.ProgressWidth | components/Dashboard.tsx:51-52 | a bar width is the percentage capped at 100, reaching 100 exactly when the goal is reached |
| Dashboard.ProgressWidthMonotone | components/Dashboard.tsx:99 | eating more never shrinks the calorie bar |
| Dashboard.LoadedMacroGoalTotal | components/Dashboard.tsx:118 | the macro ring's goal is 420 g for every synced profile |
| Dashboard.FirstWord | components/Dashboard.tsx:62 | `split(' ')[0]` is the prefix before the first space |
| Dashboard.GreetingName | components/Dashboard.tsx:62 | the greeting is the name's first word, or "Architect" when that is empty |
| Dashboard.TapWaterButton | components/Dashboard.tsx:151-152 | the buttons add exactly 250 ml and 500 ml through `handleAddWater` |
| Coach.LogWaterCallsMembers | components/Coach.tsx:110-111 | a call is acted on iff it is among the message's calls and is named `logWater` |
| Coach.LogWaterCallsOnceInOrder | components/Coach.tsx:110-118 | the calls acted on are a subsequence of the message's calls, one for each call named `logWater`: each is handled once, in order |
| Coach.AmountsPointwise | components/Coach.tsx:112-113 | the amounts handed to `onLogWater` are the calls' `amount` arguments, one per call, in order |
| Coach.AcksPointwise | components/Coach.tsx:115-117 | each acknowledgement echoes its call's id and name with status "success" |
| Coach.DispatchToolCalls | components/Coach.tsx:109-120 | each `logWater` call logs its amount once if there is a callback, and is acknowledged if the session reference is set |
| Coach.LogWaterViaVoice | components/Coach.tsx:113 | voice-logged amounts raise the app's water total by their sum, one insert each |
| Coach.StartOf | components/Coach.tsx:99 | a chunk starts at the later of the queue end and now |
| Coach.ScheduleIsGapless | components/Coach.tsx:99-105 | chunks never start before they arrive, never overlap, and start exactly at the previous end when they arrive while audio is queued |
| Coach.ChunkDuration | components/Coach.tsx:100 | a chunk decodes exactly when its base64 is valid and holds a positive even number of bytes, and then plays for a positive time |
| Coach.CoachController.constructor | components/Coach.tsx:26-36 | the coach starts inactive, "Ready to chat", with an empty queue |
| Coach.CoachController.StartSession | components/Coach.tsx:38-143 | any exception leaves "Error starting coach"; granted media stays on even if the connection fails |
| Coach.CoachController.OnOpen | components/Coach.tsx:55-57 | the coach becomes active, watching, with the frame timer running |
| Coach.CoachController.OnClose | components/Coach.tsx:128 | the coach becomes inactive |
| Coach.CoachController.StopSession | components/Coach.tsx:145-153 | stops the timer and tracks, closes the session, deactivates and requests closing |
| Coach.CoachController.OnSourceEnded | components/Coach.tsx:107 | an ended source leaves the set |
| Coach.CoachController.PlayChunk | components/Coach.tsx:96-108 | the chunk starts at max(queue end, now), the queue end advances by its duration and a new source joins the set; a decode failure only moves the queue end |
| Coach.CoachController.OnMessage | components/Coach.tsx:95-126 | audio first (a decode failure drops the rest), then tool calls, then an interruption empties the set and resets the queue end to 0 |
| Onboarding.BaseCalories | components/Onboarding.tsx:25 | 1800 for "Weight Loss", 2600 for "Muscle Gain", 2200 otherwise, each an iff |
| Onboarding.BuildProfile | components/Onboarding.tsx:24-52 | onboarded, zero counters, empty last date, free, goals 150/200/70/2500, objective, diet, activity and stats copied |
| Onboarding.OnboardedUserMayScan | components/Onboarding.tsx:33 | a freshly onboarded user passes the scan gate |
| Onboarding.ReloadAfterOnboarding | App.tsx:180-188 | a reload after onboarding reads back the profile, except that the objective is the one stored before, or "Weight Loss" |
| Onboarding.Wizard.constructor | components/Onboarding.tsx:10-19 | step 1 with the form defaults |
| Onboarding.Wizard.EditName | components/Onboarding.tsx:79 | the name field sets the name only |
| Onboarding.Wizard.ContinueFromName | components/Onboarding.tsx:84 | step 1 advances only with a non-empty name |
| Onboarding.Wizard.SetAge | components/Onboarding.tsx:92 | the age slider sets the age within 13..100 |
| Onboarding.Wizard.SetWeight | components/Onboarding.tsx:93 | the weight slider sets the weight within 40..200 |
| Onboarding.Wizard.SetHeight | components/Onboarding.tsx:94 | the height slider sets the height within 100..220 |
| Onboarding.Wizard.ContinueSync | components/Onboarding.tsx:98 | `next` adds exactly 1 to the step |
| Onboarding.Wizard.Back | components/Onboarding.tsx:22 | `prev` subtracts exactly 1 from the step |
| Onboarding.Wizard.ChooseObjective | components/Onboarding.tsx:110 | sets the objective and advances one step |
| Onboarding.Wizard.ChooseDiet | components/Onboarding.tsx:128 | sets the diet and advances one step |
| Onboarding.Wizard.ChooseActivity | components/Onboarding.tsx:145 | sets the activity and advances one step |
| Onboarding.Wizard.Finish | components/Onboarding.tsx:164 | hands over the built profile: named, calorie goal 1800/2200/2600, stats within the sliders' ranges |

## Left out

- Backend and AI calls: the Supabase and Gemini requests are foreign code. Handlers return the request as a `RemoteCall` value, and answers are parameters (`SyncFetch`, `InsertOutcome`, `upsertFailed`, `StartOutcome`).
- The auth session listener (App.tsx:44-55) is not modelled: each session change is a parameter of `SessionChanged`.
- Clock and time zones: today's date string, today's ISO date and the calendar day of a timestamp are parameters. The model keeps them separate and does not prove that they agree.
- Post times are kept as the creation time in milliseconds; their locale formatting is not modelled.
- The dashboard's weekday labels and all rendering and CSS are left out, and so is `playVoiceFeedback` (it only plays audio).
- JavaScript numbers are modelled as integers (reals for times and bar widths). NaN, infinities and fractional macro values are left out.
- Async interleaving: each handler step is atomic. `handleLikePost` reading its closure's copy of the feed is modelled as reading the current feed. Stale closures are not modelled.
- The coach's microphone capture (ScriptProcessor and the float-to-int16 conversion), the camera frame sampling and the interval timer are device I/O. Only the timer's and tracks' on/off state is kept.
- Stopping audio sources is modelled by moving them to the ghost `ended` set; the audio graph is not modelled.
- GeminiService.DecodeAudioData: when the sample count is not a multiple of the channel count, the source passes a fractional frame count, which `createBuffer` truncates. The loop then runs one extra iteration at frame floor(frameCount). There, channels below `count mod n` read a real sample and the others read past the samples (undefined, so NaN). Every store of that iteration falls outside the buffer and is dropped. The model uses the truncated count and leaves out the extra iteration, which changes no stored value. The app only ever calls it with one channel.
- GeminiService.Int16: the bytes are read little-endian, while `Int16Array` uses the platform's byte order. Platforms that run the app are little-endian; a big-endian platform is not modelled.
- GeminiService.HandleApiError: the message is `err.message` or, when that is missing or empty, the error's JSON text. The JSON text is a given string, since `JSON.stringify` is not modelled. For an undefined error `JSON.stringify` returns undefined and `.includes` throws a TypeError instead of rethrowing. So "always rethrows the error" holds only for errors that have a message or a JSON text, which is what the model takes as input.
- Coach.DispatchToolCalls: the water logs and the acknowledgements are returned as two separate sequences. The per-call order of the source (`onLogWater` before `sendToolResponse`, call by call) is not stated.
- Dashboard.ProgressWidth: requires a non-zero goal, since division by zero is not modelled. Synced profiles never have a zero calorie goal (`App.ProfileFromRow`), onboarded ones have 1800, 2200 or 2600, and the water goal is always 2500.
- `openCoach`'s paywall gate, `setIsPro`, `handleUpdateProfile`, `handleResetProfile` and the restaurant search are left out, as are the settings, paywall, auth, community, scanner, planner and other screens. They are form and navigation glue around the calls modelled here.
