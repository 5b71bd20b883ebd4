# TOVA test session — a Dafny model

This project models the working core of a web application that administers
a TOVA-style continuous-performance attention test:

- the **test-session controller** of the test page (`src/pages/Test.tsx`):
  a small state machine over the phase (`instructions`, `practice`, `test`,
  `completed`), a 21-minute countdown in seconds, a trial counter bounded
  by 320, the visibility and kind of the current stimulus, and the list of
  Space-press timestamps. Each timer or event callback is one atomic step
  method of the class `Session.TestSession`; the random target draw and
  the `Date.now()` timestamp are parameters of those steps. The page's
  `formatTime` countdown label is module `Clock`, proved against a parser
  that reads the label back;
- the **score bands** of the results page (`src/pages/Results.tsx`):
  colour class and icon for a percentage score, module `Performance`;
- the **save** edge function (`supabase/functions/save-test-results`):
  request validation, construction of the inserted row with its defaults,
  and the response chosen for each outcome, module `SaveResults`;
- the **lookup** edge function (`supabase/functions/get-test-results`):
  the most recent row for a payment code, or `null`, and the response for
  each outcome, module `GetResults`.

Module `ResultsStore` holds the table row and response types the two edge
functions share; `Wrappers` holds `Option` and `Result`.

The database is an input: the insert is a function parameter of
`SaveResults.SaveTestResults` (a response that is the same for every
insert function is one for which no insert was attempted), and the table
read by `GetResults.GetTestResults` is either its rows or a query error.
Since the lookup is a function of those rows it cannot change them.

The session in the code has 320 trials and a countdown of 1260 seconds (21
minutes), and it records only raw `Date.now()` key-press timestamps: no
modelled file matches responses to trials or computes omission errors,
commission errors, mean reaction time or variability, so none is modelled.
At the two-second interval the 320 trials are used up long before the
21-minute countdown ends; the model does not relate the two timers, so this
is stated here rather than proved.

## Model

| member | source | states |
|---|---|---|
| `Clock.Decimal` | src/pages/Test.tsx:66 | the rendering of a count is a non-empty string of digits, one digit exactly for counts below 10, with no leading zero |
| `Clock.PadStart` | src/pages/Test.tsx:66 | `padStart` yields length max(width, original), keeps the original as suffix and fills the rest with the fill character |
| `Clock.FormatTime` | src/pages/Test.tsx:63-67 | the label reads back as the fields `seconds / 60` and `seconds % 60` (the latter below 60) and so stands for `seconds`, for every non-negative count; it has at least five characters, a colon third from the end, and exactly five if and only if the time is below 100 minutes |
| `Clock.FormatTimeInitial` | src/pages/Test.tsx:11 | the initial countdown of 21 minutes renders as `21:00` |
| `Session.PhaseStepForward` | src/pages/Test.tsx:91-100 | an allowed phase change never goes back, never leaves `completed` and never enters `practice` |
| `Session.Progress` | src/pages/Test.tsx:187 | the progress value lies in [0, 100], is 0 exactly before the first trial and 100 exactly after the last |
| `Session.TestSession.constructor` | src/pages/Test.tsx:10-16 | the session starts in `instructions` with 1260 seconds, trial 0, no stimulus and no responses, and satisfies the session invariant |
| `Session.TestSession.CountdownTick` | src/pages/Test.tsx:21-26 | in `test` with time left the countdown drops by exactly one second; otherwise nothing changes; only `timeLeft` may change, and the invariant (0 ≤ timeLeft ≤ 1260) is kept |
| `Session.TestSession.ExpireIfTimeUp` | src/pages/Test.tsx:27-29 | when the countdown stands at 0 the phase becomes `completed`; otherwise the phase is unchanged; only the phase may change |
| `Session.TestSession.TrialTick` | src/pages/Test.tsx:40-50 | outside `test` nothing changes; at the trial limit the test completes and the stimulus cells and counter are untouched; otherwise the drawn kind is stored, the stimulus shown and the counter raised by exactly one, keeping 0 ≤ currentTrial ≤ 320 |
| `Session.TestSession.HideStimulus` | src/pages/Test.tsx:53-55 | the stimulus is hidden in every state and no other cell changes |
| `Session.TestSession.KeyDown` | src/pages/Test.tsx:77-89 | a Space key in `test` appends exactly the press time at the end of the responses; any other key, or any other phase, leaves them unchanged |
| `Session.TestSession.SpacePress` | src/pages/Test.tsx:69-74 | in `test` the press time is appended after the earlier responses; in any other phase the responses are unchanged |
| `Session.TestSession.StartTest` | src/pages/Test.tsx:91-97 | from `instructions` (the only phase showing the button) the phase becomes `test`; nothing else changes |
| `Session.TestSession.FinishTest` | src/pages/Test.tsx:99-104 | from `test` (the only phase showing the button) the phase becomes `completed`; nothing else changes |
| `Session.TestSession.TimerLabel` | src/pages/Test.tsx:180 | the countdown label of a valid session has five characters with the colon in the middle and reads back as the seconds left |
| `Session.TestSession.ProgressValue` | src/pages/Test.tsx:187 | the progress bar of a valid session lies within [0, 100] |
| `Performance.PerformanceColor` | src/pages/Results.tsx:33-37 | a score of 80 or more is `text-success`, 60 to 79 `text-warning`, below 60 `text-destructive`; each class holds exactly its interval, so the three partition all scores |
| `Performance.PerformanceIcon` | src/pages/Results.tsx:39-43 | the icon's class is the sizing classes followed by the score's colour class, and its glyph is the one of that band |
| `Performance.ColorMonotonic` | src/pages/Results.tsx:33-37 | raising a score never moves it to a worse band |
| `Performance.ShownScores` | src/pages/Results.tsx:21-23 | the shown attentiveness 78 and consistency 72 fall in the warning band and impulse control 85 in the success band |
| `ResultsStore.TruthyString` | supabase/functions/save-test-results/index.ts:36 | a string field is falsy exactly when it is absent or empty |
| `ResultsStore.TruthyNumber` | supabase/functions/save-test-results/index.ts:51-54 | a number field is falsy exactly when it is absent or zero |
| `SaveResults.OrDefault` | supabase/functions/save-test-results/index.ts:49 | `field || fallback` is the field's non-empty value when the field is truthy and the fallback otherwise |
| `SaveResults.OrZero` | supabase/functions/save-test-results/index.ts:51-54 | `field || 0` is zero exactly when the field is falsy, and otherwise the field's value |
| `SaveResults.PlanInsert` | supabase/functions/save-test-results/index.ts:36-58 | a row is built if and only if email and payment code are both present and non-empty; it copies both and the duration unchanged and has status `completed` |
| `SaveResults.InsertDefaults` | supabase/functions/save-test-results/index.ts:49-54 | the name defaults to `Peserta` and each of the four measures to 0 exactly when the request's value is falsy; otherwise the value passes through |
| `SaveResults.SaveTestResults` | supabase/functions/save-test-results/index.ts:8-81 | a preflight gets an empty 200; an unreadable body gets 500 with the exception's message; every answer is 200, 400 or 500; 400 exactly for a readable body without email or payment code; a 200 carries the row the insert stored for the built row |
| `SaveResults.MissingFieldsRejected` | supabase/functions/save-test-results/index.ts:36-41 | a request lacking email or payment code gets 400 with the error message, the same whatever the insert would do |
| `SaveResults.InsertOutcomeResponse` | supabase/functions/save-test-results/index.ts:60-73 | an insert error gives 500 carrying its message and code; a successful insert gives 200 carrying the stored row |
| `GetResults.LatestFor` | supabase/functions/get-test-results/index.ts:32-38 | at most one row; none exactly when no row has the code; a returned row is from the table, has the requested code and the greatest `test_date` among rows with that code |
| `GetResults.GetTestResults` | supabase/functions/get-test-results/index.ts:8-69 | a preflight gets an empty 200; an unreadable body gets 500 with the exception's message; every answer is 200, 400 or 500; 400 exactly for a readable body without a payment code; a returned row is from the table and has the requested code |
| `GetResults.MissingCodeRejected` | supabase/functions/get-test-results/index.ts:24-29 | a request without a payment code gets 400, the same whatever the table holds |
| `GetResults.LookupResponse` | supabase/functions/get-test-results/index.ts:40-61 | a query error gives 500 with its message; no matching row gives 200 with `null`; otherwise 200 with a row of that code dated no earlier than any other |
| `GetResults.LatestIgnoresOtherCodes` | supabase/functions/get-test-results/index.ts:35 | appending a row with another payment code does not change the answer for a code |
| `GetResults.LatestFindsNewestSave` | supabase/functions/get-test-results/index.ts:31-38 | a row stored later than every row with its payment code is the one the lookup returns for that code |

## Left out

- Scoring (omission and commission errors, mean reaction time, variability, matching responses to trials): no modelled file computes them; the results page shows fixed numbers.
- Timer scheduling and the React effect lifecycle (`setInterval`, `setTimeout`, cleanup, re-registration): each callback is one atomic step, and steps may be interleaved in any order, so the model does not know that a stimulus is hidden 100 ms after it is shown or that trial ticks are two seconds apart.
- The five-second hint timeout (src/pages/Test.tsx:36-38), the redirect after stopping (src/pages/Test.tsx:106-108), the toasts and all rendering: display only.
- `Math.random()` and `Date.now()`: parameters of `TrialTick` and `KeyDown`.
- Clock.FormatTime: defined for non-negative counts only; the countdown never holds a negative value, and JavaScript's results for negative input are not modelled.
- Session.Progress: computed over exact reals, not double-precision floating point.
- Session.TestSession.TrialTick: at the trial limit the model leaves `showStimulus` as it was, as the code does; it does not prove the stimulus is hidden then, which relies on timer spacing.
- The edge functions' CORS headers, logging, environment variables and client creation (lines 15-19 of each): configuration and I/O; a failure there would also end in the 500 branch.
- Request fields of a JSON type other than the declared one, and `NaN` as a falsy number: the request fields are typed options.
- Performance.PerformanceColor: scores are integers here, JavaScript numbers in the page; both thresholds are integers, so a fractional score falls in the band of its integer part and nothing is lost; `NaN` (which the page puts in the poor band) is not modelled.
- `test_date` is an ordered number rather than a timestamp string.
- `supabase/functions/send-test-results/index.ts` (mail delivery), authentication and admin helpers, and the registration, payment, admin and landing pages: outside the session core.
