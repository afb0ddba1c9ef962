# SmartPlacex front end — verified model of its local logic

SmartPlacex is a browser front end for placement preparation. A student signs in, picks a
target job role and works through four modules from a dashboard: resume analysis, an
aptitude test, a technical assessment and a live voice interview. The substantive work
(scoring a resume, writing questions, holding the conversation) is done by a remote
generative model. This project models the logic that runs locally and proves what it
promises:

- **InterviewCoach** (`interview_coach.dfy`): the live interview's playback scheduler. It
  keeps a cursor `nextStartTime` and a set of queued `BufferSource`s. Each decoded chunk
  starts at `max(cursor, now)`, the cursor moves to its end, and the source joins the
  queue. A natural end removes that source. An interruption stops every queued source,
  empties the queue and puts the cursor back to 0. The class also models the session
  flags `isConnecting` / `isLive`, the status and error messages, and the teardown.
  Pure functions (`Starts`, `CursorAfter`) describe a run of chunks without
  interruption. Lemmas prove that a run is never scheduled in the past, never overlaps
  and is gapless when chunks arrive in time.
- **AssessmentScreen** (`assessment.dfy`): answers recorded per question index, stepping
  through the questions, the counting loop, the rounded percentage and the "answered X
  out of N" figure.
- **ResumeAnalyzer** (`resume_analyzer.dfy`): the upload check (size limit first, then
  the type whitelist), extraction of the base64 payload from the data URL, input
  selection for text and file mode, and the content reported to the profile.
- **App** (`app.dfy`): the screen state machine and the record updates that change one
  field.
- **DashboardScreen** (`dashboard.dfy`): the readiness score, the radar-chart data and
  the per-card display rules.
- `types.dfy` declares the records and enumerations as datatypes. `jsmath.dfy` states
  `Math.round(p / q)` and the decimal text of a whole number on exact integers.

Time is in seconds, as Dafny `real`. A chunk of `frames` samples at 24000 Hz lasts
`frames / 24000` seconds. Foreign calls become parameters:

- the decoded chunk length and the output clock reading (`frames`, `now`);
- whether the client and the audio contexts could be created (`contextsCreated`) and the
  microphone permission answer (`micGranted`);
- the random draw behind the placeholder interview score (`draw`);
- the data URL produced by reading a file (`dataUrl`);
- the remote analysis result (`analysis`) and the generated questions (`Load`).

Three behaviours of the session code are worth knowing:

- An interruption resets the cursor to 0, not to the current time. Because the next start
  is `max(cursor, now)`, the first chunk after an interruption still starts exactly at the
  current time (`FirstChunkAfterInterruption`).
- Stopping the interview closes the output context, which silences everything
  scheduled on it (`outputClosed`). It never calls `stop()` on the queued sources, and
  it leaves the queue and the cursor unchanged.
- A start fails only when creating the client or the audio contexts fails, or when the
  microphone request fails. The connection promise is not awaited, so a refused
  connection does not reach the start's error path.

## Model

| member | source | states |
|---|---|---|
| `InterviewCoach.ChunkDuration` | components/InterviewCoach.tsx:118-123 | a decoded chunk's playing time is non-negative and equals its sample count divided by the 24000 Hz output rate |
| `InterviewCoach.StartTime` | components/InterviewCoach.tsx:125 | a chunk starts no earlier than the current time and no earlier than the cursor, exactly at the cursor when the cursor is not behind the clock, and exactly at the clock otherwise |
| `InterviewCoach.StartsNotInPast` | components/InterviewCoach.tsx:125-135 | in any run of successive chunks, each chunk starts at or after the clock reading at which it was scheduled |
| `InterviewCoach.StartsWithinCursor` | components/InterviewCoach.tsx:125-136 | every chunk of a run starts at or after the starting cursor and ends by the final cursor, and the cursor never moves back |
| `InterviewCoach.StartsNoOverlap` | components/InterviewCoach.tsx:125-136 | chunks scheduled without an interruption never overlap (each ends before any later one starts), and their starts are non-decreasing |
| `InterviewCoach.StartsGapless` | components/InterviewCoach.tsx:125-136 | when each chunk arrives before the previous one has finished, the k-th starts at the cursor plus the durations of the chunks before it, and the final cursor is the cursor plus their total |
| `InterviewCoach.FirstChunkAfterInterruption` | components/InterviewCoach.tsx:146 | after the reset to 0, the next chunk starts exactly at the current clock time |
| `InterviewCoach.ThreeChunkScenario` | components/InterviewCoach.tsx:125-136 | chunks of 1.0 s, 0.5 s and 0.75 s arriving during playback are scheduled at 0.0, 1.0 and 1.5, and the cursor ends at 2.25 |
| `InterviewCoach.MockScore` | components/InterviewCoach.tsx:166 | the placeholder completion score `floor(draw*20)+75` lies in [75, 94] |
| `InterviewCoach.BufferSource.constructor` | components/InterviewCoach.tsx:127-128 | a new source records its start and duration and is not stopped |
| `InterviewCoach.BufferSource.Stop` | components/InterviewCoach.tsx:143 | stopping marks the source stopped; it may only be applied to a source that is not yet stopped |
| `InterviewCoach.Session.constructor` | components/InterviewCoach.tsx:15-31 | a new session is neither live nor connecting, has no error, shows the ready message, has no contexts, stream or connection, has cursor 0 and an empty queue |
| `InterviewCoach.Session.StartInterview` | components/InterviewCoach.tsx:36-86 | start sets connecting, the connecting status and clears the error; when the client and audio contexts are created they are fresh (open); a failure there or a microphone refusal clears connecting and sets the start error; otherwise the stream is held and the connection requested |
| `InterviewCoach.Session.HandleOnOpen` | components/InterviewCoach.tsx:88-110 | open sets live and clears connecting with the live status; capture starts only when contexts, stream and connection all exist |
| `InterviewCoach.Session.HandleOnMessage` | components/InterviewCoach.tsx:112-148 | audio (non-empty, with an output context) is scheduled at max(cursor, now), the cursor becomes its end and exactly that fresh source joins the queue; a message without audio changes neither; an interruption (after any scheduling) stops every queued source including the new one, empties the queue and sets the cursor to 0; the queue invariant (no stopped source, no overlap, all ending by the cursor) is kept |
| `InterviewCoach.Session.StopAll` | components/InterviewCoach.tsx:141-147 | the interruption loop stops each queued source exactly once, leaves the queue empty and the cursor at 0, and changes no flag |
| `InterviewCoach.Session.OnEnded` | components/InterviewCoach.tsx:131-133 | a naturally ended source leaves the queue and every other source stays |
| `InterviewCoach.Session.OnClose` | components/InterviewCoach.tsx:65-68 | a remote close clears live; every other flag, the queue and the cursor are kept |
| `InterviewCoach.Session.StopInterview` | components/InterviewCoach.tsx:150-167 | stop clears live and connecting, shows "Interview ended.", stops capture and the microphone, closes the output context, and reports the placeholder score in [75, 94]; it stops no source individually and keeps the queue and the cursor |
| `InterviewCoach.Session.OnError` | components/InterviewCoach.tsx:60-64 | a connection error shows its message and then ends the interview as stop does, with the same score and the same fields kept |
| `AssessmentScreen.Record` | components/Assessment.tsx:30-34 | answering sets the chosen option for that index and leaves every other recorded answer (and every unanswered slot) as it was |
| `AssessmentScreen.CorrectCount` | components/Assessment.tsx:44-48 | the number of correctly answered questions among the first k is at most k |
| `AssessmentScreen.AllCorrectIff` | components/Assessment.tsx:44-48 | the count equals the number of questions exactly when every question is answered correctly |
| `AssessmentScreen.NoneCorrectIff` | components/Assessment.tsx:44-48 | the count is 0 exactly when no question is answered correctly; unanswered questions never count |
| `AssessmentScreen.CorrectCountRecord` | components/Assessment.tsx:30-48 | recording the correct option for a question never lowers the count |
| `AssessmentScreen.CountCorrect` | components/Assessment.tsx:44-48 | the counting loop returns exactly the number of indices whose recorded answer is the correct option |
| `AssessmentScreen.FinalScore` | components/Assessment.tsx:49 | `round(100*correct/n)` lies in [0, 100], is 100 when all answers are right and 0 when none are |
| `AssessmentScreen.AnsweredFigureExact` | components/Assessment.tsx:76 | for at most 100 questions, `round(score/100*n)` gives back exactly the number of correct answers |
| `AssessmentScreen.Quiz.constructor` | components/Assessment.tsx:14-19 | the screen starts loading, with no questions, no answers, index 0, no result and score 0 |
| `AssessmentScreen.Quiz.Load` | components/Assessment.tsx:21-28 | the generated questions are stored and loading ends |
| `AssessmentScreen.Quiz.HandleAnswer` | components/Assessment.tsx:30-34 | the chosen option is recorded for the current question only, which enables the next button |
| `AssessmentScreen.Quiz.HandleNext` | components/Assessment.tsx:36-42 | with an answer recorded (the button is disabled otherwise), below the last question the index moves up by one; on the last it stays and the score is computed and shown; the index stays within the questions |
| `AssessmentScreen.Quiz.CalculateScore` | components/Assessment.tsx:44-52 | the stored score is the rounded percentage of correct answers and the result view is shown |
| `AssessmentScreen.Quiz.HandleFinish` | components/Assessment.tsx:54-56 | finishing reports exactly the computed score, a percentage |
| `AssessmentScreen.Quiz.NextLabel` | components/Assessment.tsx:157 | the forward button reads "Finish" exactly on the last question (where the next step scores the quiz) and "Next Question" otherwise |
| `ResumeAnalyzer.CheckFile` | components/ResumeAnalyzer.tsx:28-37 | a file over 5·1024·1024 bytes gets the size message whatever its type; otherwise a type other than PDF or plain text gets the type message; a file passes exactly when it is within the limit and of one of the two types |
| `ResumeAnalyzer.IndexOfComma` | components/ResumeAnalyzer.tsx:46 | the position found is the first comma, or the length when there is none |
| `ResumeAnalyzer.Base64PayloadOfDataUrl` | components/ResumeAnalyzer.tsx:46 | for a data URL `prefix,payload` with a single comma, the second field and the stored payload are exactly `payload` |
| `ResumeAnalyzer.NoCommaNoPayload` | components/ResumeAnalyzer.tsx:46 | a string without a comma has no second field and stores an empty payload |
| `ResumeAnalyzer.Utf16Length` | components/ResumeAnalyzer.tsx:67 | `text.length` counts UTF-16 code units: between one and two per character, exactly one each when no character lies outside the Basic Multilingual Plane and exactly two each when all do |
| `ResumeAnalyzer.SelectInput` | components/ResumeAnalyzer.tsx:66-76 | text mode succeeds exactly with at least 50 UTF-16 code units and sends the text unchanged; file mode succeeds exactly with a file and a non-empty payload and sends the payload with the file's type; failures carry the matching message |
| `ResumeAnalyzer.UserContent` | components/ResumeAnalyzer.tsx:81 | the reported content is the text in text mode, and the upload marker followed by the file's name in file mode |
| `ResumeAnalyzer.Form.constructor` | components/ResumeAnalyzer.tsx:13-19 | the form starts in text mode with no text, no file, no payload, not loading and no error |
| `ResumeAnalyzer.Form.SetMode` | components/ResumeAnalyzer.tsx:109 | switching tabs changes only the mode |
| `ResumeAnalyzer.Form.SetText` | components/ResumeAnalyzer.tsx:133 | typing changes only the text |
| `ResumeAnalyzer.Form.HandleFileChange` | components/ResumeAnalyzer.tsx:23-51 | no file changes nothing; a rejected file sets the check's message and leaves the selected file and payload unchanged; an accepted file replaces the selection, clears the error and stores the data URL's payload; only accepted files are ever selected |
| `ResumeAnalyzer.Form.HandleRemoveFile` | components/ResumeAnalyzer.tsx:53-57 | removing clears both the file and the payload |
| `ResumeAnalyzer.Form.AnalyzeEnabled` | components/ResumeAnalyzer.tsx:189 | the button is never enabled while loading and never disabled for an input the analysis would accept; when enabled, the input is still refused exactly for a non-empty text under 50 code units or a file with an empty payload |
| `ResumeAnalyzer.Form.HandleAnalyze` | components/ResumeAnalyzer.tsx:59-89 | an unusable input sends nothing and shows its message; a usable one is sent as selected, the error is cleared and the result is reported with the user content; loading is false afterwards whatever happened |
| `Types.WithScore` | App.tsx:37 | the record copy changes score k to the new value and leaves the other three scores unchanged |
| `App.Shell.constructor` | App.tsx:10-24 | the application starts on the login screen without the top bar, with the default user, no target role and all four scores 0 |
| `App.Shell.HandleLogin` | App.tsx:26-29 | signing in moves to role selection, shows the top bar, and keeps user and scores |
| `App.Shell.HandleRoleSelect` | App.tsx:31-34 | selecting a role sets the target role, keeps name, email and resume text and the scores, and opens the dashboard |
| `App.Shell.UpdateScore` | App.tsx:36-39 | only score k changes, to the given value; the user is kept and the dashboard opens |
| `App.Shell.OnResumeAnalyzed` | App.tsx:90-93 | resume completion, from whatever screen is showing when the result arrives, writes the profile captured when the analysis started with the new resume text, sets the resume score and no other, then opens the dashboard |
| `App.Shell.OnAssessmentComplete` | App.tsx:98-116 | the aptitude test writes the aptitude score and the technical assessment the technical score, then the dashboard opens |
| `App.Shell.OnCoachComplete` | App.tsx:118-125 | the interview coach, from whatever screen is showing when it reports, writes the communication score and no other, then the dashboard opens |
| `App.Shell.Cancel` | App.tsx:94 | cancelling any module returns to the dashboard with user and scores unchanged |
| `App.Shell.Navigate` | App.tsx:84 | a dashboard card opens the screen it names, keeping user and scores |
| `App.Shell.GoHome` | App.tsx:137 | the top-bar logo returns to the dashboard, keeping user and scores |
| `App.Shell.Logout` | App.tsx:142 | logout moves to the login screen, hides the top bar, and keeps user and scores |
| `DashboardScreen.OverallScore` | components/Dashboard.tsx:20 | the readiness score is the mean of the four scores rounded half up: within half a point of it |
| `DashboardScreen.OverallScoreBounds` | components/Dashboard.tsx:20 | if every score is in [0, 100], so is the readiness score |
| `DashboardScreen.OverallScoreOfEqual` | components/Dashboard.tsx:20 | four equal scores v give readiness v |
| `DashboardScreen.OverallScoreMonotone` | components/Dashboard.tsx:20 | raising one score never lowers the readiness score |
| `DashboardScreen.ChartData` | components/Dashboard.tsx:13-18 | four chart points in the order Resume Fit, Technical, Communication, Aptitude, each carrying its module's score and a full mark of 100 |
| `DashboardScreen.ScoreTextMeaning` | components/Dashboard.tsx:55 | a card's figure is "-" exactly when the score is not positive; a positive score is shown as its decimal digits followed by "%", which read back as the score |
| `DashboardScreen.ScoreTextInjective` | components/Dashboard.tsx:55 | two different positive scores never show the same figure |
| `DashboardScreen.CardTarget` | components/Dashboard.tsx:56-110 | each card opens a module screen (never login, dashboard, role selection or results) |
| `DashboardScreen.CardTargetInjective` | components/Dashboard.tsx:56-110 | different cards open different screens |
| `DashboardScreen.MakeCard` | components/Dashboard.tsx:43-115 | a card is ticked exactly when its score is positive, shows "-" exactly when it is not ticked, reads "Retake" exactly for a scored resume and "Start" on every other card, shows the figure `ScoreText` gives for its score, and opens its own module |
| `DashboardScreen.Cards` | components/Dashboard.tsx:42-116 | the four cards in grid order: resume, technical, aptitude, communication |
| `DashboardScreen.TargetRoleLabel` | components/Dashboard.tsx:27 | the header shows "Not Selected" exactly when no role is chosen, and the role's name otherwise |
| `JsMath.RoundDiv` | components/Dashboard.tsx:20 | `Math.round(p / q)` is the integer r with p/q − 1/2 < r ≤ p/q + 1/2: halves round up |
| `JsMath.DecimalString` | components/Dashboard.tsx:55 | the text of a whole number is a non-empty string of digits without a leading zero |
| `JsMath.ParseDecimalString` | components/Dashboard.tsx:55 | the text of a whole number reads back as that number |

## Left out

- The remote model calls (`analyzeResume`, `generateQuestions`, the live connection) are
  foreign. Their results are inputs. The 15000-character truncation of resume text and
  the fallback values on failure are not modelled. Because `analyzeResume` returns a
  fallback result instead of throwing, `HandleAnalyze` has no remote-failure path.
- Audio plumbing is foreign: creating the audio contexts, `getUserMedia`, the
  4096-sample capture processor, encoding and sending captured frames, decoding
  received audio, and closing the contexts and the remote session. The model keeps only
  the flags these steps set (`outputReady`, `outputClosed`, `streamAcquired`, `micLive`,
  `sessionRequested`, `capturing`). What a closed audio context does with later
  messages is not modelled. The context references are never cleared, so
  `outputReady` stays true after a stop.
- Concurrency: each message is handled atomically after decoding. Interleavings
  around the awaited decode are not modelled.
- `InterviewCoach.Session.OnEnded`: the ended event is not tied to the clock. The model
  does not require that a source ends only after its scheduled end time.
- Floating point: times are exact reals, and `Math.round` is taken on exact rationals.
- `AssessmentScreen.FinalScore`: computed exactly. The code computes `correct / n * 100`
  in floating point, which can land just below a .5 boundary that the exact value meets.
- Scores are integers in the model. Remote scores may be fractional in the code.
- Randomness: the random draw of the placeholder interview score is a parameter.
- File reading is asynchronous in the code. The model takes the data URL as a parameter
  and stores its payload within `HandleFileChange`.
- `ResumeAnalyzer.Form.HandleFileChange`: does not capture the interval in which a newly
  accepted file is selected while the previous payload is still stored, because reading
  the file is treated as immediate.
- `split(',')[1]` of a string without a comma is `undefined` in the code. The model
  stores it as the empty string. The only use of the payload is a truthiness test, and
  both values are falsy there.
- The question view dereferences the current question, so with an empty question list
  (the generator's failure fallback) the screen cannot render. `HandleAnswer` and
  `HandleNext` therefore require at least one question.
- Presentation is not modelled: JSX and CSS, the radar chart drawing, icons, and
  clearing the file input's value.
- The effect at components/InterviewCoach.tsx:170-174 is not modelled. Its cleanup runs
  on every change of `isLive`, and the captured `isLive` is true in that cleanup. So a
  remote close (`InterviewCoach.Session.OnClose`) is followed by a full stop and a
  score report, and an "End Interview" click stops twice and reports a score twice.
  Leaving the coach screen during a live interview (the logo, `App.Shell.GoHome`, or
  logging out, `App.Shell.Logout`) unmounts the coach, whose cleanup stops the
  interview and reports a score: `App.Shell.OnCoachComplete` then stores a new
  communication score and opens the dashboard, so logging out mid-interview lands on
  the dashboard. The model treats each handler as a single call and leaves that
  sequencing to the caller.
- `App.Shell.OnResumeAnalyzed`: when the result arrives is not modelled. It can arrive
  after the student has left the screen (back to the dashboard, the logo, or logging
  out); it then overrides that navigation, opening the dashboard, and writes back the
  profile captured when the analysis started (`captured`).
- Strings are sequences of Unicode scalar values. A JavaScript string holding a lone
  surrogate has no counterpart in the model.
- The `RESULTS` screen has no handler leading to it and renders a placeholder.
