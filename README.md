# interviewai-prepbot: the question-generation contract and the client's state rules

This project models the sequential logic of interviewai-prepbot, an interview
practice application. It also proves properties of that logic. The application
has these parts:

- Two backends build a prompt from a resume and a job description, ask a
  language model for interview questions, and read the reply as JSON:
  - an Express server (`server.js`), which also extracts text from uploads;
  - a serverless function (`supabase/functions/generate-questions/index.ts`),
    which also stores a practice session.
- A browser API layer (`frontend/src/lib/api.js`) shapes the request. It
  also maps errors and reads and writes the `practice_sessions` table.
- A React client made of these components:
  - `src/App.jsx`, which holds the state and the handlers;
  - `src/components/PracticePage.jsx`, the form;
  - `src/components/QuestionsDisplay.jsx`, the question cards and the recorder controls;
  - `frontend/src/components/HistoryPage.jsx`, the statistics of past sessions;
  - two copies of `LoginPage.jsx` with the same testimonial logic: the shuffle, the rotation and the initials. Only `frontend/src/components/LoginPage.jsx` adds the Google sign-in state and button.

The modules follow the files:

- **Wrappers**: option and result values. They stand for `undefined` and for thrown errors.
- **Js**: the JavaScript built-ins the code relies on:
  - truthiness and `|| null`;
  - `substring`, `slice`, `split`, `join`, `indexOf` and `lastIndexOf`;
  - decimal `String(n)` and `parseInt`;
  - `padStart` and ASCII `toLowerCase`;
  - `Math.floor(Math.random() * k)`.
- **Protocol**: the request body, the defaults and the prompt layout. It
  also holds the two-stage reading of the model's reply and the response
  shapes. Both backends share these.
- **Server**, **EdgeFunction**, **Api**, **Practice**, **Display**, **App**, **History** and **Login**: one module per source file. Login covers both LoginPage copies.
- **Sessions**: the `practice_sessions` table. It is a class holding an append-only sequence of rows.

The code is modelled in its own form:

- Handlers that build a value step by step or change state are methods:
  - the prompt assembly and the reply reading;
  - the serverless handler and its insert;
  - `generatePersonalizedQuestions`;
  - the App's handlers, which act on a class with one state record;
  - the in-place Fisher–Yates swap loop on an `array`.
- Each method is proved against a function that states its result, and the properties are lemmas about those functions.

Two behaviours that differ between the backends:

- The serverless function appends `...` to every text it cuts, even a short
  one (`EdgeFunction.Truncate`, `EdgeFunction.TruncateAlwaysMarks`). Only the
  server's rule leaves a short text unchanged.
- The serverless function stores the requested count, while the App stores
  the number of questions returned (`EdgeFunction.SessionRow`, `App.SessionData`).

## Model

| member | source | states |
|---|---|---|
| Protocol.Member | src/components/QuestionsDisplay.jsx:200-214 | A parsed object's field is the value of a binding of that key with no later binding of the key, as JSON.parse keeps the last duplicate; it is absent exactly when no binding has the key, or when the value is not an object |
| Protocol.DuplicateKeyLastWins | src/components/QuestionsDisplay.jsx:200-214 | Of two bindings of the same key, the second is the one read |
| Protocol.LastBinding | src/components/QuestionsDisplay.jsx:200-214 | The value found belongs to the last binding of the key, since no later pair has that name; nothing is found exactly when no binding has the key |
| Protocol.WithDefaults | server.js:134-140 | A missing count, type list or difficulty becomes 5, the three types, or `mixed`; a present field and the texts and user id are kept |
| Protocol.Prompt | server.js:147-184 | Defines the prompt as the header, the resume and job segments, the requirements and the closing text, in that order; its frame and length are stated by Protocol.PromptFrame and Protocol.PromptLength |
| Protocol.ResumePart | server.js:150-153 | The resume segment is present exactly when the resume text is truthy, and then holds its truncated form |
| Protocol.JobPart | server.js:156-159 | The job segment is present exactly when the job text is truthy, and then holds its truncated form |
| Protocol.AssemblePrompt | server.js:147-184 | Appending the header, the two optional segments, the requirements and the closing text with `+=` yields the prompt |
| Server.ServerPrompt | server.js:147-184 | The server's prompt opens with the header and closes with the requirements and the server's closing text |
| EdgeFunction.EdgePrompt | supabase/functions/generate-questions/index.ts:44-74 | The serverless prompt opens with the header and closes with the requirements and its own closing text |
| Protocol.PromptFrame | server.js:147-164 | The prompt starts with `Generate N high-quality ...` and ends with the requirements and the closing text |
| Protocol.PromptLength | server.js:147-184 | The prompt's length is the fixed parts plus, per present text, its label, its truncated form and a space |
| Protocol.ExtractBraced | server.js:209 | The fallback match runs from the first `{` to the last `}`; there is none exactly when no `}` follows a `{` |
| Protocol.ExtractEmbedded | server.js:209-211 | Prose without braces around a single block yields exactly that block |
| Protocol.AsQuestionList | server.js:220 | An array is returned as is; any other value becomes a one-element list |
| Protocol.ParseReply | server.js:205-216 | Defines the two-stage read: the strict parse of the whole reply, else the parse of the extracted block; its cases are stated by Protocol.ReplyQuestionsCases |
| Protocol.ReplyQuestions | server.js:205-222 | Defines the question list as the parsed value wrapped by the array check, or the failure; stated by Protocol.ReplyQuestionsCases and Protocol.ArrayReplyUnchanged |
| Protocol.ReadReply | server.js:205-222 | The strict parse, else the parse of the extracted block, then the array check, give the question list or the failure |
| Protocol.ArrayReplyUnchanged | server.js:218-222 | A reply that parses as an array comes back unchanged |
| Protocol.EmbeddedObjectWrapped | server.js:207-220 | An object embedded in prose comes back as a one-element list |
| Protocol.ReplyQuestionsCases | server.js:205-216 | A list comes back exactly when the reply or its extracted block parses, and it is that value's items or the value itself |
| Protocol.ReplyResponse | server.js:218-227 | The response is 200 with the questions exactly when the reply is readable; otherwise it is a 500 with the fixed message |
| Server.Truncate | server.js:151 | A text of at most 8000 code points is unchanged; a longer one becomes its first 8000 code points followed by `...` |
| Server.TruncateBounds | server.js:157 | The result is at most 8003 long, at most 3 longer than the input, starts with the input's kept prefix, and differs only for long input |
| Server.TruncateIdempotent | server.js:151 | Truncating twice is truncating once |
| Server.ServerPromptBounded | server.js:147-184 | However long the inputs, each adds at most its label and 8004 characters to the prompt |
| Server.GenerateQuestions | server.js:132-228 | With both texts falsy the answer is the 400 and no prompt is sent; otherwise the built prompt is sent, and a failed call is a 500, and a reply gives the reply response; every status is 200, 400 or 500, and questions come back exactly when the model replied and its reply was readable |
| Server.FileFilter | server.js:44-51 | Exactly the four listed mimetypes pass; any other fails with the invalid-type message |
| Server.StoredFileName | server.js:34-36 | Defines the stored name `<Date.now()>-<originalname>`; its inverse is Server.ParseStoredName, by Server.StoredNameRoundTrip |
| Server.ParseStoredName | server.js:34-36 | Reads a stored name back into the timestamp before the first `-` and the rest; Server.StoredNameRoundTrip proves it inverts Server.StoredFileName |
| Server.StoredNameRoundTrip | server.js:34-36 | The stored name `<timestamp>-<original name>` determines both the timestamp and the original name |
| Server.ExtName | server.js:74 | The extension is a proper suffix that starts with the last dot and holds no other dot; there is none without a dot after the first character, and none for `..` |
| Server.FileExtension | server.js:74 | Defines `path.extname(originalname).toLowerCase()`; Server.ClassifyIgnoresCase and Server.UpperCasePdf state what the lower-casing gives |
| Server.Classify | server.js:78-111 | `.pdf`, `.txt`, and `.doc` or `.docx` each choose their own branch; every other extension is unsupported |
| Server.ClassifyIgnoresCase | server.js:74 | Extensions that differ only in letter case take the same branch |
| Server.ExtractText | server.js:67-127 | No file gives the 400; a failed cleanup or a failed text read gives the 500; otherwise the branch's text, placeholder or unsupported-type message is returned with the name and size |
| Server.ExtNameOfStem | server.js:74 | A name with a non-empty stem has the text after its last dot, dot included, as extension |
| Server.DotFileHasNoExtension | server.js:74 | A name whose only dot opens it has no extension and gets the unsupported-type placeholder |
| Server.UpperCasePdf | server.js:74-78 | `.PDF` takes the PDF branch |
| EdgeFunction.Truncate | supabase/functions/generate-questions/index.ts:47 | The first at most 2000 code points are kept and `...` is always appended |
| EdgeFunction.TruncateAlwaysMarks | supabase/functions/generate-questions/index.ts:46-52 | A short text is not left unchanged: it gains the marker |
| EdgeFunction.TruncateTwice | supabase/functions/generate-questions/index.ts:47 | Unlike the server's rule, cutting twice adds a second marker |
| EdgeFunction.SessionRow | supabase/functions/generate-questions/index.ts:122-131 | The row holds the caller, the full question list, the requested count, the types and difficulty, `null` for a falsy text, and status `active` |
| EdgeFunction.Respond | supabase/functions/generate-questions/index.ts:10-159 | The status is 200, 400 or 500; a row is due only with a 200 after a prompt was sent; a 200 to a POST carries the questions and follows a prompt |
| EdgeFunction.PreflightAnswersOk | supabase/functions/generate-questions/index.ts:12-14 | OPTIONS answers `ok` without calling the model or writing a row |
| EdgeFunction.MissingSourceRejected | supabase/functions/generate-questions/index.ts:28-36 | Both texts falsy gives the server's 400, with no prompt and no row |
| EdgeFunction.RowOnlyOnSuccessWithUser | supabase/functions/generate-questions/index.ts:113-136 | A row is written exactly for a successful request with a truthy user id, and it holds the response's questions and the requested count |
| EdgeFunction.SameResponseAsServer | supabase/functions/generate-questions/index.ts:96-147 | Once the model replies, the response is the server's response to the same reply |
| EdgeFunction.FailuresAre500 | supabase/functions/generate-questions/index.ts:149-157 | Every failure other than the 400 is a 500 with the fixed message, and no row is written |
| EdgeFunction.Handle | supabase/functions/generate-questions/index.ts:10-159 | The response and the prompt sent are the handler's function; the store gains the row only when one is due and the insert succeeds, and an insert error leaves the response unchanged |
| Api.RequestBody | frontend/src/lib/api.js:127-151 | The count is always present and is parsed back unchanged, the types pass through, the difficulty defaults to `mixed`, and each optional key is present exactly when its argument is truthy |
| Api.PersonalizedParams | frontend/src/lib/api.js:135-151 | Adding the optional keys one by one to `params` yields the request body |
| Api.ServerReadsRequest | frontend/src/lib/api.js:127-154 | The server reads the same count and difficulty, the types or its default, and answers 400 exactly when both texts are falsy |
| Api.FailureMessage | frontend/src/lib/api.js:47-48 | The reply's non-empty `error` is the message; otherwise it is `HTTP error! status: <code>` |
| Api.Outcome | frontend/src/lib/api.js:46-51 | A 2xx status with a JSON body yields that body; a 2xx body that is not JSON throws the parse error; any other status throws the failure message |
| Api.ServerErrorsSurface | frontend/src/lib/api.js:46-51 | The backends' 400 and 500 surface as their own messages and a 200 as its body |
| Api.UnreadableErrorNamesStatus | frontend/src/lib/api.js:47-48 | An error reply that is not JSON throws a message that names its status code |
| Api.SavePracticeSession | frontend/src/lib/api.js:59-80 | An insert error throws its message and adds nothing; otherwise exactly one row is stored and the first record returned is that row |
| Api.GetUserSessions | frontend/src/lib/api.js:83-105 | An error throws its message; otherwise the user's rows come back newest first |
| Sessions.NewestFirst | frontend/src/lib/api.js:88-92 | The list holds exactly the user's rows, no others |
| Sessions.NewestFirstAppend | frontend/src/lib/api.js:88-92 | A new row heads its user's list and leaves every other user's list alone |
| Sessions.NewestFirstDescending | frontend/src/lib/api.js:92 | Over serially numbered rows the list is strictly newest first |
| Sessions.Store.constructor | frontend/src/lib/api.js:64-67 | The table starts empty and serially numbered |
| Sessions.Store.Insert | frontend/src/lib/api.js:64-67 | Exactly one row is appended, with the next id and the given time, and that row is returned |
| Js.OrNull | supabase/functions/generate-questions/index.ts:124-125 | A truthy text is kept; a falsy one becomes `null` |
| Js.SubstringTo | supabase/functions/generate-questions/index.ts:47 | The result is the prefix of the clamped length, counted in code points |
| Js.SliceTo | src/components/QuestionsDisplay.jsx:48 | The result is a prefix of the input of the clamped length |
| Js.Split | frontend/src/components/LoginPage.jsx:380 | The parts are never empty as a list and no part holds the separator |
| Js.JoinSplit | frontend/src/components/LoginPage.jsx:380 | Joining the parts with the separator gives the string back |
| Js.Join | src/App.jsx:308 | No parts join to the empty text, one part to itself, and more begin with the first part and the separator |
| Js.NatToString | src/App.jsx:182-184 | The decimal rendering is a non-empty run of digits with no leading zero, one digit exactly below 10 |
| Js.IntToString | server.js:147 | A negative number gets a leading `-` before the digits of its magnitude |
| Js.ParseNatToString | src/App.jsx:182-184 | Reading back the decimal rendering gives the number |
| Js.ParseInt | frontend/src/lib/api.js:136 | The result is `NaN` exactly when no digit follows the optional sign |
| Js.ParseIntToString | frontend/src/lib/api.js:136 | Reading back the decimal rendering of any integer gives it, so `parseInt(String(n))` is `n` for every integer below 10^21 in magnitude, where `String` writes plain digits |
| Js.PadStart | src/App.jsx:184 | The result has the target width, is padded in front, and ends with the input |
| Js.LowerChar | server.js:74 | An ASCII capital becomes the lower-case letter 32 code points above it; every other character stays |
| Js.ToLower | server.js:74 | The length is kept and each character is lower-cased: ASCII capitals become lower-case letters, every other character stays |
| Js.RandomBelow | src/App.jsx:313 | `Math.floor(r * k)` for a draw in [0, 1) lies in [0, k) |
| App.SecondsField | src/App.jsx:183-184 | The seconds field has exactly two digits and reads back as `s % 60` |
| App.ReadTimeOf | src/App.jsx:181-185 | Two digit fields around a colon read back as minutes and seconds |
| App.ReadFormatTime | src/App.jsx:181-185 | `formatTime` loses nothing: its `m:ss` text reads back as the number of seconds |
| App.FormatTime | src/App.jsx:181-185 | The text is the minutes in digits with no leading zero, a colon third from the end, and exactly two digits of seconds; the minutes field reads as `seconds div 60` and the seconds field as `seconds mod 60` |
| App.DifficultyColor | src/App.jsx:425-432 | Easy, Medium and Hard get their own classes; every other value gets the default blue |
| App.TypeIcon | src/App.jsx:434-441 | Each preference key gets its own icon; every other value gets the question mark |
| App.PillAndBadgeAgreeOnKnownValues | src/components/QuestionsDisplay.jsx:57-65 | The pill and the badge agree on Easy and Medium; Hard and unknown values are red on the badge but differ on the pill |
| App.Flipped | src/App.jsx:343-355 | Only key `k` changes, to the negation of its old reading (false when missing) |
| App.FlipTwice | src/App.jsx:343-355 | Two flips read the same as none; the map itself comes back when the key was present |
| App.Without | src/App.jsx:187-198 | Key `q` is gone and every other key is unchanged |
| App.Ticked | src/App.jsx:155-160 | A tick adds one to `q`'s time, reading a missing time as 0, and touches no other key |
| App.TicksCount | src/App.jsx:151-160 | `n` ticks after the start of a recording its time is `n`, and every other question's time is unchanged |
| App.SelectedTypes | src/App.jsx:282 | The types are exactly the true keys, each once, in key order; their number is the number of true flags, and there are some exactly when a type is selected |
| App.FinalResumeText | src/App.jsx:279 | The resume text, else the extraction-failed note when a file was uploaded, else empty |
| App.RequestArgs | src/App.jsx:279-293 | The request asks for the label count, exactly the selected types, the final resume and job texts and `mixed` |
| App.ServerReadsAppRequest | src/App.jsx:285-293 | The server reads the label count and the selected types, and answers 400 exactly when there is no resume text, no upload and no job text |
| App.MockScore | src/App.jsx:313 | The mock score lies in [70, 99] |
| App.SessionTitle | src/App.jsx:308 | Defines `Practice Session - ` followed by the types joined by `, `; App.SessionData states that the saved row carries it |
| App.SessionData | src/App.jsx:306-316 | The saved row holds the returned questions and their number, a score in [70, 99], the title from the types, `Mixed` and `30 min` |
| App.AcceptedQuestions | src/App.jsx:295 | Questions are taken exactly from a successful reply that carries them |
| App.BackendRepliesAccepted | src/App.jsx:287-297 | A backend reply is accepted exactly when the backend could read the model's reply; its 400 is not accepted |
| App.LoadedSessions | src/App.jsx:221-238 | A failed user lookup or a failed fetch leaves no sessions, no user leaves them unchanged, and otherwise they are the user's rows newest first |
| App.ShownFewerThanGenerated | src/components/QuestionsDisplay.jsx:48 | When the counters add up to more than the stepper, a reply of the requested size is announced in full but shown cut to the stepper's count |
| App.TenRequestedFiveShown | src/components/PracticePage.jsx:421 | Ten Easy questions with the stepper at 5: the header says 10 and five cards show |
| App.IntendedShowsRequested | src/components/QuestionsDisplay.jsx:35-48 | The intended list shows every requested question, as many as the header announces |
| App.FlagChanged | src/App.jsx:453-461 | A change of the generated flag empties the recording states, times and URLs; no change leaves the state alone |
| App.Received | src/App.jsx:295-327 | Defines the end state of the success branch: accepted questions stored and shown, then the sessions reloaded after a save; App.App.Receive is proved to reach it |
| App.Generated | src/App.jsx:269-340 | Defines the end state once the guard passed: the loader on while the request runs and off in `finally`; App.GeneratedOutcome states its properties |
| App.SessionsLoaded | src/App.jsx:221-238 | Signed out, nothing changes; signed in, the loaded sessions are stored and marked loaded |
| App.GeneratedOutcome | src/App.jsx:295-339 | After a generation the flags are clear, accepted questions are shown, a rejected reply changes nothing else, a saved session heads the reloaded list, and an unsaved one keeps the old list |
| App.App.constructor | src/App.jsx:15-52 | The state starts at the initial `useState` values |
| App.App.TogglePreference | src/App.jsx:261-266 | Only the chosen preference flips |
| App.App.ToggleAnswer | src/App.jsx:343-348 | Only the question's answer panel flag flips |
| App.App.ToggleSampleAnswer | src/App.jsx:350-355 | Only the question's sample panel flag flips |
| App.App.StepQuestionCount | src/components/PracticePage.jsx:224-234 | The count takes one clamped step and stays in [1, 20] |
| App.App.StepLevel | src/components/PracticePage.jsx:324-337 | One counter takes one step and no counter becomes negative |
| App.App.ResetLevels | src/components/PracticePage.jsx:362 | All three counters become 0 |
| App.App.StartRecording | src/App.jsx:127-166 | With microphone access the question records with time 0, the timer counts it and the recorder's `onstop` captures it; without access nothing changes |
| App.App.TimerTick | src/App.jsx:155-160 | Only the counted question's time grows |
| App.App.StopRecording | src/App.jsx:168-179 | Only an active recorder stops: the question is marked not recording and the timer cleared |
| App.App.RecorderStopped | src/App.jsx:137-144 | The URL is stored under the question the latest `startRecording` captured in its `onstop` closure, and nothing else changes; with no recorder started nothing changes |
| App.App.ClearRecording | src/App.jsx:187-198 | The question leaves the URLs and the times, and everything else stays |
| App.App.SetQuestionsGenerated | src/App.jsx:453-461 | Setting the flag runs the effect that clears the recordings when the flag changes |
| App.App.GuestMode | src/App.jsx:241-244 | Signed in and on the dashboard, nothing else changed |
| App.App.LogOut | src/App.jsx:246-253 | Signed out, on the welcome page, sessions dropped and not loaded, counters zeroed |
| App.App.LoadUserSessions | src/App.jsx:221-238 | The end state is the sessions-loaded state for the user lookup and the fetch |
| App.App.ShowQuestions | src/App.jsx:296-297 | The accepted questions are stored and the flag is set, which clears the recordings when it was off |
| App.App.SaveSession | src/App.jsx:299-323 | A successful insert adds exactly the row built from the state and reloads the sessions; a failed insert changes neither the store nor the state |
| App.App.Receive | src/App.jsx:295-327 | Accepted questions are shown; a signed-in user with a user record gets one stored row and a reload; a failed save keeps the questions |
| App.App.GenerateQuestions | src/App.jsx:269-340 | With no type selected nothing is sent or changed; otherwise the request from the state is sent, the store gains the due row, and the end state is the generation's outcome |
| Practice.DecrementCount | src/components/PracticePage.jsx:224 | The count goes down by one but never below 1 |
| Practice.IncrementCount | src/components/PracticePage.jsx:234 | The count goes up by one but never above 20 |
| Practice.CountStaysInRange | src/components/PracticePage.jsx:224-234 | A count in [1, 20] stays there, and a step away and back returns |
| Practice.Preferences.Toggled | src/App.jsx:261-266 | The chosen key flips and every other key is unchanged |
| Practice.ToggleTwice | src/App.jsx:261-266 | Two flips of the same key restore the preferences |
| Practice.AnySelectedMeansSomeKey | src/components/PracticePage.jsx:374 | Some type is selected exactly when some key is true |
| Practice.GenerateEnabled | src/components/PracticePage.jsx:372-374 | Defines the button's enabled state; Practice.GenerateEnabledMeansTypeTicked states it, and App.App.GenerateQuestions sends a request whenever it holds |
| Practice.GenerateEnabledMeansTypeTicked | src/components/PracticePage.jsx:372-374 | The button is enabled exactly when some type is ticked, nothing is processing and no full-screen loader shows |
| Practice.DifficultyCounts.With | src/components/PracticePage.jsx:324-337 | Only the chosen counter takes the new value |
| Practice.DecrementLevel | src/components/PracticePage.jsx:324-327 | The chosen counter goes down by one but not below 0, and no other changes |
| Practice.IncrementLevel | src/components/PracticePage.jsx:334-337 | The chosen counter goes up by one without a cap, and no other changes |
| Practice.LevelSteps | src/components/PracticePage.jsx:324-337 | Counters stay non-negative, an increment adds one to the total and a decrement undoes it, and a decrement lowers a positive counter's total by one |
| Practice.ResetClearsTotal | src/components/PracticePage.jsx:362 | After the reset the total is 0 and the label shows the stepper's count |
| Practice.LabelCount | src/components/PracticePage.jsx:390 | The label shows the difficulty total when positive, otherwise the stepper's count |
| Practice.LabelCountPositive | src/App.jsx:285 | With non-negative counters and a count in range, the requested count is at least 1 |
| Practice.ShownParts | src/components/PracticePage.jsx:353-357 | At most three parts are shown |
| Practice.SummaryAsWritten | src/components/PracticePage.jsx:353-357 | Defines the line as written, with a bullet only between adjacent positive counters; Practice.SummaryAsWrittenDropsBullet and Practice.SummaryShape state what it shows |
| Practice.Summary | src/components/PracticePage.jsx:353-357 | Defines the intended line, the shown parts joined by bullets; Practice.SummaryAgreesUnlessMediumSkipped states when the two lines agree |
| Practice.SummaryAsWrittenDropsBullet | src/components/PracticePage.jsx:353-357 | One Easy and two Hard without Medium read `1 Easy2 Hard`, where the intended line separates them |
| Practice.SummaryShape | src/components/PracticePage.jsx:353-357 | The inline bullets agree with a join of the shown parts unless only the middle part is missing |
| Practice.SummaryAgreesUnlessMediumSkipped | src/components/PracticePage.jsx:353-357 | The line as written equals the intended one in every case but Easy and Hard without Medium, where the intended one puts a bullet between them |
| Display.ChosenList | src/components/QuestionsDisplay.jsx:48 | The generated questions when there are some, else the mock questions |
| Display.ShownList | src/components/QuestionsDisplay.jsx:48 | A prefix of the chosen list, as long as the smaller of the count and the list |
| Display.HeaderCount | src/components/QuestionsDisplay.jsx:35 | The header counts the whole chosen list |
| Display.HeaderVersusShown | src/components/QuestionsDisplay.jsx:35-48 | The cards never outnumber the header, and they match it exactly when the count covers the chosen list |
| Display.IntendedList | src/components/QuestionsDisplay.jsx:48 | Every generated question, and the cut mock list only as a fallback |
| Display.IntendedMatchesHeader | src/components/QuestionsDisplay.jsx:35-48 | With generated questions, the intended list matches the header and agrees with the shown list when the count covers it |
| Display.Badge | src/components/QuestionsDisplay.jsx:61-65 | Emerald exactly for Easy, amber exactly for Medium, red for every other value |
| Display.Control | src/components/QuestionsDisplay.jsx:115-136 | Stop exactly while recording, Record exactly when neither recording nor recorded, nothing once a recording exists |
| Display.RecordDisabled | src/components/QuestionsDisplay.jsx:118 | Recording buttons are disabled exactly when some question is recording |
| Display.StopDisablesRecord | src/components/QuestionsDisplay.jsx:177 | While one question shows Stop, every Record and Practice Again button is disabled |
| Display.GuideText | src/components/QuestionsDisplay.jsx:200 | A truthy `answerGuide`, else `answer` |
| Display.SampleText | src/components/QuestionsDisplay.jsx:214 | A truthy `sampleAnswer`, else the fixed message |
| Display.AnswerOnlyQuestion | src/components/QuestionsDisplay.jsx:200-214 | A serverless-format question shows its answer as guide and the fixed message as sample |
| Display.GuideAndSampleQuestion | src/components/QuestionsDisplay.jsx:200-214 | A server-format question shows its own non-empty guide and sample |
| History.TermOf | frontend/src/components/HistoryPage.jsx:32 | The count unless it is 0, else the question array |
| History.JsText | frontend/src/components/HistoryPage.jsx:32 | The text a value prints as inside an array that `+` turns into text: `null` and `[]` print as nothing, a string as itself, an object as `[object Object]`, a one-element array as its element |
| History.Plus | frontend/src/components/HistoryPage.jsx:32 | Numbers add; adding anything to or onto text gives text |
| History.FoldAsWritten | frontend/src/components/HistoryPage.jsx:32 | Defines the `reduce` as written, a left-to-right fold of JavaScript `+`; History.TextStaysText, History.ZeroCountGivesText and History.TotalQuestionsFinding state where it goes |
| History.TotalQuestionsAsWritten | frontend/src/components/HistoryPage.jsx:32 | The statistic as written is 0 while loading |
| History.TextStaysText | frontend/src/components/HistoryPage.jsx:32 | Once the running value is text it stays text |
| History.ZeroCountGivesText | frontend/src/components/HistoryPage.jsx:32 | One session with count 0 turns the statistic into text |
| History.EmptySessionConcatenates | frontend/src/components/HistoryPage.jsx:32 | Sessions of 5, 0 and 3 questions show `53` where the intended total is 8 |
| History.TermCount | frontend/src/components/HistoryPage.jsx:32 | The count unless it is 0, else the number of stored questions |
| History.SumTermsAppend | frontend/src/components/HistoryPage.jsx:32 | The sum of two runs of sessions is the sum of their sums |
| History.TotalQuestions | frontend/src/components/HistoryPage.jsx:32 | 0 while loading, otherwise the sum of the counts |
| History.AsWrittenAgreesWithoutZeroCounts | frontend/src/components/HistoryPage.jsx:32 | Without a zero count the code as written computes the intended number |
| History.TotalQuestionsFinding | frontend/src/components/HistoryPage.jsx:32 | The statistic is a number exactly when no session has count 0, and then it is the intended number |
| History.TotalCountsStoredQuestions | frontend/src/components/HistoryPage.jsx:32 | For rows the App saves, the intended total is the number of stored questions |
| History.TotalSessions | frontend/src/components/HistoryPage.jsx:33 | 0 while loading, otherwise the number of sessions |
| History.SaveAddsOneSession | frontend/src/components/HistoryPage.jsx:33 | A session saved for the user and read back raises that user's session count by one, and other users' counts stay |
| History.RoundedMean | frontend/src/components/HistoryPage.jsx:34 | The mean rounded half up: `n * m` is within half of `n` of the sum |
| History.AverageScore | frontend/src/components/HistoryPage.jsx:34 | 0 while loading or without sessions, otherwise the rounded mean of the scores with a missing score as 0 |
| History.SumScoresBounds | frontend/src/components/HistoryPage.jsx:34 | Scores in [lo, hi] sum to within n times those bounds |
| History.RoundedMeanBounds | frontend/src/components/HistoryPage.jsx:34 | The rounded mean of numbers in [lo, hi] lies in [lo, hi] |
| History.AverageScoreBounds | frontend/src/components/HistoryPage.jsx:34 | The average lies between the lowest and highest score allowed |
| History.AppSessionsAverage | frontend/src/components/HistoryPage.jsx:34 | Sessions saved by the App average in [70, 99] |
| History.LastSessionDate | frontend/src/components/HistoryPage.jsx:35 | No date exactly while loading or without sessions; otherwise the first session's date |
| History.LastSessionIsNewest | frontend/src/components/HistoryPage.jsx:35 | The first loaded session is the user's newest |
| History.TierOf | frontend/src/components/HistoryPage.jsx:126-136 | Exactly one tier applies: at least 90 Excellent, at least 75 Good, at least 60 Fair, else Needs Work |
| History.TierMonotone | frontend/src/components/HistoryPage.jsx:126-136 | A higher score never gets a lower tier |
| History.AppScoresTiers | frontend/src/components/HistoryPage.jsx:126-136 | Scores the App saves never reach Needs Work, and below 75 are Fair |
| History.SessionBadgeIsDifficultyColor | frontend/src/components/HistoryPage.jsx:111-116 | The page's inline badge is the App's difficulty colour, blue for `Mixed` |
| History.SessionBadge | frontend/src/components/HistoryPage.jsx:111-116 | Defines the inline badge classes; History.SessionBadgeIsDifficultyColor proves them equal to the App's difficulty colour |
| History.LoadsOnce | frontend/src/components/HistoryPage.jsx:19-21 | The page loads when signed in and not loaded, and after a load it does not load again |
| History.ShouldLoad | frontend/src/components/HistoryPage.jsx:19-21 | Defines the effect's guard, signed in and not yet loaded; History.LoadsOnce proves a load turns it off |
| Login.Pool | frontend/src/components/LoginPage.jsx:25-102 | The sign-up pool in sign-up mode and the sign-in pool otherwise, six testimonials each |
| Login.Swap | frontend/src/components/LoginPage.jsx:109 | The two positions exchange their elements and none other changes |
| Login.SwapPermutes | frontend/src/components/LoginPage.jsx:109 | A swap only reorders |
| Login.SwapIndex | frontend/src/components/LoginPage.jsx:108 | The swap index lies in [0, i] |
| Login.Shuffled | frontend/src/components/LoginPage.jsx:105-112 | Defines the loop's iterations from `i` down to 1 on values; Login.ShuffledPermutes, Login.ShuffledKeepsTail and Login.ShuffledStep state them |
| Login.ShuffleSpec | src/components/LoginPage.jsx:101-108 | Defines `shuffleArray` on values, with no iteration below two elements; Login.ShuffleArray is proved equal to it |
| Login.ShuffledPermutes | frontend/src/components/LoginPage.jsx:105-112 | The loop returns a permutation of its input of the same length |
| Login.ShuffledKeepsTail | frontend/src/components/LoginPage.jsx:107 | Positions already passed are never touched again |
| Login.ShuffledStep | frontend/src/components/LoginPage.jsx:107-109 | One iteration at `i` is a swap with an index in [0, i] followed by the iterations below |
| Login.ShuffleArray | src/components/LoginPage.jsx:101-108 | A fresh copy is shuffled by the swap loop and the caller's array is unchanged |
| Login.FirstFourOfShuffle | frontend/src/components/LoginPage.jsx:115 | The first four of a shuffled pool of six are four of the pool's testimonials |
| Login.GenerateTestimonials | src/components/LoginPage.jsx:111-116 | Four testimonials of the mode's pool, the first four of its shuffle |
| Login.NextTestimonial | frontend/src/components/LoginPage.jsx:323 | The next index stays below the length, goes up by one, and wraps to 0 after the last |
| Login.Rotated | src/components/LoginPage.jsx:256-262 | The index after any number of rotations from the reset value stays below the length |
| Login.RotationVisitsInOrder | frontend/src/components/LoginPage.jsx:316-323 | After the reset to 0 the first rotations visit the testimonials in order |
| Login.RotationPeriodic | src/components/LoginPage.jsx:262 | As many more rotations as there are testimonials come back to the same one |
| Login.FirstChar | frontend/src/components/LoginPage.jsx:380 | An empty part contributes nothing, any other its first character |
| Login.Initials | frontend/src/components/LoginPage.jsx:380 | Defines `split(' ').map(n => n[0]).join('')`; Login.InitialsCons, Login.InitialsOneWord and Login.InitialsOfFullName state it |
| Login.InitialsCons | frontend/src/components/LoginPage.jsx:380 | A name's initials are its first word's first letter followed by the rest's initials |
| Login.InitialsOneWord | src/components/LoginPage.jsx:319 | A single word's initial is its first letter |
| Login.InitialsOfFullName | src/components/LoginPage.jsx:319 | A first and a last name give their two first letters |

## Left out

- The chat-completion call is left out because it is a network call. It is the parameter `complete`, with None for a thrown error, and its system message, temperature and token limit are not modelled.
- JSON.parse is left out because it is a foreign library. It is the parameter `parse`. JSON numbers are limited to integers, and the check that the reply's first match is the one used relies on the regular expression's documented greedy behaviour.
- The Supabase client, authentication and `fetch` are left out because they talk to hosted services. `user` stands for the current-user lookup and `respond` for the HTTP exchange. `saveError`, `fetchError` and `insertOk` are the database outcomes, and the table is the `Sessions.Store` class.
- multer's storage, `fs`, pdf-parse and mammoth are left out because they are I/O. `reader` stands for what a reader produced and `cleanupOk` for the unlink. The 5 MB size limit and multer's own error reply for a refused file are not modelled.
- The Express and Deno wiring, CORS headers, environment variables and the health route are left out because they are process setup.
- MediaRecorder, Blob, object URLs and `setInterval` are left out because they are browser I/O and timers. Only the state updates remain. The interval handle is `timerFor`.
- App.App.StartRecording: does not model that a second recording's interval overwrites the first's handle, because at most one recorder is active in the modelled flow.
- `Math.random` is left out because it is random. It is an input draw in [0, 1).
- Dates are left out because they depend on the clock. `Date.now()`, `toISOString` and `toLocaleDateString` are a given time and a `render` parameter. `created_at` is assumed to grow with insertion order, which stands for the table's ordering.
- `averageScore` is stated over integers, as `(2s + n) div 2n`, because scores are whole numbers.
- Google OAuth sign-in, password sign-in and sign-up, and the presentation files are left out because they are an external flow or markup only.
- `extractTextFromFile` and `handleResumeUpload` are left out because they are upload plumbing. `updateUserProgress` is left out because the modelled code never calls it.
- Js.ParseInt: skips no leading whitespace, because only `parseInt(String(n))` occurs in the modelled code.
- Js.ToLower: lower-cases ASCII letters only, because extensions are compared against ASCII names.
- Js.SubstringTo: counts Unicode code points, where JavaScript's `substring` and `.length` count UTF-16 code units, because Dafny strings are sequences of code points. A text with characters outside the Basic Multilingual Plane is therefore cut at a different place, and a cut that would split a surrogate pair cannot be expressed.
- Server.Truncate: measures the 8000-character budget in code points, not UTF-16 code units, for the same reason. For example, 4001 emoji are 8002 code units and are cut by the server, but they stay unchanged in the model.
- EdgeFunction.Truncate: measures the 2000-character budget in code points, not UTF-16 code units, for the same reason.
- Js.IntToString: always writes plain decimal digits, where JavaScript's `String` switches to exponent notation from 10^21 in magnitude. A count the App sends is a number a person steps up by clicking, so it is far below that.
- Api.Outcome: the parse error of a 2xx reply that is not JSON is one fixed message, because its wording belongs to the JavaScript engine. Every caller only tests whether a failure happened.
- Question ids are modelled as whole JSON values used as map keys. JavaScript turns an object key into a string, so two ids with the same text form are one key there and two here.
- The App's many `useState` hooks are one state record, replaced by each handler. React's batching and re-renders are not modelled.
- `Login.ShuffleArray` and `Login.GenerateTestimonials` take the draws as a list given in advance, one per iteration, so the model covers any draws the source could make.

## Findings

| source | as written | input that shows it | evidently intended | confidence | as-written member | corrected member |
|---|---|---|---|---|---|---|
| src/components/PracticePage.jsx:353-357 | A bullet is printed only between Easy and Medium or between Medium and Hard | counters Easy 1, Medium 0, Hard 2 give `1 Easy2 Hard` | a bullet between every two parts shown: `1 Easy • 2 Hard` | not executed; high | Practice.SummaryAsWrittenDropsBullet | Practice.SummaryAgreesUnlessMediumSkipped |
| src/components/QuestionsDisplay.jsx:48 | The generated list is cut to the stepper's `questionCount`, while the request asked for the difficulty total (src/App.jsx:285) and the header counts the whole list (line 35) | counters Easy 10, stepper 5, a reply of 10 questions: the header says 10 and five cards show | every generated question is shown | not executed; medium | App.TenRequestedFiveShown | App.IntendedShowsRequested |
| frontend/src/components/HistoryPage.jsx:32 | The fallback from `question_count` to `questions` adds the question array itself when the count is 0, and JavaScript `+` then concatenates text | sessions of 5, 0 (an empty reply) and 3 questions give `"53"` | the sum of the question counts, 8 | not executed; high | History.EmptySessionConcatenates | History.TotalCountsStoredQuestions |
