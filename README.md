# doctorate: a verified model of the chat server and its React client

The system is a medical chat assistant. An Express server (`server.js`) keeps users, chat sessions and messages in MySQL. It issues JWTs at registration and login, and guards every session route with a bearer-token gate. A React client sits on top:

- `App.js` holds the signed-in state and persists it in localStorage.
- `Auth.js` is the sign-in / sign-up form with an ordered validator.
- `Chat.js` is the chat screen. It classifies a message by keywords, opens a session for the first message, asks the prediction service, composes the reply from the prediction and saves every message to the current session.
- `PatientDashboard.js` looks a patient up and shows the severity band, the score chart and ranked feature-importance cards.

The model is split by source file:

- `server.dfy` (module `Server`) is the server. The class `Store` holds the three tables, a clock that stands in for `CURRENT_TIMESTAMP`, and the number of pool connections held. Each route is a method that answers a `Response`. The JWT gate, the login decision, the session ordering and the message filters are pure functions with lemmas.
- `client_api.dfy` (module `ClientApi`) is the `apiCall` helper that App.js and Chat.js each define: the headers, the URL resolution and how a response becomes data or a thrown message.
- `chat.dfy` (module `Chat`) holds the pure logic of Chat.js plus the class `ChatView`, whose methods are the handlers, updating the component state.
- `auth.dfy` (module `Auth`) holds the validator, the form update and the class `AuthForm`.
- `dashboard.dfy` (module `Dashboard`) holds the severity bands, the chart series, the feature ranking and the class `PatientDashboard`.
- `app.dfy` (module `App`) holds the storage round trip and the class `AppSession`.
- `text.dfy` (module `Text`) gives the JavaScript string operations the code relies on: `trim`, `includes`, `indexOf`, `replace` with a string pattern, `split` on one character, and the case maps.
- `alerts.dfy` (module `Alerts`) is the alert state both forms share.
- `wrappers.dfy` (module `Wrappers`) holds `Option` and `Result`.

External services are parameters of the model:

- bcrypt, JWT signing and verification, and the JSON codec are function values (`Server.Externals`, `App.UserCodec`). A lemma that needs one of them to behave (verify undoes sign, parse undoes stringify) states that as a `requires`.
- Every network outcome a client handler awaits is a parameter of the handler. The requests a handler issues are returned, in order, as a sequence of `Chat.Call`.

Some behaviour is modelled as written even though it looks unintended:

- When opening a session for a first message fails, `handleSendMessage` returns before its `finally` (Chat.js:314-317), so `isLoading` stays true. `Chat.ChatView.HandleSendMessage` states this.
- A token whose claims name a user id that is not in the users table makes session creation fail on the foreign key. The catch block then answers 500 without releasing the connection (server.js:225-236). `Server.Store.CreateSession` states that one connection stays held.
- Deleting the current session selects the first remaining one without awaiting it (Chat.js:182-199). The outcome of that load lands after the deletion notice, so a failed load replaces the notice. `Chat.ChatView.DeleteSession` states this order.

## Model

| member | source | states |
|---|---|---|
| Server.BearerToken | server.js:90-91 | the token is exactly the second space-separated word of the header, and there is one whenever that word exists and is non-empty; a missing or empty header yields no token, and a token is never empty and holds no space |
| Server.BearerTokenOfHeader | server.js:90-91 | a header built as `Bearer <token>` for a space-free, non-empty token gives that token back |
| Server.AuthenticateToken | server.js:89-104 | no token answers 401 with "액세스 토큰이 필요합니다"; a token that fails verification answers 403 with "유효하지 않은 토큰입니다"; otherwise the request is admitted with exactly the verified claims |
| Server.IssuedTokenAdmitted | server.js:89-104 | a token the server signed, sent back as a bearer header, is admitted with the claims it was signed for |
| Server.TitleOrDefault | server.js:227 | the stored title is the given title when non-empty and "새 대화" otherwise, never empty |
| Server.Taken | server.js:118-123 | a name or email that is not taken has no row to log in with; a name that has a row, or an email some row carries, is taken |
| Server.FindUser | server.js:165-175 | the lookup by user name finds nothing iff no row has that name, and otherwise the first row with that name |
| Server.FindAppendedUser | server.js:129-146 | after registration a fresh name is found as the appended user |
| Server.UsersAppendValid | server.js:129-146 | registering a fresh name and email keeps ids consecutive and names and emails unique |
| Server.MessagesOf | server.js:321-323 | the rows returned are exactly the rows of that session |
| Server.MessagesOfAscending | server.js:321-323 | the messages of a session come out in ascending timestamp order |
| Server.MessagesOfAppend | server.js:360-363 | appending a message adds it at the end of its own session's list and changes no other session's list |
| Server.Owns | server.js:247-251 | only a session that exists and belongs to the caller passes the ownership query; a negative or unknown id never does |
| Server.Without | server.js:289-293 | after the cascade exactly the messages of other sessions remain |
| Server.CascadeRemovesExactlyOneSession | server.js:76 | deleting a session leaves none of its messages and every other session's messages unchanged |
| Server.WithoutKeepsOrder | server.js:76 | the cascade keeps the surviving rows in insertion order (ids and timestamps increasing) |
| Server.StoredData | server.js:362 | a truthy payload is stored as its JSON text, anything else as NULL |
| Server.View | server.js:327-330 | a returned row keeps its id, session, sender, text and time; an absent or empty payload comes back as null and any other is parsed |
| Server.MessageAppendValid | server.js:360-363 | a message appended with the next id and stamped now keeps ids and timestamps increasing along the table |
| Server.Views | server.js:326-330 | the answer has one view per row, in order, each with its payload parsed |
| Server.PayloadRoundTrip | server.js:326-330 | a truthy payload saved by the append route comes back unchanged from the list route; a falsy one comes back as null |
| Server.InsertByRecency | server.js:205-207 | inserting a session into the list adds exactly that session |
| Server.InsertByRecencyMembers | server.js:205-207 | inserting keeps every session of the list and adds only the new one |
| Server.PrependNewest | server.js:205-207 | a session at least as new as, and different from, every session of an ordered list can go in front |
| Server.InsertByRecencyOrdered | server.js:205-207 | insertion keeps the list newest first and each session in it once |
| Server.ListOwnedNewestFirst | server.js:205-207 | the list holds exactly the caller's sessions, each once, ordered by `updated_at` descending |
| Server.LatestUpdatedListedFirst | server.js:205-207 | the session updated last is the head of its owner's list |
| Server.LoginResponse | server.js:155-198 | 400 iff a field is missing; 401 with the one bad-credentials message iff the user is unknown or the password does not match; otherwise 200 with the logged-in message, a token signed over the found row's id and name, and that row's id, name and email |
| Server.LoginFailuresIndistinguishable | server.js:173-183 | an unknown user name and a wrong password get the identical response |
| Server.RegisteredUserCanLogIn | server.js:107-198 | a user who has just registered logs in with the same password and gets the id registration gave |
| Server.Store.constructor | server.js:44-78 | the three tables start empty and the invariants hold |
| Server.Store.Register | server.js:107-152 | missing fields and a taken name or email answer 400 and change nothing; otherwise the user is appended with the next id and the hashed password, and 201 returns a token for them; table invariants and connection count kept |
| Server.Store.Login | server.js:155-198 | the answer is `LoginResponse` of the current users table; no connection left held |
| Server.Store.ListSessions | server.js:201-217 | the gate's rejection, or 200 with exactly the caller's sessions newest first |
| Server.Store.CreateSession | server.js:220-237 | the gate's rejection; or a new session with a fresh id and the default title rule, answered 201; or, for a caller the users table lacks, 500 with the connection still held |
| Server.Store.RenameSession | server.js:240-270 | the gate's rejection; 404 unless the caller owns the session; otherwise only its title changes, and `updated_at` moves only when the title differs |
| Server.Store.DeleteSession | server.js:273-302 | the gate's rejection; 404 unless the caller owns the session; otherwise the session and exactly its messages are removed |
| Server.Store.ListMessages | server.js:305-339 | the gate's rejection; 404 unless the caller owns the session; otherwise its messages with payloads parsed, oldest first |
| Server.Store.AppendMessage | server.js:342-378 | the gate's rejection; 404 unless the caller owns the session; otherwise the message is appended with a fresh id and the session becomes the most recently updated one |
| Server.Store.AppendOwned | server.js:346-372 | past the gate: 404 unless the caller owns the session; otherwise the message is appended with a fresh id and the session becomes the most recently updated one |
| ClientApi.ResolveUrl | src/components/Chat.js:87 | an absolute URL is kept; any other path is prefixed with the local server address |
| ClientApi.RequestHeaders | src/App.js:35-41 | JSON content type always; an Authorization header iff a non-empty token is held, and then `Bearer <token>` |
| ClientApi.HeaderCarriesToken | src/components/Chat.js:76-82 | the token the client holds is the token the server gate extracts |
| ClientApi.Settle | src/App.js:45-52 | a 2xx response gives its data; any other gives the body's error message, or "요청 실패" when it has none, never an empty message |
| ClientApi.ErrorField | src/App.js:49 | a body has an error message exactly when it is an error body, and it is that body's message |
| ClientApi.ServerErrorsSurface | src/components/Chat.js:89-95 | every error answer of the server reaches the caller as its own message, and every success as data |
| Chat.MentionsAny | src/components/Chat.js:268-274 | true iff some keyword occurs in the text, both sides lower-cased |
| Chat.Accepted | src/components/Chat.js:268-277 | a message is accepted iff it mentions some keyword of the medical list or the greeting list |
| Chat.AcceptedIffKeywordOccurs | src/components/Chat.js:253-277 | a message is accepted iff one of the medical or greeting keywords occurs in it verbatim, since lower-casing leaves the Korean keywords unchanged |
| Chat.KeywordsHaveNoAsciiLetters | src/components/Chat.js:253-266 | no keyword holds an ASCII letter |
| Chat.SessionTitle | src/components/Chat.js:305 | a message of at most 20 characters is its own title; a longer one is cut to its first 20 characters plus "..." |
| Chat.RemovePromptFromResponse | src/components/Chat.js:342-359 | each of the seven prompts, in order, has its first occurrence removed and the text is trimmed |
| Chat.RemovePrompts | src/components/Chat.js:354-356 | removing prompts never lengthens the text, and with no prompts it is left as it is |
| Chat.RemovePromptsTrimmed | src/components/Chat.js:342-359 | the cleaned report is trimmed |
| Chat.RemovePromptsWithoutPrompts | src/components/Chat.js:342-359 | a report containing no prompt is only trimmed |
| Chat.AfterAnswerMarker | src/components/Chat.js:380-384 | without the marker the text is kept; with it, everything up to the end of its first occurrence goes and the rest is trimmed |
| Chat.CheckOtherData | src/components/Chat.js:362-373 | true iff one of the eight other properties of the prediction is neither null nor undefined |
| Chat.StructuredReply | src/components/Chat.js:385-391 | the structured reply opens with the patient id line and ends with the report it is given |
| Chat.ReplyText | src/components/Chat.js:376-391 | there is no reply exactly when the answer is not plain and the report is missing; a present report always gives a reply |
| Chat.ComposeReply | src/components/Chat.js:376-391 | a plain answer when only `normal_text` is set and truthy; otherwise the structured reply around the cleaned report; no reply where a missing report makes the handler throw |
| Chat.ReportAlwaysAnswered | src/components/Chat.js:385-391 | a prediction carrying a report always gets a reply, and the reply ends with the cleaned report |
| Chat.MissingReportFails | src/components/Chat.js:376-391 | without a report and without a plain answer the reply fails |
| Chat.PlainAnswerWithoutMarker | src/components/Chat.js:376-384 | a plain answer without the marker is shown exactly as received |
| Chat.SavesFor | src/components/Chat.js:223-247 | one save request per message, in order, for the current session; none without a session |
| Chat.SavesForAppend | src/components/Chat.js:223-247 | saving two batches is saving their concatenation |
| Chat.ReplyOf | src/components/Chat.js:357-437 | a failed prediction request gives no reply text; a prediction with a report always gives one |
| Chat.Replies | src/components/Chat.js:394-437 | one or two messages follow the user's (their layout is stated by `RepliesShape`) |
| Chat.RepliesShape | src/components/Chat.js:394-437 | for any reply text the replies number on from the user's message, the last is the answer or the error text, and a preview carrying the vitals plot comes before an answer exactly when that plot is truthy |
| Chat.RepliesNumbered | src/components/Chat.js:394-437 | the replies carry ids numbered on from the user's message and come from the assistant; the last is the answer, or the error text exactly when no reply could be made; a preview carrying the vitals plot comes before the answer exactly when that plot is truthy |
| Chat.RenameIn | src/components/Chat.js:146-150 | same sessions in the same order; only the renamed id's title changes |
| Chat.RemoveFrom | src/components/Chat.js:180 | exactly the sessions with another id remain |
| Chat.RemoveFromKeepsOrder | src/components/Chat.js:180-184 | removal keeps the order of the rest (it distributes over concatenation) |
| Chat.ChatView.constructor | src/components/Chat.js:39-59 | the welcome message alone, no session, no alert |
| Chat.ChatView.SaveMessage | src/components/Chat.js:223-247 | no request iff there is no current session; otherwise one save of that message to it |
| Chat.ChatView.EditInput | src/components/Chat.js:778 | only the input text changes |
| Chat.ChatView.LoadChatSessions | src/components/Chat.js:105-112 | a loaded list replaces the session list; a failed load changes nothing |
| Chat.ChatView.CreateNewSession | src/components/Chat.js:115-136 | a created session goes to the front of the list, becomes current, and the conversation restarts with the greeting; a failure only shows the error |
| Chat.ChatView.StartEditingTitle | src/components/Chat.js:162-166 | the session and its title enter editing |
| Chat.ChatView.CancelEditingTitle | src/components/Chat.js:168-171 | editing ends with an empty title |
| Chat.ChatView.UpdateSessionTitle | src/components/Chat.js:139-159 | on success only that session's title changes and editing ends; on failure only the alert changes |
| Chat.ChatView.SelectSession | src/components/Chat.js:207-220 | the session's messages become the conversation and it becomes current; a failure only shows the error |
| Chat.ChatView.DeleteSession | src/components/Chat.js:174-204 | on success the session leaves the list; deleting the current one selects the first remaining session or, with none left, restarts with the greeting; on failure only the alert changes |
| Chat.ChatView.HandleSendMessage | src/components/Chat.js:249-442 | blank input changes nothing; a rejected message gets the rejection reply and no request; an accepted one appends the user's message, opens a session titled after it when it is the first, saves it, asks for a prediction and appends and saves the replies, or stops with the error alert (loading left set) when opening the session fails |
| Chat.ChatView.SendAccepted | src/components/Chat.js:288-441 | the accepted path of the send handler, with the same state and requests |
| Chat.ChatView.PostUserMessage | src/components/Chat.js:288-325 | the user's message goes in, the input clears, and the first message opens a session; `proceed` is false exactly when that opening fails |
| Chat.ChatView.AnswerPrediction | src/components/Chat.js:325-441 | the prediction is requested, the replies for the composed reply text are appended and saved, and loading ends; nothing else changes |
| Chat.ChatView.PostReplies | src/components/Chat.js:394-441 | the replies are appended to the conversation and each is saved to the current session |
| Auth.Rules | src/components/Auth.js:61-93 | sign-in makes two checks and sign-up seven |
| Auth.RuleMessagesDistinct | src/components/Auth.js:61-93 | every check has a non-empty message and no two share one, so the message shown names the check that failed |
| Auth.FirstFailure | src/components/Auth.js:61-93 | passes iff every rule holds; otherwise the message of the first rule that fails |
| Auth.ValidateForm | src/components/Auth.js:61-93 | sign-in passes iff the user name is not blank and a password is given; sign-up also needs a non-blank email with '@', matching passwords of at least 8 characters and agreed terms |
| Auth.FirstFailureAt | src/components/Auth.js:61-93 | a failing rule with every earlier one holding decides the verdict |
| Auth.ValidateFormIsFirstFailure | src/components/Auth.js:61-93 | the validator shows the message of the first failing check in the order written |
| Auth.LoginIgnoresRegistrationFields | src/components/Auth.js:61-93 | in sign-in mode the email, the confirmation and the terms box do not matter |
| Auth.Set | src/components/Auth.js:42-47 | the edited field takes the new value and every other field keeps its own |
| Auth.AuthForm.constructor | src/components/Auth.js:30-40 | sign-in mode, empty form, no alert |
| Auth.AuthForm.HandleInputChange | src/components/Auth.js:42-47 | only the edited field of the form changes |
| Auth.AuthForm.HandleCheckboxChange | src/components/Auth.js:49-54 | only the terms box changes |
| Auth.AuthForm.ToggleMode | src/components/Auth.js:308-317 | the mode flips, the form empties and the alert hides |
| Auth.AuthForm.HandleSubmit | src/components/Auth.js:95-107 | an invalid form shows the first failing message and calls nothing; a valid one calls sign-in or sign-up with the form's fields and shows the thrown message if the call fails |
| Dashboard.SeverityColor | src/components/PatientDashboard.js:122-126 | red iff the score is at least 0.7, orange iff it is in [0.4, 0.7), green iff it is below 0.4 |
| Dashboard.SeverityText | src/components/PatientDashboard.js:128-132 | high-risk iff the score is at least 0.7, medium iff in [0.4, 0.7), low iff below 0.4 |
| Dashboard.RiskWord | src/components/PatientDashboard.js:616 | the inline word is high, moderate or low on the same thresholds |
| Dashboard.BandsAgree | src/components/PatientDashboard.js:122-132 | the colour, the label and the inline risk word always name the same band |
| Dashboard.SeverityMonotone | src/components/PatientDashboard.js:122-126 | a higher score is never shown as less alarming |
| Dashboard.ScoreOrZero | src/components/PatientDashboard.js:579 | a missing score counts as 0 |
| Dashboard.ScorePercent | src/components/PatientDashboard.js:602-604 | a missing score shows N/A; a present one its percentage |
| Dashboard.MissingScoreIsLowRisk | src/components/PatientDashboard.js:602-616 | a patient without a score is shown as N/A and banded low risk |
| Dashboard.SeverityChartData | src/components/PatientDashboard.js:135-196 | no chart unless the series is an array; otherwise one label, score and deviation per point, the latter two as percentages |
| Dashboard.ChartScoresArePercentages | src/components/PatientDashboard.js:155-157 | probabilities become percentages between 0 and 100 |
| Dashboard.InsertDescending | src/components/PatientDashboard.js:625 | inserting into a descending list keeps it descending and adds exactly that entry |
| Dashboard.RankFeatures | src/components/PatientDashboard.js:625 | the cards are a permutation of the entries, ordered by value, largest first |
| Dashboard.FirstIsLargest | src/components/PatientDashboard.js:625-628 | the first ranked card has the largest value |
| Dashboard.RankColor | src/components/PatientDashboard.js:627-629 | the first card is red, the second orange, and every other one blue |
| Dashboard.MaxValue | src/components/PatientDashboard.js:708 | the maximum is at least every value and is one of them |
| Dashboard.BarWidth | src/components/PatientDashboard.js:708 | the width never exceeds 100; for values between 0 and a positive maximum it is value/max·100; it is undefined exactly for a zero maximum and a non-positive value |
| Dashboard.FullBar | src/components/PatientDashboard.js:708 | the largest value fills its bar |
| Dashboard.RankedFirstIsMax | src/components/PatientDashboard.js:625-708 | ranking puts an entry with the largest value first |
| Dashboard.BarWidthMonotone | src/components/PatientDashboard.js:708 | with a positive maximum a smaller value never gets a wider bar |
| Dashboard.TopCardFullBar | src/components/PatientDashboard.js:625-708 | with a positive maximum the first card's bar is full and the bars never widen down the ranking |
| Dashboard.FeatureLabel | src/components/PatientDashboard.js:672 | same length; each underscore becomes a space and every other character is upper-cased in place, so no underscore and no lower-case ASCII letter is left |
| Dashboard.LookupMessage | src/components/PatientDashboard.js:89 | the message starts with the patient id, carries the admission id, both as typed, and ends with the fixed request to predict severity |
| Dashboard.PatientDashboard.constructor | src/components/PatientDashboard.js:64-68 | empty ids, no data, not loading, no error |
| Dashboard.PatientDashboard.FetchPatientData | src/components/PatientDashboard.js:73-106 | a blank id shows the required message and sends nothing; otherwise the lookup message is sent, loading ends, and success stores the data and clears the error while failure keeps the old data and shows the failure message |
| App.RestoredUser | src/App.js:24-32 | a user is restored only when a non-empty token is stored |
| App.Persisted | src/App.js:62-63 | both keys are written and every other key is kept |
| App.Cleared | src/App.js:85-86 | both keys are removed and every other key is kept |
| App.SignInSurvivesReload | src/App.js:24-67 | after a sign-in a reload restores the same user |
| App.SignOutSurvivesReload | src/App.js:24-32 | after a sign-out a reload restores nobody |
| App.AppSession.constructor | src/App.js:19-21 | the token is read from storage; nobody is signed in yet |
| App.AppSession.View | src/App.js:95-99 | the chat screen exactly when signed in |
| App.AppSession.Headers | src/App.js:35-41 | an Authorization header exactly when a non-empty token is held |
| App.AppSession.AutoLogin | src/App.js:24-32 | a non-empty token and a parsable stored user sign that user in; otherwise nothing changes |
| App.AppSession.SignIn | src/App.js:62-66 | the token and the serialised user are stored, and the session holds the token and user and is authenticated |
| App.AppSession.HandleLogin | src/App.js:56-67 | success persists and sets the token and user and signs in; a failure changes nothing and rethrows its message |
| App.AppSession.HandleRegister | src/App.js:70-81 | the same success and failure paths as login |
| App.AppSession.HandleLogout | src/App.js:84-90 | both keys removed and all three fields reset |
| Text.Trim | src/components/Chat.js:250 | the infix left after white space is removed at both ends; empty iff the string is blank |
| Text.TrimIdempotent | src/components/Chat.js:355 | trimming twice is trimming once |
| Text.IndexOf | src/components/Chat.js:381 | -1 iff there is no occurrence; otherwise the first occurrence |
| Text.ReplaceFirst | src/components/Chat.js:355 | the first occurrence of the pattern, and only it, is replaced: no occurrence starts before the replaced one; the text is unchanged without one |
| Text.ContainsTrimmed | src/components/Chat.js:352-355 | trimming cannot create an occurrence |
| Text.Split | server.js:91 | at least one part, none containing the separator |
| Text.JoinSplit | server.js:91 | joining the parts with the separator gives the header back |
| Text.ContainsIgnoringCase | src/components/Chat.js:268-274 | lower-casing both sides does not change whether a word without ASCII letters occurs |

## Left out

- Network, fetch and the `/predict` proxy route (server.js:381-409): they are I/O. Each client handler takes the outcome of its calls as a parameter.
- The body of bcrypt, JWT signing and verification, and JSON: they are foreign code, modelled as function values. The JWT's 24-hour expiry and bcrypt's random salt belong to them.
- Chat.Replies: its own contract states only that one or two messages follow; when the preview appears and what it and the answer carry is proved about it in `Chat.RepliesShape` and `Chat.RepliesNumbered`, which keeps the send handler's proofs within budget.
- Server.Store.Register: the MySQL collation makes name and email comparison case-insensitive, and VARCHAR limits apply; the model compares exactly and without length limits.
- Server.FindUser, Server.LoginResponse and Server.Store.Login: the lookup by user name compares exactly, where the collation would let "alice" find the row "Alice" (and the 200 body would then carry the stored name, not the typed one).
- Server.Store.RenameSession, Server.Store.DeleteSession, Server.Store.ListMessages and Server.Store.AppendMessage: the session id path parameter is taken to be an integer; MySQL's coercion of a string such as "1abc" to 1 is not modelled.
- Server.Store: database failures other than the foreign-key case of session creation are not modelled. The 500 answers that leave a connection held on those paths are therefore missing.
- Concurrency between requests: every route runs to completion alone, so the pool's interleavings are not modelled.
- Message timestamps are a logical clock; `new Date()` on the client is not modelled, so a `ChatMessage` has no timestamp.
- Chat.SessionTitle and Auth.ValidateForm: string lengths count Unicode scalar values, where JavaScript counts UTF-16 code units.
- Text.ToLower and Text.ToUpper map ASCII letters only.
- Dashboard.RankFeatures: `Array.prototype.sort` is stable, and the model's insertion sort is not proved to keep the order of equal values.
- Dashboard: the `typeof` checks on `feature_importance` and the number formatting by `toFixed` and `toLocaleString` are left out. Scores are exact reals, not floating point.
- Chat.ComposeReply: `report` and `normal_text` are taken to be strings; other JSON types are not modelled.
- The 3-second timers that hide alerts are left out.
- Chat.ChatView.HandleSendMessage: React's state updates are treated as sequential assignments. In the browser the handler's closure still sees no current session after a first message opens one, so the saves of that first exchange are skipped; the model saves them to the new session. Message ids use the length of the list when the handler was called, as written.
- Chat.ChatView: a session in the client list keeps only its id and title.
- Rendering, menus, tabs, the password-visibility toggles and the dashboard's other panels are presentation only.
